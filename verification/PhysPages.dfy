/**
  JOS physical pages and user address spaces: reference counts, the page free list and
  two-level page tables (32-bit paging, section 4.3 of the Intel SDM volume 3A).

  Page directories and page tables are themselves physical pages.  `kind` records, as
  history, which pages are in use as the directory of an environment or as one of its
  page tables; `Inv` ties it to the directory entries.
 */
module PhysPages {

  import opened Wrappers

  const UPDX: nat := 955          // PDX(UTOP): directory entries that map user memory
  const NPTENTRIES: nat := 1024

  type Env = nat
  type Page = nat

  /** The low twelve bits of an entry: PTE_P, PTE_W, PTE_U and, by position, the others. */
  datatype Perm = Perm(p: bool, w: bool, u: bool, other: set<nat>)

  const NoPerm := Perm(false, false, false, {})

  function Or(a: Perm, b: Perm): Perm { Perm(a.p || b.p, a.w || b.w, a.u || b.u, a.other + b.other) }

  /** A directory or table entry: page number and low bits. */
  datatype Entry = Entry(pn: Page, perm: Perm)
  const Zero := Entry(0, NoPerm)

  /** Entry idx of the physical page `page`. */
  datatype Word = Word(page: Page, idx: nat)

  datatype Kind = Plain | Dir(env: Env) | Table(env: Env, pdx: nat)

  /** `pp_ref` is 16 bits wide, and wraps. */
  type Ref = x: nat | x < 0x1_0000

  function Up(r: Ref): Ref { if r == 0xFFFF then 0 else r + 1 }
  function Down(r: Ref): Ref { if r == 0 then 0xFFFF else r - 1 }

  /**
    ref     history: what `pp_ref` would be if it did not wrap
    extra   history: references counted ahead of the entry that will hold them
   */
  datatype State = State(ref: seq<nat>, word: map<Word, Entry>, dir: map<Env, Page>, kind: seq<Kind>,
                         reserved: set<Page>, extra: multiset<Page>)

  predicate Present(x: Entry) { x.perm.p }

  /** Entries that map user memory: below UTOP in a directory, or in a page table. */
  predicate Tracked(s: State, w: Word) {
    w.page < |s.kind| &&
    match s.kind[w.page]
    case Plain => false
    case Dir(_) => w.idx < UPDX
    case Table(_, _) => w.idx < NPTENTRIES
  }

  predicate Holds(s: State, w: Word, pp: Page) {
    Tracked(s, w) && w in s.word && Present(s.word[w]) && s.word[w].pn == pp
  }

  /** The user page-table entries and page-table slots that hold page pp. */
  function Words(s: State, pp: Page): set<Word> {
    set w | w in s.word && Holds(s, w, pp)
  }

  /** The environments whose page directory is pp. */
  function Roots(dir: map<Env, Page>, pp: Page): set<Env> {
    set e | e in dir && dir[e] == pp
  }

  /** The count is exactly the number of holders. */
  predicate RefOk(s: State, pp: Page) {
    pp < |s.ref| && pp !in s.reserved ==> s.ref[pp] == |Words(s, pp)| + |Roots(s.dir, pp)| + s.extra[pp]
  }

  /**
    Every user entry is zero or present; a present directory entry leads to this
    environment's page table, a present table entry to an ordinary page.
   */
  predicate WordOk(s: State, w: Word) {
    Tracked(s, w) ==>
      && w in s.word
      && (s.word[w] == Zero || Present(s.word[w]))
      && (Present(s.word[w]) ==>
            && s.word[w].pn < |s.kind| && s.word[w].pn !in s.reserved
            && s.kind[s.word[w].pn] == if s.kind[w.page].Dir? then Table(s.kind[w.page].env, w.idx) else Plain)
  }

  predicate KindOk(s: State, p: Page) {
    p < |s.kind| ==>
      match s.kind[p]
      case Plain => true
      case Dir(e) => e in s.dir && s.dir[e] == p
      case Table(e, i) => e in s.dir && i < UPDX && Holds(s, Word(s.dir[e], i), p)
  }

  predicate DirOk(s: State, e: Env) {
    e in s.dir ==> s.dir[e] < |s.kind| && s.dir[e] !in s.reserved && s.kind[s.dir[e]] == Dir(e)
  }

  ghost predicate Inv(s: State) {
    && |s.ref| == |s.kind|
    && (forall pp {:trigger RefOk(s, pp)} :: RefOk(s, pp))
    && (forall w {:trigger WordOk(s, w)} :: WordOk(s, w))
    && (forall p {:trigger KindOk(s, p)} :: KindOk(s, p))
    && (forall e {:trigger DirOk(s, e)} :: DirOk(s, e))
  }

  // ----- the primitive changes -----

  /** Page pp is counted once more, ahead of the entry that will hold it. */
  function Reserve(s: State, pp: Page): State
    requires pp < |s.ref|
  {
    s.(ref := s.ref[pp := s.ref[pp] + 1], extra := s.extra + multiset{pp})
  }

  /** A user mapping of page pp, already counted, appears at the empty table entry w. */
  function AddPte(s: State, w: Word, pp: Page, perm: Perm): State {
    s.(word := s.word[w := Entry(pp, perm.(p := true))], extra := s.extra - multiset{pp})
  }

  /** The user mapping at table entry w goes away. */
  function DropPte(s: State, w: Word): State
    requires w in s.word && s.word[w].pn < |s.ref| && s.ref[s.word[w].pn] > 0
  {
    s.(word := s.word[w := Zero], ref := s.ref[s.word[w].pn := s.ref[s.word[w].pn] - 1])
  }

  function ZeroPage(p: Page, n: nat): (m: map<Word, Entry>)
    ensures forall w :: w in m <==> w.page == p && w.idx < n
    ensures forall w :: w in m ==> m[w] == Zero
  {
    map i: nat | 0 <= i < n :: Word(p, i) := Zero
  }

  /** Page p, cleared, becomes the page table at entry pdx of e's directory. */
  function AddTable(s: State, e: Env, pdx: nat, p: Page): State
    requires e in s.dir && p < |s.ref| == |s.kind|
  {
    s.(word := (s.word + ZeroPage(p, NPTENTRIES))[Word(s.dir[e], pdx) := Entry(p, Perm(true, true, true, {}))],
       ref := s.ref[p := s.ref[p] + 1], kind := s.kind[p := Table(e, pdx)])
  }

  /** The emptied page table at entry pdx of e's directory goes away. */
  function DropTable(s: State, e: Env, pdx: nat, p: Page): State
    requires e in s.dir && p < |s.ref| == |s.kind| && s.ref[p] > 0
  {
    s.(word := s.word[Word(s.dir[e], pdx) := Zero], ref := s.ref[p := s.ref[p] - 1], kind := s.kind[p := Plain])
  }

  function AddDir(s: State, e: Env, p: Page): State
    requires p < |s.ref| == |s.kind|
  {
    s.(word := s.word + ZeroPage(p, UPDX), dir := s.dir[e := p],
       ref := s.ref[p := s.ref[p] + 1], kind := s.kind[p := Dir(e)])
  }

  function DropDir(s: State, e: Env): State
    requires e in s.dir && s.dir[e] < |s.ref| == |s.kind| && s.ref[s.dir[e]] > 0
  {
    s.(dir := s.dir - {e}, ref := s.ref[s.dir[e] := s.ref[s.dir[e]] - 1], kind := s.kind[s.dir[e] := Plain])
  }

  // ----- each keeps the counts -----

  function Count(b: bool): nat { if b then 1 else 0 }

  /** When only entry w may change whether it holds q, the number of holders changes with it. */
  lemma WordsChange(s: State, t: State, w: Word, q: Page)
    requires forall x :: x != w ==> (Holds(s, x, q) <==> Holds(t, x, q))
    ensures |Words(t, q)| + Count(Holds(s, w, q)) == |Words(s, q)| + Count(Holds(t, w, q))
  {
    forall x | x != w ensures x in Words(s, q) <==> x in Words(t, q) {
      assert Holds(s, x, q) <==> Holds(t, x, q);
    }
    OneElement(Words(s, q), Words(t, q), w);
  }

  lemma OneElement(a: set<Word>, b: set<Word>, w: Word)
    requires forall x :: x != w ==> (x in a <==> x in b)
    ensures |b| + Count(w in a) == |a| + Count(w in b)
  {
    var rest := a - {w};
    assert a == if w in a then rest + {w} else rest;
    assert b == if w in b then rest + {w} else rest;
  }

  /** One table entry changes from one zero-or-present value to another. */
  lemma PteChange(s: State, w: Word, x: Entry, ref: seq<nat>, extra: multiset<Page>)
    requires Inv(s) && Tracked(s, w) && s.kind[w.page].Table? && |ref| == |s.ref|
    requires x == Zero || (Present(x) && x.pn < |s.kind| && x.pn !in s.reserved && s.kind[x.pn] == Plain)
    requires forall q :: 0 <= q < |ref| ==>
      ref[q] + Count(Holds(s, w, q)) + s.extra[q] == s.ref[q] + Count(Present(x) && x.pn == q) + extra[q]
    ensures Inv(s.(word := s.word[w := x], ref := ref, extra := extra))
  {
    var t := s.(word := s.word[w := x], ref := ref, extra := extra);
    forall q: Page ensures RefOk(t, q) {
      assert RefOk(s, q);
      WordsChange(s, t, w, q);
    }
    forall y ensures WordOk(t, y) { assert WordOk(s, y); }
    forall p: Page ensures KindOk(t, p) {
      assert KindOk(s, p);
      if p < |s.kind| && s.kind[p].Table? { assert DirOk(s, s.kind[p].env); }
    }
    forall e ensures DirOk(t, e) { assert DirOk(s, e); }
  }

  lemma ReserveOk(s: State, pp: Page)
    requires Inv(s) && pp < |s.ref|
    ensures Inv(Reserve(s, pp))
  {
    var t := Reserve(s, pp);
    forall q: Page ensures RefOk(t, q) {
      assert RefOk(s, q);
      assert Words(t, q) == Words(s, q);
    }
    forall w ensures WordOk(t, w) { assert WordOk(s, w); }
    forall p: Page ensures KindOk(t, p) { assert KindOk(s, p); }
    forall e ensures DirOk(t, e) { assert DirOk(s, e); }
  }

  lemma AddPteOk(s: State, w: Word, pp: Page, perm: Perm)
    requires Inv(s) && pp < |s.ref| && pp !in s.reserved && s.kind[pp] == Plain && pp in s.extra
    requires Tracked(s, w) && s.kind[w.page].Table? && w in s.word && s.word[w] == Zero
    ensures Inv(AddPte(s, w, pp, perm))
  {
    PteChange(s, w, Entry(pp, perm.(p := true)), s.ref, s.extra - multiset{pp});
  }

  /** A held page has a positive count. */
  lemma HeldCount(s: State, w: Word, pp: Page)
    requires Inv(s) && Holds(s, w, pp)
    ensures pp < |s.ref| && pp !in s.reserved && s.ref[pp] > 0
  {
    assert WordOk(s, w) && RefOk(s, pp);
    assert w in Words(s, pp);
  }

  lemma DropPteOk(s: State, w: Word)
    requires Inv(s) && Tracked(s, w) && s.kind[w.page].Table? && w in s.word && Present(s.word[w])
    ensures s.word[w].pn < |s.ref| && s.ref[s.word[w].pn] > 0 && Inv(DropPte(s, w))
  {
    HeldCount(s, w, s.word[w].pn);
    PteChange(s, w, Zero, DropPte(s, w).ref, s.extra);
  }

  /** `|= perm` on a present directory entry. */
  lemma PermOk(s: State, w: Word, perm: Perm)
    requires Inv(s) && Tracked(s, w) && w in s.word && Present(s.word[w])
    ensures Inv(s.(word := s.word[w := s.word[w].(perm := Or(s.word[w].perm, perm))]))
  {
    var t := s.(word := s.word[w := s.word[w].(perm := Or(s.word[w].perm, perm))]);
    forall q: Page ensures RefOk(t, q) {
      assert RefOk(s, q);
      WordsChange(s, t, w, q);
    }
    forall y ensures WordOk(t, y) { assert WordOk(s, y); }
    forall p: Page ensures KindOk(t, p) { assert KindOk(s, p); }
    forall e ensures DirOk(t, e) { assert DirOk(s, e); }
  }

  /** A page nobody holds. */
  predicate Unheld(s: State, p: Page) {
    p < |s.ref| == |s.kind| && p !in s.reserved && s.ref[p] == 0 && s.kind[p] == Plain
  }

  lemma UnheldFacts(s: State, p: Page)
    requires Inv(s) && Unheld(s, p)
    ensures forall w :: !Holds(s, w, p)
    ensures forall e :: e in s.dir ==> s.dir[e] != p
  {
    assert RefOk(s, p);
    assert Words(s, p) == {} && Roots(s.dir, p) == {};
    forall w ensures !Holds(s, w, p) {
      assert w !in Words(s, p);
    }
    forall e | e in s.dir ensures s.dir[e] != p {
      assert e !in Roots(s.dir, p);
    }
  }

  lemma AddTableOk(s: State, e: Env, pdx: nat, p: Page)
    requires Inv(s) && e in s.dir && pdx < UPDX && Unheld(s, p)
    requires Word(s.dir[e], pdx) in s.word && !Present(s.word[Word(s.dir[e], pdx)])
    ensures Inv(AddTable(s, e, pdx, p))
  {
    var t, w := AddTable(s, e, pdx, p), Word(s.dir[e], pdx);
    UnheldFacts(s, p);
    assert DirOk(s, e) && WordOk(s, w);
    forall q: Page ensures RefOk(t, q) {
      assert RefOk(s, q);
      WordsChange(s, t, w, q);
      assert Roots(t.dir, q) == Roots(s.dir, q);
    }
    forall y ensures WordOk(t, y) { assert WordOk(s, y) && !Holds(s, y, p); }
    forall x: Page ensures KindOk(t, x) {
      assert KindOk(s, x);
      if x < |s.kind| && s.kind[x].Table? { assert DirOk(s, s.kind[x].env); }
    }
    forall f ensures DirOk(t, f) { assert DirOk(s, f); }
  }

  /** Every entry of page p is zero. */
  predicate Empty(s: State, p: Page, n: nat) {
    forall i :: 0 <= i < n ==> Word(p, i) in s.word && s.word[Word(p, i)] == Zero
  }

  lemma DropTableOk(s: State, e: Env, pdx: nat, p: Page)
    requires Inv(s) && e in s.dir && pdx < UPDX && Holds(s, Word(s.dir[e], pdx), p) && Empty(s, p, NPTENTRIES)
    ensures p < |s.ref| == |s.kind| && s.ref[p] > 0 && Inv(DropTable(s, e, pdx, p))
  {
    var w := Word(s.dir[e], pdx);
    HeldCount(s, w, p);
    var t := DropTable(s, e, pdx, p);
    assert DirOk(s, e) && WordOk(s, w);
    forall q: Page ensures RefOk(t, q) {
      assert RefOk(s, q);
      WordsChange(s, t, w, q);
      assert Roots(t.dir, q) == Roots(s.dir, q);
    }
    forall y ensures WordOk(t, y) { assert WordOk(s, y); OnlyParent(s, y, p); }
    forall x: Page ensures KindOk(t, x) {
      assert KindOk(s, x);
      if x < |s.kind| && s.kind[x].Table? { assert DirOk(s, s.kind[x].env); }
    }
    forall f ensures DirOk(t, f) { assert DirOk(s, f); }
  }

  /** A page table is held by the one directory entry it belongs to. */
  lemma OnlyParent(s: State, y: Word, p: Page)
    requires Inv(s) && p < |s.kind| && s.kind[p].Table?
    ensures Holds(s, y, p) ==> s.kind[p].env in s.dir && y == Word(s.dir[s.kind[p].env], s.kind[p].pdx)
  {
    assert WordOk(s, y) && KindOk(s, p) && KindOk(s, y.page);
  }

  lemma RootsAdd(dir: map<Env, Page>, e: Env, p: Page, q: Page)
    requires e !in dir
    ensures |Roots(dir[e := p], q)| == |Roots(dir, q)| + Count(q == p)
  {
    assert Roots(dir[e := p], q) == if q == p then Roots(dir, q) + {e} else Roots(dir, q);
  }

  lemma AddDirOk(s: State, e: Env, p: Page)
    requires Inv(s) && e !in s.dir && Unheld(s, p)
    ensures Inv(AddDir(s, e, p))
  {
    var t := AddDir(s, e, p);
    UnheldFacts(s, p);
    forall q: Page ensures RefOk(t, q) {
      assert RefOk(s, q);
      WordsChange(s, t, Word(p, UPDX), q);
      RootsAdd(s.dir, e, p, q);
    }
    forall y ensures WordOk(t, y) { assert WordOk(s, y) && !Holds(s, y, p); }
    forall x: Page ensures KindOk(t, x) {
      assert KindOk(s, x);
      if x < |s.kind| && s.kind[x].Table? { assert DirOk(s, s.kind[x].env); }
    }
    forall f ensures DirOk(t, f) { assert DirOk(s, f); }
  }

  lemma DropDirOk(s: State, e: Env)
    requires Inv(s) && e in s.dir && Empty(s, s.dir[e], UPDX)
    ensures s.dir[e] < |s.ref| == |s.kind| && s.ref[s.dir[e]] > 0 && Inv(DropDir(s, e))
  {
    var p := s.dir[e];
    assert DirOk(s, e) && RefOk(s, p);
    assert e in Roots(s.dir, p);
    var t := DropDir(s, e);
    forall q: Page ensures RefOk(t, q) {
      assert RefOk(s, q);
      WordsChange(s, t, Word(p, UPDX), q);
      assert Roots(t.dir, q) == Roots(s.dir, q) - {e};
    }
    forall y ensures WordOk(t, y) { assert WordOk(s, y); }
    forall x: Page ensures KindOk(t, x) {
      assert KindOk(s, x);
      if x < |s.kind| && s.kind[x].Table? { assert DirOk(s, s.kind[x].env); }
    }
    forall f ensures DirOk(t, f) { assert DirOk(s, f); }
  }

  // ----- address translation -----

  /** The page table for entry pdx of e's directory. */
  function TableOf(s: State, e: Env, pdx: nat): Option<Page> {
    if e in s.dir && pdx < UPDX && Word(s.dir[e], pdx) in s.word && Present(s.word[Word(s.dir[e], pdx)])
    then Some(s.word[Word(s.dir[e], pdx)].pn) else None
  }

  /** What environment e has mapped at user page (pdx, ptx). */
  function Translate(s: State, e: Env, pdx: nat, ptx: nat): Option<Entry> {
    match TableOf(s, e, pdx)
    case None => None
    case Some(t) =>
      if ptx < NPTENTRIES && Word(t, ptx) in s.word && Present(s.word[Word(t, ptx)])
      then Some(s.word[Word(t, ptx)]) else None
  }

  lemma TableFacts(s: State, e: Env, pdx: nat)
    requires Inv(s) && TableOf(s, e, pdx).Some?
    ensures var t := TableOf(s, e, pdx).value;
            && t < |s.kind| && s.kind[t] == Table(e, pdx) && Holds(s, Word(s.dir[e], pdx), t)
            && forall i :: 0 <= i < NPTENTRIES ==> Word(t, i) in s.word && Tracked(s, Word(t, i))
  {
    assert DirOk(s, e) && WordOk(s, Word(s.dir[e], pdx));
    var t := TableOf(s, e, pdx).value;
    forall i | 0 <= i < NPTENTRIES ensures Word(t, i) in s.word { assert WordOk(s, Word(t, i)); }
  }

  /** A change confined to entry ptx of e's table pdx is seen at that one page of that one environment. */
  lemma TranslateFrame(s: State, t: State, e: Env, pdx: nat, ptx: nat, f: Env, i: nat, j: nat)
    requires Inv(s) && TableOf(s, e, pdx).Some? && (f, i, j) != (e, pdx, ptx)
    requires t.dir == s.dir && t.word.Keys == s.word.Keys
    requires forall w :: w in s.word && w != Word(TableOf(s, e, pdx).value, ptx) ==> t.word[w] == s.word[w]
    ensures Translate(t, f, i, j) == Translate(s, f, i, j)
  {
    TableFacts(s, e, pdx);
    if f in s.dir { assert DirOk(s, f); }
    if TableOf(s, f, i).Some? { TableFacts(s, f, i); }
  }

  // ----- the free list -----

  /** `pp_link` chains the pages of `free` from `head`; every other page has a null link. */
  ghost predicate ListOk(head: int, link: seq<int>, free: seq<Page>) {
    && head == (if free == [] then -1 else free[0])
    && (forall i :: 0 <= i < |free| ==> free[i] < |link|)
    && (forall i, j :: 0 <= i < j < |free| ==> free[i] != free[j])
    && (forall i :: 0 <= i < |free| ==> link[free[i]] == Next(free, i))
    && (forall p :: 0 <= p < |link| && p !in free ==> link[p] == -1)
  }

  function Next(free: seq<Page>, i: nat): int { if i + 1 < |free| then free[i + 1] else -1 }

  /** A mapped page: its entry is a tracked word of a table, and its page is an ordinary one. */
  lemma PresentFacts(s: State, e: Env, pdx: nat, ptx: nat)
    requires Inv(s) && TableOf(s, e, pdx).Some? && ptx < NPTENTRIES && Translate(s, e, pdx, ptx).Some?
    ensures var w := Word(TableOf(s, e, pdx).value, ptx);
            && Tracked(s, w) && w.page < |s.kind| && s.kind[w.page].Table? && w in s.word && Present(s.word[w])
            && s.word[w] == Translate(s, e, pdx, ptx).value
            && s.word[w].pn < |s.kind| == |s.ref| && s.word[w].pn !in s.reserved && s.kind[s.word[w].pn] == Plain
  {
    TableFacts(s, e, pdx);
    assert WordOk(s, Word(TableOf(s, e, pdx).value, ptx));
  }

  lemma HolderCount(s: State, pp: Page)
    requires Inv(s) && pp < |s.ref| && pp !in s.reserved
    ensures |Words(s, pp)| + |Roots(s.dir, pp)| + s.extra[pp] == s.ref[pp]
  {
    assert RefOk(s, pp);
  }

  lemma KindCount(s: State)
    requires Inv(s)
    ensures |s.ref| == |s.kind|
  {
  }

  /** The uncounted pages are exactly those on the free list or just taken from it. */
  ghost predicate Avail(s: State, free: seq<Page>, hand: set<Page>) {
    && (forall p: Page :: p < |s.ref| == |s.kind| && p !in s.reserved ==> (s.ref[p] == 0 <==> p in free || p in hand))
    && (forall p: Page :: p in free || p in hand ==> p < |s.ref| == |s.kind| && p !in s.reserved && s.kind[p] == Plain)
    && (forall p: Page :: p in hand ==> p !in free)
  }

  lemma PopOk(head: int, link: seq<int>, free: seq<Page>)
    requires ListOk(head, link, free) && free != []
    ensures 0 <= head < |link| && ListOk(link[head], link[head := -1], free[1..])
  {
    var l, rest := link[head := -1], free[1..];
    FirstOrRest(free);
    forall i, j | 0 <= i < j < |rest| ensures rest[i] != rest[j] {
      assert rest[i] == free[i + 1] && rest[j] == free[j + 1];
    }
    forall i | 0 <= i < |rest| ensures rest[i] < |l| && l[rest[i]] == Next(rest, i) { Popped(head, link, free, i); }
    assert link[free[0]] == Next(free, 0);
    forall p | 0 <= p < |l| && p !in rest ensures l[p] == -1 { }
  }

  lemma Popped(head: int, link: seq<int>, free: seq<Page>, i: nat)
    requires ListOk(head, link, free) && i + 1 < |free|
    ensures var rest := free[1..]; rest[i] < |link| && link[head := -1][rest[i]] == Next(rest, i)
  {
    assert link[free[i + 1]] == Next(free, i + 1) && free[0] != free[i + 1];
  }

  lemma FirstOrRest(free: seq<Page>)
    requires free != []
    ensures forall p: Page :: p in free <==> p == free[0] || p in free[1..]
  {
    assert free == [free[0]] + free[1..];
  }

  lemma FirstOnce(head: int, link: seq<int>, free: seq<Page>)
    requires ListOk(head, link, free) && free != []
    ensures free[0] in free && free[0] !in free[1..]
  {
  }

  lemma PushOk(head: int, link: seq<int>, free: seq<Page>, p: Page)
    requires ListOk(head, link, free) && p < |link| && p !in free
    ensures ListOk(p, link[p := head], [p] + free)
  {
    var f, l := [p] + free, link[p := head];
    forall i | 0 <= i < |f| ensures f[i] < |l| && l[f[i]] == Next(f, i) { Pushed(link, free, p, head, i); }
    PushedApart(free, p);
    PushedRest(link, free, p, head);
  }

  lemma PushedApart(free: seq<Page>, p: Page)
    requires p !in free && forall i, j :: 0 <= i < j < |free| ==> free[i] != free[j]
    ensures forall i, j :: 0 <= i < j < |[p] + free| ==> ([p] + free)[i] != ([p] + free)[j]
  {
  }

  lemma PushedRest(link: seq<int>, free: seq<Page>, p: Page, head: int)
    requires p < |link| && forall q :: 0 <= q < |link| && q !in free ==> link[q] == -1
    ensures forall q :: 0 <= q < |link| && q !in [p] + free ==> link[p := head][q] == -1
  {
    forall q | 0 <= q < |link| && q !in [p] + free ensures link[p := head][q] == -1 {
      assert q !in free && q != p;
    }
  }

  lemma NoLink(head: int, link: seq<int>, free: seq<Page>, p: Page)
    requires ListOk(head, link, free) && p < |link| && p !in free
    ensures link[p] == -1
  {
  }

  /** From pp, the last page of the list, whose link is then pointed at the list's head, the chain comes back to pp. */
  lemma {:induction false} Around(head: int, link: seq<int>, free: seq<Page>, l: seq<Page>, i: nat)
    requires ListOk(head, link, free) && i < |free|
    requires var pp := free[|free| - 1]; pp < |link| && ListOk(pp, link[pp := head], l)
    ensures i + 1 < |l| && l[i + 1] == free[i]
  {
    var pp := free[|free| - 1];
    if i == 0 {
      assert l[0] == pp && link[pp := head][pp] == Next(l, 0) == free[0];
    } else {
      Around(head, link, free, l, i - 1);
      assert free[i - 1] != pp && link[free[i - 1]] == Next(free, i - 1) == free[i];
      assert link[pp := head][l[i]] == Next(l, i);
    }
  }

  ghost predicate IsList(head: int, link: seq<int>) { exists free :: ListOk(head, link, free) }

  /** page_free of a page without a link leaves a list exactly if the page was not on it: a listed last page is. */
  lemma FreeIff(head: int, link: seq<int>, free: seq<Page>, pp: Page)
    requires ListOk(head, link, free) && pp < |link| && link[pp] == -1
    ensures IsList(pp, link[pp := head]) <==> pp !in free
  {
    if pp !in free {
      PushOk(head, link, free, pp);
    } else {
      var k :| 0 <= k < |free| && free[k] == pp;
      assert k == |free| - 1;
      if IsList(pp, link[pp := head]) {
        var after := link[pp := head];
        var l :| ListOk(pp, after, l);
        Around(head, link, free, l, k);
      }
    }
  }

  /** The smallest case: the only free page is freed again. */
  lemma FreedTwice()
    ensures ListOk(0, [-1], [0]) && !IsList(0, [-1][0 := 0])
  {
    FreeIff(0, [-1], [0], 0);
  }

  lemma Pushed(link: seq<int>, free: seq<Page>, p: Page, head: int, i: nat)
    requires ListOk(head, link, free) && p < |link| && p !in free && i <= |free|
    ensures var f := [p] + free; f[i] < |link| && link[p := head][f[i]] == Next(f, i)
  {
    if i > 0 { assert link[free[i - 1]] == Next(free, i - 1) && free[i - 1] in free; }
  }

  lemma HeadIsFirst(head: int, link: seq<int>, free: seq<Page>)
    requires ListOk(head, link, free)
    ensures head == if free == [] then -1 else free[0]
  {
  }

  lemma AvailSame(s: State, t: State, free: seq<Page>, hand: set<Page>)
    requires Avail(s, free, hand) && t.ref == s.ref && t.kind == s.kind && t.reserved == s.reserved
    ensures Avail(t, free, hand)
  {
  }

  /** Availability after the first page of the list is taken in hand. */
  lemma AvailPop(s: State, head: int, link: seq<int>, free: seq<Page>, hand: set<Page>)
    requires Avail(s, free, hand) && ListOk(head, link, free) && free != [] && |s.ref| == |s.kind|
    ensures Avail(s, free[1..], hand + {free[0]}) && Unheld(s, free[0])
  {
    hide ListOk;
    FirstOrRest(free);
    FirstOnce(head, link, free);
  }

  lemma AddTableTranslate(s: State, e: Env, pdx: nat, p: Page, f: Env, i: nat, j: nat)
    requires Inv(s) && e in s.dir && pdx < UPDX && Unheld(s, p) && TableOf(s, e, pdx).None?
    ensures Translate(AddTable(s, e, pdx, p), f, i, j) == Translate(s, f, i, j)
  {
    UnheldFacts(s, p);
    assert DirOk(s, e);
    if f in s.dir { assert DirOk(s, f); }
    if TableOf(s, f, i).Some? { TableFacts(s, f, i); }
  }

  /** Availability after the count of page p drops by one, p being freed when that was the last. */
  lemma AvailDrop(s: State, t: State, free: seq<Page>, hand: set<Page>, p: Page)
    requires Avail(s, free, hand) && p < |s.ref| == |s.kind| && p !in s.reserved && s.ref[p] > 0
    requires t.ref == s.ref[p := s.ref[p] - 1] && t.reserved == s.reserved && |t.kind| == |s.kind|
    requires t.kind == s.kind[p := Plain] || (t.kind == s.kind && s.kind[p] == Plain)
    ensures Avail(t, if t.ref[p] == 0 then [p] + free else free, hand)
  {
  }

  /** Availability after a page in hand is counted for the first time. */
  lemma AvailTake(s: State, t: State, free: seq<Page>, hand: set<Page>, p: Page)
    requires Avail(s, free, hand) && p < |s.ref| == |s.kind| && (p in hand || s.ref[p] > 0) && p !in free
    requires t.ref == s.ref[p := s.ref[p] + 1] && t.reserved == s.reserved && |t.kind| == |s.kind|
    requires forall q :: 0 <= q < |s.kind| && q != p ==> t.kind[q] == s.kind[q]
    ensures Avail(t, free, hand - {p})
  {
  }

  lemma AvailReserve(s: State, free: seq<Page>, hand: set<Page>, p: Page)
    requires Avail(s, free, hand) && p < |s.ref| && p !in free
    ensures Avail(Reserve(s, p), free, hand - {p})
  {
  }

  /** A page that is not free stays an ordinary page while another is taken for a page table. */
  lemma StillPlain(s: State, t: State, e: Env, pdx: nat, pp: Page, free: seq<Page>, rest: seq<Page>)
    requires |s.ref| == |s.kind| && pp < |s.ref| && s.kind[pp] == Plain && pp !in free
    requires (t == s && rest == free)
             || (free != [] && rest == free[1..] && e in s.dir && free[0] < |s.ref|
               && t == AddTable(s, e, pdx, free[0]))
    ensures pp < |t.ref| == |t.kind| && t.kind[pp] == Plain && pp !in rest && t.ref[pp] == s.ref[pp]
  {
  }

  lemma EntryWord(s: State, e: Env, pdx: nat)
    requires TableOf(s, e, pdx).Some?
    ensures e in s.dir && Word(s.dir[e], pdx) in s.word && TableOf(s, e, pdx) == Some(s.word[Word(s.dir[e], pdx)].pn)
  {
  }

  lemma EntryFacts(s: State, e: Env, pdx: nat, ptx: nat)
    requires Inv(s) && TableOf(s, e, pdx).Some? && ptx < NPTENTRIES
    ensures var w := Word(TableOf(s, e, pdx).value, ptx);
            w in s.word && (s.word[w] == Zero || Present(s.word[w]))
            && (Translate(s, e, pdx, ptx) == if s.word[w].perm.p then Some(s.word[w]) else None)
  {
    TableFacts(s, e, pdx);
    assert WordOk(s, Word(TableOf(s, e, pdx).value, ptx));
  }

  predicate WrapAt(ref: seq<Ref>, count: seq<nat>, p: Page) {
    p < |ref| == |count| ==> count[p] <= 0x1_0000 && ref[p] == if count[p] == 0x1_0000 then 0 else count[p]
  }

  /** What is stored is the count, or 0 for one that has just gone over the top. */
  ghost predicate Wrapped(ref: seq<Ref>, count: seq<nat>) {
    |ref| == |count| && forall p: Page {:trigger WrapAt(ref, count, p)} :: WrapAt(ref, count, p)
  }

  lemma Unwrapped(ref: seq<Ref>)
    ensures Wrapped(ref, ref)
  {
  }

  /** Where no count is over the top, the stored counts are the counts. */
  lemma NoWrap(ref: seq<Ref>, count: seq<nat>, pp: Page)
    requires Wrapped(ref, count) && pp < |count| && forall p :: 0 <= p < |count| && p != pp ==> count[p] < 0x1_0000
    ensures ref == count <==> count[pp] < 0x1_0000
    ensures count[pp] == 0x1_0000 ==> ref[pp] == 0
  {
    assert WrapAt(ref, count, pp);
    if count[pp] < 0x1_0000 {
      forall p: Page | p < |ref| ensures ref[p] == count[p] { assert WrapAt(ref, count, p); }
    }
  }

  lemma WrappedUp(ref: seq<Ref>, count: seq<nat>, p: Page)
    requires Wrapped(ref, count) && p < |count| && count[p] < 0x1_0000
    ensures Wrapped(ref[p := Up(ref[p])], count[p := count[p] + 1])
    ensures count[p] < 0xFFFF && ref == count ==> ref[p := Up(ref[p])] == count[p := count[p] + 1]
  {
    var r, c := ref[p := Up(ref[p])], count[p := count[p] + 1];
    assert WrapAt(ref, count, p);
    forall q: Page ensures WrapAt(r, c, q) { assert WrapAt(ref, count, q); }
  }

  lemma WrappedDown(ref: seq<Ref>, count: seq<nat>, p: Page)
    requires Wrapped(ref, count) && p < |count| && count[p] > 0
    ensures Wrapped(ref[p := Down(ref[p])], count[p := count[p] - 1]) && (Down(ref[p]) == 0 <==> count[p] == 1)
    ensures ref == count ==> ref[p := Down(ref[p])] == count[p := count[p] - 1]
  {
    var r, c := ref[p := Down(ref[p])], count[p := count[p] - 1];
    assert WrapAt(ref, count, p);
    forall q: Page ensures WrapAt(r, c, q) { assert WrapAt(ref, count, q); }
  }

  /** The counts after pp is counted and the mapping that was there given up. */
  function Recount(count: seq<nat>, pp: Page, was: Option<Entry>): seq<int>
    requires pp < |count|
  {
    var c: seq<int> := count[pp := count[pp] + 1];
    if was.Some? && was.value.pn < |c| then c[was.value.pn := c[was.value.pn] - 1] else c
  }

  lemma NoFreePages(n: nat)
    ensures ListOk(-1, seq(n, _ => -1), [])
  {
  }

  lemma FreshState(s: State, free: seq<Page>)
    requires s.word == map[] && s.dir == map[] && s.extra == multiset{} && |s.ref| == |s.kind|
    requires forall p: Page :: p < |s.kind| ==> s.kind[p] == Plain
    requires forall p: Page :: p < |s.ref| && p !in s.reserved ==> s.ref[p] == 0
    requires forall p: Page :: p in free <==> p < |s.ref| && p !in s.reserved
    ensures Inv(s) && Avail(s, free, {})
  {
    forall p: Page ensures RefOk(s, p) { assert Words(s, p) == {} && Roots(s.dir, p) == {}; }
  }

  /** Physical page 0, the I/O hole up to the end of the kernel, and the AP startup page are never handed out. */
  predicate IsReserved(i: nat, kernelEnd: nat) {
    i == 0 || (0xA0 <= i < kernelEnd) || i == 7
  }

  /**
    `page_init`: every page that is not reserved goes on the free list, uncounted;
    reserved pages are counted once and never listed.
   */
  method PageInit(npages: nat, kernelEnd: nat) returns (ref: seq<Ref>, link: seq<int>, head: int, ghost free: seq<Page>)
    ensures |ref| == |link| == npages && ListOk(head, link, free)
    ensures forall p: Page :: p in free <==> p < npages && !IsReserved(p, kernelEnd)
    ensures forall p: Page :: p < npages ==> ref[p] == if IsReserved(p, kernelEnd) then 1 else 0
  {
    hide ListOk;
    ref, link, head, free := seq(npages, _ => 0), seq(npages, _ => -1), -1, [];
    NoFreePages(npages);
    var i: nat := 0;
    while i < npages
      invariant 0 <= i <= npages && |ref| == |link| == npages && ListOk(head, link, free)
      invariant forall p: Page :: p in free <==> p < i && !IsReserved(p, kernelEnd)
      invariant forall p: Page :: p < npages ==> ref[p] == if p < i && IsReserved(p, kernelEnd) then 1 else 0
    {
      assert i !in free;
      if i == 0 {
        ref := ref[i := 1];
      } else if 0xA0 <= i < kernelEnd {
        ref := ref[i := 1];
      } else if i == 7 {
        ref := ref[i := 1];
      } else {
        PushOk(head, link, free, i);
        link := link[i := head];
        head := i;
        free := [i] + free;
      }
      i := i + 1;
    }
  }

  /** Page pp is counted as often as 16 bits can tell, and is not what (pdx, ptx) of e maps already. */
  predicate TopsOut(s: State, pp: Page, e: Env, pdx: nat, ptx: nat) {
    pp < |s.ref| && s.ref[pp] == 0xFFFF
    && !(Translate(s, e, pdx, ptx).Some? && Translate(s, e, pdx, ptx).value.pn == pp)
  }

  lemma SameTop(s: State, t: State, pp: Page, e: Env, pdx: nat, ptx: nat)
    requires pp < |s.ref| && pp < |t.ref| && t.ref[pp] == s.ref[pp]
    requires Translate(t, e, pdx, ptx) == Translate(s, e, pdx, ptx)
    ensures TopsOut(t, pp, e, pdx, ptx) <==> TopsOut(s, pp, e, pdx, ptx)
  {
  }

  /** Counting pp once more takes its count over the top exactly then, and no other count. */
  lemma Recounted(s: State, pp: Page, e: Env, pdx: nat, ptx: nat)
    requires pp < |s.ref| && forall p :: 0 <= p < |s.ref| ==> s.ref[p] < 0x1_0000
    ensures var c := Recount(s.ref, pp, Translate(s, e, pdx, ptx));
            && |c| == |s.ref| && (forall p :: 0 <= p < |c| && p != pp ==> c[p] < 0x1_0000)
            && c[pp] <= 0x1_0000 && (c[pp] == 0x1_0000 <==> TopsOut(s, pp, e, pdx, ptx))
            && (Translate(s, e, pdx, ptx) == None ==> c[pp] == s.ref[pp] + 1)
  {
  }

  /** Every user page of every environment, except perhaps one, translates as before. */
  ghost predicate SameElse(s: State, t: State, e: Env, pdx: nat, ptx: nat) {
    forall f: Env, i: nat, j: nat :: (f, i, j) != (e, pdx, ptx) ==> Translate(t, f, i, j) == Translate(s, f, i, j)
  }

  lemma SameElseAll(s: State, t: State, e: Env, pdx: nat, ptx: nat)
    requires forall f: Env, i: nat, j: nat :: Translate(t, f, i, j) == Translate(s, f, i, j)
    ensures SameElse(s, t, e, pdx, ptx)
  {
  }

  lemma SameElseTrans(s: State, t: State, u: State, e: Env, pdx: nat, ptx: nat)
    requires SameElse(s, t, e, pdx, ptx) && SameElse(t, u, e, pdx, ptx)
    ensures SameElse(s, u, e, pdx, ptx)
  {
    hide Translate;
  }

  /** Changing entry ptx of e's table pdx: that page translates to the new entry, all others as before. */
  lemma PteTranslate(s: State, t: State, e: Env, pdx: nat, ptx: nat, x: Entry)
    requires Inv(s) && TableOf(s, e, pdx).Some? && ptx < NPTENTRIES
    requires t.dir == s.dir && t.word == s.word[Word(TableOf(s, e, pdx).value, ptx) := x]
    ensures SameElse(s, t, e, pdx, ptx) && TableOf(t, e, pdx) == TableOf(s, e, pdx)
    ensures Translate(t, e, pdx, ptx) == if Present(x) then Some(x) else None
  {
    TableFacts(s, e, pdx);
    assert DirOk(s, e);
    forall f: Env, i: nat, j: nat | (f, i, j) != (e, pdx, ptx) ensures Translate(t, f, i, j) == Translate(s, f, i, j) {
      TranslateFrame(s, t, e, pdx, ptx, f, i, j);
    }
  }

  lemma PermTranslate(s: State, t: State, e: Env, pdx: nat, perm: Perm)
    requires Inv(s) && TableOf(s, e, pdx).Some?
    requires var w := Word(s.dir[e], pdx);
             && w in s.word
             && t == s.(word := s.word[w := s.word[w].(perm := Or(s.word[w].perm, perm))])
    ensures forall f: Env, i: nat, j: nat :: Translate(t, f, i, j) == Translate(s, f, i, j)
  {
    TableFacts(s, e, pdx);
    assert DirOk(s, e);
    forall f: Env, i: nat, j: nat ensures Translate(t, f, i, j) == Translate(s, f, i, j) {
      if f in s.dir { assert DirOk(s, f); }
      if TableOf(s, f, i).Some? { TableFacts(s, f, i); }
    }
  }

  lemma AddTableIs(s: State, e: Env, pdx: nat, p: Page)
    requires e in s.dir && p < |s.ref| == |s.kind|
    ensures AddTable(s, e, pdx, p) ==
      s.(word := (s.word + ZeroPage(p, NPTENTRIES))[Word(s.dir[e], pdx) := Entry(p, Perm(true, true, true, {}))],
         ref := s.ref[p := s.ref[p] + 1], kind := s.kind[p := Table(e, pdx)])
  {
  }

  /** A page in hand becomes a page table: counts, availability and all translations are kept. */
  lemma TakeTable(s: State, e: Env, pdx: nat, p: Page, free: seq<Page>, hand: set<Page>)
    requires Inv(s) && e in s.dir && pdx < UPDX && Unheld(s, p) && TableOf(s, e, pdx).None?
    requires Avail(s, free, hand) && p in hand && p !in free
    ensures Inv(AddTable(s, e, pdx, p)) && Avail(AddTable(s, e, pdx, p), free, hand - {p})
    ensures forall f: Env, i: nat, j: nat :: Translate(AddTable(s, e, pdx, p), f, i, j) == Translate(s, f, i, j)
  {
    DirFacts(s, e);
    AddTableOk(s, e, pdx, p);
    AvailTake(s, AddTable(s, e, pdx, p), free, hand, p);
    hide Inv, Avail, Translate, AddTable;
    forall f: Env, i: nat, j: nat ensures Translate(AddTable(s, e, pdx, p), f, i, j) == Translate(s, f, i, j) {
      AddTableTranslate(s, e, pdx, p, f, i, j);
    }
  }

  const UTOP: nat := UPDX * 0x400000
  const PGSIZE: nat := 4096
  const E_INVAL: int := 3
  const E_NO_MEM: int := 4

  function PDX(va: nat): nat { va / 0x400000 }
  function PTX(va: nat): nat { va / PGSIZE % NPTENTRIES }

  /** The argument checks shared by the page system calls. */
  predicate BadVa(va: nat) { va >= UTOP || va % PGSIZE != 0 }

  /** Entry w is in the directory or a page table of an environment other than e. */
  predicate Others(s: State, w: Word, e: Env) { Tracked(s, w) && s.kind[w.page].env != e }

  /** Nothing belonging to another environment has changed. */
  ghost predicate OthersKept(s: State, t: State, e: Env) {
    && (forall w {:trigger Others(s, w, e)} {:trigger Others(t, w, e)} ::
          (Others(s, w, e) <==> Others(t, w, e))
            && (Others(s, w, e) && w in s.word ==> w in t.word && t.word[w] == s.word[w]))
    && (forall f :: f != e ==> (f in s.dir <==> f in t.dir) && (f in s.dir ==> s.dir[f] == t.dir[f]))
  }

  lemma OthersKeptTranslate(s: State, t: State, e: Env, f: Env, i: nat, j: nat)
    requires Inv(s) && Inv(t) && OthersKept(s, t, e) && f != e
    ensures Translate(t, f, i, j) == Translate(s, f, i, j)
  {
    if f in s.dir && i < UPDX {
      assert DirOk(s, f) && DirOk(t, f);
      var pde := Word(s.dir[f], i);
      assert WordOk(s, pde) && Others(s, pde, e);
      if Present(s.word[pde]) && j < NPTENTRIES {
        var pte := Word(s.word[pde].pn, j);
        assert WordOk(s, pte) && Others(s, pte, e);
      }
    }
  }

  /** The user entries of environment e that hold pp. */
  function OwnWords(s: State, e: Env, pp: Page): set<Word> {
    set w | w in Words(s, pp) && !Others(s, w, e)
  }

  lemma WordsSplit(s: State, t: State, e: Env, pp: Page)
    requires Inv(s) && Inv(t) && OthersKept(s, t, e) && e !in t.dir
    ensures |Words(s, pp)| == |Words(t, pp)| + |OwnWords(s, e, pp)|
  {
    hide Others, Holds, Inv, OthersKept;
    forall w ensures w in Words(t, pp) <==> w in Words(s, pp) && Others(s, w, e) {
      LeftHolders(s, t, e, pp, w);
    }
    assert Words(s, pp) == Words(t, pp) + OwnWords(s, e, pp);
  }

  lemma RootsSplit(s: State, t: State, e: Env, pp: Page)
    requires OthersKept(s, t, e) && e !in t.dir
    ensures |Roots(s.dir, pp)| == |Roots(t.dir, pp)| + Count(e in s.dir && s.dir[e] == pp)
  {
    hide Others;
    assert Roots(t.dir, pp) == Roots(s.dir, pp) - {e};
  }

  /** Once e is gone and the others are untouched, each page is counted less by exactly what e held. */
  lemma GivenBack(s: State, t: State, e: Env, pp: Page)
    requires Inv(s) && Inv(t) && OthersKept(s, t, e) && e !in t.dir && t.extra == s.extra && t.reserved == s.reserved
    requires pp < |s.ref| == |t.ref| && pp !in s.reserved
    ensures t.ref[pp] + |OwnWords(s, e, pp)| + Count(e in s.dir && s.dir[e] == pp) == s.ref[pp]
  {
    assert RefOk(s, pp) && RefOk(t, pp);
    hide Inv, OthersKept, OwnWords;
    WordsSplit(s, t, e, pp);
    RootsSplit(s, t, e, pp);
  }

  lemma LeftHolders(s: State, t: State, e: Env, pp: Page, w: Word)
    requires Inv(s) && Inv(t) && OthersKept(s, t, e) && e !in t.dir
    ensures w in Words(t, pp) <==> w in Words(s, pp) && Others(s, w, e)
  {
    if w.page < |t.kind| { assert KindOk(t, w.page); }
    assert WordOk(s, w) && WordOk(t, w);
    assert Others(s, w, e) <==> Others(t, w, e);
  }

  /** A change inside the pages of e. */
  lemma OwnChange(s: State, t: State, e: Env, w: Word, x: Entry)
    requires t.kind == s.kind && t.dir == s.dir && t.word == s.word[w := x] && !Others(s, w, e)
    ensures OthersKept(s, t, e)
  {
    forall y ensures Others(s, y, e) <==> Others(t, y, e) {}
  }

  lemma OthersKeptTrans(s: State, t: State, u: State, e: Env)
    requires OthersKept(s, t, e) && OthersKept(t, u, e)
    ensures OthersKept(s, u, e)
  {
    forall w ensures (Others(s, w, e) <==> Others(u, w, e))
                     && (Others(s, w, e) && w in s.word ==> w in u.word && u.word[w] == s.word[w])
    {
      assert Others(s, w, e) <==> Others(t, w, e);
    }
  }

  lemma DropTableOthers(s: State, e: Env, pdx: nat, p: Page)
    requires Inv(s) && e in s.dir && pdx < UPDX && Holds(s, Word(s.dir[e], pdx), p)
    requires p < |s.ref| == |s.kind| && s.ref[p] > 0
    ensures s.kind[p] == Table(e, pdx) && p !in s.reserved && OthersKept(s, DropTable(s, e, pdx, p), e)
  {
    assert DirOk(s, e) && WordOk(s, Word(s.dir[e], pdx));
    var t := DropTable(s, e, pdx, p);
    forall w ensures Others(s, w, e) <==> Others(t, w, e) {}
  }

  lemma OthersKeptRefl(s: State, e: Env)
    ensures OthersKept(s, s, e)
  {
  }

  lemma DirFacts(s: State, e: Env)
    requires Inv(s) && e in s.dir
    ensures s.dir[e] < |s.kind| == |s.ref| && s.dir[e] !in s.reserved && s.kind[s.dir[e]] == Dir(e)
    ensures forall i :: 0 <= i < UPDX ==>
              var w := Word(s.dir[e], i);
              w in s.word && Tracked(s, w) && (s.word[w] == Zero || Present(s.word[w]))
              && (Present(s.word[w]) ==> TableOf(s, e, i).Some?)
  {
    assert DirOk(s, e);
    forall i | 0 <= i < UPDX
      ensures var w := Word(s.dir[e], i);
              w in s.word && Tracked(s, w) && (s.word[w] == Zero || Present(s.word[w]))
              && (Present(s.word[w]) ==> TableOf(s, e, i).Some?)
    {
      assert WordOk(s, Word(s.dir[e], i));
    }
  }

  lemma CountedNotFree(s: State, free: seq<Page>, hand: set<Page>, p: Page)
    requires Avail(s, free, hand) && p < |s.ref| == |s.kind| && p !in s.reserved && s.ref[p] > 0
    ensures p !in free
  {
  }

  lemma InHand(s: State, free: seq<Page>, hand: set<Page>, p: Page)
    requires Avail(s, free, hand) && p in hand
    ensures p !in free
  {
  }

  lemma HandToFree(s: State, free: seq<Page>, hand: set<Page>, p: Page)
    requires Avail(s, free, hand) && p in hand
    ensures Avail(s, [p] + free, hand - {p})
  {
  }

  /** A mapped page is an ordinary, counted page. */
  lemma MappedFacts(s: State, free: seq<Page>, hand: set<Page>, e: Env, pdx: nat, ptx: nat)
    requires Inv(s) && Avail(s, free, hand) && Translate(s, e, pdx, ptx).Some? && ptx < NPTENTRIES
    ensures TableOf(s, e, pdx).Some?
    ensures var w, x := Word(TableOf(s, e, pdx).value, ptx), Translate(s, e, pdx, ptx).value;
            && w in s.word && s.word[w] == x
            && x.pn < |s.ref| == |s.kind| && x.pn !in s.reserved && s.kind[x.pn] == Plain && x.pn !in free
            && x.pn !in hand
  {
    TableFacts(s, e, pdx);
    var w := Word(TableOf(s, e, pdx).value, ptx);
    assert WordOk(s, w);
    HeldCount(s, w, s.word[w].pn);
  }

  lemma FreeOutOfHand(s: State, free: seq<Page>, hand: set<Page>)
    requires Avail(s, free, hand)
    ensures forall p :: p in free ==> p !in hand
  {
  }

  lemma NoDirectory(s: State, e: Env)
    requires e !in s.dir
    ensures forall i: nat, j: nat :: Translate(s, e, i, j) == None
  {
  }

  lemma AddDirTranslate(s: State, e: Env, p: Page)
    requires Inv(s) && e !in s.dir && Unheld(s, p)
    ensures forall i: nat, j: nat :: Translate(AddDir(s, e, p), e, i, j) == None
    ensures forall f: Env, i: nat, j: nat :: f != e ==> Translate(AddDir(s, e, p), f, i, j) == Translate(s, f, i, j)
  {
    UnheldFacts(s, p);
    var t := AddDir(s, e, p);
    forall f: Env, i: nat, j: nat | f != e ensures Translate(t, f, i, j) == Translate(s, f, i, j) {
      if f in s.dir { assert DirOk(s, f); }
      if TableOf(s, f, i).Some? { TableFacts(s, f, i); }
    }
  }

  lemma DropDirOthers(s: State, e: Env)
    requires Inv(s) && e in s.dir && s.dir[e] < |s.ref| == |s.kind| && s.ref[s.dir[e]] > 0
    ensures OthersKept(s, DropDir(s, e), e)
  {
    assert DirOk(s, e);
    var t := DropDir(s, e);
    forall w ensures Others(s, w, e) <==> Others(t, w, e) {}
  }

  // ----- permission bits that reach the frame number -----

  /** The bits of a perm above the low twelve, as a frame number. */
  type High = x: nat | x < 0x10_0000

  /** The frame number in `pa | perm`: bitwise or. */
  function Frame(pn: Page, high: nat): Page {
    if pn == 0 then high
    else if high == 0 then pn
    else Frame(pn / 2, high / 2) * 2 + (if pn % 2 == 1 || high % 2 == 1 then 1 else 0)
  }

  /** Bit k of x. */
  predicate Bit(x: nat, k: nat) { if k == 0 then x % 2 == 1 else Bit(x / 2, k - 1) }

  lemma {:induction false} FrameBits(pn: Page, high: nat, k: nat)
    ensures Bit(Frame(pn, high), k) <==> Bit(pn, k) || Bit(high, k)
    decreases pn, k
  {
    if pn == 0 || high == 0 {
      ZeroBits(k);
    } else if k > 0 {
      assert Frame(pn, high) / 2 == Frame(pn / 2, high / 2);
      FrameBits(pn / 2, high / 2, k - 1);
    }
  }

  lemma {:induction false} ZeroBits(k: nat)
    ensures !Bit(0, k)
  {
    if k > 0 { ZeroBits(k - 1); }
  }

  /** The two stores that complete `page_insert`, for a perm with high bits. */
  function HighStores(s: State, e: Env, pdx: nat, ptx: nat, pp: Page, perm: Perm, high: High): State
    requires TableOf(s, e, pdx).Some?
  {
    var pde, w := Word(s.dir[e], pdx), Word(TableOf(s, e, pdx).value, ptx);
    var t := s.word[w := Entry(Frame(pp, high), perm.(p := true))];
    s.(word := t[pde := Entry(Frame(t[pde].pn, high), Or(t[pde].perm, perm))], extra := s.extra - multiset{pp})
  }

  /** The high bits are already in the frame numbers of the page and of its table. */
  predicate Clean(pp: Page, pt: Page, high: High) { Frame(pp, high) == pp && Frame(pt, high) == pt }

  lemma AllClean(pp: Page, pt: Page)
    ensures Clean(pp, pt, 0)
  {
  }

  /** The counts survive such a perm exactly when its high bits are already in both frame numbers. */
  lemma HighBits(s: State, e: Env, pdx: nat, ptx: nat, pp: Page, perm: Perm, high: High)
    requires Inv(s) && TableOf(s, e, pdx).Some? && ptx < NPTENTRIES && Translate(s, e, pdx, ptx) == None
    requires pp < |s.ref| && pp !in s.reserved && s.kind[pp] == Plain && pp in s.extra
    ensures Inv(HighStores(s, e, pdx, ptx, pp, perm, high)) <==>
              Clean(pp, TableOf(s, e, pdx).value, high)
  {
    var pt := TableOf(s, e, pdx).value;
    var pde, w := Word(s.dir[e], pdx), Word(pt, ptx);
    var t := HighStores(s, e, pdx, ptx, pp, perm, high);
    TableFacts(s, e, pdx);
    assert WordOk(s, w);
    hide Frame;
    if Frame(pt, high) != pt {
      assert !KindOk(t, pt);
    } else if Frame(pp, high) != pp {
      WordsChange(s, t, w, pp);
      assert RefOk(s, pp) && !RefOk(t, pp);
    } else {
      AddPteOk(s, w, pp, perm);
      PermOk(AddPte(s, w, pp, perm), pde, perm);
      assert t == AddPte(s, w, pp, perm).(word := t.word);
    }
  }

  lemma CleanStores(s: State, e: Env, pdx: nat, ptx: nat, pp: Page, perm: Perm, high: High)
    requires Inv(s) && TableOf(s, e, pdx).Some? && ptx < NPTENTRIES && Translate(s, e, pdx, ptx) == None
    requires pp < |s.ref| && pp !in s.reserved && s.kind[pp] == Plain && pp in s.extra
    requires Clean(pp, TableOf(s, e, pdx).value, high)
    ensures var t := HighStores(s, e, pdx, ptx, pp, perm, high);
            Translate(t, e, pdx, ptx) == Some(Entry(pp, perm.(p := true))) && SameElse(s, t, e, pdx, ptx)
  {
    var w, pde := Word(TableOf(s, e, pdx).value, ptx), Word(s.dir[e], pdx);
    TableFacts(s, e, pdx);
    assert WordOk(s, w);
    AddPteOk(s, w, pp, perm);
    var t := AddPte(s, w, pp, perm);
    PteTranslate(s, t, e, pdx, ptx, Entry(pp, perm.(p := true)));
    hide Frame;
    var u := HighStores(s, e, pdx, ptx, pp, perm, high);
    assert u == t.(word := t.word[pde := t.word[pde].(perm := Or(t.word[pde].perm, perm))]);
    hide AddPte, HighStores;
    TableFacts(t, e, pdx);
    PermTranslate(t, u, e, pdx, perm);
  }

  lemma NewTable(s: State, t: State, free: seq<Page>, e: Env, pdx: nat)
    requires TableOf(s, e, pdx).Some? ==> t == s
    requires TableOf(s, e, pdx).None? ==>
               && free != [] && e in s.dir && pdx < UPDX && free[0] < |s.ref| == |s.kind|
               && t == AddTable(s, e, pdx, free[0])
    ensures TableOf(t, e, pdx) == Some(TablePage(s, free, e, pdx))
  {
  }

  lemma DirGivenBack(s: State, e: Env, free: seq<Page>, hand: set<Page>)
    requires Inv(s) && e in s.dir && Empty(s, s.dir[e], UPDX) && Avail(s, free, hand)
    ensures s.dir[e] < |s.kind| == |s.ref| && s.ref[s.dir[e]] > 0 && s.dir[e] !in free
    ensures var t, p := DropDir(s, e), s.dir[e];
            && t == State(s.ref[p := s.ref[p] - 1], s.word, s.dir - {e}, s.kind[p := Plain], s.reserved, s.extra)
            && Inv(t) && OthersKept(s, t, e) && Avail(t, if t.ref[p] == 0 then [p] + free else free, hand)
  {
    DropDirOk(s, e);
    DropDirOthers(s, e);
    assert DirOk(s, e);
    hide Inv, OthersKept, Empty;
    AvailDrop(s, DropDir(s, e), free, hand, s.dir[e]);
    CountedNotFree(s, free, hand, s.dir[e]);
  }

  /** The page table that maps (e, pdx), or the page that would become it. */
  function TablePage(s: State, free: seq<Page>, e: Env, pdx: nat): Page {
    if TableOf(s, e, pdx).Some? then TableOf(s, e, pdx).value else if free != [] then free[0] else 0
  }

  class Machine {
    const reserved: set<Page>
    var ref: seq<Ref>               // pages[i].pp_ref
    var link: seq<int>              // pages[i].pp_link, -1 for NULL
    var head: int                   // page_free_list
    var word: map<Word, Entry>
    var dir: map<Env, Page>         // envs[e].env_pgdir
    ghost var count: seq<nat>
    ghost var kind: seq<Kind>
    ghost var extra: multiset<Page>
    ghost var free: seq<Page>
    ghost var hand: set<Page>

    ghost function S(): State
      reads this
    {
      State(count, word, dir, kind, reserved, extra)
    }

    /** Everything but that a count may have wrapped. */
    ghost predicate Counted()
      reads this
    {
      && Inv(S()) && |link| == |ref| == |count| && ListOk(head, link, free) && Avail(S(), free, hand)
      && Wrapped(ref, count)
    }

    ghost predicate Valid()
      reads this
    {
      Counted() && ref == count
    }

    constructor (npages: nat, kernelEnd: nat)
      ensures Valid() && |ref| == npages && dir == map[] && hand == {} && extra == multiset{}
      ensures forall i: Page :: i < npages ==>
                (i in free <==> !IsReserved(i, kernelEnd)) && (i in reserved <==> IsReserved(i, kernelEnd))
    {
      hide Inv, ListOk, Avail, Wrapped;
      reserved := set i: nat | 0 <= i < npages && IsReserved(i, kernelEnd);
      var r, l, h, f := PageInit(npages, kernelEnd);
      ref, count, link, head, free := r, r, l, h, f;
      word, dir, extra, hand := map[], map[], multiset{}, {};
      kind := seq(npages, _ => Plain);
      new;
      FreshState(S(), free);
      Unwrapped(ref);
    }

    /** `page_alloc`; -1 when out of memory. */
    method PageAlloc() returns (p: int)
      requires Valid()
      modifies `head, `link, `free, `hand
      ensures Valid() && S() == old(S())
      ensures old(free) == [] ==> p == -1 && free == [] && hand == old(hand)
      ensures old(free) != [] ==>
                p == old(free)[0] && free == old(free)[1..] && hand == old(hand) + {p} && Unheld(S(), p)
    {
      hide Wrapped, Inv, Avail, ListOk, Unheld;
      HeadIsFirst(head, link, free);
      p := head;
      if p == -1 {
        return;
      }
      KindCount(S());
      PopOk(head, link, free);
      AvailPop(S(), head, link, free, hand);
      head := link[p];
      link := link[p := -1];
      free, hand := free[1..], hand + {p};
    }

    /** `page_free`: a counted page, or one with a link, is the panic; FreeIff says when the list is one afterwards. */
    method PageFree(pp: Page) returns (panicked: bool)
      requires |link| == |ref| && ListOk(head, link, free) && pp < |ref|
      modifies `head, `link, `free
      ensures panicked <==> ref[pp] != 0 || old(link)[pp] != -1
      ensures panicked ==> head == old(head) && link == old(link) && free == old(free)
      ensures !panicked ==> head == pp && link == old(link)[pp := old(head)] && free == [pp] + old(free)
      ensures !panicked && pp !in old(free) ==> ListOk(head, link, free)
    {
      if ref[pp] != 0 || link[pp] != -1 {
        return true;
      }
      if pp !in free { PushOk(head, link, free, pp); }
      link := link[pp := head];
      head := pp;
      free := [pp] + free;
      panicked := false;
    }

    /** `page_decref`. */
    method PageDecref(pp: Page)
      requires |link| == |ref| && ListOk(head, link, free) && Wrapped(ref, count)
      requires pp < |count| && count[pp] > 0 && pp !in free
      modifies `head, `link, `free, `ref, `count
      ensures |link| == |ref| && ListOk(head, link, free) && Wrapped(ref, count)
      ensures count == old(count)[pp := old(count)[pp] - 1] && (old(ref == count) ==> ref == count)
      ensures free == if count[pp] == 0 then [pp] + old(free) else old(free)
    {
      WrappedDown(ref, count, pp);
      ref := ref[pp := Down(ref[pp])];
      count := count[pp := count[pp] - 1];
      if ref[pp] == 0 {
        var _ := PageFree(pp);
      }
    }

    /** `pp_ref++` for a page that becomes a table or a directory. */
    method Hang(p: Page, ghost k: Kind)
      requires |ref| == |kind| && Wrapped(ref, count) && ref == count && p < |count| && count[p] == 0
      modifies `ref, `count, `kind, `hand
      ensures |ref| == |old(ref)| && Wrapped(ref, count) && ref == count && hand == old(hand) - {p}
      ensures S() == old(S()).(ref := old(count)[p := old(count)[p] + 1], kind := old(kind)[p := k])
    {
      WrappedUp(ref, count, p);
      hide Wrapped;
      ref, count := ref[p := Up(ref[p])], count[p := count[p] + 1];
      kind, hand := kind[p := k], hand - {p};
    }

    /** `pgdir_walk` below UTOP. */
    method PgdirWalk(e: Env, pdx: nat, ptx: nat, create: bool) returns (w: Option<Word>)
      requires Valid() && e in dir && pdx < UPDX && ptx < NPTENTRIES
      modifies `head, `link, `free, `hand, `ref, `count, `word, `kind
      ensures Valid() && dir == old(dir) && extra == old(extra) && hand == old(hand)
      ensures TableOf(old(S()), e, pdx).Some? ==> w.Some? && S() == old(S()) && free == old(free)
      ensures TableOf(old(S()), e, pdx).None? && (!create || old(free) == []) ==>
                w.None? && S() == old(S()) && free == old(free)
      ensures TableOf(old(S()), e, pdx).None? && create && old(free) != [] ==>
                w.Some? && free == old(free)[1..] && e in old(S()).dir
                  && old(free)[0] < |old(S()).ref| == |old(S()).kind|
                && S() == AddTable(old(S()), e, pdx, old(free)[0])
      ensures w.Some? ==> TableOf(S(), e, pdx).Some? && w.value == Word(TableOf(S(), e, pdx).value, ptx)
      ensures forall f: Env, i: nat, j: nat :: Translate(S(), f, i, j) == Translate(old(S()), f, i, j)
    {
      hide Inv, Avail, ListOk, Translate, AddTable, Tracked, Wrapped;
      ghost var s := S();
      var pde := Word(dir[e], pdx);
      DirFacts(s, e);
      FreeOutOfHand(s, free, hand);
      if !word[pde].perm.p {
        if !create {
          return None;
        }
        var p := PageAlloc();
        if p == -1 {
          return None;
        }
        InHand(s, free, hand, p);
        TakeTable(s, e, pdx, p, free, hand);
        KindCount(s);
        Hang(p, Table(e, pdx));
        word := (word + ZeroPage(p, NPTENTRIES))[pde := Entry(p, Perm(true, true, true, {}))];
        assert S() == AddTable(s, e, pdx, p) by { AddTableIs(s, e, pdx, p); }
      }
      w := Some(Word(word[pde].pn, ptx));
    }

    /**
      `page_lookup` below UTOP.  Its test `!(*pte) & PTE_P` asks whether the entry is
      zero; with every entry zero or present that is "not present".
     */
    method PageLookup(e: Env, pdx: nat, ptx: nat) returns (r: Option<(Page, Word)>)
      requires Inv(S()) && e in dir && pdx < UPDX && ptx < NPTENTRIES
      ensures r.Some? <==> Translate(S(), e, pdx, ptx).Some?
      ensures r.Some? ==> r.value.0 == Translate(S(), e, pdx, ptx).value.pn
                          && TableOf(S(), e, pdx).Some? && r.value.1 == Word(TableOf(S(), e, pdx).value, ptx)
    {
      ghost var s := S();
      var pde := Word(dir[e], pdx);
      assert DirOk(s, e) && WordOk(s, pde);
      if !word[pde].perm.p {
        return None;
      }
      TableFacts(s, e, pdx);
      var pte := Word(word[pde].pn, ptx);
      assert WordOk(s, pte);
      if word[pte] == Zero {
        return None;
      }
      r := Some((word[pte].pn, pte));
    }

    /** `page_remove`: the page is unmapped here, nowhere else, and freed when this was its last holder. */
    method PageRemove(e: Env, pdx: nat, ptx: nat)
      requires Counted() && e in dir && pdx < UPDX && ptx < NPTENTRIES
      modifies `head, `link, `free, `ref, `count, `word
      ensures Counted() && (old(Valid()) ==> Valid()) && Translate(S(), e, pdx, ptx) == None
              && SameElse(old(S()), S(), e, pdx, ptx)
      ensures TableOf(S(), e, pdx) == TableOf(old(S()), e, pdx)
      ensures Translate(old(S()), e, pdx, ptx) == None ==> S() == old(S()) && free == old(free)
      ensures Translate(old(S()), e, pdx, ptx).Some? ==>
                var p := Translate(old(S()), e, pdx, ptx).value.pn;
                && p < |old(count)| && old(count)[p] > 0 && count == old(count)[p := old(count)[p] - 1]
                && word == old(word)[Word(TableOf(old(S()), e, pdx).value, ptx) := Zero]
                && free == if count[p] == 0 then [p] + old(free) else old(free)
    {
      hide Inv, Avail, ListOk, Translate, TableOf, Wrapped;
      ghost var s := S();
      var found := PageLookup(e, pdx, ptx);
      if found.None? {
        return;
      }
      var (pp, pte) := found.value;
      PresentFacts(s, e, pdx, ptx);
      DropPteOk(s, pte);
      PteTranslate(s, DropPte(s, pte), e, pdx, ptx, Zero);
      AvailDrop(s, DropPte(s, pte), free, hand, pp);
      CountedNotFree(s, free, hand, pp);
      PageDecref(pp);
      word := word[pte := Zero];
      assert S() == DropPte(s, pte);
    }

    /** `pp->pp_ref++` ahead of the insertion. */
    method Reference(pp: Page)
      requires Valid() && pp < |ref| && pp !in free
      modifies `ref, `count, `extra, `hand
      ensures Counted() && S() == Reserve(old(S()), pp) && hand == old(hand) - {pp}
      ensures forall f: Env, i: nat, j: nat :: Translate(S(), f, i, j) == Translate(old(S()), f, i, j)
      ensures forall f: Env, i: nat :: TableOf(S(), f, i) == TableOf(old(S()), f, i)
    {
      hide Wrapped, ListOk, Inv, Avail;
      ghost var s := S();
      ReserveOk(s, pp);
      AvailReserve(s, free, hand, pp);
      WrappedUp(ref, count, pp);
      ref, count := ref[pp := Up(ref[pp])], count[pp := count[pp] + 1];
      extra := extra + multiset{pp};
      hand := hand - {pp};
      assert S() == Reserve(s, pp);
    }

    /**
      The stores that complete `page_insert`: the table entry, and `|= perm` on the
      directory entry.  The bits of perm above the low twelve go into both frame numbers.
     */
    method SetPte(e: Env, pp: Page, pdx: nat, ptx: nat, perm: Perm, high: High)
      requires Counted() && e in dir && pdx < UPDX && ptx < NPTENTRIES && TableOf(S(), e, pdx).Some?
      requires Translate(S(), e, pdx, ptx) == None
      requires pp < |count| == |kind| && pp !in reserved && kind[pp] == Plain && pp in extra
      modifies `word, `extra
      ensures Counted() <==> Clean(pp, TableOf(old(S()), e, pdx).value, high)
      ensures extra == old(extra) - multiset{pp}
      ensures Counted() ==> Translate(S(), e, pdx, ptx) == Some(Entry(pp, perm.(p := true)))
                            && SameElse(old(S()), S(), e, pdx, ptx)
    {
      hide Inv, ListOk, Avail, Wrapped, Translate, SameElse, Frame;
      ghost var s := S();
      var pde := Word(dir[e], pdx);
      TableFacts(s, e, pdx);
      var w := Word(word[pde].pn, ptx);
      word := word[w := Entry(Frame(pp, high), perm.(p := true))];
      extra := extra - multiset{pp};
      word := word[pde := Entry(Frame(word[pde].pn, high), Or(word[pde].perm, perm))];
      assert S() == HighStores(s, e, pdx, ptx, pp, perm, high);
      HighBits(s, e, pdx, ptx, pp, perm, high);
      AvailSame(s, S(), free, hand);
      if Clean(pp, TableOf(s, e, pdx).value, high) {
        CleanStores(s, e, pdx, ptx, pp, perm, high);
      }
    }

    /** `page_insert` once the page table is there: count pp and drop the old mapping. */
    method MakeRoom(e: Env, pp: Page, pdx: nat, ptx: nat)
      requires Valid() && e in dir && pdx < UPDX && ptx < NPTENTRIES && TableOf(S(), e, pdx).Some?
      requires pp < |ref| == |kind| && pp !in free
      modifies this
      ensures Counted() && dir == old(dir) && extra == old(extra) + multiset{pp} && hand == old(hand) - {pp}
      ensures kind == old(kind) && count == Recount(old(count), pp, Translate(old(S()), e, pdx, ptx))
      ensures Translate(old(S()), e, pdx, ptx) == None ==> free == old(free)
      ensures Translate(S(), e, pdx, ptx) == None && TableOf(S(), e, pdx) == TableOf(old(S()), e, pdx)
      ensures SameElse(old(S()), S(), e, pdx, ptx)
    {
      hide Inv, ListOk, Avail, Translate, TableOf, SameElse, Present, Wrapped;
      ghost var s := S();
      Reference(pp);
      EntryFacts(S(), e, pdx, ptx);
      SameElseAll(s, S(), e, pdx, ptx);
      ghost var t := S();
      EntryWord(S(), e, pdx);
      var pte := Word(word[Word(dir[e], pdx)].pn, ptx);
      if word[pte].perm.p {
        PageRemove(e, pdx, ptx);
        SameElseTrans(s, t, S(), e, pdx, ptx);
      }
    }

    /** And write the new one. */
    method Replace(e: Env, pp: Page, pdx: nat, ptx: nat, perm: Perm, high: High)
      requires Valid() && e in dir && pdx < UPDX && ptx < NPTENTRIES && TableOf(S(), e, pdx).Some?
      requires pp < |ref| == |kind| && pp !in reserved && kind[pp] == Plain && pp !in free
      modifies this
      ensures Counted() <==> Clean(pp, TableOf(old(S()), e, pdx).value, high)
      ensures dir == old(dir) && extra == old(extra) && hand == old(hand) - {pp}
      ensures count == Recount(old(count), pp, Translate(old(S()), e, pdx, ptx))
      ensures Translate(old(S()), e, pdx, ptx) == None ==> free == old(free)
      ensures Counted() ==> Translate(S(), e, pdx, ptx) == Some(Entry(pp, perm.(p := true)))
                            && SameElse(old(S()), S(), e, pdx, ptx)
    {
      hide Inv, ListOk, Avail, Translate, TableOf, SameElse, Present, Wrapped, Clean;
      ghost var s := S();
      MakeRoom(e, pp, pdx, ptx);
      ghost var t := S();
      SetPte(e, pp, pdx, ptx, perm, high);
      if SameElse(t, S(), e, pdx, ptx) {
        SameElseTrans(s, t, S(), e, pdx, ptx);
      }
    }

    /**
      `page_insert`: page pp is mapped at (pdx, ptx) of e with the given permissions, in
      place of whatever was there (possibly pp itself); no other mapping of any
      environment changes.  It fails, changing nothing, only when a page table is
      needed and there is no free page.  That is so when perm has no bits above the low
      twelve that the frame numbers do not have; otherwise the counts are lost.
     */
    method PageInsert(e: Env, pp: Page, pdx: nat, ptx: nat, perm: Perm, high: High) returns (ok: bool)
      requires Valid() && e in dir && pdx < UPDX && ptx < NPTENTRIES
      requires pp < |ref| && pp !in reserved && kind[pp] == Plain && pp !in free
      modifies this
      ensures dir == old(dir) && extra == old(extra)
      ensures !ok <==> TableOf(old(S()), e, pdx).None? && old(free) == []
      ensures !ok ==> S() == old(S()) && hand == old(hand) && free == old(free)
      ensures Counted() <==> !ok || Clean(pp, TablePage(old(S()), old(free), e, pdx), high)
      ensures Valid() <==> Counted() && !(ok && TopsOut(old(S()), pp, e, pdx, ptx))
      ensures ok && Translate(old(S()), e, pdx, ptx) == None ==>
                && pp < |count| && count[pp] == old(count)[pp] + 1
                && |free| == |old(free)| - Count(TableOf(old(S()), e, pdx).None?)
      ensures Counted() && !Valid() ==>
                pp < |ref| && ref[pp] == 0 && |Words(S(), pp)| + |Roots(dir, pp)| + extra[pp] == 0x1_0000
      ensures ok ==> hand == old(hand) - {pp}
      ensures ok && Counted() ==> Translate(S(), e, pdx, ptx) == Some(Entry(pp, perm.(p := true)))
                                  && SameElse(old(S()), S(), e, pdx, ptx)
    {
      assert |ref| == |kind|;
      hide Inv, ListOk, Avail, Translate, TableOf, AddTable, SameElse, Present, Wrapped, Clean, Recount, TopsOut;
      ghost var s := S();
      var pte := PgdirWalk(e, pdx, ptx, true);
      if pte.None? {
        return false;
      }
      assert kind[pp] == Plain && pp !in free && pp < |ref| == |kind| && count[pp] == s.ref[pp] by {
        StillPlain(s, S(), e, pdx, pp, old(free), free);
      }
      SameElseAll(s, S(), e, pdx, ptx);
      ghost var t := S();
      NewTable(s, t, old(free), e, pdx);
      SameTop(s, t, pp, e, pdx, ptx);
      Recounted(t, pp, e, pdx, ptx);
      Replace(e, pp, pdx, ptx, perm, high);
      if Counted() {
        SameElseTrans(s, t, S(), e, pdx, ptx);
        NoWrap(ref, count, pp);
        HolderCount(S(), pp);
      }
      ok := true;
    }

    /** One round of `env_free`: unmap everything in the page table at pdx, then free the table. */
    method FreeTable(e: Env, pdx: nat)
      requires Valid() && e in dir && pdx < UPDX && TableOf(S(), e, pdx).Some?
      modifies this
      ensures Valid() && OthersKept(old(S()), S(), e)
      ensures dir == old(dir) && extra == old(extra) && hand == old(hand) && |ref| == |old(ref)|
      ensures forall i :: 0 <= i < UPDX ==> Word(dir[e], i) in word && Word(dir[e], i) in old(word)
      ensures forall i :: 0 <= i < UPDX && i != pdx ==> word[Word(dir[e], i)] == old(word)[Word(dir[e], i)]
      ensures word[Word(dir[e], pdx)] == Zero
    {
      hide Inv, Avail, ListOk, Translate, OthersKept, Wrapped;
      var pde := Word(dir[e], pdx);
      DirFacts(S(), e);
      TableFacts(S(), e, pdx);
      var pt := word[pde].pn;
      OthersKeptRefl(S(), e);
      var pteno := 0;
      while pteno < NPTENTRIES
        invariant 0 <= pteno <= NPTENTRIES && Valid() && OthersKept(old(S()), S(), e)
        invariant dir == old(dir) && extra == old(extra) && hand == old(hand) && |ref| == |old(ref)|
                  && kind == old(kind)
        invariant TableOf(S(), e, pdx) == Some(pt)
        invariant forall i :: 0 <= i < UPDX ==>
                    Word(dir[e], i) in word && word[Word(dir[e], i)] == old(word)[Word(dir[e], i)]
        invariant forall j :: 0 <= j < pteno ==> Word(pt, j) in word && word[Word(pt, j)] == Zero
      {
        ghost var s := S();
        EntryFacts(s, e, pdx, pteno);
        TableFacts(s, e, pdx);
        if word[Word(pt, pteno)].perm.p {
          PageRemove(e, pdx, pteno);
          OwnChange(s, S(), e, Word(pt, pteno), Zero);
          OthersKeptTrans(old(S()), s, S(), e);
        }
        pteno := pteno + 1;
      }
      ghost var s := S();
      TableFacts(s, e, pdx);
      DropTableOk(s, e, pdx, pt);
      DropTableOthers(s, e, pdx, pt);
      OthersKeptTrans(old(S()), s, DropTable(s, e, pdx, pt), e);
      AvailDrop(s, DropTable(s, e, pdx, pt), free, hand, pt);
      CountedNotFree(s, free, hand, pt);
      word := word[pde := Zero];
      Unhang(pt);
      assert S() == DropTable(s, e, pdx, pt);
    }

    /** The loop of env_free: every table of the user half is emptied and given back. */
    method FreeTables(e: Env)
      requires Valid() && e in dir
      modifies this
      ensures Valid() && OthersKept(old(S()), S(), e)
      ensures dir == old(dir) && extra == old(extra) && hand == old(hand) && |ref| == |old(ref)|
      ensures forall i :: 0 <= i < UPDX ==> Word(dir[e], i) in word && word[Word(dir[e], i)] == Zero
    {
      hide Avail, ListOk, Translate, OthersKept, OwnWords, Wrapped;
      ghost var s0 := S();
      OthersKeptRefl(s0, e);
      DirFacts(s0, e);
      var pdeno := 0;
      while pdeno < UPDX
        invariant 0 <= pdeno <= UPDX && Valid() && OthersKept(s0, S(), e)
        invariant dir == old(dir) && extra == old(extra) && hand == old(hand) && |ref| == |old(ref)|
        invariant forall i :: 0 <= i < UPDX ==> Word(dir[e], i) in word
        invariant forall i :: 0 <= i < pdeno ==> word[Word(dir[e], i)] == Zero
      {
        ghost var s := S();
        DirFacts(s, e);
        if word[Word(dir[e], pdeno)].perm.p {
          FreeTable(e, pdeno);
          OthersKeptTrans(s0, s, S(), e);
        }
        pdeno := pdeno + 1;
      }
    }

    /** The end of env_free: the emptied directory is given back. */
    method FreeDir(e: Env)
      requires Valid() && e in dir && Empty(S(), dir[e], UPDX)
      modifies this
      ensures Valid() && OthersKept(old(S()), S(), e)
      ensures dir == old(dir) - {e} && extra == old(extra) && hand == old(hand) && |ref| == |old(ref)|
    {
      hide Inv, Avail, ListOk, OthersKept, Empty, Wrapped, DropDir;
      ghost var s := S();
      var p := dir[e];
      DirGivenBack(s, e, free, hand);
      dir := dir - {e};
      Unhang(p);
    }

    /** `page_decref` of a page that was a table or a directory. */
    method Unhang(p: Page)
      requires |link| == |ref| && ListOk(head, link, free) && Wrapped(ref, count) && ref == count
      requires p < |count| == |kind| && count[p] > 0 && p !in free
      modifies `head, `link, `free, `ref, `count, `kind
      ensures |link| == |ref| == |old(ref)| && ListOk(head, link, free) && Wrapped(ref, count) && ref == count
      ensures S() == old(S()).(ref := old(count)[p := old(count)[p] - 1], kind := old(kind)[p := Plain])
      ensures free == if S().ref[p] == 0 then [p] + old(free) else old(free)
    {
      hide ListOk, Wrapped;
      PageDecref(p);
      kind := kind[p := Plain];
    }

    /**
      `env_free`: every page, page table and the directory of e is given back; the
      count of each physical page drops by exactly the number of times e held it; the
      mappings of all other environments are untouched.
     */
    method EnvFree(e: Env)
      requires Valid() && e in dir
      modifies this
      ensures Valid() && dir == old(dir) - {e} && extra == old(extra) && hand == old(hand) && |ref| == |old(ref)|
      ensures forall f: Env, i: nat, j: nat :: f != e ==> Translate(S(), f, i, j) == Translate(old(S()), f, i, j)
      ensures forall pp: Page :: pp < |ref| && pp !in reserved ==>
                ref[pp] + |OwnWords(old(S()), e, pp)| + Count(old(dir)[e] == pp) == old(ref)[pp]
    {
      hide Inv, Avail, ListOk, Translate, OthersKept, OwnWords, Wrapped;
      ghost var s0 := S();
      FreeTables(e);
      ghost var s := S();
      FreeDir(e);
      OthersKeptTrans(s0, s, S(), e);
      forall f: Env, i: nat, j: nat | f != e ensures Translate(S(), f, i, j) == Translate(s0, f, i, j) {
        OthersKeptTranslate(s0, S(), e, f, i, j);
      }
      forall pp: Page | pp < |ref| && pp !in reserved
        ensures ref[pp] + |OwnWords(s0, e, pp)| + Count(s0.dir[e] == pp) == s0.ref[pp]
      {
        GivenBack(s0, S(), e, pp);
      }
    }

    /** `env_setup_vm`: a directory whose user half is empty; false when out of memory. */
    method EnvSetupVm(e: Env) returns (ok: bool)
      requires Valid() && e !in dir
      modifies this
      ensures Valid() && (ok <==> old(free) != []) && hand == old(hand)
      ensures !ok ==> S() == old(S()) && free == old(free)
      ensures ok ==> dir.Keys == old(dir).Keys + {e} && free == old(free)[1..]
      ensures forall i: nat, j: nat :: Translate(S(), e, i, j) == None
      ensures forall f: Env, i: nat, j: nat :: f != e ==> Translate(S(), f, i, j) == Translate(old(S()), f, i, j)
    {
      hide Inv, Avail, ListOk, Translate, TableOf, Wrapped;
      ghost var s := S();
      FreeOutOfHand(s, free, hand);
      NoDirectory(s, e);
      var p := PageAlloc();
      if p == -1 {
        return false;
      }
      InHand(s, free, hand, p);
      AddDirOk(s, e, p);
      AddDirTranslate(s, e, p);
      AvailTake(s, AddDir(s, e, p), free, hand, p);
      KindCount(s);
      Hang(p, Dir(e));
      dir := dir[e := p];
      word := word + ZeroPage(p, UPDX);
      assert S() == AddDir(s, e, p);
      ok := true;
    }

    /**
      `sys_page_alloc`: a page that was mapped nowhere is mapped at va; on any error
      nothing changes, the page taken before a failed insertion being put back.
     */
    method SysPageAlloc(e: Env, va: nat, perm: Perm, high: High) returns (r: int)
      requires Valid() && e in dir
      modifies this
      ensures dir == old(dir) && extra == old(extra) && hand == old(hand)
      ensures Valid() <==> Counted()
      ensures r == -E_INVAL <==> BadVa(va) || !(perm.u && perm.p)
      ensures r == -E_NO_MEM <==> !BadVa(va) && perm.u && perm.p
                                  && (|old(free)| == 0 || (|old(free)| == 1 && TableOf(old(S()), e, PDX(va)).None?))
      ensures r != 0 ==> (r == -E_INVAL || r == -E_NO_MEM) && S() == old(S()) && free == old(free)
      ensures Valid() <==>
                r != 0 || Clean(old(free)[0], TablePage(old(S()), old(free)[1..], e, PDX(va)), high)
      ensures r == 0 ==> Unheld(old(S()), old(free)[0])
      ensures r == 0 && Valid() ==> Translate(S(), e, PDX(va), PTX(va)) == Some(Entry(old(free)[0], perm))
                                    && SameElse(old(S()), S(), e, PDX(va), PTX(va))
      ensures r == 0 && Translate(old(S()), e, PDX(va), PTX(va)) == None ==>
                && old(free)[0] < |count| && count[old(free)[0]] == 1
                && |free| == |old(free)| - 1 - Count(TableOf(old(S()), e, PDX(va)).None?)
    {
      hide Inv, Avail, ListOk, Translate, TableOf, Wrapped, Clean;
      if va >= UTOP || va / PGSIZE * PGSIZE != va {
        return -E_INVAL;
      }
      if !(perm.u && perm.p) {
        return -E_INVAL;
      }
      FreeOutOfHand(S(), free, hand);
      var pg := PageAlloc();
      if pg == -1 {
        return -E_NO_MEM;
      }
      InHand(S(), free, hand, pg);
      assert ref[pg] == 0;
      var ok := PageInsert(e, pg, PDX(va), PTX(va), perm, high);
      if !ok {
        HandToFree(S(), free, hand, pg);
        NoLink(head, link, free, pg);
        var _ := PageFree(pg);
        hand := hand - {pg};
        return -E_NO_MEM;
      }
      return 0;
    }

    /**
      `sys_page_map`: the page mapped at srcva of se becomes mapped at dstva of de too.
      Write permission is refused on a page that is read-only at the source.
     */
    method SysPageMap(se: Env, srcva: nat, de: Env, dstva: nat, perm: Perm, high: High) returns (r: int)
      requires Valid() && se in dir && de in dir
      modifies this
      ensures dir == old(dir) && extra == old(extra)
      ensures var src := Translate(old(S()), se, PDX(srcva), PTX(srcva));
              Counted() <==> !(r == 0 && src.Some?
                               && !Clean(src.value.pn, TablePage(old(S()), old(free), de, PDX(dstva)), high))
      ensures var src := Translate(old(S()), se, PDX(srcva), PTX(srcva));
              Valid() <==>
                Counted() && !(r == 0 && src.Some? && TopsOut(old(S()), src.value.pn, de, PDX(dstva), PTX(dstva)))
      ensures var src := Translate(old(S()), se, PDX(srcva), PTX(srcva));
              r == -E_INVAL <==> BadVa(srcva) || BadVa(dstva) || src == None || !(perm.u && perm.p)
                                 || (perm.w && !src.value.perm.w)
      ensures r != 0 ==> (r == -E_INVAL || r == -E_NO_MEM) && S() == old(S()) && free == old(free)
      ensures r == -E_NO_MEM ==> TableOf(old(S()), de, PDX(dstva)).None? && old(free) == []
      ensures r == 0 && Translate(old(S()), de, PDX(dstva), PTX(dstva)) == None ==>
                var pg := Translate(old(S()), se, PDX(srcva), PTX(srcva)).value.pn;
                && pg < |count| && pg < |old(count)| && count[pg] == old(count)[pg] + 1
                && |free| == |old(free)| - Count(TableOf(old(S()), de, PDX(dstva)).None?)
      ensures r == 0 && Counted() ==>
                         Translate(S(), de, PDX(dstva), PTX(dstva)) ==
                           Some(Entry(Translate(old(S()), se, PDX(srcva), PTX(srcva)).value.pn, perm))
                         && SameElse(old(S()), S(), de, PDX(dstva), PTX(dstva))
    {
      hide Inv, Avail, ListOk, Translate, TableOf, Wrapped, Clean;
      if srcva >= UTOP || dstva >= UTOP || srcva / PGSIZE * PGSIZE != srcva || dstva / PGSIZE * PGSIZE != dstva {
        return -E_INVAL;
      }
      var found := PageLookup(se, PDX(srcva), PTX(srcva));
      if found.None? {
        return -E_INVAL;
      }
      var (pg, pte) := found.value;
      if !(perm.u && perm.p) {
        return -E_INVAL;
      }
      MappedFacts(S(), free, hand, se, PDX(srcva), PTX(srcva));
      if !word[pte].perm.w && perm.w {
        return -E_INVAL;
      }
      var ok := PageInsert(de, pg, PDX(dstva), PTX(dstva), perm, high);
      r := if ok then 0 else -E_NO_MEM;
    }
  }

  // ----- how the count wraps -----

  lemma PageAddress(k: nat)
    requires k < UPDX * NPTENTRIES
    ensures PDX(k * PGSIZE) == k / NPTENTRIES && PTX(k * PGSIZE) == k % NPTENTRIES && !BadVa(k * PGSIZE)
  {
  }

  /** A list without repetition that holds the pages lo..hi is at least that long. */
  lemma {:induction false} AtLeast(free: seq<Page>, lo: nat, hi: nat)
    requires lo <= hi && forall p :: lo <= p < hi ==> p in free
    requires forall i, j :: 0 <= i < j < |free| ==> free[i] != free[j]
    ensures |free| >= hi - lo
    decreases hi - lo
  {
    if lo < hi {
      assert lo in free;
      var i :| 0 <= i < |free| && free[i] == lo;
      var rest := free[..i] + free[i + 1..];
      forall p | lo + 1 <= p < hi ensures p in rest {
        assert p in free;
        var j :| 0 <= j < |free| && free[j] == p;
        assert rest[if j < i then j else j - 1] == p;
      }
      forall a, b | 0 <= a < b < |rest| ensures rest[a] != rest[b] {
        assert rest[a] == free[if a < i then a else a + 1] && rest[b] == free[if b < i then b else b + 1];
      }
      AtLeast(rest, lo + 1, hi);
    }
  }

  const RW := Perm(true, true, true, {})

  /** The first k pages of e's address space all show page pg, and nothing else is mapped. */
  ghost predicate Filled(s: State, e: Env, pg: Page, k: nat) {
    forall i: nat, j: nat :: j < NPTENTRIES ==>
      Translate(s, e, i, j) == if i * NPTENTRIES + j < k then Some(Entry(pg, RW)) else None
  }

  lemma FilledMore(s: State, t: State, e: Env, pg: Page, k: nat)
    requires Filled(s, e, pg, k) && SameElse(s, t, e, k / NPTENTRIES, k % NPTENTRIES)
    requires Translate(t, e, k / NPTENTRIES, k % NPTENTRIES) == Some(Entry(pg, RW))
    ensures Filled(t, e, pg, k + 1)
  {
    hide Translate;
  }

  lemma FilledTable(s: State, e: Env, pg: Page, k: nat)
    requires Filled(s, e, pg, k) && k > 0
    ensures Translate(s, e, k / NPTENTRIES, k % NPTENTRIES) == None && Translate(s, e, 0, 0) == Some(Entry(pg, RW))
    ensures TableOf(s, e, k / NPTENTRIES).None? ==> k % NPTENTRIES == 0
  {
    if k % NPTENTRIES != 0 {
      assert Translate(s, e, (k - 1) / NPTENTRIES, (k - 1) % NPTENTRIES).Some?;
    }
  }

  /** A machine on which page pg is mapped k times, by the first k pages of environment 1. */
  method MapOften(m: Machine, pg: Page, k: nat)
    requires m.Valid() && 1 in m.dir && Filled(m.S(), 1, pg, 1) && pg < |m.count| && m.count[pg] == 1
    requires 0 < k <= 0x1_0000 && |m.free| >= 64
    modifies m
    ensures m.Counted() && Filled(m.S(), 1, pg, k) && pg < |m.count| && m.count[pg] == k
    ensures m.Valid() <==> k < 0x1_0000
  {
    hide Inv, Avail, ListOk, Translate, TableOf, Wrapped, Filled, SameElse, Clean;
    var n := 1;
    while n < k
      invariant 1 <= n <= k && m.Counted() && 1 in m.dir && Filled(m.S(), 1, pg, n)
      invariant pg < |m.count| && m.count[pg] == n && (m.Valid() <==> n < 0x1_0000)
      invariant |m.free| + (n - 1) / NPTENTRIES >= 64
    {
      ghost var s := m.S();
      FilledTable(s, 1, pg, n);
      PageAddress(0);
      PageAddress(n);
      AllClean(pg, TablePage(s, m.free, 1, n / NPTENTRIES));
      var r := m.SysPageMap(1, 0, 1, n * PGSIZE, RW, 0);
      FilledMore(s, m.S(), 1, pg, n);
      n := n + 1;
    }
  }

  lemma ManyFree(head: int, link: seq<int>, free: seq<Page>)
    requires ListOk(head, link, free) && forall p: Page :: 0x100 <= p < 0x200 ==> p in free
    ensures |free| >= 0x100
  {
    AtLeast(free, 0x100, 0x200);
  }

  lemma ReadsZero(ref: seq<Ref>, count: seq<nat>, p: Page)
    requires Wrapped(ref, count) && p < |count| && count[p] == 0x1_0000
    ensures ref[p] == 0
  {
    assert WrapAt(ref, count, p);
  }

  lemma FilledOne(s: State, t: State, e: Env, pg: Page)
    requires forall i: nat, j: nat :: Translate(s, e, i, j) == None
    requires SameElse(s, t, e, 0, 0) && Translate(t, e, 0, 0) == Some(Entry(pg, RW))
    ensures Filled(t, e, pg, 1)
  {
    hide Translate;
  }

  /** From boot: one environment maps one page 65536 times, and its count reads 0 with every mapping in place. */
  method CountWraps() returns (m: Machine, pg: Page)
    ensures !m.Valid() && pg < |m.ref| && m.ref[pg] == 0 && Filled(m.S(), 1, pg, 0x1_0000)
  {
    hide Inv, Avail, ListOk, Translate, TableOf, Wrapped, SameElse, Filled, Unheld, Clean;
    m := new Machine(0x200, 0x100);
    ManyFree(m.head, m.link, m.free);
    var _ := m.EnvSetupVm(1);
    ghost var s := m.S();
    PageAddress(0);
    HeadIsFirst(m.head, m.link, m.free);
    pg := m.head;
    AllClean(pg, TablePage(s, m.free[1..], 1, 0));
    var _ := m.SysPageAlloc(1, 0, RW, 0);
    FilledOne(s, m.S(), 1, pg);
    MapOften(m, pg, 0x1_0000);
    ReadsZero(m.ref, m.count, pg);
  }
}
