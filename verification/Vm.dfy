/**
  xv6 address spaces: the frame allocator (kalloc.c) and the two-level page tables built
  from its frames (vm.c).  A page number is split into a directory index and a table
  index; directory indices below KERNPD are the user part.
 */
module Vm {

  import opened Wrappers

  type Frame = nat
  type Page = seq<int>

  const NPD: nat := 1024
  const KERNPD: nat := 512
  const KERNPAGE: nat := 512 * 1024

  /** A present page-table entry. */
  datatype Pte = Pte(frame: Frame, flags: nat)

  /**
    What an allocated frame is for: the directory d, the table in slot i of d, the user
    page at (i, j) of d, in the hands of code working on d, or anything else in the kernel.
   */
  datatype Owner =
    | DirOf(d: Frame)
    | TableOf(d: Frame, i: nat)
    | UserOf(d: Frame, i: nat, j: nat)
    | Held(d: Frame)
    | Other

  /**
    free    kmem.freelist, first element first
    dir     the present entries of each page directory, by index: the table's frame
    table   the present entries of each page table, by index
    mem     contents of the frames
   */
  datatype State = State(
    free: seq<Frame>, owner: map<Frame, Owner>, dir: map<Frame, map<nat, Frame>>,
    table: map<Frame, map<nat, Pte>>, mem: map<Frame, Page>)

  /** What the directory d maps at (i, j). */
  function Lookup(s: State, d: Frame, i: nat, j: nat): Option<Pte> {
    if d in s.dir && i in s.dir[d] && s.dir[d][i] in s.table && j in s.table[s.dir[d][i]]
    then Some(s.table[s.dir[d][i]][j]) else None
  }

  predicate FrameOk(s: State, f: Frame) {
    && (f in s.free ==> f !in s.owner)
    && (f in s.dir ==> f in s.owner && s.owner[f] == DirOf(f))
    && (f in s.table ==> f in s.owner && s.owner[f].TableOf?)
    && (f in s.owner ==>
          match s.owner[f]
          case DirOf(d) => d == f && f in s.dir
          case TableOf(d, i) => d in s.dir && i in s.dir[d] && s.dir[d][i] == f && f in s.table && i < NPD
          case UserOf(d, i, j) => i < KERNPD && Lookup(s, d, i, j).Some? && Lookup(s, d, i, j).value.frame == f
          case Held(d) => f == d || d in s.dir
          case Other => true)
  }

  predicate SlotOk(s: State, d: Frame, i: nat) {
    d in s.dir && i in s.dir[d] ==> s.dir[d][i] in s.owner && s.owner[s.dir[d][i]] == TableOf(d, i)
  }

  predicate PteOk(s: State, d: Frame, i: nat, j: nat) {
    Lookup(s, d, i, j).Some? ==>
      && j < NPD
      && (i < KERNPD ==>
            Lookup(s, d, i, j).value.frame in s.owner && s.owner[Lookup(s, d, i, j).value.frame] == UserOf(d, i, j))
  }

  predicate NoDup(q: seq<Frame>) { forall i, j :: 0 <= i < j < |q| ==> q[i] != q[j] }

  /** Every allocated frame has exactly one place that holds it, and is not on the free list. */
  ghost predicate Inv(s: State) {
    && NoDup(s.free)
    && (forall f: Frame {:trigger FrameOk(s, f)} :: FrameOk(s, f))
    && (forall d: Frame, i: nat {:trigger SlotOk(s, d, i)} :: SlotOk(s, d, i))
    && (forall d: Frame, i: nat, j: nat {:trigger PteOk(s, d, i, j)} :: PteOk(s, d, i, j))
  }

  // ---------------------------------------------------------------- changes

  /** A page set to one byte value: 1 in a freed frame, 0 in a new user page. */
  function Filled(b: int): Page { seq(4096, _ => b) }

  const NoTables: map<nat, Frame> := map[]
  const NoPtes: map<nat, Pte> := map[]

  function Put<T>(m: map<nat, T>, i: nat, x: T): map<nat, T> { m[i := x] }

  function Cut<T>(m: map<nat, T>, i: nat): map<nat, T> { m - {i} }

  function Hold(s: State, d: Frame): State
    requires s.free != []
  {
    s.(free := s.free[1..], owner := s.owner[s.free[0] := Held(d)])
  }

  function Release(s: State, f: Frame): State {
    s.(free := [f] + s.free, owner := s.owner - {f}, mem := s.mem[f := Filled(1)])
  }

  function NewDir(s: State, d: Frame): State {
    s.(owner := s.owner[d := DirOf(d)], dir := s.dir[d := NoTables])
  }

  function NewTable(s: State, d: Frame, i: nat, f: Frame): State
    requires d in s.dir
  {
    s.(owner := s.owner[f := TableOf(d, i)], dir := s.dir[d := Put(s.dir[d], i, f)], table := s.table[f := NoPtes])
  }

  predicate HasTable(s: State, d: Frame, i: nat) { d in s.dir && i in s.dir[d] && s.dir[d][i] in s.table }

  /** The entry (i, j) of d set or cleared. */
  function SetPte(s: State, d: Frame, i: nat, j: nat, pte: Option<Pte>): State
    requires HasTable(s, d, i)
  {
    var t := s.dir[d][i];
    s.(table := s.table[t := if pte.Some? then Put(s.table[t], j, pte.value) else Cut(s.table[t], j)])
  }

  function MapUser(s: State, d: Frame, i: nat, j: nat, pte: Pte): State
    requires HasTable(s, d, i)
  {
    SetPte(s, d, i, j, Some(pte)).(owner := s.owner[pte.frame := UserOf(d, i, j)])
  }

  function UnmapUser(s: State, d: Frame, i: nat, j: nat): State
    requires HasTable(s, d, i) && Lookup(s, d, i, j).Some?
  {
    SetPte(s, d, i, j, None).(owner := s.owner[Lookup(s, d, i, j).value.frame := Held(d)])
  }

  function DropTable(s: State, d: Frame, i: nat): State
    requires HasTable(s, d, i)
  {
    var f := s.dir[d][i];
    s.(owner := s.owner[f := Held(d)], dir := s.dir[d := Cut(s.dir[d], i)], table := s.table - {f})
  }

  function DropDir(s: State, d: Frame): State {
    s.(owner := s.owner[d := Held(d)], dir := s.dir - {d})
  }

  // ---------------------------------------------------------------- who is affected

  predicate Belongs(o: Owner, d: Frame) { !o.Other? && o.d == d }

  /** Frame f is allocated, and not on behalf of directory d. */
  predicate Foreign(s: State, f: Frame, d: Frame) { f in s.owner && !Belongs(s.owner[f], d) }

  function PageAt(s: State, f: Frame): Page { if f in s.mem then s.mem[f] else [] }

  function Entries(s: State, f: Frame): (Option<map<nat, Frame>>, Option<map<nat, Pte>>) {
    (if f in s.dir then Some(s.dir[f]) else None, if f in s.table then Some(s.table[f]) else None)
  }

  predicate KeptFrame(s: State, t: State, d: Frame, f: Frame) {
    && (Foreign(s, f, d) <==> Foreign(t, f, d))
    && (Foreign(s, f, d) ==>
          s.owner[f] == t.owner[f] && PageAt(s, f) == PageAt(t, f) && Entries(s, f) == Entries(t, f))
  }

  function Els(q: seq<Frame>): set<Frame> { set f | f in q }

  ghost function All(s: State): set<Frame> { Els(s.free) + s.owner.Keys }

  /** From s to t, only directory d's frames and the free list changed, and no frame was lost or invented. */
  ghost predicate Works(s: State, t: State, d: Frame) {
    && All(s) == All(t)
    && (forall f: Frame {:trigger KeptFrame(s, t, d, f)} :: KeptFrame(s, t, d, f))
  }

  lemma WorksRefl(s: State, d: Frame)
    ensures Works(s, s, d)
  {
    forall f: Frame ensures KeptFrame(s, s, d, f) { }
  }

  lemma WorksTrans(s: State, t: State, u: State, d: Frame)
    requires Works(s, t, d) && Works(t, u, d)
    ensures Works(s, u, d)
  {
    forall f: Frame ensures KeptFrame(s, u, d, f) { assert KeptFrame(s, t, d, f) && KeptFrame(t, u, d, f); }
  }

  /** No frame is held on behalf of d. */
  ghost predicate Gone(s: State, d: Frame) {
    forall f: Frame {:trigger f in s.owner} :: f in s.owner ==> !Belongs(s.owner[f], d)
  }

  /** Same memory map; the free list may be in another order. */
  ghost predicate Restored(s: State, t: State) {
    && t.owner == s.owner && t.dir == s.dir && t.table == s.table
    && (forall f: Frame :: f in t.free <==> f in s.free) && |t.free| == |s.free|
    && (forall f: Frame :: f in s.owner ==> PageAt(t, f) == PageAt(s, f))
  }

  /** Work on behalf of a directory that held nothing before and holds nothing after changed nothing. */
  lemma RollsBack(s: State, t: State, d: Frame)
    requires Inv(s) && Inv(t) && Works(s, t, d) && Gone(s, d) && Gone(t, d)
    ensures Restored(s, t)
  {
    forall f: Frame ensures Entries(s, f) == Entries(t, f) && (f in s.owner <==> f in t.owner)
                            && (f in s.owner ==> s.owner[f] == t.owner[f] && PageAt(s, f) == PageAt(t, f)) {
      assert KeptFrame(s, t, d, f) && FrameOk(s, f) && FrameOk(t, f);
    }
    assert t.owner == s.owner;
    SameEntries(s, t);
    forall f: Frame ensures f in t.free <==> f in s.free {
      assert f in All(s) <==> f in All(t);
      assert FrameOk(s, f) && FrameOk(t, f);
    }
    SameLength(s.free, t.free);
  }

  lemma SameEntries(s: State, t: State)
    requires forall f: Frame :: Entries(s, f) == Entries(t, f)
    ensures t.dir == s.dir && t.table == s.table
  {
    forall f: Frame ensures f in s.dir <==> f in t.dir { assert Entries(s, f) == Entries(t, f); }
    forall f: Frame ensures f in s.table <==> f in t.table { assert Entries(s, f) == Entries(t, f); }
    forall f: Frame | f in s.dir ensures s.dir[f] == t.dir[f] { assert Entries(s, f) == Entries(t, f); }
    forall f: Frame | f in s.table ensures s.table[f] == t.table[f] { assert Entries(s, f) == Entries(t, f); }
    assert s.dir.Keys == t.dir.Keys && s.table.Keys == t.table.Keys;
  }

  lemma {:induction false} Elements(q: seq<Frame>)
    requires NoDup(q)
    ensures |Els(q)| == |q|
  {
    if q != [] {
      var front, last := q[..|q| - 1], q[|q| - 1];
      Elements(front);
      assert q == front + [last];
      assert Els(q) == Els(front) + {last};
    }
  }

  lemma SameLength(p: seq<Frame>, q: seq<Frame>)
    requires NoDup(p) && NoDup(q) && forall f: Frame :: f in p <==> f in q
    ensures |p| == |q|
  {
    Elements(p);
    Elements(q);
    assert Els(p) == Els(q);
  }

  // ---------------------------------------------------------------- each keeps the invariant

  predicate HeldFor(s: State, f: Frame, d: Frame) { f in s.owner && s.owner[f] == Held(d) }

  lemma HoldOk(s: State, d: Frame)
    requires Inv(s) && s.free != [] && (d in s.dir || d == s.free[0])
    ensures Inv(Hold(s, d)) && HeldFor(Hold(s, d), s.free[0], d)
    ensures Works(s, Hold(s, d), d)
  {
    var t := Hold(s, d);
    assert FrameOk(s, s.free[0]);
    forall f: Frame ensures FrameOk(t, f) {
      assert FrameOk(s, f);
      assert f in t.free ==> f in s.free && f != s.free[0];
      if f in s.owner && s.owner[f].UserOf? {
        assert Lookup(t, s.owner[f].d, s.owner[f].i, s.owner[f].j) == Lookup(s, s.owner[f].d, s.owner[f].i,
          s.owner[f].j);
      }
    }
    forall e: Frame, i: nat ensures SlotOk(t, e, i) { assert SlotOk(s, e, i); }
    forall e: Frame, i: nat, j: nat ensures PteOk(t, e, i, j) { assert PteOk(s, e, i, j); }
    forall g: Frame ensures KeptFrame(s, t, d, g) { assert FrameOk(s, g); }
    assert All(s) == All(t);
  }

  lemma ReleaseOk(s: State, f: Frame, d: Frame)
    requires Inv(s) && HeldFor(s, f, d)
    ensures Inv(Release(s, f))
    ensures Works(s, Release(s, f), d)
  {
    var t := Release(s, f);
    assert FrameOk(s, f);
    forall g: Frame ensures FrameOk(t, g) { assert FrameOk(s, g); }
    forall e: Frame, i: nat ensures SlotOk(t, e, i) { assert SlotOk(s, e, i); }
    forall e: Frame, i: nat, j: nat ensures PteOk(t, e, i, j) { assert PteOk(s, e, i, j); }
    forall g: Frame ensures KeptFrame(s, t, d, g) { assert FrameOk(s, g); }
    assert All(s) == All(t);
  }

  lemma NewDirOk(s: State, d: Frame)
    requires Inv(s) && HeldFor(s, d, d)
    ensures Inv(NewDir(s, d))
    ensures forall e: Frame, i: nat, j: nat :: Lookup(NewDir(s, d), e, i, j) == Lookup(s, e, i, j)
    ensures Works(s, NewDir(s, d), d)
  {
    var t := NewDir(s, d);
    assert FrameOk(s, d);
    forall g: Frame ensures FrameOk(t, g) { assert FrameOk(s, g); }
    forall e: Frame, i: nat ensures SlotOk(t, e, i) { assert SlotOk(s, e, i); }
    forall e: Frame, i: nat, j: nat ensures PteOk(t, e, i, j) { assert PteOk(s, e, i, j); }
    forall g: Frame ensures KeptFrame(s, t, d, g) { assert FrameOk(s, g); }
    assert All(s) == All(t);
  }

  lemma NewTableOk(s: State, d: Frame, i: nat, f: Frame)
    requires Inv(s) && HeldFor(s, f, d) && d in s.dir && i < NPD && i !in s.dir[d]
    ensures Inv(NewTable(s, d, i, f))
    ensures forall e: Frame, k: nat, j: nat :: Lookup(NewTable(s, d, i, f), e, k, j) == Lookup(s, e, k, j)
    ensures Works(s, NewTable(s, d, i, f), d)
  {
    var t := NewTable(s, d, i, f);
    assert FrameOk(s, f) && FrameOk(s, d);
    forall e: Frame, k: nat ensures SlotOk(t, e, k) { assert SlotOk(s, e, k); }
    forall e: Frame, k: nat, j: nat ensures Lookup(t, e, k, j) == Lookup(s, e, k, j) { assert SlotOk(s, e, k); }
    forall g: Frame ensures FrameOk(t, g) { assert FrameOk(s, g); }
    forall e: Frame, k: nat, j: nat ensures PteOk(t, e, k, j) { assert PteOk(s, e, k, j); }
    forall g: Frame ensures KeptFrame(s, t, d, g) { assert FrameOk(s, g); }
    assert All(s) == All(t);
  }

  /** Writing one entry changes what one page of one directory maps to. */
  lemma SetPteLookup(s: State, d: Frame, i: nat, j: nat, pte: Option<Pte>)
    requires Inv(s) && HasTable(s, d, i)
    ensures forall e: Frame, k: nat, l: nat ::
              Lookup(SetPte(s, d, i, j, pte), e, k, l) == if (e, k, l) == (d, i, j) then pte else Lookup(s, e, k, l)
  {
    var t := SetPte(s, d, i, j, pte);
    forall e: Frame, k: nat, l: nat
      ensures Lookup(t, e, k, l) == if (e, k, l) == (d, i, j) then pte else Lookup(s, e, k, l)
    {
      assert SlotOk(s, e, k) && SlotOk(s, d, i);
    }
  }

  lemma MapUserOk(s: State, d: Frame, i: nat, j: nat, pte: Pte)
    requires Inv(s) && HasTable(s, d, i) && i < KERNPD && j < NPD && HeldFor(s, pte.frame, d)
             && Lookup(s, d, i, j) == None
    ensures Inv(MapUser(s, d, i, j, pte))
    ensures forall e: Frame, k: nat, l: nat ::
              Lookup(MapUser(s, d, i, j, pte), e, k, l) == if (e, k, l) == (d, i, j)
                  then Some(pte) else Lookup(s, e, k, l)
    ensures Works(s, MapUser(s, d, i, j, pte), d)
  {
    assert SlotOk(s, d, i);
    var t := MapUser(s, d, i, j, pte);
    var u := SetPte(s, d, i, j, Some(pte));
    SetPteLookup(s, d, i, j, Some(pte));
    forall e: Frame, k: nat, l: nat
      ensures Lookup(t, e, k, l) == if (e, k, l) == (d, i, j) then Some(pte) else Lookup(s, e, k, l)
    {
      assert Lookup(t, e, k, l) == Lookup(u, e, k, l);
    }
    forall e: Frame, k: nat ensures SlotOk(t, e, k) { assert SlotOk(s, e, k); }
    forall e: Frame, k: nat, l: nat ensures PteOk(t, e, k, l) { assert PteOk(s, e, k, l); }
    forall g: Frame ensures FrameOk(t, g) { assert FrameOk(s, g); }
    forall g: Frame ensures KeptFrame(s, t, d, g) { assert FrameOk(s, g); }
    assert All(s) == All(t);
  }

  lemma MapKernelOk(s: State, d: Frame, i: nat, j: nat, pte: Pte)
    requires Inv(s) && HasTable(s, d, i) && i >= KERNPD && j < NPD
    ensures Inv(SetPte(s, d, i, j, Some(pte)))
    ensures Works(s, SetPte(s, d, i, j, Some(pte)), d)
  {
    assert SlotOk(s, d, i);
    var t := SetPte(s, d, i, j, Some(pte));
    SetPteLookup(s, d, i, j, Some(pte));
    forall e: Frame, k: nat ensures SlotOk(t, e, k) { assert SlotOk(s, e, k); }
    forall e: Frame, k: nat, l: nat ensures PteOk(t, e, k, l) { assert PteOk(s, e, k, l); }
    forall g: Frame ensures FrameOk(t, g) { assert FrameOk(s, g); }
    forall g: Frame ensures KeptFrame(s, t, d, g) { assert FrameOk(s, g); }
    assert All(s) == All(t);
  }

  lemma UnmapUserOk(s: State, d: Frame, i: nat, j: nat)
    requires Inv(s) && HasTable(s, d, i) && i < KERNPD && Lookup(s, d, i, j).Some?
    ensures Inv(UnmapUser(s, d, i, j)) && HeldFor(UnmapUser(s, d, i, j), Lookup(s, d, i, j).value.frame, d)
    ensures forall e: Frame, k: nat, l: nat ::
              Lookup(UnmapUser(s, d, i, j), e, k, l) == if (e, k, l) == (d, i, j) then None else Lookup(s, e, k, l)
    ensures Works(s, UnmapUser(s, d, i, j), d)
  {
    assert SlotOk(s, d, i);
    var t := UnmapUser(s, d, i, j);
    var u := SetPte(s, d, i, j, None);
    SetPteLookup(s, d, i, j, None);
    forall e: Frame, k: nat, l: nat
      ensures Lookup(t, e, k, l) == if (e, k, l) == (d, i, j) then None else Lookup(s, e, k, l)
    {
      assert Lookup(t, e, k, l) == Lookup(u, e, k, l);
    }
    assert PteOk(s, d, i, j);
    forall e: Frame, k: nat ensures SlotOk(t, e, k) { assert SlotOk(s, e, k); }
    forall e: Frame, k: nat, l: nat ensures PteOk(t, e, k, l) { assert PteOk(s, e, k, l); }
    forall g: Frame ensures FrameOk(t, g) { assert FrameOk(s, g); }
    forall g: Frame ensures KeptFrame(s, t, d, g) { assert FrameOk(s, g); }
    assert All(s) == All(t);
  }

  /** A table that maps no user page can be given up. */
  lemma DropTableOk(s: State, d: Frame, i: nat)
    requires Inv(s) && HasTable(s, d, i) && (i < KERNPD ==> forall j: nat :: Lookup(s, d, i, j) == None)
    ensures Inv(DropTable(s, d, i)) && HeldFor(DropTable(s, d, i), s.dir[d][i], d)
    ensures forall e: Frame, k: nat, l: nat ::
              Lookup(DropTable(s, d, i), e, k, l) == if (e, k) == (d, i) then None else Lookup(s, e, k, l)
    ensures Works(s, DropTable(s, d, i), d)
  {
    var t := DropTable(s, d, i);
    assert SlotOk(s, d, i);
    forall e: Frame, k: nat, l: nat
      ensures Lookup(t, e, k, l) == if (e, k) == (d, i) then None else Lookup(s, e, k, l)
    {
      assert SlotOk(s, e, k);
    }
    forall e: Frame, k: nat ensures SlotOk(t, e, k) { assert SlotOk(s, e, k); }
    forall e: Frame, k: nat, l: nat ensures PteOk(t, e, k, l) { assert PteOk(s, e, k, l); }
    forall g: Frame ensures FrameOk(t, g) { assert FrameOk(s, g); }
    forall g: Frame ensures KeptFrame(s, t, d, g) { assert FrameOk(s, g); }
    assert All(s) == All(t);
  }

  lemma DropDirOk(s: State, d: Frame)
    requires Inv(s) && d in s.dir && s.dir[d] == NoTables && (forall f: Frame :: !HeldFor(s, f, d))
    ensures Inv(DropDir(s, d)) && HeldFor(DropDir(s, d), d, d)
    ensures forall e: Frame, k: nat, l: nat :: Lookup(DropDir(s, d), e, k, l) == Lookup(s, e, k, l)
    ensures Works(s, DropDir(s, d), d)
  {
    var t := DropDir(s, d);
    assert FrameOk(s, d);
    forall e: Frame, k: nat, l: nat ensures Lookup(t, e, k, l) == Lookup(s, e, k, l) { }
    forall e: Frame, k: nat ensures SlotOk(t, e, k) { assert SlotOk(s, e, k); }
    forall e: Frame, k: nat, l: nat ensures PteOk(t, e, k, l) { assert PteOk(s, e, k, l); }
    forall g: Frame ensures FrameOk(t, g) { assert FrameOk(s, g) && !HeldFor(s, g, d); }
    forall g: Frame ensures KeptFrame(s, t, d, g) { assert FrameOk(s, g); }
    assert All(s) == All(t);
  }

  // ---------------------------------------------------------------- the code

  ghost predicate SameHeld(s: State, t: State, d: Frame) {
    forall f: Frame :: HeldFor(s, f, d) <==> HeldFor(t, f, d)
  }

  ghost predicate SameLookup(s: State, t: State) {
    forall e: Frame, i: nat, j: nat :: Lookup(t, e, i, j) == Lookup(s, e, i, j)
  }

  /** A fresh table in slot i of d. */
  function Grown(s: State, d: Frame, i: nat): State
    requires s.free != [] && d in s.dir
  {
    NewTable(Hold(s, d), d, i, s.free[0])
  }

  lemma GrownOk(s: State, d: Frame, i: nat)
    requires Inv(s) && s.free != [] && d in s.dir && i < NPD && i !in s.dir[d]
    ensures Inv(Grown(s, d, i)) && Works(s, Grown(s, d, i), d)
    ensures SameHeld(s, Grown(s, d, i), d) && SameLookup(s, Grown(s, d, i))
  {
    var h := Hold(s, d);
    var t := Grown(s, d, i);
    assert FrameOk(s, s.free[0]);
    HoldOk(s, d);
    NewTableOk(h, d, i, s.free[0]);
    WorksTrans(s, h, t, d);
    forall e: Frame, k: nat, j: nat ensures Lookup(t, e, k, j) == Lookup(s, e, k, j) {
      assert Lookup(h, e, k, j) == Lookup(s, e, k, j);
    }
  }

  lemma Unchanged(s: State, d: Frame)
    ensures Works(s, s, d) && SameHeld(s, s, d) && SameLookup(s, s)
  {
    WorksRefl(s, d);
  }

  lemma SlotTable(s: State, d: Frame, i: nat)
    requires Inv(s) && d in s.dir && i in s.dir[d]
    ensures HasTable(s, d, i)
  {
    assert SlotOk(s, d, i) && FrameOk(s, s.dir[d][i]);
  }

  /** The entry for page v: its directory index and table index. */
  function Pdx(v: nat): nat { v / NPD }

  function Ptx(v: nat): nat { v % NPD }

  function At(s: State, d: Frame, v: nat): Option<Pte> { Lookup(s, d, Pdx(v), Ptx(v)) }

  /** From s to t, page v of d came to map pte and no other page of any directory changed. */
  ghost predicate OnePage(s: State, t: State, d: Frame, v: nat, pte: Option<Pte>) {
    forall e: Frame, i: nat, j: nat ::
      Lookup(t, e, i, j) == if (e, i, j) == (d, Pdx(v), Ptx(v)) then pte else Lookup(s, e, i, j)
  }

  /** The same frames are in the hands of d's code, but for f. */
  ghost predicate HeldBut(s: State, t: State, d: Frame, f: Frame) {
    && !HeldFor(t, f, d)
    && forall g: Frame :: g != f ==> (HeldFor(s, g, d) <==> HeldFor(t, g, d))
  }

  // ---------------------------------------------------------------- how many frames it takes

  /** The directory slots of n pages from page first on. */
  function Dirs(first: nat, n: nat): set<nat> {
    if n == 0 then {} else Dirs(first, n - 1) + {Pdx(first + n - 1)}
  }

  /** The slots of d that have a table. */
  function Tables(s: State, d: Frame): set<nat> { if d in s.dir then s.dir[d].Keys else {} }

  /** How many of the slots have no table yet. */
  function Missing(s: State, d: Frame, slots: set<nat>): nat { |slots - Tables(s, d)| }

  lemma MissingIs(s: State, d: Frame, slots: set<nat>)
    ensures Missing(s, d, slots) == |slots - Tables(s, d)|
  {
  }

  /** From s to t, d came to have tables for the slots, and they and n pages were all that was taken. */
  ghost predicate Spent(s: State, t: State, d: Frame, slots: set<nat>, n: nat) {
    && Tables(t, d) == Tables(s, d) + slots
    && |t.free| + |Tables(t, d)| + n == |s.free| + |Tables(s, d)|
  }

  lemma SpentNothing(s: State, d: Frame)
    ensures Spent(s, s, d, {}, 0)
  {
    assert Tables(s, d) + {} == Tables(s, d);
  }

  lemma InTables(s: State, d: Frame, i: nat)
    requires d in s.dir
    ensures i in Tables(s, d) <==> i in s.dir[d]
  {
  }

  lemma SpentHad(s: State, d: Frame, i: nat)
    requires d in s.dir && i in s.dir[d]
    ensures Spent(s, s, d, {i}, 0)
  {
    assert Tables(s, d) + {i} == Tables(s, d);
  }

  lemma SpentGrown(s: State, d: Frame, i: nat)
    requires s.free != [] && d in s.dir && i !in s.dir[d]
    ensures Spent(s, Grown(s, d, i), d, {i}, 0)
  {
    assert Tables(Grown(s, d, i), d) == Tables(s, d) + {i};
  }

  lemma SameTables(s: State, t: State, d: Frame)
    requires t.dir == s.dir && s.free != [] && t.free == s.free[1..]
    ensures Tables(t, d) == Tables(s, d) && Spent(s, t, d, {}, 1)
  {
    assert Tables(s, d) + {} == Tables(s, d);
  }

  /** A new entry takes no frame. */
  lemma SpentEntry(s: State, t: State, u: State, d: Frame, slots: set<nat>)
    requires Spent(s, t, d, slots, 0) && u.dir == t.dir && u.free == t.free
    ensures Spent(s, u, d, slots, 0)
  {
  }

  lemma SpentMore(s: State, t: State, u: State, d: Frame, a: set<nat>, b: set<nat>, m: nat, n: nat)
    requires Spent(s, t, d, a, m) && Spent(t, u, d, b, n)
    ensures Spent(s, u, d, a + b, m + n)
  {
    assert Tables(s, d) + a + b == Tables(s, d) + (a + b);
  }

  lemma UnionSize(a: set<nat>, b: set<nat>)
    ensures |a + b| == |a| + |b - a|
  {
    assert a + b == a + (b - a);
  }

  /** What was spent was there to spend. */
  lemma Affordable(s: State, t: State, d: Frame, slots: set<nat>, n: nat)
    requires Spent(s, t, d, slots, n)
    ensures |t.free| + Missing(s, d, slots) + n == |s.free|
  {
    UnionSize(Tables(s, d), slots);
  }

  /** When one more page does not fit after some of them, all of them cannot. */
  lemma TooFew(s: State, t: State, d: Frame, done: set<nat>, all: set<nat>, v: nat, m: nat, n: nat)
    requires Spent(s, t, d, done, m) && done <= all && Pdx(v) in all && m < n
    requires |t.free| < 1 + (if Pdx(v) in Tables(t, d) then 0 else 1)
    ensures |s.free| < Missing(s, d, all) + n
  {
    var k := Tables(s, d);
    UnionSize(k, all);
    Subset(Tables(t, d), k + all);
    if Pdx(v) !in Tables(t, d) { Subset(Tables(t, d) + {Pdx(v)}, k + all); }
  }

  /** The same for a table alone. */
  lemma NoTableLeft(s: State, t: State, d: Frame, done: set<nat>, all: set<nat>, v: nat)
    requires Spent(s, t, d, done, 0) && done <= all && Pdx(v) in all && Pdx(v) !in Tables(t, d) && t.free == []
    ensures |s.free| < Missing(s, d, all)
  {
    var k := Tables(s, d);
    UnionSize(k, all);
    Subset(Tables(t, d) + {Pdx(v)}, k + all);
  }

  lemma Subset(a: set<nat>, b: set<nat>)
    requires a <= b
    ensures |a| <= |b|
  {
    assert b == a + (b - a);
  }

  lemma DirsStep(first: nat, n: nat)
    ensures Dirs(first, 0) == {} && Dirs(first, n + 1) == Dirs(first, n) + {Pdx(first + n)}
  {
  }

  lemma {:induction false} DirsGrow(first: nat, m: nat, n: nat)
    requires m <= n
    ensures Dirs(first, m) <= Dirs(first, n)
    ensures m < n ==> Pdx(first + m) in Dirs(first, n)
    decreases n
  {
    if m < n { DirsGrow(first, m, n - 1); }
  }

  class Kernel {
    var free: seq<Frame>
    var dir: map<Frame, map<nat, Frame>>
    var table: map<Frame, map<nat, Pte>>
    var mem: map<Frame, Page>
    ghost var owner: map<Frame, Owner>

    ghost function Now(): State
      reads this
    {
      State(free, owner, dir, table, mem)
    }

    /** kinit: the frames first..last are put on the list one by one. */
    constructor (first: Frame, last: Frame)
      requires first <= last
      ensures Inv(Now()) && owner == map[] && forall g: Frame :: g in free <==> first <= g < last
    {
      owner, dir, table, mem, free := map[], map[], map[], map[], [];
      new;
      var f: Frame := first;
      while f < last
        invariant first <= f <= last && NoDup(free) && owner == map[] && dir == map[] && table == map[]
        invariant forall g: Frame :: g in free <==> first <= g < f
      {
        assert f !in free;
        free := [f] + free;
        f := f + 1;
      }
      ghost var t := Now();
      forall g: Frame ensures FrameOk(t, g) { }
      forall e: Frame, i: nat ensures SlotOk(t, e, i) { }
      forall e: Frame, i: nat, j: nat ensures PteOk(t, e, i, j) { }
    }

    /** Takes a frame for directory d, or for a directory of its own. */
    method Kalloc(ghost d: Option<Frame>) returns (f: Option<Frame>)
      requires Inv(Now()) && (d.Some? ==> d.value in dir)
      modifies this
      ensures f.None? <==> old(free) == []
      ensures f.None? ==> Now() == old(Now())
      ensures f.Some? ==>
                var who := if d.Some? then d.value else f.value;
                && f.value == old(free)[0] && Now() == Hold(old(Now()), who)
                && Inv(Now()) && HeldFor(Now(), f.value, who) && Works(old(Now()), Now(), who)
    {
      if free == [] {
        return None;
      }
      ghost var who := if d.Some? then d.value else free[0];
      HoldOk(Now(), who);
      f := Some(free[0]);
      owner := owner[free[0] := Held(who)];
      free := free[1..];
    }

    method Kfree(f: Frame, ghost d: Frame)
      requires Inv(Now()) && HeldFor(Now(), f, d)
      modifies this
      ensures Now() == Release(old(Now()), f)
      ensures Inv(Now()) && Works(old(Now()), Now(), d)
    {
      ReleaseOk(Now(), f, d);
      mem := mem[f := Filled(1)];
      free := [f] + free;
      owner := owner - {f};
    }

    /** walkpgdir: the table for slot i, made if asked for and there is a frame. */
    method Walk(d: Frame, i: nat, alloc: bool) returns (t: Option<Frame>)
      requires Inv(Now()) && d in dir && i < NPD
      modifies this
      ensures Inv(Now()) && Works(old(Now()), Now(), d) && SameHeld(old(Now()), Now(), d)
              && SameLookup(old(Now()), Now())
      ensures t.Some? ==> HasTable(Now(), d, i) && t.value == dir[d][i]
      ensures t.None? || !alloc ==> Now() == old(Now())
      ensures t.None? <==> i !in Tables(old(Now()), d) && (!alloc || old(free) == [])
      ensures dir.Keys == old(dir).Keys && mem == old(mem)
      ensures t.Some? ==> Spent(old(Now()), Now(), d, {i}, 0)
    {
      hide Inv, Works, SameHeld, SameLookup, Spent, Tables;
      ghost var was := Now();
      Unchanged(was, d);
      InTables(was, d, i);
      if i in dir[d] {
        SpentHad(was, d, i);
        SlotTable(was, d, i);
        return Some(dir[d][i]);
      }
      if !alloc {
        return None;
      }
      t := Kalloc(Some(d));
      if t.Some? {
        GrownOk(was, d, i);
        table := table[t.value := NoPtes];
        dir := dir[d := Put(dir[d], i, t.value)];
        owner := owner[t.value := TableOf(d, i)];
        assert Now() == Grown(was, d, i);
        SpentGrown(was, d, i);
      }
    }

    /** mappages for one user page: frame f, allocated for d, becomes page v. */
    method MapUserPage(d: Frame, v: nat, f: Frame, flags: nat) returns (ok: bool)
      requires Inv(Now()) && d in dir && v < KERNPAGE && HeldFor(Now(), f, d) && At(Now(), d, v) == None
      modifies this
      ensures Inv(Now()) && Works(old(Now()), Now(), d) && dir.Keys == old(dir).Keys && mem == old(mem)
      ensures ok ==> OnePage(old(Now()), Now(), d, v, Some(Pte(f, flags))) && HeldBut(old(Now()), Now(), d, f)
      ensures !ok <==> Pdx(v) !in Tables(old(Now()), d) && old(free) == []
      ensures ok ==> Spent(old(Now()), Now(), d, {Pdx(v)}, 0)
      ensures !ok ==> Now() == old(Now()) && SameLookup(old(Now()), Now()) && SameHeld(old(Now()), Now(), d)
    {
      hide Inv, Works, SameHeld, SameLookup, OnePage, HeldBut, Spent, Tables;
      ghost var was := Now();
      var t := Walk(d, v / NPD, true);
      if t.None? {
        return false;
      }
      ghost var grown := Now();
      UserPageOk(was, grown, d, v, Pte(f, flags));
      table := table[t.value := Put(table[t.value], v % NPD, Pte(f, flags))];
      owner := owner[f := UserOf(d, v / NPD, v % NPD)];
      assert Now() == MapUser(grown, d, Pdx(v), Ptx(v), Pte(f, flags));
      SpentEntry(was, grown, Now(), d, {Pdx(v)});
      ok := true;
    }

    /** mappages for one kernel page, which no directory owns. */
    method MapKernelPage(d: Frame, v: nat, f: Frame, flags: nat) returns (ok: bool)
      requires Inv(Now()) && d in dir && KERNPAGE <= v < NPD * NPD && At(Now(), d, v) == None
      modifies this
      ensures Inv(Now()) && Works(old(Now()), Now(), d) && dir.Keys == old(dir).Keys && mem == old(mem)
      ensures SameHeld(old(Now()), Now(), d)
      ensures ok ==> OnePage(old(Now()), Now(), d, v, Some(Pte(f, flags)))
      ensures !ok <==> Pdx(v) !in Tables(old(Now()), d) && old(free) == []
      ensures ok ==> Spent(old(Now()), Now(), d, {Pdx(v)}, 0)
      ensures !ok ==> Now() == old(Now()) && SameLookup(old(Now()), Now())
    {
      hide Inv, Works, SameHeld, SameLookup, OnePage, Spent, Tables;
      ghost var was := Now();
      var t := Walk(d, v / NPD, true);
      if t.None? {
        return false;
      }
      ghost var grown := Now();
      KernelPageOk(was, grown, d, v, Pte(f, flags));
      table := table[t.value := Put(table[t.value], v % NPD, Pte(f, flags))];
      assert Now() == SetPte(grown, d, Pdx(v), Ptx(v), Some(Pte(f, flags)));
      SpentEntry(was, grown, Now(), d, {Pdx(v)});
      ok := true;
    }

    /** One turn of mappages. */
    method MapNext(d: Frame, k: Kmap, n: nat, ghost was: State) returns (ok: bool)
      requires Inv(Now()) && d in dir && KmapOk(k) && RangeFree(was, d, k) && n < k.count && mem == was.mem
      requires Works(was, Now(), d) && SameHeld(was, Now(), d) && RangeMapped(was, Now(), d, k, n)
      requires dir.Keys == was.dir.Keys && Spent(was, Now(), d, Dirs(k.first, n), 0)
      modifies this
      ensures Inv(Now()) && Works(was, Now(), d) && SameHeld(was, Now(), d)
      ensures dir.Keys == was.dir.Keys && mem == was.mem
      ensures ok ==> RangeMapped(was, Now(), d, k, n + 1) && Spent(was, Now(), d, Dirs(k.first, n + 1), 0)
      ensures !ok ==> RangeMapped(was, Now(), d, k, n) && |was.free| < Missing(was, d, Dirs(k.first, k.count))
    {
      hide Inv, Works, SameHeld, SameLookup, OnePage, RangeMapped, RangeFree, Spent, Missing, Dirs, At, Tables;
      ghost var mid := Now();
      KmapRange(k, n);
      StillFree(was, mid, d, k, n);
      ok := MapKernelPage(d, k.first + n, k.frame + n, k.flags);
      if ok {
        NextMapped(was, mid, Now(), d, k, n);
      } else {
        NextMissing(was, mid, d, k, n);
      }
    }

    /** mappages over a kernel range. */
    method MapPages(d: Frame, k: Kmap) returns (ok: bool)
      requires Inv(Now()) && d in dir && KmapOk(k) && RangeFree(Now(), d, k)
      modifies this
      ensures Inv(Now()) && Works(old(Now()), Now(), d) && dir.Keys == old(dir).Keys && mem == old(mem)
      ensures SameHeld(old(Now()), Now(), d)
      ensures ok ==> RangeMapped(old(Now()), Now(), d, k, k.count)
      ensures !ok ==> exists n: nat :: n <= k.count && RangeMapped(old(Now()), Now(), d, k, n)
      ensures ok <==> |old(free)| >= Missing(old(Now()), d, Dirs(k.first, k.count))
      ensures ok ==> Spent(old(Now()), Now(), d, Dirs(k.first, k.count), 0)
    {
      hide Inv, Works, SameHeld, SameLookup, OnePage, RangeMapped, RangeFree, Spent, Missing, Dirs, Tables;
      ghost var was := Now();
      Unchanged(was, d);
      SpentNothing(was, d);
      DirsStep(k.first, 0);
      NoneMapped(was, d, k);
      var n: nat := 0;
      while n < k.count
        invariant 0 <= n <= k.count
        invariant Inv(Now()) && Works(was, Now(), d) && dir.Keys == was.dir.Keys && mem == was.mem
        invariant SameHeld(was, Now(), d) && RangeMapped(was, Now(), d, k, n)
        invariant Spent(was, Now(), d, Dirs(k.first, n), 0)
      {
        ok := MapNext(d, k, n, was);
        if !ok {
          return;
        }
        n := n + 1;
      }
      Affordable(was, Now(), d, Dirs(k.first, k.count), 0);
      ok := true;
    }

    /** One present user page given back: the inner branch of deallocuvm. */
    method FreePage(d: Frame, v: nat, t: Frame)
      requires Inv(Now()) && v < KERNPAGE && HasTable(Now(), d, Pdx(v)) && t == dir[d][Pdx(v)] && At(Now(), d, v).Some?
      modifies this
      ensures Inv(Now()) && Works(old(Now()), Now(), d) && SameHeld(old(Now()), Now(), d) && dir == old(dir)
      ensures OnePage(old(Now()), Now(), d, v, None) && Keeps(old(Now()), Now(), d, v, v + 1)
    {
      hide Inv, Works, SameHeld, OnePage, Keeps;
      ghost var was := Now();
      var f := table[t][v % NPD].frame;
      PageFreed(was, d, v);
      owner := owner[f := Held(d)];
      table := table[t := Cut(table[t], v % NPD)];
      assert Now() == UnmapUser(was, d, Pdx(v), Ptx(v));
      Kfree(f, d);
    }

    method DeallocUvm(d: Frame, oldsz: nat, newsz: nat) returns (r: nat)
      requires Inv(Now()) && d in dir && oldsz <= KERNBASE
      modifies this
      ensures Inv(Now()) && Works(old(Now()), Now(), d) && SameHeld(old(Now()), Now(), d) && dir == old(dir)
      ensures r == if newsz >= oldsz then oldsz else newsz
      ensures newsz >= oldsz ==> Now() == old(Now())
      ensures newsz < oldsz ==> Unmapped(old(Now()), Now(), d, Pages(newsz), Pages(oldsz))
      ensures Keeps(old(Now()), Now(), d, Pages(newsz), Pages(oldsz))
    {
      hide Inv, Works, SameHeld, OnePage, Keeps, Unmapped;
      ghost var was := Now();
      Unchanged(was, d);
      var lo, hi := Pages(newsz), Pages(oldsz);
      NothingUnmapped(was, d, lo, hi);
      if newsz >= oldsz {
        return oldsz;
      }
      var v := lo;
      while v < hi
        invariant lo <= v
        invariant Inv(Now()) && Works(was, Now(), d) && SameHeld(was, Now(), d) && dir == was.dir
        invariant Unmapped(was, Now(), d, lo, Min(v, hi)) && Keeps(was, Now(), d, lo, hi)
      {
        ghost var mid := Now();
        var t := Walk(d, v / NPD, false);
        if t.None? {
          SkipTable(was, mid, d, lo, v, hi);
          v := (v / NPD + 1) * NPD;
        } else {
          if v % NPD in table[t.value] {
            FreePage(d, v, t.value);
          } else {
            NoPage(mid, d, v);
          }
          WorksTrans(was, mid, Now(), d);
          HeldTrans(was, mid, Now(), d);
          UnmapStep(was, mid, Now(), d, lo, v, hi);
          v := v + 1;
        }
      }
      r := newsz;
    }

    /** One page table given back: a turn of freevm's loop. */
    method FreeTable(d: Frame, i: nat)
      requires Inv(Now()) && d in dir && i in dir[d] && NoUser(Now(), d) && NoneHeld(Now(), d)
      modifies this
      ensures Inv(Now()) && Works(old(Now()), Now(), d) && NoUser(Now(), d) && NoneHeld(Now(), d)
      ensures dir == old(dir)[d := Cut(old(dir)[d], i)]
    {
      hide Inv, Works, NoUser, NoneHeld;
      ghost var was := Now();
      SlotTable(was, d, i);
      TableFreed(was, d, i);
      var f := dir[d][i];
      owner := owner[f := Held(d)];
      dir := dir[d := Cut(dir[d], i)];
      table := table - {f};
      assert Now() == DropTable(was, d, i);
      Kfree(f, d);
    }

    /** freevm: gives back the directory and everything it holds. */
    method FreeVm(d: Frame)
      requires Inv(Now()) && d in dir && NoneHeld(Now(), d)
      modifies this
      ensures Inv(Now()) && Works(old(Now()), Now(), d) && Gone(Now(), d)
    {
      hide Inv, Works, NoUser, NoneHeld, Unmapped, Keeps, SameHeld, Gone;
      ghost var was := Now();
      var r := DeallocUvm(d, KERNBASE, 0);
      AllUnmapped(was, Now(), d);
      var i: nat := 0;
      while i < NPD
        invariant 0 <= i <= NPD && d in dir && forall k :: k in dir[d] ==> i <= k
        invariant Inv(Now()) && Works(was, Now(), d) && NoUser(Now(), d) && NoneHeld(Now(), d)
      {
        if i in dir[d] {
          ghost var mid := Now();
          FreeTable(d, i);
          WorksTrans(was, mid, Now(), d);
        }
        i := i + 1;
      }
      ghost var mid := Now();
      SlotIndices(mid, d);
      assert dir[d] == NoTables;
      DirFreed(mid, d);
      owner := owner[d := Held(d)];
      dir := dir - {d};
      assert Now() == DropDir(mid, d);
      Kfree(d, d);
      WorksTrans(was, mid, Now(), d);
    }

    /** setupkvm: a new directory with the kernel's mappings, or nothing at all. */
    method SetupKvm(kmap: seq<Kmap>) returns (r: Option<Frame>)
      requires Inv(Now()) && Layout(kmap)
      modifies this
      ensures Inv(Now())
      ensures r.None? ==> Restored(old(Now()), Now())
      ensures r.Some? ==>
                && r.value in old(free) && r.value in dir && Works(old(Now()), Now(), r.value)
                && NoUser(Now(), r.value) && NoneHeld(Now(), r.value) && mem == old(mem)
                && KernelMapped(Now(), r.value, kmap, |kmap|)
      ensures r.Some? <==> |old(free)| >= 1 + |KmapDirs(kmap, |kmap|)|
      ensures r.Some? ==> Tables(Now(), r.value) == KmapDirs(kmap, |kmap|)
      ensures r.Some? ==> |free| + 1 + |KmapDirs(kmap, |kmap|)| == |old(free)|
    {
      hide Inv, Works, NoUser, NoneHeld, SameHeld, Gone, RangeMapped, RangeFree, Restored, KernelMapped, Spent, Missing,
          Dirs, Tables, KmapDirs;
      ghost var was := Now();
      r := Kalloc(None);
      if r.None? {
        NothingChanged(was);
        return;
      }
      var d := r.value;
      FreshDir(was, d);
      dir := dir[d := NoTables];
      owner := owner[d := DirOf(d)];
      assert Now() == NewDir(Hold(was, d), d);
      EmptyDir(Now(), d, kmap);
      ghost var bare := Now();
      SpentNothing(bare, d);
      NoTablesYet(bare, d);
      var i := 0;
      RowDirs(kmap, 0);
      while i < |kmap|
        invariant 0 <= i <= |kmap| && d in dir && mem == was.mem
        invariant Spent(bare, Now(), d, KmapDirs(kmap, i), 0)
        invariant Inv(Now()) && Works(was, Now(), d) && NoUser(Now(), d) && NoneHeld(Now(), d)
        invariant KernelMapped(Now(), d, kmap, i)
      {
        ghost var mid := Now();
        RowFree(mid, d, kmap, i);
        RowDirs(kmap, i);
        var ok := MapPages(d, kmap[i]);
        WorksTrans(was, mid, Now(), d);
        KernelRange(mid, Now(), d, kmap[i]);
        if !ok {
          ghost var bad := Now();
          FreeVm(d);
          WorksTrans(was, bad, Now(), d);
          RollsBack(was, Now(), d);
          RowTooLong(bare, mid, d, kmap, i);
          return None;
        }
        KernelStep(mid, Now(), d, kmap, i);
        SpentMore(bare, mid, Now(), d, KmapDirs(kmap, i), Dirs(kmap[i].first, kmap[i].count), 0, 0);
        i := i + 1;
      }
      KernelSpent(bare, Now(), d, kmap);
    }

    /** A new user page with the given contents: kalloc, fill, mappages. */
    method NewPage(d: Frame, v: nat, page: Page, flags: nat) returns (r: Added)
      requires Inv(Now()) && d in dir && v < KERNPAGE && At(Now(), d, v) == None
      modifies this
      ensures Inv(Now()) && Works(old(Now()), Now(), d) && dir.Keys == old(dir).Keys
              && Keeps(old(Now()), Now(), d, 0, 0)
      ensures r.Done? ==> OnePage(old(Now()), Now(), d, v, Some(Pte(r.frame, flags))) && SameHeld(old(Now()), Now(), d)
      ensures r.Done? ==> PageAt(Now(), r.frame) == page
      ensures r.NoFrame? ==> Now() == old(Now())
      ensures r.Done? <==> |old(free)| >= 1 + (if Pdx(v) in Tables(old(Now()), d) then 0 else 1)
      ensures r.Done? ==> Spent(old(Now()), Now(), d, {Pdx(v)}, 1)
      ensures r.NoTable? ==>
                SameLookup(old(Now()), Now()) && HeldFor(Now(), r.frame, d) && HeldBut(Now(), old(Now()), d, r.frame)
    {
      hide Inv, Works, SameLookup, SameHeld, OnePage, HeldBut, Keeps, Spent, Tables;
      ghost var was := Now();
      Unchanged(was, d);
      NothingUnmapped(was, d, 0, 0);
      var f := Kalloc(Some(d));
      if f.None? {
        return NoFrame;
      }
      mem := mem[f.value := page];
      ghost var held := Now();
      FilledOk(was, d, page);
      assert held == Hold(was, d).(mem := was.mem[was.free[0] := page]);
      SameTables(was, held, d);
      var ok := MapUserPage(d, v, f.value, flags);
      WorksTrans(was, held, Now(), d);
      if !ok {
        TableMissing(was, held, Now(), d, f.value);
        return NoTable(f.value);
      }
      PageAdded(was, held, Now(), d, v, Pte(f.value, flags));
      SpentMore(was, held, Now(), d, {}, {Pdx(v)}, 1, 0);
      assert {} + {Pdx(v)} == {Pdx(v)};
      r := Done(f.value);
    }

    /** One turn of allocuvm: page v. */
    method AllocNext(d: Frame, lo: nat, v: nat, ghost hi: nat, ghost was: State) returns (a: Added)
      requires Inv(Now()) && d in dir && lo <= v < hi <= KERNPAGE && RangeFree(was, d, Kmap(lo, hi - lo, 0, 0))
      requires Works(was, Now(), d) && SameHeld(was, Now(), d) && Keeps(was, Now(), d, 0, 0)
      requires Zeroed(was, Now(), d, lo, v) && Spent(was, Now(), d, Dirs(lo, v - lo), v - lo)
      modifies this
      ensures Inv(Now()) && d in dir && Works(was, Now(), d) && Keeps(was, Now(), d, 0, 0)
      ensures a.Done? ==> SameHeld(was, Now(), d) && Zeroed(was, Now(), d, lo, v + 1)
                          && Spent(was, Now(), d, Dirs(lo, v + 1 - lo), v + 1 - lo)
      ensures !a.Done? ==> Zeroed(was, Now(), d, lo, v) && |was.free| < (hi - lo) + Missing(was, d, Dirs(lo, hi - lo))
      ensures a.NoFrame? ==> SameHeld(was, Now(), d)
      ensures a.NoTable? ==> HeldFor(Now(), a.frame, d) && HeldBut(Now(), was, d, a.frame)
    {
      hide Inv, Works, SameHeld, SameLookup, OnePage, Zeroed, Keeps, HeldBut, RangeFree, Spent, Missing, Dirs, At,
          Filled, Tables;
      ghost var mid := Now();
      NotYet(was, mid, d, lo, v, hi);
      a := NewPage(d, v, Filled(0), 6);
      if a.Done? {
        NextZeroed(was, mid, Now(), d, lo, v, Pte(a.frame, 6));
      } else {
        NextRefused(was, mid, Now(), d, lo, v, hi, a);
      }
    }

    /** The way out of allocuvm when page v could not be had. */
    method PutBack(d: Frame, oldsz: nat, newsz: nat, ghost v: nat, a: Added, ghost was: State)
      requires Inv(Now()) && d in dir && Works(was, Now(), d) && Keeps(was, Now(), d, 0, 0) && !a.Done?
      requires oldsz <= newsz < KERNBASE && Pages(oldsz) <= v < Pages(newsz)
      requires RangeFree(was, d, Kmap(Pages(oldsz), Pages(newsz) - Pages(oldsz), 0, 0))
      requires Zeroed(was, Now(), d, Pages(oldsz), v)
      requires a.NoFrame? ==> SameHeld(was, Now(), d)
      requires a.NoTable? ==> HeldFor(Now(), a.frame, d) && HeldBut(Now(), was, d, a.frame)
      modifies this
      ensures Inv(Now()) && Works(was, Now(), d) && SameHeld(was, Now(), d)
      ensures Keeps(was, Now(), d, 0, 0) && SameLookup(was, Now())
    {
      hide Inv, Works, SameLookup, SameHeld, OnePage, HeldBut, Keeps, RangeFree, Zeroed, Unmapped;
      ghost var bad := Now();
      var _ := DeallocUvm(d, newsz, oldsz);
      WorksTrans(was, bad, Now(), d);
      Undone(was, bad, Now(), d, Pages(oldsz), v, Pages(newsz));
      HeldThrough(was, bad, Now(), d, a);
      if a.NoTable? {
        ghost var full := Now();
        Kfree(a.frame, d);
        WorksTrans(was, full, Now(), d);
        LetGo(was, full, d, a.frame);
      }
    }

    /** The loop of allocuvm. */
    method AllocPages(d: Frame, oldsz: nat, newsz: nat) returns (ok: bool)
      requires Inv(Now()) && d in dir && oldsz <= newsz < KERNBASE && Pages(oldsz) <= Pages(newsz) <= KERNPAGE
      requires RangeFree(Now(), d, Kmap(Pages(oldsz), Pages(newsz) - Pages(oldsz), 0, 0))
      modifies this
      ensures Inv(Now()) && Works(old(Now()), Now(), d) && SameHeld(old(Now()), Now(), d)
      ensures Keeps(old(Now()), Now(), d, 0, 0)
      ensures var n := Pages(newsz) - Pages(oldsz);
              && (ok <==> |old(free)| >= n + Missing(old(Now()), d, Dirs(Pages(oldsz), n)))
              && (ok ==> Spent(old(Now()), Now(), d, Dirs(Pages(oldsz), n), n))
      ensures ok ==> Zeroed(old(Now()), Now(), d, Pages(oldsz), Pages(newsz))
      ensures !ok ==> SameLookup(old(Now()), Now()) && newsz > 0
    {
      hide Inv, Works, SameLookup, SameHeld, HeldBut, Keeps, RangeFree, Zeroed, Spent, Missing, Dirs, Pages, Tables;
      ghost var was := Now();
      Unchanged(was, d);
      NothingUnmapped(was, d, 0, 0);
      var lo, hi := Pages(oldsz), Pages(newsz);
      NothingZeroed(was, d, lo);
      SpentNothing(was, d);
      DirsStep(lo, 0);
      var v := lo;
      while v < hi
        invariant lo <= v <= hi && d in dir
        invariant Inv(Now()) && Works(was, Now(), d) && SameHeld(was, Now(), d) && Keeps(was, Now(), d, 0, 0)
        invariant Zeroed(was, Now(), d, lo, v) && Spent(was, Now(), d, Dirs(lo, v - lo), v - lo)
      {
        var a := AllocNext(d, lo, v, hi, was);
        if !a.Done? {
          PutBack(d, oldsz, newsz, v, a, was);
          PagesOk(0, newsz);
          return false;
        }
        v := v + 1;
      }
      Affordable(was, Now(), d, Dirs(lo, hi - lo), hi - lo);
      ok := true;
    }

    /** allocuvm: grows d to newsz bytes, or puts every mapping back as it was. */
    method AllocUvm(d: Frame, oldsz: nat, newsz: nat) returns (r: nat)
      requires Inv(Now()) && d in dir
      requires RangeFree(Now(), d, Kmap(Pages(oldsz), if oldsz <= newsz then Pages(newsz) - Pages(oldsz) else 0, 0, 0))
      modifies this
      ensures Inv(Now()) && Works(old(Now()), Now(), d) && SameHeld(old(Now()), Now(), d)
              && Keeps(old(Now()), Now(), d, 0, 0)
      ensures newsz >= KERNBASE ==> r == 0 && Now() == old(Now())
      ensures newsz < KERNBASE && newsz < oldsz ==> r == oldsz && Now() == old(Now())
      ensures oldsz <= newsz < KERNBASE ==> r == 0 || r == newsz
      ensures oldsz <= newsz < KERNBASE ==>
                var n := Pages(newsz) - Pages(oldsz);
                && (r == newsz <==> |old(free)| >= n + Missing(old(Now()), d, Dirs(Pages(oldsz), n)))
                && (r == newsz ==> Spent(old(Now()), Now(), d, Dirs(Pages(oldsz), n), n))
      ensures oldsz <= newsz < KERNBASE && r == newsz ==> Zeroed(old(Now()), Now(), d, Pages(oldsz), Pages(newsz))
      ensures oldsz <= newsz < KERNBASE && r != newsz ==> SameLookup(old(Now()), Now())
    {
      ghost var was := Now();
      Unchanged(was, d);
      NothingUnmapped(was, d, 0, 0);
      if newsz >= KERNBASE {
        return 0;
      }
      if newsz < oldsz {
        return oldsz;
      }
      PagesOk(oldsz, newsz);
      hide Inv, Works, SameLookup, SameHeld, Keeps, RangeFree, Zeroed, Spent, Missing, Dirs;
      var ok := AllocPages(d, oldsz, newsz);
      r := if ok then newsz else 0;
    }

    /** One turn of copyuvm: page v. */
    method CopyNext(p: Frame, d: Frame, v: nat, ghost n: nat, kmap: seq<Kmap>, ghost was: State, ghost bare: State)
      returns (a: Added)
      requires Inv(was) && Inv(Now()) && p in dir && p != d && d in dir && v < n <= KERNPAGE
      requires Works(was, Now(), d) && NoneHeld(Now(), d) && At(was, p, v).Some?
      requires KernelMapped(Now(), d, kmap, |kmap|) && Copied(was, Now(), p, d, v)
      requires Spent(bare, Now(), d, Dirs(0, v), v)
      modifies this
      ensures Inv(Now()) && Works(was, Now(), d) && d in dir && p in dir
      ensures a.Done? ==> && NoneHeld(Now(), d) && KernelMapped(Now(), d, kmap, |kmap|)
                          && Copied(was, Now(), p, d, v + 1) && Spent(bare, Now(), d, Dirs(0, v + 1), v + 1)
      ensures !a.Done? ==> |bare.free| < n + Missing(bare, d, Dirs(0, n))
      ensures a.NoFrame? ==> NoneHeld(Now(), d)
      ensures a.NoTable? ==> HeldFor(Now(), a.frame, d) && NoneHeld(Release(Now(), a.frame), d)
    {
      hide Inv, Works, SameLookup, SameHeld, OnePage, Keeps, NoneHeld, KernelMapped, Copied, HeldBut, Spent, Missing,
          Dirs, At, Tables;
      ghost var mid := Now();
      NextSource(was, mid, p, d, v);
      var page, flags := Peek(p, v);
      a := NewPage(d, v, page, flags);
      WorksTrans(was, mid, Now(), d);
      if a.Done? {
        CopyStep(was, mid, Now(), p, d, v, Pte(a.frame, flags), kmap);
        DirsStep(0, v);
        SpentMore(bare, mid, Now(), d, Dirs(0, v), {Pdx(v)}, v, 1);
      } else {
        CopyRefused(bare, mid, Now(), d, v, n, a);
      }
    }

    /** The contents and flags of a present page. */
    method Peek(p: Frame, v: nat) returns (page: Page, flags: nat)
      requires Inv(Now()) && p in dir && v < KERNPAGE && At(Now(), p, v).Some?
      ensures page == PageAt(Now(), At(Now(), p, v).value.frame) && flags == At(Now(), p, v).value.flags
    {
      var t := dir[p][v / NPD];
      var pte := table[t][v % NPD];
      page, flags := if pte.frame in mem then mem[pte.frame] else [], pte.flags;
    }

    /** copyuvm: a new address space with copies of p's first sz bytes, or nothing at all. */
    method CopyUvm(p: Frame, sz: nat, kmap: seq<Kmap>) returns (r: Option<Frame>)
      requires Inv(Now()) && p in dir && sz <= KERNBASE && Layout(kmap)
      requires forall v: nat :: v < Pages(sz) ==> At(Now(), p, v).Some?
      modifies this
      ensures Inv(Now())
      ensures r.None? ==> Restored(old(Now()), Now())
      ensures r.Some? ==>
                && r.value in old(free) && Works(old(Now()), Now(), r.value) && NoneHeld(Now(), r.value)
                && KernelMapped(Now(), r.value, kmap, |kmap|)
                && Copied(old(Now()), Now(), p, r.value, Pages(sz))
      ensures r.Some? <==> |old(free)| >= 1 + |KmapDirs(kmap, |kmap|)| + Pages(sz) + |Dirs(0, Pages(sz))|
    {
      hide Inv, Works, NoUser, NoneHeld, KernelMapped, Copied, Restored, Gone, Spent, Missing, Dirs, At, KmapDirs,
          Layout, Tables;
      ghost var was := Now();
      r := SetupKvm(kmap);
      if r.None? {
        return;
      }
      var d := r.value;
      FreshFrame(was, d);
      NothingCopied(was, Now(), p, d);
      ghost var bare := Now();
      assert p in dir by { StillThere(was, bare, d, p); }
      SpentNothing(bare, d);
      DirsStep(0, 0);
      UserDirs(bare, d, kmap, Pages(sz));
      var v: nat := 0;
      while v < Pages(sz)
        invariant 0 <= v <= Pages(sz) && d in dir && p in dir
        invariant Inv(Now()) && Works(was, Now(), d) && NoneHeld(Now(), d)
        invariant KernelMapped(Now(), d, kmap, |kmap|) && Copied(was, Now(), p, d, v)
        invariant Spent(bare, Now(), d, Dirs(0, v), v)
      {
        var a := CopyNext(p, d, v, Pages(sz), kmap, was, bare);
        if !a.Done? {
          if a.NoTable? {
            ghost var full := Now();
            Kfree(a.frame, d);
            WorksTrans(was, full, Now(), d);
          }
          ghost var bad := Now();
          FreeVm(d);
          WorksTrans(was, bad, Now(), d);
          RollsBack(was, Now(), d);
          return None;
        }
        v := v + 1;
      }
      Affordable(bare, Now(), d, Dirs(0, Pages(sz)), Pages(sz));
    }
  }

  lemma UserPageOk(s: State, t: State, d: Frame, v: nat, pte: Pte)
    requires Inv(t) && Works(s, t, d) && SameHeld(s, t, d) && SameLookup(s, t)
    requires HasTable(t, d, Pdx(v)) && v < KERNPAGE && HeldFor(s, pte.frame, d) && At(s, d, v) == None
    ensures Pdx(v) < KERNPD && HeldFor(t, pte.frame, d) && At(t, d, v) == None
    ensures var u := MapUser(t, d, Pdx(v), Ptx(v), pte);
            Inv(u) && Works(s, u, d) && OnePage(s, u, d, v, Some(pte)) && HeldBut(s, u, d, pte.frame)
  {
    var u := MapUser(t, d, Pdx(v), Ptx(v), pte);
    assert HeldFor(t, pte.frame, d) && At(t, d, v) == None;
    MapUserOk(t, d, Pdx(v), Ptx(v), pte);
    WorksTrans(s, t, u, d);
  }

  lemma KernelPageOk(s: State, t: State, d: Frame, v: nat, pte: Pte)
    requires Inv(t) && Works(s, t, d) && SameHeld(s, t, d) && SameLookup(s, t)
    requires HasTable(t, d, Pdx(v)) && KERNPAGE <= v < NPD * NPD
    ensures var u := SetPte(t, d, Pdx(v), Ptx(v), Some(pte));
            Inv(u) && Works(s, u, d) && OnePage(s, u, d, v, Some(pte)) && SameHeld(s, u, d)
  {
    var u := SetPte(t, d, Pdx(v), Ptx(v), Some(pte));
    MapKernelOk(t, d, Pdx(v), Ptx(v), pte);
    SetPteLookup(t, d, Pdx(v), Ptx(v), Some(pte));
    WorksTrans(s, t, u, d);
  }

  lemma HeldTrans(s: State, t: State, u: State, d: Frame)
    requires SameHeld(s, t, d) && SameHeld(t, u, d)
    ensures SameHeld(s, u, d)
  {
  }

  // ---------------------------------------------------------------- the kernel part

  /** A row of kmap: count pages from virtual page first, mapped to the frames from frame on. */
  datatype Kmap = Kmap(first: nat, count: nat, frame: nat, flags: nat)

  predicate KmapOk(k: Kmap) { KERNPAGE <= k.first && k.first + k.count <= NPD * NPD }

  predicate InPages(i: nat, j: nat, lo: nat, hi: nat) { j < NPD && lo <= i * NPD + j < hi }

  function RangePte(k: Kmap, n: nat, i: nat, j: nat): Option<Pte> {
    if InPages(i, j, k.first, k.first + n) then Some(Pte(k.frame + (i * NPD + j - k.first), k.flags)) else None
  }

  predicate RangeAt(s: State, t: State, d: Frame, k: Kmap, n: nat, e: Frame, i: nat, j: nat) {
    Lookup(t, e, i, j) == if e == d && RangePte(k, n, i, j).Some? then RangePte(k, n, i, j) else Lookup(s, e, i, j)
  }

  /** The first n pages of row k are mapped in d, and nothing else is different. */
  ghost predicate RangeMapped(s: State, t: State, d: Frame, k: Kmap, n: nat) {
    forall e: Frame, i: nat, j: nat {:trigger RangeAt(s, t, d, k, n, e, i, j)} :: RangeAt(s, t, d, k, n, e, i, j)
  }

  /** No page of row k is mapped: mappages would panic on one that is. */
  ghost predicate RangeFree(s: State, d: Frame, k: Kmap) {
    forall i: nat, j: nat :: InPages(i, j, k.first, k.first + k.count) ==> Lookup(s, d, i, j) == None
  }

  lemma KmapRange(k: Kmap, n: nat)
    requires KmapOk(k) && n < k.count
    ensures KERNPAGE <= k.first + n < NPD * NPD
  {
  }

  lemma StillFree(s: State, t: State, d: Frame, k: Kmap, n: nat)
    requires RangeFree(s, d, k) && RangeMapped(s, t, d, k, n) && n < k.count
    ensures At(t, d, k.first + n) == None
  {
    var v := k.first + n;
    PageIndex(Pdx(v), Ptx(v), v);
    assert RangeAt(s, t, d, k, n, d, Pdx(v), Ptx(v));
    assert InPages(Pdx(v), Ptx(v), k.first, k.first + k.count);
  }

  lemma NoneMapped(s: State, d: Frame, k: Kmap)
    ensures RangeMapped(s, s, d, k, 0)
  {
    forall e: Frame, i: nat, j: nat ensures RangeAt(s, s, d, k, 0, e, i, j) { }
  }

  lemma PageIndex(i: nat, j: nat, v: nat)
    ensures j < NPD && i * NPD + j == v <==> (i, j) == (Pdx(v), Ptx(v))
  {
  }

  lemma RangeStep(s: State, t: State, u: State, d: Frame, k: Kmap, n: nat)
    requires RangeMapped(s, t, d, k, n) && OnePage(t, u, d, k.first + n, Some(Pte(k.frame + n, k.flags)))
    ensures RangeMapped(s, u, d, k, n + 1)
  {
    var m: nat := n + 1;
    forall e: Frame, i: nat, j: nat ensures RangeAt(s, u, d, k, m, e, i, j) {
      assert RangeAt(s, t, d, k, n, e, i, j);
      PageIndex(i, j, k.first + n);
    }
  }

  lemma NextMapped(s: State, t: State, u: State, d: Frame, k: Kmap, n: nat)
    requires Works(s, t, d) && SameHeld(s, t, d) && RangeMapped(s, t, d, k, n) && Spent(s, t, d, Dirs(k.first, n), 0)
    requires Works(t, u, d) && SameHeld(t, u, d) && OnePage(t, u, d, k.first + n, Some(Pte(k.frame + n, k.flags)))
    requires Spent(t, u, d, {Pdx(k.first + n)}, 0)
    ensures Works(s, u, d) && SameHeld(s, u, d) && RangeMapped(s, u, d, k, n + 1)
    ensures Spent(s, u, d, Dirs(k.first, n + 1), 0)
  {
    hide *;
    WorksTrans(s, t, u, d);
    HeldTrans(s, t, u, d);
    RangeStep(s, t, u, d, k, n);
    SpentMore(s, t, u, d, Dirs(k.first, n), {Pdx(k.first + n)}, 0, 0);
    DirsStep(k.first, n);
  }

  lemma NextMissing(s: State, t: State, d: Frame, k: Kmap, n: nat)
    requires Spent(s, t, d, Dirs(k.first, n), 0) && n < k.count
    requires Pdx(k.first + n) !in Tables(t, d) && t.free == []
    ensures |s.free| < Missing(s, d, Dirs(k.first, k.count))
  {
    hide *;
    DirsGrow(k.first, n, k.count);
    NoTableLeft(s, t, d, Dirs(k.first, n), Dirs(k.first, k.count), k.first + n);
  }

  // ---------------------------------------------------------------- giving pages back

  const PGSIZE: nat := 4096
  const KERNBASE: nat := 0x8000_0000

  function Min(a: nat, b: nat): nat { if a <= b then a else b }

  /** How many pages sz bytes take: the page number of PGROUNDUP(sz). */
  function Pages(sz: nat): nat { (sz + PGSIZE - 1) / PGSIZE }

  lemma PagesOk(a: nat, b: nat)
    requires a <= b
    ensures Pages(a) <= Pages(b) && (b <= KERNBASE ==> Pages(b) <= KERNPAGE) && (b == 0 ==> Pages(b) == 0)
  {
  }

  predicate UnmappedAt(s: State, t: State, d: Frame, lo: nat, hi: nat, e: Frame, i: nat, j: nat) {
    Lookup(t, e, i, j) == if e == d && InPages(i, j, lo, hi) then None else Lookup(s, e, i, j)
  }

  /** Exactly the pages lo..hi of d are gone. */
  ghost predicate Unmapped(s: State, t: State, d: Frame, lo: nat, hi: nat) {
    forall e: Frame, i: nat, j: nat {:trigger UnmappedAt(s, t, d, lo, hi, e, i, j)} ::
      UnmappedAt(s, t, d, lo, hi, e, i, j)
  }

  predicate KeepsAt(s: State, t: State, d: Frame, lo: nat, hi: nat, e: Frame, i: nat, j: nat) {
    i < KERNPD && Lookup(s, e, i, j).Some? && !(e == d && InPages(i, j, lo, hi)) ==>
      Lookup(t, e, i, j) == Lookup(s, e, i, j)
      && PageAt(t, Lookup(s, e, i, j).value.frame) == PageAt(s, Lookup(s, e, i, j).value.frame)
  }

  /** Every user page of s outside lo..hi of d is in t, with the same contents. */
  ghost predicate Keeps(s: State, t: State, d: Frame, lo: nat, hi: nat) {
    forall e: Frame, i: nat, j: nat {:trigger KeepsAt(s, t, d, lo, hi, e, i, j)} :: KeepsAt(s, t, d, lo, hi, e, i, j)
  }

  lemma NothingUnmapped(s: State, d: Frame, lo: nat, hi: nat)
    ensures Unmapped(s, s, d, lo, Min(lo, hi)) && Keeps(s, s, d, lo, hi)
  {
    var m := Min(lo, hi);
    forall e: Frame, i: nat, j: nat ensures UnmappedAt(s, s, d, lo, m, e, i, j) { }
    forall e: Frame, i: nat, j: nat ensures KeepsAt(s, s, d, lo, hi, e, i, j) { }
  }

  lemma NoPage(s: State, d: Frame, v: nat)
    requires At(s, d, v) == None
    ensures OnePage(s, s, d, v, None) && Works(s, s, d) && SameHeld(s, s, d) && Keeps(s, s, d, v, v + 1)
  {
    Unchanged(s, d);
    NothingUnmapped(s, d, v, v + 1);
  }

  /** Without a table, no page of its 4 MB is mapped: the whole stretch can be skipped. */
  lemma SkipTable(s: State, t: State, d: Frame, lo: nat, v: nat, hi: nat)
    requires Unmapped(s, t, d, lo, Min(v, hi)) && lo <= v < hi && d in t.dir && Pdx(v) !in t.dir[d]
    ensures Unmapped(s, t, d, lo, Min((Pdx(v) + 1) * NPD, hi))
  {
    var m, n := Min(v, hi), Min((Pdx(v) + 1) * NPD, hi);
    forall e: Frame, i: nat, j: nat ensures UnmappedAt(s, t, d, lo, n, e, i, j) {
      assert UnmappedAt(s, t, d, lo, m, e, i, j);
      if InPages(i, j, v, n) { InStretch(v, i, j); }
    }
  }

  lemma InStretch(v: nat, i: nat, j: nat)
    requires j < NPD && v <= i * NPD + j < (Pdx(v) + 1) * NPD
    ensures i == Pdx(v)
  {
  }

  lemma UnmapStep(s: State, t: State, u: State, d: Frame, lo: nat, v: nat, hi: nat)
    requires Unmapped(s, t, d, lo, Min(v, hi)) && Keeps(s, t, d, lo, hi) && lo <= v < hi
    requires OnePage(t, u, d, v, None) && Keeps(t, u, d, v, v + 1)
    ensures Unmapped(s, u, d, lo, Min(v + 1, hi)) && Keeps(s, u, d, lo, hi)
  {
    var w: nat := v + 1;
    forall e: Frame, i: nat, j: nat ensures UnmappedAt(s, u, d, lo, w, e, i, j) {
      assert UnmappedAt(s, t, d, lo, v, e, i, j);
      PageIndex(i, j, v);
    }
    forall e: Frame, i: nat, j: nat ensures KeepsAt(s, u, d, lo, hi, e, i, j) {
      assert KeepsAt(s, t, d, lo, hi, e, i, j) && KeepsAt(t, u, d, v, w, e, i, j);
    }
  }

  lemma PageFreed(s: State, d: Frame, v: nat)
    requires Inv(s) && v < KERNPAGE && HasTable(s, d, Pdx(v)) && At(s, d, v).Some?
    ensures var f := At(s, d, v).value.frame;
            var t := UnmapUser(s, d, Pdx(v), Ptx(v));
            var u := Release(t, f);
            Inv(t) && HeldFor(t, f, d) && Works(s, u, d) && SameHeld(s, u, d) && OnePage(s, u, d, v, None)
              && Keeps(s, u, d, v, v + 1)
  {
    var f := At(s, d, v).value.frame;
    var t := UnmapUser(s, d, Pdx(v), Ptx(v));
    var u := Release(t, f);
    UnmapUserOk(s, d, Pdx(v), Ptx(v));
    ReleaseOk(t, f, d);
    WorksTrans(s, t, u, d);
    assert PteOk(s, d, Pdx(v), Ptx(v));
    forall e: Frame, i: nat, j: nat
      ensures Lookup(u, e, i, j) == if (e, i, j) == (d, Pdx(v), Ptx(v)) then None else Lookup(s, e, i, j)
    {
      assert Lookup(u, e, i, j) == Lookup(t, e, i, j);
    }
    var w: nat := v + 1;
    forall e: Frame, i: nat, j: nat ensures KeepsAt(s, u, d, v, w, e, i, j) {
      assert PteOk(s, e, i, j);
      PageIndex(i, j, v);
    }
  }

  // ---------------------------------------------------------------- whole directories

  ghost predicate NoUser(s: State, d: Frame) { forall i: nat, j: nat :: i < KERNPD ==> Lookup(s, d, i, j) == None }

  ghost predicate NoneHeld(s: State, d: Frame) { forall f: Frame :: !HeldFor(s, f, d) }

  lemma AllUnmapped(s: State, t: State, d: Frame)
    requires Inv(t) && Unmapped(s, t, d, Pages(0), Pages(KERNBASE)) && SameHeld(s, t, d) && NoneHeld(s, d)
    ensures NoUser(t, d) && NoneHeld(t, d)
  {
    forall i: nat, j: nat | i < KERNPD ensures Lookup(t, d, i, j) == None {
      assert UnmappedAt(s, t, d, Pages(0), Pages(KERNBASE), d, i, j) && PteOk(t, d, i, j);
      if j < NPD { assert i * NPD + j < KERNPAGE; }
    }
  }

  lemma TableFreed(s: State, d: Frame, i: nat)
    requires Inv(s) && HasTable(s, d, i) && NoUser(s, d) && NoneHeld(s, d)
    ensures var f := s.dir[d][i];
            var t := DropTable(s, d, i);
            var u := Release(t, f);
            Inv(t) && HeldFor(t, f, d) && Works(s, u, d) && NoUser(u, d) && NoneHeld(u, d)
  {
    var f := s.dir[d][i];
    var t := DropTable(s, d, i);
    var u := Release(t, f);
    DropTableOk(s, d, i);
    ReleaseOk(t, f, d);
    WorksTrans(s, t, u, d);
    forall k: nat, j: nat | k < KERNPD ensures Lookup(u, d, k, j) == None {
      assert Lookup(u, d, k, j) == Lookup(t, d, k, j);
    }
    forall g: Frame ensures !HeldFor(u, g, d) { assert !HeldFor(s, g, d); }
  }

  lemma SlotIndices(s: State, d: Frame)
    requires Inv(s) && d in s.dir
    ensures forall k: nat :: k in s.dir[d] ==> k < NPD
  {
    forall k: nat | k in s.dir[d] ensures k < NPD { assert SlotOk(s, d, k) && FrameOk(s, s.dir[d][k]); }
  }

  lemma DirFreed(s: State, d: Frame)
    requires Inv(s) && d in s.dir && s.dir[d] == NoTables && NoneHeld(s, d)
    ensures var t := DropDir(s, d);
            var u := Release(t, d);
            Inv(t) && HeldFor(t, d, d) && Works(s, u, d) && Gone(u, d)
  {
    var t := DropDir(s, d);
    var u := Release(t, d);
    DropDirOk(s, d);
    ReleaseOk(t, d, d);
    WorksTrans(s, t, u, d);
    GoneWithDir(u, d);
  }

  /** Nothing belongs to a frame that is not allocated. */
  lemma GoneWithDir(s: State, d: Frame)
    requires Inv(s) && d !in s.owner
    ensures Gone(s, d)
  {
    assert FrameOk(s, d);
    forall f: Frame | f in s.owner ensures !Belongs(s.owner[f], d) { assert FrameOk(s, f); }
  }

  lemma NothingChanged(s: State)
    ensures Restored(s, s)
  {
  }

  lemma FreshDir(s: State, d: Frame)
    requires Inv(s) && s.free != [] && d == s.free[0]
    ensures var t := NewDir(Hold(s, d), d); Inv(t) && Works(s, t, d) && NoUser(t, d) && NoneHeld(t, d)
    ensures Gone(s, d)
  {
    var h := Hold(s, d);
    var t := NewDir(h, d);
    assert FrameOk(s, d);
    GoneWithDir(s, d);
    HoldOk(s, d);
    NewDirOk(h, d);
    WorksTrans(s, h, t, d);
    forall f: Frame ensures !HeldFor(t, f, d) { }
    forall i: nat, j: nat | i < KERNPD ensures Lookup(t, d, i, j) == None { }
  }

  /** Rows of kernel pages, in address order and apart. */
  predicate Layout(kmap: seq<Kmap>) {
    && (forall a :: 0 <= a < |kmap| ==> KmapOk(kmap[a]))
    && (forall a, b :: 0 <= a < b < |kmap| ==> kmap[a].first + kmap[a].count <= kmap[b].first)
  }

  /** The table of vm.c, with the kernel's data starting at virtual page `data`. */
  function XvKmap(data: nat): seq<Kmap>
    requires 0x80100 <= data <= 0x8E000
  {
    [ Kmap(0x80000, 0x100, 0, 2),
      Kmap(0x80100, data - 0x80100, 0x100, 0),
      Kmap(data, 0x8E000 - data, data - 0x80000, 2),
      Kmap(0xFE000, 0x2000, 0xFE000, 2) ]
  }

  lemma XvLayout(data: nat)
    requires 0x80100 <= data <= 0x8E000
    ensures Layout(XvKmap(data))
  {
  }

  /** The directory slots of the first n rows. */
  function KmapDirs(kmap: seq<Kmap>, n: nat): set<nat>
    requires n <= |kmap|
  {
    if n == 0 then {} else KmapDirs(kmap, n - 1) + Dirs(kmap[n - 1].first, kmap[n - 1].count)
  }

  lemma {:induction false} KmapDirsGrow(kmap: seq<Kmap>, m: nat, n: nat)
    requires m <= n <= |kmap|
    ensures KmapDirs(kmap, m) <= KmapDirs(kmap, n)
    decreases n
  {
    if m < n { KmapDirsGrow(kmap, m, n - 1); }
  }

  lemma RowDirs(kmap: seq<Kmap>, n: nat)
    requires n <= |kmap|
    ensures KmapDirs(kmap, 0) == {}
    ensures n < |kmap| ==> KmapDirs(kmap, n + 1) == KmapDirs(kmap, n) + Dirs(kmap[n].first, kmap[n].count)
  {
  }

  lemma NoTablesYet(s: State, d: Frame)
    requires d in s.dir && s.dir[d] == NoTables
    ensures Tables(s, d) == {}
  {
  }

  lemma KernelSpent(s: State, t: State, d: Frame, kmap: seq<Kmap>)
    requires Spent(s, t, d, KmapDirs(kmap, |kmap|), 0) && Tables(s, d) == {}
    ensures Tables(t, d) == KmapDirs(kmap, |kmap|) && |t.free| + |KmapDirs(kmap, |kmap|)| == |s.free|
  {
    assert {} + KmapDirs(kmap, |kmap|) == KmapDirs(kmap, |kmap|);
  }

  /** User pages and kernel rows share no slot. */
  lemma UserDirs(s: State, d: Frame, kmap: seq<Kmap>, n: nat)
    requires Layout(kmap) && n <= KERNPAGE && Tables(s, d) == KmapDirs(kmap, |kmap|)
    ensures Missing(s, d, Dirs(0, n)) == |Dirs(0, n)|
  {
    forall i | i in Dirs(0, n) ensures i !in Tables(s, d) {
      DirsRange(0, n, i);
      if i in KmapDirs(kmap, |kmap|) { KmapDirsRange(kmap, |kmap|, i); }
    }
    assert Dirs(0, n) - Tables(s, d) == Dirs(0, n);
  }

  lemma {:induction false} DirsRange(first: nat, n: nat, i: nat)
    requires i in Dirs(first, n)
    ensures n > 0 && Pdx(first) <= i <= Pdx(first + n - 1)
  {
    if i in Dirs(first, n - 1) { DirsRange(first, n - 1, i); }
  }

  lemma {:induction false} DirsCover(first: nat, n: nat, i: nat)
    requires n > 0 && Pdx(first) <= i <= Pdx(first + n - 1)
    ensures i in Dirs(first, n)
  {
    if n > 1 && i <= Pdx(first + n - 2) { DirsCover(first, n - 1, i); }
  }

  function Range(lo: nat, n: nat): (r: set<nat>)
    ensures |r| == n && forall i: nat :: i in r <==> lo <= i < lo + n
  {
    if n == 0 then {} else Range(lo, n - 1) + {lo + n - 1}
  }

  /** The tables n user pages need: one for every 1024. */
  lemma UserTables(n: nat)
    ensures |Dirs(0, n)| == (n + NPD - 1) / NPD
  {
    var k := (n + NPD - 1) / NPD;
    forall i: nat ensures i in Dirs(0, n) <==> i in Range(0, k) {
      if i in Dirs(0, n) { DirsRange(0, n, i); }
      if n > 0 && i < k { DirsCover(0, n, i); }
    }
    assert Dirs(0, n) == Range(0, k);
  }

  /** The kernel's rows need 64 tables, wherever its data starts. */
  lemma KernelTables(data: nat)
    requires 0x80100 <= data <= 0x8E000
    ensures |KmapDirs(XvKmap(data), 4)| == 64
  {
    hide KmapDirs, Range, XvKmap;
    XvRows(data);
    var kmap, low, high := XvKmap(data), Range(512, 56), Range(1016, 8);
    forall i: nat ensures i in KmapDirs(kmap, 4) <==> i in low + high { KernelSlot(data, i); }
    assert KmapDirs(kmap, 4) == low + high;
    UnionSize(low, high);
    assert high - low == high;
  }

  lemma XvRows(data: nat)
    requires 0x80100 <= data <= 0x8E000
    ensures |XvKmap(data)| == 4
  {
  }

  lemma KernelSlot(data: nat, i: nat)
    requires 0x80100 <= data <= 0x8E000
    ensures i in KmapDirs(XvKmap(data), 4) <==> 512 <= i < 568 || 1016 <= i < 1024
  {
    var kmap := XvKmap(data);
    hide Dirs, KmapDirs;
    RowOf(kmap, i);
    if 512 <= i < 568 || 1016 <= i < 1024 {
      KernelRow(data, i);
    } else {
      forall n | 0 <= n < 4 ensures i !in Dirs(kmap[n].first, kmap[n].count) {
        if i in Dirs(kmap[n].first, kmap[n].count) { DirsRange(kmap[n].first, kmap[n].count, i); }
      }
    }
  }

  lemma RowOf(kmap: seq<Kmap>, i: nat)
    requires |kmap| == 4
    ensures i in KmapDirs(kmap, 4) <==> exists n :: 0 <= n < 4 && i in Dirs(kmap[n].first, kmap[n].count)
  {
    RowDirs(kmap, 0);
    RowDirs(kmap, 1);
    RowDirs(kmap, 2);
    RowDirs(kmap, 3);
  }

  lemma KernelRow(data: nat, i: nat)
    requires 0x80100 <= data <= 0x8E000 && (512 <= i < 568 || 1016 <= i < 1024)
    ensures exists n :: 0 <= n < 4 && i in Dirs(XvKmap(data)[n].first, XvKmap(data)[n].count)
  {
    var kmap := XvKmap(data);
    var n := if i == 512 then 0 else if i >= 1016 then 3 else if data > 0x80100 && i <= Pdx(data - 1) then 1 else 2;
    DirsCover(kmap[n].first, kmap[n].count, i);
  }

  lemma {:induction false} KmapDirsRange(kmap: seq<Kmap>, n: nat, i: nat)
    requires n <= |kmap| && (forall a :: 0 <= a < |kmap| ==> KmapOk(kmap[a])) && i in KmapDirs(kmap, n)
    ensures i >= KERNPD
  {
    if i in KmapDirs(kmap, n - 1) {
      KmapDirsRange(kmap, n - 1, i);
    } else {
      DirsRange(kmap[n - 1].first, kmap[n - 1].count, i);
    }
  }

  /** When there is no frame for a table of row i, there are too few for all rows. */
  lemma RowTooLong(s: State, t: State, d: Frame, kmap: seq<Kmap>, i: nat)
    requires i < |kmap| && Spent(s, t, d, KmapDirs(kmap, i), 0) && Tables(s, d) == {}
    requires |t.free| < Missing(t, d, Dirs(kmap[i].first, kmap[i].count))
    ensures |s.free| < |KmapDirs(kmap, |kmap|)|
  {
    hide Dirs, KmapDirs, Tables, Missing;
    var done, row := KmapDirs(kmap, i), Dirs(kmap[i].first, kmap[i].count);
    MissingIs(t, d, row);
    assert {} + done == done;
    UnionSize(done, row);
    RowDirs(kmap, i);
    KmapDirsGrow(kmap, i + 1, |kmap|);
    Subset(done + row, KmapDirs(kmap, |kmap|));
  }

  /** What the rows of kmap below n say of (i, j). */
  function KmapPte(kmap: seq<Kmap>, n: nat, i: nat, j: nat): Option<Pte>
    requires n <= |kmap|
  {
    if n == 0 then None
    else if RangePte(kmap[n - 1], kmap[n - 1].count, i, j).Some? then RangePte(kmap[n - 1], kmap[n - 1].count, i, j)
    else KmapPte(kmap, n - 1, i, j)
  }

  predicate KernelAt(s: State, d: Frame, kmap: seq<Kmap>, n: nat, i: nat, j: nat)
    requires n <= |kmap|
  {
    i >= KERNPD ==> Lookup(s, d, i, j) == KmapPte(kmap, n, i, j)
  }

  /** The kernel part of d is exactly the first n rows of kmap. */
  ghost predicate KernelMapped(s: State, d: Frame, kmap: seq<Kmap>, n: nat)
    requires n <= |kmap|
  {
    forall i: nat, j: nat {:trigger KernelAt(s, d, kmap, n, i, j)} :: KernelAt(s, d, kmap, n, i, j)
  }

  lemma {:induction false} BelowRow(kmap: seq<Kmap>, m: nat, n: nat, i: nat, j: nat)
    requires Layout(kmap) && m <= n < |kmap| && InPages(i, j, kmap[n].first, kmap[n].first + kmap[n].count)
    ensures KmapPte(kmap, m, i, j) == None
  {
    if m > 0 { BelowRow(kmap, m - 1, n, i, j); }
  }

  lemma RowFree(s: State, d: Frame, kmap: seq<Kmap>, n: nat)
    requires Layout(kmap) && n < |kmap| && KernelMapped(s, d, kmap, n)
    ensures RangeFree(s, d, kmap[n])
  {
    forall i: nat, j: nat | InPages(i, j, kmap[n].first, kmap[n].first + kmap[n].count)
      ensures Lookup(s, d, i, j) == None
    {
      assert KernelAt(s, d, kmap, n, i, j);
      BelowRow(kmap, n, n, i, j);
    }
  }

  lemma EmptyDir(s: State, d: Frame, kmap: seq<Kmap>)
    requires d in s.dir && s.dir[d] == NoTables
    ensures KernelMapped(s, d, kmap, 0)
  {
    forall i: nat, j: nat ensures KernelAt(s, d, kmap, 0, i, j) { }
  }

  /** Mapping kernel rows leaves the user part empty. */
  lemma KernelRange(s: State, t: State, d: Frame, k: Kmap)
    requires NoUser(s, d) && NoneHeld(s, d) && SameHeld(s, t, d) && KmapOk(k)
    requires exists n: nat :: n <= k.count && RangeMapped(s, t, d, k, n)
    ensures NoUser(t, d) && NoneHeld(t, d)
  {
    var n: nat :| n <= k.count && RangeMapped(s, t, d, k, n);
    forall i: nat, j: nat | i < KERNPD ensures Lookup(t, d, i, j) == None { assert RangeAt(s, t, d, k, n, d, i, j); }
  }

  lemma KernelStep(s: State, t: State, d: Frame, kmap: seq<Kmap>, n: nat)
    requires n < |kmap| && KernelMapped(s, d, kmap, n) && RangeMapped(s, t, d, kmap[n], kmap[n].count)
    ensures KernelMapped(t, d, kmap, n + 1)
  {
    var m: nat := n + 1;
    forall i: nat, j: nat ensures KernelAt(t, d, kmap, m, i, j) {
      assert KernelAt(s, d, kmap, n, i, j) && RangeAt(s, t, d, kmap[n], kmap[n].count, d, i, j);
    }
  }

  /** What FreeVm puts on the free list: the frames that belonged to d, and no others. */
  lemma FreedExactly(s: State, t: State, d: Frame)
    requires Inv(s) && Inv(t) && Works(s, t, d) && Gone(t, d)
    ensures forall f: Frame :: f in t.free <==> f in s.free || (f in s.owner && Belongs(s.owner[f], d))
  {
    forall f: Frame ensures f in t.free <==> f in s.free || (f in s.owner && Belongs(s.owner[f], d)) {
      assert FrameOk(s, f) && FrameOk(t, f) && KeptFrame(s, t, d, f);
      assert f in All(s) <==> f in All(t);
    }
  }

  // ---------------------------------------------------------------- growing

  datatype Added = Done(frame: Frame) | NoFrame | NoTable(frame: Frame)

  lemma FilledOk(s: State, d: Frame, page: Page)
    requires Inv(s) && s.free != [] && d in s.dir
    ensures var t := Hold(s, d).(mem := s.mem[s.free[0] := page]);
            Inv(t) && Works(s, t, d) && HeldFor(t, s.free[0], d) && !HeldFor(s, s.free[0], d)
            && SameLookup(s, t) && Keeps(s, t, d, 0, 0) && HeldBut(t, s, d, s.free[0])
  {
    var h := Hold(s, d);
    var t := h.(mem := s.mem[s.free[0] := page]);
    HoldOk(s, d);
    assert FrameOk(s, s.free[0]);
    forall f: Frame ensures FrameOk(t, f) { assert FrameOk(h, f); }
    forall e: Frame, i: nat ensures SlotOk(t, e, i) { assert SlotOk(h, e, i); }
    forall e: Frame, i: nat, j: nat ensures PteOk(t, e, i, j) { assert PteOk(h, e, i, j); }
    forall f: Frame ensures KeptFrame(s, t, d, f) { assert KeptFrame(s, h, d, f); }
    forall e: Frame, i: nat, j: nat ensures KeepsAt(s, t, d, 0, 0, e, i, j) { assert PteOk(s, e, i, j); }
  }

  lemma PageAdded(s: State, h: State, t: State, d: Frame, v: nat, pte: Pte)
    requires SameLookup(s, h) && Keeps(s, h, d, 0, 0) && HeldBut(h, s, d, pte.frame) && At(s, d, v) == None
    requires OnePage(h, t, d, v, Some(pte)) && HeldBut(h, t, d, pte.frame) && t.mem == h.mem
    ensures OnePage(s, t, d, v, Some(pte)) && SameHeld(s, t, d) && Keeps(s, t, d, 0, 0)
  {
    forall e: Frame, i: nat, j: nat ensures KeepsAt(s, t, d, 0, 0, e, i, j) { assert KeepsAt(s, h, d, 0, 0, e, i, j); }
    forall f: Frame ensures HeldFor(s, f, d) <==> HeldFor(t, f, d) { }
  }

  lemma TableMissing(s: State, h: State, t: State, d: Frame, f: Frame)
    requires SameLookup(s, h) && Keeps(s, h, d, 0, 0) && HeldBut(h, s, d, f) && HeldFor(h, f, d)
    requires SameLookup(h, t) && SameHeld(h, t, d) && t.mem == h.mem
    ensures SameLookup(s, t) && Keeps(s, t, d, 0, 0) && HeldFor(t, f, d) && HeldBut(t, s, d, f)
  {
    forall e: Frame, i: nat, j: nat ensures KeepsAt(s, t, d, 0, 0, e, i, j) { assert KeepsAt(s, h, d, 0, 0, e, i, j); }
  }

  lemma KeepsTrans(s: State, t: State, u: State, d: Frame, lo: nat, hi: nat)
    requires Keeps(s, t, d, 0, 0) && Keeps(t, u, d, lo, hi)
    ensures Keeps(s, u, d, lo, hi)
  {
    forall e: Frame, i: nat, j: nat ensures KeepsAt(s, u, d, lo, hi, e, i, j) {
      assert KeepsAt(s, t, d, 0, 0, e, i, j) && KeepsAt(t, u, d, lo, hi, e, i, j);
    }
  }

  predicate ZeroedAt(s: State, t: State, d: Frame, lo: nat, hi: nat, e: Frame, i: nat, j: nat) {
    if e == d && InPages(i, j, lo, hi)
    then Lookup(t, e, i, j).Some? && Lookup(t, e, i, j).value.flags == 6
      && PageAt(t, Lookup(t, e, i, j).value.frame) == Filled(0)
    else Lookup(t, e, i, j) == Lookup(s, e, i, j)
  }

  /** Pages lo..hi of d are new, writable and zero; every other mapping is as it was. */
  ghost predicate Zeroed(s: State, t: State, d: Frame, lo: nat, hi: nat) {
    forall e: Frame, i: nat, j: nat {:trigger ZeroedAt(s, t, d, lo, hi, e, i, j)} :: ZeroedAt(s, t, d, lo, hi, e, i, j)
  }

  lemma NothingZeroed(s: State, d: Frame, lo: nat)
    ensures Zeroed(s, s, d, lo, lo)
  {
    forall e: Frame, i: nat, j: nat ensures ZeroedAt(s, s, d, lo, lo, e, i, j) { }
  }

  lemma NotYet(s: State, t: State, d: Frame, lo: nat, v: nat, hi: nat)
    requires lo <= v < hi && RangeFree(s, d, Kmap(lo, hi - lo, 0, 0)) && Zeroed(s, t, d, lo, v)
    ensures At(t, d, v) == None
  {
    PageIndex(Pdx(v), Ptx(v), v);
    assert ZeroedAt(s, t, d, lo, v, d, Pdx(v), Ptx(v));
    assert InPages(Pdx(v), Ptx(v), lo, lo + (hi - lo));
  }

  lemma ZeroStep(s: State, t: State, u: State, d: Frame, lo: nat, v: nat, pte: Pte)
    requires lo <= v < KERNPAGE && Zeroed(s, t, d, lo, v) && OnePage(t, u, d, v, Some(pte)) && Keeps(t, u, d, 0, 0)
    requires pte.flags == 6 && PageAt(u, pte.frame) == Filled(0)
    ensures Zeroed(s, u, d, lo, v + 1)
  {
    var w: nat := v + 1;
    forall e: Frame, i: nat, j: nat ensures ZeroedAt(s, u, d, lo, w, e, i, j) {
      assert ZeroedAt(s, t, d, lo, v, e, i, j) && KeepsAt(t, u, d, 0, 0, e, i, j);
      PageIndex(i, j, v);
      if InPages(i, j, lo, v) { assert i < KERNPD; }
    }
  }

  lemma NextZeroed(s: State, t: State, u: State, d: Frame, lo: nat, v: nat, pte: Pte)
    requires Works(s, t, d) && SameHeld(s, t, d) && Keeps(s, t, d, 0, 0) && lo <= v < KERNPAGE
    requires Zeroed(s, t, d, lo, v) && Spent(s, t, d, Dirs(lo, v - lo), v - lo)
    requires Works(t, u, d) && SameHeld(t, u, d) && Keeps(t, u, d, 0, 0) && OnePage(t, u, d, v, Some(pte))
    requires pte.flags == 6 && PageAt(u, pte.frame) == Filled(0) && Spent(t, u, d, {Pdx(v)}, 1)
    ensures Works(s, u, d) && SameHeld(s, u, d) && Keeps(s, u, d, 0, 0)
    ensures Zeroed(s, u, d, lo, v + 1) && Spent(s, u, d, Dirs(lo, v + 1 - lo), v + 1 - lo)
  {
    hide *;
    WorksTrans(s, t, u, d);
    HeldTrans(s, t, u, d);
    KeepsTrans(s, t, u, d, 0, 0);
    ZeroStep(s, t, u, d, lo, v, pte);
    SpentMore(s, t, u, d, Dirs(lo, v - lo), {Pdx(v)}, v - lo, 1);
    DirsStep(lo, v - lo);
  }

  lemma NextRefused(s: State, t: State, u: State, d: Frame, lo: nat, v: nat, hi: nat, a: Added)
    requires Works(s, t, d) && SameHeld(s, t, d) && Keeps(s, t, d, 0, 0) && lo <= v < hi <= KERNPAGE
    requires Zeroed(s, t, d, lo, v) && Spent(s, t, d, Dirs(lo, v - lo), v - lo) && !a.Done?
    requires |t.free| < 1 + (if Pdx(v) in Tables(t, d) then 0 else 1)
    requires Works(t, u, d) && Keeps(t, u, d, 0, 0) && (a.NoFrame? ==> u == t)
    requires a.NoTable? ==> SameLookup(t, u) && HeldFor(u, a.frame, d) && HeldBut(u, t, d, a.frame)
    ensures Works(s, u, d) && Keeps(s, u, d, 0, 0) && Zeroed(s, u, d, lo, v)
    ensures |s.free| < hi - lo + Missing(s, d, Dirs(lo, hi - lo))
    ensures a.NoFrame? ==> SameHeld(s, u, d)
    ensures a.NoTable? ==> HeldBut(u, s, d, a.frame)
  {
    hide *;
    if a.NoFrame? { Unchanged(t, d); }
    WorksTrans(s, t, u, d);
    KeepsTrans(s, t, u, d, 0, 0);
    Stopped(s, t, u, d, lo, v);
    DirsGrow(lo, v - lo, hi - lo);
    TooFew(s, t, d, Dirs(lo, v - lo), Dirs(lo, hi - lo), v, v - lo, hi - lo);
    HeldAgain(s, t, u, d, a);
  }

  /** After the failed attempt at page v the mappings are still those after v - lo pages. */
  lemma Stopped(s: State, t: State, u: State, d: Frame, lo: nat, v: nat)
    requires Zeroed(s, t, d, lo, v) && SameLookup(t, u) && Keeps(t, u, d, 0, 0) && v <= KERNPAGE
    ensures Zeroed(s, u, d, lo, v)
  {
    forall e: Frame, i: nat, j: nat ensures ZeroedAt(s, u, d, lo, v, e, i, j) {
      assert ZeroedAt(s, t, d, lo, v, e, i, j) && KeepsAt(t, u, d, 0, 0, e, i, j);
      if InPages(i, j, lo, v) { assert i < KERNPD; }
    }
  }

  lemma Undone(s: State, t: State, u: State, d: Frame, lo: nat, v: nat, hi: nat)
    requires lo <= v < hi && RangeFree(s, d, Kmap(lo, hi - lo, 0, 0)) && Zeroed(s, t, d, lo, v)
             && Unmapped(t, u, d, lo, hi)
    requires Keeps(s, t, d, 0, 0) && Keeps(t, u, d, lo, hi)
    ensures SameLookup(s, u) && Keeps(s, u, d, 0, 0)
  {
    forall e: Frame, i: nat, j: nat
      ensures Lookup(u, e, i, j) == Lookup(s, e, i, j) && KeepsAt(s, u, d, 0, 0, e, i, j)
    {
      assert ZeroedAt(s, t, d, lo, v, e, i, j) && UnmappedAt(t, u, d, lo, hi, e, i, j);
      assert KeepsAt(s, t, d, 0, 0, e, i, j) && KeepsAt(t, u, d, lo, hi, e, i, j);
      assert InPages(i, j, lo, hi) ==> InPages(i, j, lo, lo + (hi - lo));
    }
  }

  lemma HeldAgain(s: State, t: State, u: State, d: Frame, a: Added)
    requires SameHeld(s, t, d) && !a.Done?
    requires a.NoFrame? ==> u == t
    requires a.NoTable? ==> HeldFor(u, a.frame, d) && HeldBut(u, t, d, a.frame)
    ensures a.NoFrame? ==> SameHeld(s, u, d)
    ensures a.NoTable? ==> HeldBut(u, s, d, a.frame)
  {
  }

  lemma HeldThrough(s: State, u: State, w: State, d: Frame, a: Added)
    requires SameHeld(u, w, d) && !a.Done?
    requires a.NoFrame? ==> SameHeld(s, u, d)
    requires a.NoTable? ==> HeldFor(u, a.frame, d) && HeldBut(u, s, d, a.frame)
    ensures a.NoFrame? ==> SameHeld(s, w, d)
    ensures a.NoTable? ==> HeldFor(w, a.frame, d) && HeldBut(w, s, d, a.frame)
  {
  }

  /** Releasing the frame that was never mapped. */
  lemma LetGo(s: State, t: State, d: Frame, f: Frame)
    requires Inv(t) && SameLookup(s, t) && Keeps(s, t, d, 0, 0) && HeldFor(t, f, d) && HeldBut(t, s, d, f)
    ensures var u := Release(t, f); SameLookup(s, u) && Keeps(s, u, d, 0, 0) && SameHeld(s, u, d)
  {
    var u := Release(t, f);
    forall e: Frame, i: nat, j: nat
      ensures Lookup(u, e, i, j) == Lookup(s, e, i, j) && KeepsAt(s, u, d, 0, 0, e, i, j)
    {
      assert Lookup(u, e, i, j) == Lookup(t, e, i, j);
      assert KeepsAt(s, t, d, 0, 0, e, i, j) && PteOk(t, e, i, j);
    }
  }

  // ---------------------------------------------------------------- copying

  /** Work on d leaves every other directory's mappings, and the contents of its user pages. */
  lemma ForeignLookup(s: State, t: State, d: Frame, e: Frame, i: nat, j: nat)
    requires Inv(s) && Inv(t) && Works(s, t, d) && e != d
    ensures Lookup(t, e, i, j) == Lookup(s, e, i, j)
    ensures i < KERNPD && Lookup(s, e, i, j).Some? ==>
              PageAt(t, Lookup(s, e, i, j).value.frame) == PageAt(s, Lookup(s, e, i, j).value.frame)
  {
    assert FrameOk(s, e) && FrameOk(t, e) && KeptFrame(s, t, d, e);
    assert Entries(s, e).0.Some? <==> e in s.dir;
    if e in s.dir && i in s.dir[e] {
      var f := s.dir[e][i];
      assert SlotOk(s, e, i) && KeptFrame(s, t, d, f);
      assert Entries(s, f).1.Some? <==> f in s.table;
      if Lookup(s, e, i, j).Some? { assert PteOk(s, e, i, j) && KeptFrame(s, t, d, Lookup(s, e, i, j).value.frame); }
    }
  }

  lemma StillThere(s: State, t: State, d: Frame, e: Frame)
    requires Inv(s) && Inv(t) && Works(s, t, d) && e in s.dir && e != d
    ensures e in t.dir
  {
    assert FrameOk(s, e) && FrameOk(t, e) && KeptFrame(s, t, d, e);
    assert Entries(s, e).0.Some?;
  }

  lemma FreshFrame(s: State, d: Frame)
    requires Inv(s) && d in s.free
    ensures d !in s.dir && Gone(s, d)
  {
    assert FrameOk(s, d);
    GoneWithDir(s, d);
  }

  predicate CopiedAt(s: State, t: State, p: Frame, d: Frame, n: nat, i: nat, j: nat) {
    i < KERNPD ==>
      if InPages(i, j, 0, n)
      then Lookup(s, p, i, j).Some? && Lookup(t, d, i, j).Some?
           && Lookup(t, d, i, j).value.flags == Lookup(s, p, i, j).value.flags
           && Lookup(t, d, i, j).value.frame != Lookup(s, p, i, j).value.frame
           && PageAt(t, Lookup(t, d, i, j).value.frame) == PageAt(s, Lookup(s, p, i, j).value.frame)
      else Lookup(t, d, i, j) == None
  }

  /** The user part of d in t is a private copy of the first n pages of p in s. */
  ghost predicate Copied(s: State, t: State, p: Frame, d: Frame, n: nat) {
    forall i: nat, j: nat {:trigger CopiedAt(s, t, p, d, n, i, j)} :: CopiedAt(s, t, p, d, n, i, j)
  }

  lemma NothingCopied(s: State, t: State, p: Frame, d: Frame)
    requires NoUser(t, d)
    ensures Copied(s, t, p, d, 0)
  {
    forall i: nat, j: nat ensures CopiedAt(s, t, p, d, 0, i, j) { }
  }

  lemma NextPage(s: State, t: State, p: Frame, d: Frame, v: nat)
    requires Copied(s, t, p, d, v) && v < KERNPAGE
    ensures At(t, d, v) == None && Pdx(v) < KERNPD
  {
    PageIndex(Pdx(v), Ptx(v), v);
    assert CopiedAt(s, t, p, d, v, Pdx(v), Ptx(v));
  }

  lemma NextSource(s: State, t: State, p: Frame, d: Frame, v: nat)
    requires Inv(s) && Inv(t) && Works(s, t, d) && p != d && Copied(s, t, p, d, v) && v < KERNPAGE
    ensures At(t, p, v) == At(s, p, v) && At(t, d, v) == None
  {
    ForeignLookup(s, t, d, p, Pdx(v), Ptx(v));
    NextPage(s, t, p, d, v);
  }

  lemma CopyRefused(s: State, t: State, u: State, d: Frame, v: nat, n: nat, a: Added)
    requires Spent(s, t, d, Dirs(0, v), v) && v < n && NoneHeld(t, d) && !a.Done?
    requires |t.free| < 1 + (if Pdx(v) in Tables(t, d) then 0 else 1)
    requires (a.NoFrame? ==> u == t) && (a.NoTable? ==> HeldBut(u, t, d, a.frame))
    ensures |s.free| < n + Missing(s, d, Dirs(0, n))
    ensures a.NoFrame? ==> NoneHeld(u, d)
    ensures a.NoTable? ==> NoneHeld(Release(u, a.frame), d)
  {
    DirsGrow(0, v, n);
    TooFew(s, t, d, Dirs(0, v), Dirs(0, n), v, v, n);
    NothingHeld(t, u, d, a);
    if a.NoTable? { LastHeld(t, u, d, a.frame); }
  }

  lemma NothingHeld(s: State, t: State, d: Frame, a: Added)
    requires NoneHeld(s, d) && (a.NoFrame? ==> t == s)
    ensures a.NoFrame? ==> NoneHeld(t, d)
  {
  }

  lemma LastHeld(s: State, t: State, d: Frame, f: Frame)
    requires NoneHeld(s, d) && HeldBut(t, s, d, f)
    ensures NoneHeld(Release(t, f), d)
  {
    forall g: Frame ensures !HeldFor(Release(t, f), g, d) { assert !HeldFor(s, g, d); }
  }

  lemma CopyStep(s: State, t: State, u: State, p: Frame, d: Frame, v: nat, pte: Pte, kmap: seq<Kmap>)
    requires Inv(s) && Inv(t) && Inv(u) && Works(s, t, d) && p != d && v < KERNPAGE
    requires Copied(s, t, p, d, v) && NoneHeld(t, d) && KernelMapped(t, d, kmap, |kmap|)
    requires OnePage(t, u, d, v, Some(pte)) && SameHeld(t, u, d) && Keeps(t, u, d, 0, 0)
    requires At(t, p, v).Some? && pte.flags == At(t, p, v).value.flags
             && PageAt(u, pte.frame) == PageAt(t, At(t, p, v).value.frame)
    ensures Copied(s, u, p, d, v + 1) && NoneHeld(u, d) && KernelMapped(u, d, kmap, |kmap|)
  {
    var w: nat := v + 1;
    forall i: nat, j: nat ensures KernelAt(u, d, kmap, |kmap|, i, j) {
      assert KernelAt(t, d, kmap, |kmap|, i, j);
      assert (i, j) == (Pdx(v), Ptx(v)) ==> i < KERNPD;
    }
    forall i: nat, j: nat ensures CopiedAt(s, u, p, d, w, i, j) {
      assert CopiedAt(s, t, p, d, v, i, j) && KeepsAt(t, u, d, 0, 0, d, i, j);
      PageIndex(i, j, v);
      if (i, j) == (Pdx(v), Ptx(v)) {
        ForeignLookup(s, t, d, p, i, j);
        assert PteOk(u, d, i, j) && PteOk(u, p, i, j);
      }
    }
    forall f: Frame ensures !HeldFor(u, f, d) { assert !HeldFor(t, f, d); }
  }
}
