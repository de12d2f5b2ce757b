/**
  The JOS file server's block layer: the free bitmap (a set bit is a free block), the
  block map of a file, and truncation.
 */
module JosFile {

  const NDIRECT: nat := 10
  const NINDIRECT: nat := 1024
  const BLKSIZE: nat := 4096

  type Words = w: seq<nat> | |w| == 1024 witness seq(1024, _ => 0)

  function ZeroWords(): Words { seq(NINDIRECT, _ => 0) }

  /** off_t: a signed 32-bit size, which a client may also set to a negative value. */
  type Off = x: int | -0x8000_0000 <= x < 0x8000_0000

  datatype File = File(size: Off, direct: seq<nat>, indirect: nat)

  /** Where a block number is stored. */
  datatype Slot =
    | Direct(f: nat, i: nat)
    | Indirect(f: nat)
    | Entry(f: nat, j: nat)

  /**
    free    the bitmap
    first   the block after the boot block, the superblock and the bitmap
    owner   history: for each data block in use, the slot that holds its number
   */
  datatype State = State(free: seq<bool>, first: nat, words: map<nat, Words>, file: map<nat, File>,
      owner: map<nat, Slot>)

  predicate IsData(s: State, b: nat) { 0 < s.first <= b < |s.free| }

  /** The block number in slot x, 0 if there is none. */
  function Val(s: State, x: Slot): nat {
    if x.f !in s.file then 0
    else
      var f := s.file[x.f];
      match x
      case Direct(_, i) => if i < NDIRECT && i < |f.direct| then f.direct[i] else 0
      case Indirect(_) => f.indirect
      case Entry(_, j) => if f.indirect != 0 && f.indirect in s.words && j < NINDIRECT
          then s.words[f.indirect][j] else 0
  }

  /** A block number in a slot is a data block in use, owned by that slot alone. */
  predicate SlotOk(s: State, x: Slot) {
    var b := Val(s, x);
    b != 0 ==> IsData(s, b) && !s.free[b] && b in s.owner && s.owner[b] == x
  }

  /** A data block is in use exactly when some slot holds its number. */
  predicate BlockOk(s: State, b: nat) {
    && (IsData(s, b) ==> (!s.free[b] <==> b in s.owner) && b in s.words)
    && (b in s.owner ==> IsData(s, b) && Val(s, s.owner[b]) == b)
  }

  predicate FileOk(s: State, f: nat) { f in s.file ==> |s.file[f].direct| == NDIRECT }

  ghost predicate Inv(s: State) {
    && 0 < s.first <= |s.free|
    && (forall x {:trigger SlotOk(s, x)} :: SlotOk(s, x))
    && (forall b: nat {:trigger BlockOk(s, b)} :: BlockOk(s, b))
    && (forall f: nat {:trigger FileOk(s, f)} :: FileOk(s, f))
  }

  // ---------------------------------------------------------------- attaching and detaching blocks

  predicate SlotExists(s: State, x: Slot) {
    && x.f in s.file && |s.file[x.f].direct| == NDIRECT
    && (x.Direct? ==> x.i < NDIRECT)
    && (x.Entry? ==> x.j < NINDIRECT && s.file[x.f].indirect != 0 && s.file[x.f].indirect in s.words)
  }

  function SetSlot(s: State, x: Slot, b: nat): State
    requires SlotExists(s, x)
  {
    var f := s.file[x.f];
    match x
    case Direct(n, i) => s.(file := s.file[n := f.(direct := f.direct[i := b])])
    case Indirect(n) => s.(file := s.file[n := f.(indirect := b)])
    case Entry(n, j) => s.(words := s.words[f.indirect := s.words[f.indirect][j := b]])
  }

  /** Block b, free until now, is cleared and goes into the empty slot x. */
  function Attach(s: State, x: Slot, b: nat): State
    requires SlotExists(s, x) && b < |s.free|
  {
    SetSlot(s.(free := s.free[b := false], words := s.words[b := ZeroWords()], owner := s.owner[b := x]), x, b)
  }

  ghost predicate SameBut(s: State, t: State, x: Slot) {
    forall y: Slot :: y != x ==> Val(t, y) == Val(s, y)
  }

  lemma AttachOk(s: State, x: Slot, b: nat)
    requires Inv(s) && SlotExists(s, x) && Val(s, x) == 0 && IsData(s, b) && s.free[b]
    ensures Inv(Attach(s, x, b)) && Val(Attach(s, x, b), x) == b && SameBut(s, Attach(s, x, b), x)
  {
    var t := Attach(s, x, b);
    assert BlockOk(s, b);
    forall y: Slot | y != x ensures Val(t, y) == Val(s, y) {
      assert SlotOk(s, y) && SlotOk(s, Indirect(y.f)) && SlotOk(s, Indirect(x.f));
    }
    assert SlotOk(s, Indirect(x.f));
    forall y ensures SlotOk(t, y) { assert SlotOk(s, y); }
    forall c: nat ensures BlockOk(t, c) { assert BlockOk(s, c); }
    forall f: nat ensures FileOk(t, f) { assert FileOk(s, f); }
  }

  /** Slot x gives up its block, which becomes free. */
  function Detach(s: State, x: Slot): State
    requires SlotExists(s, x) && Val(s, x) < |s.free|
  {
    SetSlot(s.(free := s.free[Val(s, x) := true], owner := s.owner - {Val(s, x)}), x, 0)
  }

  lemma DetachOk(s: State, x: Slot)
    requires Inv(s) && SlotExists(s, x) && Val(s, x) != 0
    requires x.Indirect? ==> forall j: nat :: Val(s, Entry(x.f, j)) == 0
    ensures IsData(s, Val(s, x)) && Inv(Detach(s, x)) && Val(Detach(s, x), x) == 0 && SameBut(s, Detach(s, x), x)
  {
    assert SlotOk(s, x);
    var t := Detach(s, x);
    forall y: Slot | y != x ensures Val(t, y) == Val(s, y) {
      assert SlotOk(s, y) && SlotOk(s, Indirect(y.f)) && SlotOk(s, Indirect(x.f));
      if y.Entry? && x == Indirect(y.f) { assert Val(s, Entry(x.f, y.j)) == 0; }
    }
    forall y ensures SlotOk(t, y) { assert SlotOk(s, y); }
    forall c: nat ensures BlockOk(t, c) { assert BlockOk(s, c); }
    forall f: nat ensures FileOk(t, f) { assert FileOk(s, f); }
  }

  predicate LostAt(s: State, b: nat, x: Slot) { IsData(s, b) && !s.free[b] && Val(s, x) != b }

  ghost predicate LostBlock(s: State, b: nat) { forall x {:trigger LostAt(s, b, x)} :: LostAt(s, b, x) }

  /** Some data block is in use and in no slot. */
  ghost predicate Lost(s: State) { exists b: nat :: LostBlock(s, b) }

  /** Freeing an indirect block that still holds a block number loses that block for good. */
  lemma DetachLoses(s: State, f: nat, j: nat)
    requires Inv(s) && SlotExists(s, Indirect(f)) && Val(s, Entry(f, j)) != 0
    ensures Val(s, Indirect(f)) < |s.free| && !Inv(Detach(s, Indirect(f))) && Lost(Detach(s, Indirect(f)))
  {
    assert SlotOk(s, Indirect(f)) && SlotOk(s, Entry(f, j));
    var b := Val(s, Entry(f, j));
    var t := Detach(s, Indirect(f));
    assert BlockOk(s, b);
    assert !BlockOk(t, b);
    forall x: Slot ensures LostAt(t, b, x) {
      assert SlotOk(s, x) && SlotOk(s, Indirect(x.f));
    }
    assert LostBlock(t, b);
  }

  // ---------------------------------------------------------------- truncation

  /** The slot of file block n. */
  function FileSlot(f: nat, n: nat): Slot { if n < NDIRECT then Direct(f, n) else Entry(f, n - NDIRECT) }

  const UINT: nat := 0x1_0000_0000

  /** A 32-bit result read as signed. */
  function Signed(x: int): Off { (x + 0x8000_0000) % UINT - 0x8000_0000 }

  /** Division as in C, toward zero. */
  function Quotient(a: int, b: nat): int
    requires b > 0
  {
    if a >= 0 then a / b else -(-a / b)
  }

  /** Blocks for a size, as the code computes it: signed division, then conversion to unsigned. */
  function Blocks(size: Off): nat { Quotient(Signed(size + BLKSIZE - 1), BLKSIZE) % UINT }

  /** A negative size has no blocks down to -8190, since division is toward zero, and almost 2^32 of them below. */
  lemma BlocksOfNegative(size: Off)
    requires size < 0
    ensures Blocks(size) == if size > 1 - 2 * BLKSIZE then 0 else UINT - (1 - size - BLKSIZE) / BLKSIZE
  {
    var sum := size + BLKSIZE - 1;
    assert Signed(sum) == sum;
    if sum < 0 {
      assert Quotient(sum, BLKSIZE) == -(-sum / BLKSIZE);
    }
  }

  /** It is the rounded-up quotient exactly while the addition does not wrap. */
  lemma BlocksOk(size: Off)
    requires 0 <= size
    ensures Blocks(size) == (size + BLKSIZE - 1) / BLKSIZE <==> size <= 0x8000_0000 - BLKSIZE
  {
    var sum := size + BLKSIZE - 1;
    if sum < 0x8000_0000 {
      assert Signed(sum) == sum;
    } else {
      assert Signed(sum) == sum - UINT && sum - UINT + BLKSIZE < 0;
      assert Blocks(size) >= 0x8000_0000 > sum / BLKSIZE;
    }
  }

  lemma FewBlocks(size: Off)
    requires 0 <= size <= (NDIRECT + NINDIRECT) * BLKSIZE
    ensures Blocks(size) <= NDIRECT + NINDIRECT && Blocks(BLKSIZE) == 1 && Blocks(0) == 0
  {
  }

  lemma BlocksMonotone(a: Off, b: Off)
    requires 0 <= a <= b
    ensures Blocks(a) <= Blocks(b)
  {
    var x: int, y: int := Signed(a + BLKSIZE - 1), Signed(b + BLKSIZE - 1);
    if x >= 0 && y >= 0 {
      QuotientMonotone(x, y);
    } else if x < 0 {
      QuotientMonotone(-y, -x);
    }
  }

  lemma QuotientMonotone(x: nat, y: nat)
    requires x <= y
    ensures x / BLKSIZE <= y / BLKSIZE
  {
  }

  predicate InRange(x: Slot, f: nat, lo: nat, hi: nat) {
    x.f == f && match x
                case Direct(_, i) => lo <= i < hi && i < NDIRECT
                case Indirect(_) => false
                case Entry(_, j) => lo <= NDIRECT + j < hi
  }

  predicate ClearedAt(s: State, t: State, f: nat, lo: nat, hi: nat, x: Slot) {
    Val(t, x) == if InRange(x, f, lo, hi) then 0 else Val(s, x)
  }

  ghost predicate Cleared(s: State, t: State, f: nat, lo: nat, hi: nat) {
    forall x {:trigger ClearedAt(s, t, f, lo, hi, x)} :: ClearedAt(s, t, f, lo, hi, x)
  }

  lemma NothingCleared(s: State, f: nat, lo: nat)
    ensures Cleared(s, s, f, lo, lo)
  {
    forall x ensures ClearedAt(s, s, f, lo, lo, x) { }
  }

  lemma EmptyRange(s: State, f: nat, lo: nat, hi: nat)
    requires hi <= lo
    ensures Cleared(s, s, f, lo, hi)
  {
    forall x ensures ClearedAt(s, s, f, lo, hi, x) { }
  }

  lemma ClearedStep(s: State, t: State, u: State, f: nat, lo: nat, n: nat)
    requires lo <= n && Cleared(s, t, f, lo, n) && SameBut(t, u, FileSlot(f, n)) && Val(u, FileSlot(f, n)) == 0
    ensures Cleared(s, u, f, lo, n + 1)
  {
    var m: nat := n + 1;
    forall x ensures ClearedAt(s, u, f, lo, m, x) {
      assert ClearedAt(s, t, f, lo, n, x);
      assert InRange(x, f, n, m) ==> x == FileSlot(f, n);
    }
  }

  /** What truncation to lo blocks should give up. */
  predicate Cut(x: Slot, f: nat, lo: nat) {
    x.f == f && match x
                case Direct(_, i) => lo <= i
                case Indirect(_) => lo <= NDIRECT
                case Entry(_, j) => lo <= NDIRECT + j
  }

  predicate TruncatedAt(s: State, t: State, f: nat, lo: nat, hi: nat, x: Slot) {
    Val(t, x) == if InRange(x, f, lo, hi) || (x == Indirect(f) && lo <= NDIRECT) then 0 else Val(s, x)
  }

  /** The slots lo..hi of f are empty, and its indirect slot too if no more than NDIRECT blocks remain. */
  ghost predicate Truncated(s: State, t: State, f: nat, lo: nat, hi: nat) {
    forall x {:trigger TruncatedAt(s, t, f, lo, hi, x)} :: TruncatedAt(s, t, f, lo, hi, x)
  }

  /** The indirect block is about to be freed while it holds a block beyond the file's size. */
  ghost predicate Leaks(s: State, f: nat, lo: nat, hi: nat) {
    lo <= NDIRECT && exists j: nat :: hi <= NDIRECT + j && Val(s, Entry(f, j)) != 0
  }

  /** The last step of file_truncate_blocks. */
  lemma IndirectFreed(s: State, t: State, f: nat, lo: nat, hi: nat)
    requires Inv(t) && Cleared(s, t, f, lo, hi) && SlotExists(t, Indirect(f)) && lo <= NDIRECT
             && Val(t, Indirect(f)) != 0
    ensures Val(t, Indirect(f)) < |t.free|
    ensures Inv(Detach(t, Indirect(f))) <==> !Leaks(s, f, lo, hi)
    ensures !Leaks(s, f, lo, hi) ==> Truncated(s, Detach(t, Indirect(f)), f, lo, hi)
    ensures Leaks(s, f, lo, hi) ==> Lost(Detach(t, Indirect(f)))
  {
    assert SlotOk(t, Indirect(f));
    if j: nat :| hi <= NDIRECT + j && Val(s, Entry(f, j)) != 0 {
      assert ClearedAt(s, t, f, lo, hi, Entry(f, j));
      DetachLoses(t, f, j);
    } else {
      forall j: nat ensures Val(t, Entry(f, j)) == 0 { assert ClearedAt(s, t, f, lo, hi, Entry(f, j)); }
      DetachOk(t, Indirect(f));
      var u := Detach(t, Indirect(f));
      forall x ensures TruncatedAt(s, u, f, lo, hi, x) { assert ClearedAt(s, t, f, lo, hi, x); }
    }
  }

  lemma NoIndirect(s: State, t: State, f: nat, lo: nat, hi: nat)
    requires Cleared(s, t, f, lo, hi) && (lo <= NDIRECT ==> Val(t, Indirect(f)) == 0)
    ensures Truncated(s, t, f, lo, hi) && !Leaks(s, f, lo, hi)
  {
    forall x ensures TruncatedAt(s, t, f, lo, hi, x) { assert ClearedAt(s, t, f, lo, hi, x); }
    forall j: nat | lo <= NDIRECT ensures Val(s, Entry(f, j)) == 0 || NDIRECT + j < hi {
      assert ClearedAt(s, t, f, lo, hi, Entry(f, j));
    }
  }

  /** The file has no block at or beyond its size. */
  ghost predicate OwnsBelow(s: State, f: nat, hi: nat) {
    forall n: nat :: hi <= n ==> Val(s, FileSlot(f, n)) == 0
  }

  /** Truncating a file that owns nothing beyond its size frees exactly the blocks it no longer needs. */
  lemma FreedExactly(s: State, t: State, f: nat, lo: nat, hi: nat)
    requires Inv(s) && Inv(t) && t.first == s.first && |t.free| == |s.free|
    requires Truncated(s, t, f, lo, hi) && OwnsBelow(s, f, hi) && lo <= hi
    ensures forall b: nat :: IsData(s, b) ==> (t.free[b] <==> s.free[b] || (b in s.owner && Cut(s.owner[b], f, lo)))
    ensures OwnsBelow(t, f, lo)
  {
    forall x ensures Val(t, x) == if Cut(x, f, lo) then 0 else Val(s, x) { CutAt(s, t, f, lo, hi, x); }
    forall b: nat | IsData(s, b) ensures t.free[b] <==> s.free[b] || (b in s.owner && Cut(s.owner[b], f, lo)) {
      assert BlockOk(s, b) && BlockOk(t, b);
      if b in s.owner { assert SlotOk(t, s.owner[b]); }
      if b in t.owner { assert SlotOk(s, t.owner[b]); }
    }
  }

  lemma CutAt(s: State, t: State, f: nat, lo: nat, hi: nat, x: Slot)
    requires TruncatedAt(s, t, f, lo, hi, x) && OwnsBelow(s, f, hi) && lo <= hi
    ensures Val(t, x) == if Cut(x, f, lo) then 0 else Val(s, x)
  {
    match x
    case Direct(g, i) => if g == f && i < NDIRECT { assert x == FileSlot(f, i); }
    case Indirect(_) =>
    case Entry(g, j) => if g == f { assert x == FileSlot(f, NDIRECT + j); }
  }

  // ---------------------------------------------------------------- the code

  /** An answer, or -E_NOT_FOUND, -E_NO_DISK, -E_INVAL. */
  datatype Answer<+T> = Ok(value: T) | NotFound | NoDisk | Invalid

  /** Every file has a size that is no accident, and owns nothing beyond it. */
  ghost predicate Tidy(s: State) {
    forall f: nat {:trigger f in s.file} :: f in s.file ==> TidyFile(s, f)
  }

  ghost predicate TidyFile(s: State, f: nat)
    requires f in s.file
  {
    s.file[f].size >= 0 && OwnsBelow(s, f, Blocks(s.file[f].size))
  }

  ghost predicate SameSizes(s: State, t: State) {
    s.file.Keys == t.file.Keys && forall f :: f in s.file ==> s.file[f].size == t.file[f].size
  }

  function ZeroBlocks(n: nat): (m: map<nat, Words>)
    ensures forall b: nat :: b in m <==> b < n
  {
    if n == 0 then map[] else ZeroBlocks(n - 1)[n - 1 := ZeroWords()]
  }

  class Server {
    var free: seq<bool>
    var first: nat
    var words: map<nat, Words>
    var file: map<nat, File>
    ghost var owner: map<nat, Slot>

    ghost function Now(): State
      reads this
    {
      State(free, first, words, file, owner)
    }

    /** A formatted disk: everything behind the reserved blocks is free, and the files are empty. */
    constructor (blocks: nat, reserved: nat, names: set<nat>)
      requires 0 < reserved <= blocks
      ensures first == reserved && |free| == blocks && forall b: nat :: b < blocks ==> (free[b] <==> reserved <= b)
      ensures file == map f | f in names :: File(0, seq(NDIRECT, _ => 0), 0)
      ensures Inv(Now()) && Tidy(Now())
    {
      free := seq(blocks, b => reserved <= b);
      first := reserved;
      words := ZeroBlocks(blocks);
      file := map f | f in names :: File(0, seq(NDIRECT, _ => 0), 0);
      owner := map[];
      new;
      ghost var s := Now();
      forall x ensures SlotOk(s, x) { }
      forall b: nat ensures BlockOk(s, b) { }
      forall f: nat ensures FileOk(s, f) { }
      forall f: nat | f in s.file ensures TidyFile(s, f) { }
    }

    /** alloc_block: the first free data block, taken. */
    method AllocBlock() returns (b: nat)
      requires Inv(Now())
      modifies this`free
      ensures |free| == |old(free)|
      ensures b == 0 ==> free == old(free) && forall c: nat :: IsData(Now(), c) ==> !free[c]
      ensures b != 0 ==> IsData(Now(), b) && old(free)[b] && free == old(free)[b := false]
      ensures b != 0 ==> forall c: nat :: IsData(Now(), c) && c < b ==> !free[c]
    {
      b := first;
      while b < |free|
        invariant first <= b <= |free| && free == old(free)
        invariant forall c: nat :: IsData(Now(), c) && c < b ==> !free[c]
      {
        if free[b] {
          free := free[b := false];
          return;
        }
        b := b + 1;
      }
      b := 0;
    }

    /** A new block for the empty slot x: alloc_block, clear, store the number. */
    method Grow(x: Slot) returns (b: nat)
      requires Inv(Now()) && SlotExists(Now(), x) && Val(Now(), x) == 0
      modifies this
      ensures Inv(Now()) && SameBut(old(Now()), Now(), x) && Val(Now(), x) == b && SameSizes(old(Now()), Now())
      ensures first == old(first) && |free| == |old(free)|
      ensures b == 0 ==> Now() == old(Now()) && forall c: nat :: IsData(Now(), c) ==> !free[c]
      ensures b != 0 ==> old(IsData(Now(), b)) && old(free)[b] && Now() == Attach(old(Now()), x, b)
    {
      ghost var was := Now();
      b := AllocBlock();
      if b != 0 {
        AttachOk(was, x, b);
        hide Inv, SameBut;
        words := words[b := ZeroWords()];
        owner := owner[b := x];
        assert SlotExists(Now(), x);
        Store(x, b);
        assert Now() == Attach(was, x, b);
      }
    }

    method Store(x: Slot, b: nat)
      requires SlotExists(Now(), x)
      modifies this`words, this`file
      ensures Now() == SetSlot(old(Now()), x, b)
    {
      var f := file[x.f];
      match x {
        case Direct(n, i) => file := file[n := f.(direct := f.direct[i := b])];
        case Indirect(n) => file := file[n := f.(indirect := b)];
        case Entry(n, j) => words := words[f.indirect := words[f.indirect][j := b]];
      }
    }

    /** file_block_walk. */
    method BlockWalk(f: nat, n: nat, alloc: bool) returns (r: Answer<Slot>)
      requires Inv(Now()) && f in file
      modifies this
      ensures Inv(Now()) && SameBut(old(Now()), Now(), Indirect(f)) && SameSizes(old(Now()), Now())
      ensures first == old(first) && |free| == |old(free)|
      ensures r == Invalid <==> n >= NDIRECT + NINDIRECT
      ensures r.Ok? ==> r.value == FileSlot(f, n) && SlotExists(Now(), r.value)
      ensures !alloc || !r.Ok? ==> Now() == old(Now())
      ensures r == NotFound <==> NDIRECT <= n < NDIRECT + NINDIRECT && old(file)[f].indirect == 0 && !alloc
      ensures n < NDIRECT || Val(old(Now()), Indirect(f)) != 0 ==> Now() == old(Now())
      ensures r == NoDisk ==> n >= NDIRECT && old(file)[f].indirect == 0 && forall c: nat :: IsData(Now(), c) ==>
                !free[c]
      ensures forall c: nat :: c < |free| && free[c] ==> old(free)[c]
      ensures forall c: nat :: c < |free| && old(free)[c] && !free[c] ==> c == Val(Now(), Indirect(f))
    {
      ghost var was := Now();
      assert FileOk(was, f);
      if n >= NDIRECT + NINDIRECT {
        return Invalid;
      }
      if n < NDIRECT {
        return Ok(Direct(f, n));
      }
      assert SlotOk(was, Indirect(f)) && BlockOk(was, file[f].indirect);
      if file[f].indirect == 0 {
        if !alloc {
          return NotFound;
        }
        var b := Grow(Indirect(f));
        if b == 0 {
          return NoDisk;
        }
        ghost var grown := Now();
        assert SlotOk(grown, Indirect(f)) && BlockOk(grown, b) && FileOk(grown, f);
      }
      r := Ok(Entry(f, n - NDIRECT));
    }

    /** file_get_block: the block of file block n, allocated and cleared if there was none. */
    method GetBlock(f: nat, n: nat) returns (r: Answer<nat>)
      requires Inv(Now()) && f in file
      modifies this
      ensures Inv(Now()) && SameSizes(old(Now()), Now()) && first == old(first) && |free| == |old(free)|
      ensures forall x: Slot :: x != FileSlot(f, n) && x != Indirect(f) ==> Val(Now(), x) == Val(old(Now()), x)
      ensures r == Invalid <==> n >= NDIRECT + NINDIRECT
      ensures r.Ok? ==> r.value != 0 && Val(Now(), FileSlot(f, n)) == r.value
      ensures old(Val(Now(), FileSlot(f, n))) != 0 ==> r.Ok? && Now() == old(Now())
      ensures r.Ok? && old(Val(Now(), FileSlot(f, n))) == 0 ==>
                old(IsData(Now(), r.value)) && old(free)[r.value] && r.value in words && words[r.value] == ZeroWords()
      ensures !r.Ok? ==> Val(Now(), FileSlot(f, n)) == 0
      ensures r != NotFound && (r == NoDisk ==> forall c: nat :: IsData(Now(), c) ==> !free[c])
      ensures forall c: nat :: c < |free| && old(free)[c] && !free[c] ==>
                c == Val(Now(), FileSlot(f, n)) || c == Val(Now(), Indirect(f))
      ensures Tidy(old(Now())) && n < Blocks(old(file)[f].size) ==> Tidy(Now())
    {
      ghost var was := Now();
      var w := BlockWalk(f, n, true);
      if !w.Ok? {
        return if w.NoDisk? then NoDisk else Invalid;
      }
      ghost var mid := Now();
      assert Val(mid, w.value) == Val(was, w.value);
      var b := Fetch(w.value);
      if b == 0 {
        assert SlotOk(mid, Indirect(f));
        b := Grow(w.value);
        assert b != 0 ==> BlockOk(mid, b);
      }
      StaysTidy(was, Now(), f, n);
      r := if b == 0 then NoDisk else Ok(b);
    }

    method Fetch(x: Slot) returns (b: nat)
      requires SlotExists(Now(), x)
      ensures b == Val(Now(), x)
    {
      match x {
        case Direct(n, i) => b := file[n].direct[i];
        case Indirect(n) => b := file[n].indirect;
        case Entry(n, j) => b := words[file[n].indirect][j];
      }
    }

    /** free_block and clearing the slot that held the number. */
    method Drop(x: Slot)
      requires Inv(Now()) && SlotExists(Now(), x) && Val(Now(), x) != 0
      modifies this
      ensures old(Val(Now(), x)) < |old(free)| && Now() == Detach(old(Now()), x)
    {
      ghost var was := Now();
      assert SlotOk(was, x);
      var b := Fetch(x);
      free := free[b := true];
      owner := owner - {b};
      Store(x, 0);
    }

    /** file_free_block. */
    method FreeFileBlock(f: nat, n: nat)
      requires Inv(Now()) && f in file
      modifies this
      ensures Inv(Now()) && Val(Now(), FileSlot(f, n)) == 0 && SameBut(old(Now()), Now(), FileSlot(f, n))
      ensures SameSizes(old(Now()), Now()) && first == old(first) && |free| == |old(free)|
    {
      ghost var was := Now();
      var w := BlockWalk(f, n, false);
      if w.Ok? {
        var b := Fetch(w.value);
        if b != 0 {
          DetachOk(was, w.value);
          hide Inv, SameBut;
          Drop(w.value);
          assert Now() == Detach(was, w.value);
        }
      }
    }

    /** file_truncate_blocks, from hi blocks to lo. */
    method TruncateBlocks(f: nat, newsize: Off)
      requires Inv(Now()) && f in file
      modifies this
      ensures SameSizes(old(Now()), Now()) && first == old(first) && |free| == |old(free)|
      ensures Inv(Now()) <==> !Leaks(old(Now()), f, Blocks(newsize), Blocks(old(file)[f].size))
      ensures Inv(Now()) ==> Truncated(old(Now()), Now(), f, Blocks(newsize), Blocks(old(file)[f].size))
      ensures !Inv(Now()) ==> Lost(Now())
    {
      hide Lost, Inv, Cleared, Truncated, Leaks, SameBut, Blocks;
      ghost var was := Now();
      var lo, hi := Blocks(newsize), Blocks(file[f].size);
      NothingCleared(was, f, lo);
      var n := lo;
      while n < hi
        invariant lo <= n && (lo < hi ==> n <= hi) && Inv(Now()) && f in file && Cleared(was, Now(), f, lo, n)
        invariant hi <= lo ==> n == lo && Now() == was
        invariant SameSizes(was, Now()) && first == was.first && |free| == |was.free|
      {
        ghost var mid := Now();
        FreeFileBlock(f, n);
        ClearedStep(was, mid, Now(), f, lo, n);
        n := n + 1;
      }
      ghost var mid := Now();
      if hi <= lo { EmptyRange(was, f, lo, hi); }
      if lo <= NDIRECT && file[f].indirect != 0 {
        DirectCount(mid, f);
        IndirectFreed(was, mid, f, lo, hi);
        Drop(Indirect(f));
      } else {
        NoIndirect(was, mid, f, lo, hi);
      }
    }

    /** file_set_size: truncates when the file shrinks, and otherwise only records the size. */
    method SetSize(f: nat, newsize: Off)
      requires Inv(Now()) && f in file
      modifies this
      ensures f in file && file[f].size == newsize && file.Keys == old(file).Keys
      ensures forall g :: g in file && g != f ==> file[g].size == old(file)[g].size
      ensures first == old(first) && |free| == |old(free)|
      ensures newsize >= old(file)[f].size ==> free == old(free) && Inv(Now())
      ensures newsize >= old(file)[f].size ==> forall x: Slot :: Val(Now(), x) == Val(old(Now()), x)
      ensures newsize < old(file)[f].size ==>
                (Inv(Now()) <==> !Leaks(old(Now()), f, Blocks(newsize), Blocks(old(file)[f].size)))
      ensures newsize < old(file)[f].size && Inv(Now()) ==>
                Truncated(old(Now()), Now(), f, Blocks(newsize), Blocks(old(file)[f].size))
      ensures !Inv(Now()) ==> Lost(Now())
      ensures 0 <= newsize < old(file)[f].size && OwnsBelow(old(Now()), f, Blocks(old(file)[f].size)) ==>
                && Inv(Now())
                && (forall b: nat :: IsData(old(Now()), b) ==>
                      (free[b] <==> old(free)[b] || (b in old(owner) && Cut(old(owner)[b], f, Blocks(newsize)))))
                && OwnsBelow(Now(), f, Blocks(newsize))
      ensures Tidy(old(Now())) && newsize >= 0 ==> Inv(Now()) && Tidy(Now())
      ensures Tidy(old(Now())) && 0 <= newsize < old(file)[f].size && newsize <= 0x8000_0000 - BLKSIZE ==>
                forall b: nat :: IsData(old(Now()), b) ==>
                  (free[b] <==> old(free)[b]
                                || (b in old(owner) && Cut(old(owner)[b], f, (newsize + BLKSIZE - 1) / BLKSIZE)))
    {
      hide Inv, Leaks, Lost, Truncated, OwnsBelow, Val, Blocks, Tidy, Cut;
      ghost var was := Now();
      EachTidy(was, f);
      if newsize >= 0 { BlocksOk(newsize); }
      if file[f].size > newsize {
        TruncateBlocks(f, newsize);
        Shrunk(was, Now(), f, newsize);
      } else {
        Grown(was, f, newsize);
      }
      ghost var mid := Now();
      file := file[f := file[f].(size := newsize)];
      SizeOnly(mid, Now(), f);
      StaysTruncated(was, mid, Now(), f, Blocks(newsize), Blocks(was.file[f].size));
      Resized(was, mid, Now(), f);
    }
  }

  lemma DirectCount(s: State, f: nat)
    requires Inv(s) && f in s.file
    ensures SlotExists(s, Indirect(f))
  {
    assert FileOk(s, f);
  }

  /** The other files keep their blocks, and the file itself owns nothing beyond its new size. */
  ghost predicate Fits(s: State, t: State, f: nat, newsize: Off) {
    && (forall x: Slot {:trigger Val(t, x)} :: x.f != f ==> Val(t, x) == Val(s, x))
    && OwnsBelow(t, f, Blocks(newsize))
  }

  /** With no block beyond the size there is nothing to leak. */
  lemma Shrunk(s: State, t: State, f: nat, newsize: Off)
    requires Inv(s) && f in s.file && newsize < s.file[f].size && t.first == s.first && |t.free| == |s.free|
    requires Inv(t) <==> !Leaks(s, f, Blocks(newsize), Blocks(s.file[f].size))
    requires Inv(t) ==> Truncated(s, t, f, Blocks(newsize), Blocks(s.file[f].size))
    ensures 0 <= newsize && OwnsBelow(s, f, Blocks(s.file[f].size)) ==>
              && Inv(t) && Fits(s, t, f, newsize)
              && forall b: nat :: IsData(s, b) ==>
                   (t.free[b] <==> s.free[b] || (b in s.owner && Cut(s.owner[b], f, Blocks(newsize))))
  {
    var lo, hi := Blocks(newsize), Blocks(s.file[f].size);
    if 0 <= newsize && OwnsBelow(s, f, hi) {
      forall j: nat | hi <= NDIRECT + j ensures Val(s, Entry(f, j)) == 0 {
        assert Val(s, FileSlot(f, NDIRECT + j)) == 0;
      }
      BlocksMonotone(newsize, s.file[f].size);
      FreedExactly(s, t, f, lo, hi);
      forall x: Slot | x.f != f ensures Val(t, x) == Val(s, x) { assert TruncatedAt(s, t, f, lo, hi, x); }
    }
  }

  lemma Grown(s: State, f: nat, newsize: Off)
    requires f in s.file && s.file[f].size <= newsize
    ensures 0 <= s.file[f].size && OwnsBelow(s, f, Blocks(s.file[f].size)) ==> Fits(s, s, f, newsize)
  {
    if 0 <= s.file[f].size { BlocksMonotone(s.file[f].size, newsize); }
  }

  lemma EachTidy(s: State, f: nat)
    requires f in s.file
    ensures Tidy(s) ==> 0 <= s.file[f].size && OwnsBelow(s, f, Blocks(s.file[f].size))
  {
    if Tidy(s) { assert TidyFile(s, f); }
  }

  lemma SizeOnly(s: State, t: State, f: nat)
    requires f in s.file && f in t.file && t == s.(file := s.file[f := s.file[f].(size := t.file[f].size)])
    ensures (Inv(t) <==> Inv(s)) && (Lost(s) ==> Lost(t))
    ensures forall x: Slot :: Val(t, x) == Val(s, x)
    ensures forall hi: nat :: OwnsBelow(s, f, hi) ==> OwnsBelow(t, f, hi)
  {
    forall x: Slot ensures Val(t, x) == Val(s, x) && (SlotOk(t, x) <==> SlotOk(s, x)) { }
    forall b: nat ensures BlockOk(t, b) <==> BlockOk(s, b) { }
    forall g: nat ensures FileOk(t, g) <==> FileOk(s, g) { }
    forall hi: nat | OwnsBelow(s, f, hi) ensures OwnsBelow(t, f, hi) { }
    if Lost(s) {
      var b: nat :| LostBlock(s, b);
      forall x ensures LostAt(t, b, x) { assert LostAt(s, b, x); }
      assert LostBlock(t, b);
    }
  }

  lemma StaysTruncated(s: State, t: State, u: State, f: nat, lo: nat, hi: nat)
    requires forall x: Slot :: Val(u, x) == Val(t, x)
    ensures Truncated(s, t, f, lo, hi) ==> Truncated(s, u, f, lo, hi)
  {
    if Truncated(s, t, f, lo, hi) {
      forall x ensures TruncatedAt(s, u, f, lo, hi, x) { assert TruncatedAt(s, t, f, lo, hi, x); }
    }
  }

  lemma Resized(s: State, t: State, u: State, f: nat)
    requires f in s.file && SameSizes(s, t) && u.file.Keys == s.file.Keys
    requires forall g :: g in u.file && g != f ==> u.file[g].size == s.file[g].size
    requires forall x: Slot :: Val(u, x) == Val(t, x)
    ensures Tidy(s) && 0 <= u.file[f].size && Fits(s, t, f, u.file[f].size) ==> Tidy(u)
  {
    if Tidy(s) && 0 <= u.file[f].size && Fits(s, t, f, u.file[f].size) {
      forall g: nat | g in u.file ensures TidyFile(u, g) {
        assert TidyFile(s, g);
        forall n: nat | Blocks(u.file[g].size) <= n ensures Val(u, FileSlot(g, n)) == 0 {
          assert g != f ==> Val(s, FileSlot(g, n)) == 0;
        }
      }
    }
  }

  lemma StaysTidy(s: State, t: State, f: nat, n: nat)
    requires f in s.file && SameSizes(s, t)
    requires forall x: Slot :: x != FileSlot(f, n) && x != Indirect(f) ==> Val(t, x) == Val(s, x)
    ensures Tidy(s) && n < Blocks(s.file[f].size) ==> Tidy(t)
  {
    if Tidy(s) && n < Blocks(s.file[f].size) {
      forall g: nat | g in t.file ensures TidyFile(t, g) {
        assert TidyFile(s, g);
        forall m: nat | Blocks(t.file[g].size) <= m ensures Val(t, FileSlot(g, m)) == 0 {
          assert Val(s, FileSlot(g, m)) == 0;
        }
      }
    }
  }

  /** The block count of such a size is negative, and read as unsigned past every block: nothing is freed. */
  lemma NothingCut(s: State, t: State, f: nat, newsize: Off, hi: nat)
    requires newsize < 2 - 2 * BLKSIZE && hi <= NDIRECT + NINDIRECT
    ensures !Leaks(s, f, Blocks(newsize), hi)
    ensures Truncated(s, t, f, Blocks(newsize), hi) ==> forall x: Slot :: Val(t, x) == Val(s, x)
  {
    assert Blocks(newsize) > hi;
    if Truncated(s, t, f, Blocks(newsize), hi) {
      forall x: Slot ensures Val(t, x) == Val(s, x) { assert TruncatedAt(s, t, f, Blocks(newsize), hi, x); }
    }
  }

  lemma LeaksAt(s: State, f: nat, n: nat, hi: nat)
    requires NDIRECT <= n && hi <= n && Val(s, FileSlot(f, n)) != 0
    ensures Leaks(s, f, 0, hi)
  {
    assert Val(s, Entry(f, n - NDIRECT)) != 0;
  }

  /**
    A size far enough below zero truncates nothing.  Any block in the indirect block stays, beyond the next size,
    and the truncation after that loses it.
   */
  method NegativeSize(s: Server, f: nat, n: nat)
    requires Inv(s.Now()) && f in s.file && 0 < s.file[f].size <= (NDIRECT + NINDIRECT) * BLKSIZE
    requires NDIRECT <= n && Val(s.Now(), FileSlot(f, n)) != 0
    modifies s
    ensures f in s.file && s.file[f].size == 0 && !Inv(s.Now()) && Lost(s.Now())
  {
    hide Inv, Leaks, Lost, Truncated, OwnsBelow, Val, Blocks, Tidy, Cut;
    FewBlocks(s.file[f].size);
    ghost var had := s.Now();
    s.SetSize(f, -10000);
    NothingCut(had, s.Now(), f, -10000, Blocks(had.file[f].size));
    s.SetSize(f, BLKSIZE);
    LeaksAt(s.Now(), f, n, 1);
    s.SetSize(f, 0);
  }

  /** From a formatted disk: a file is given twenty blocks, has the last one written, and loses it so. */
  method BlockLost() returns (s: Server)
    ensures !Inv(s.Now()) && Lost(s.Now())
  {
    hide Inv, Leaks, Lost, Truncated, OwnsBelow, Val, Blocks, Tidy, Cut;
    s := new Server(8, 3, {0});
    s.SetSize(0, 20 * BLKSIZE);
    var r := s.GetBlock(0, 19);
    ghost var had := s.Now();
    ghost var x, y := Val(had, FileSlot(0, 19)), Val(had, Indirect(0));
    ghost var c: nat := if 3 != x && 3 != y then 3 else if 4 != x && 4 != y then 4 else 5;
    assert IsData(had, c) && had.free[c];
    NegativeSize(s, 0, 19);
  }
}
