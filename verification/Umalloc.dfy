/**
  The Kernighan and Ritchie storage allocator.  Addresses count header-sized units.
  The obtained memory is described by a ghost layout: a gap-free sequence of blocks,
  each free, allocated, or foreign (memory between two `sbrk` regions that the
  allocator never obtained).
 */
module Umalloc {

  /** The address of the static header `base`; the heap lies above it.  0 is the null pointer. */
  const BASE: nat := 1
  const HEADER_BYTES: nat := 8
  const MIN_UNITS: nat := 4096
  const UINT: nat := 0x1_0000_0000

  datatype Header = Header(ptr: nat, size: nat)
  datatype Kind = Free | Live | Foreign
  datatype Block = Block(addr: nat, size: nat, kind: Kind)

  /** Units for nbytes rounded up, plus one for the header, in 32-bit arithmetic. */
  function Units(nbytes: nat): nat {
    (nbytes + HEADER_BYTES - 1) % UINT / HEADER_BYTES + 1
  }

  /** The units past the header hold the request, except when the sum wraps around. */
  lemma UnitsSuffice(nbytes: nat)
    requires nbytes < UINT
    ensures (Units(nbytes) - 1) * HEADER_BYTES >= nbytes <==> nbytes + HEADER_BYTES <= UINT
  {
  }

  lemma UnitsBounds(nbytes: nat)
    ensures 0 < Units(nbytes) <= UINT / HEADER_BYTES
  {
  }

  // ----- the memory sbrk gives -----

  const KERNBASE: nat := 0x8000_0000

  /** From this many units on, their byte count is no positive int. */
  const LIMIT: nat := 0x1000_0000

  /** The units `morecore` asks for. */
  function Want(nu: nat): (n: nat)
    ensures n >= nu && n >= MIN_UNITS && (n > MIN_UNITS ==> n == nu)
  {
    if nu < MIN_UNITS then MIN_UNITS else nu
  }

  /** The argument of `sbrk` for n units: a 32-bit product, read as an int. */
  function SbrkArg(n: nat): int {
    var bytes := n * HEADER_BYTES % UINT;
    if bytes < UINT / 2 then bytes else bytes - UINT
  }

  /**
    `growproc` in a process of sz bytes: whether it succeeds, and the bytes of memory the
    process then has; room tells whether there are frames enough.
   */
  function GrowProc(sz: nat, n: int, room: bool): (bool, nat) {
    if n > 0 then
      if sz + n < KERNBASE && room then (true, sz + n) else (false, sz)
    else if n < 0 then
      var newsz := (sz + n) % UINT;
      if newsz >= sz then (sz != 0, sz) else (newsz != 0, newsz)
    else (true, sz)
  }

  /** Growing is all or nothing; shrinking by less than the size is exact, by more does nothing, to 0 is an error. */
  lemma GrowProcIs(sz: nat, n: int, room: bool)
    requires 0 < sz < KERNBASE && -(UINT / 2) <= n < UINT / 2
    ensures n >= 0 ==> (GrowProc(sz, n, room).0 <==> n == 0 || (room && sz + n < KERNBASE))
    ensures n >= 0 ==> GrowProc(sz, n, room).1 == if GrowProc(sz, n, room).0 then sz + n else sz
    ensures n < 0 && sz + n > 0 ==> GrowProc(sz, n, room) == (true, sz + n)
    ensures sz + n == 0 ==> GrowProc(sz, n, room) == (false, 0)
    ensures sz + n < 0 ==> GrowProc(sz, n, room) == (true, sz)
  {
    if n < 0 && sz + n >= 0 {
      assert (sz + n) % UINT == sz + n;
    } else if n < 0 {
      assert (sz + n) % UINT == sz + n + UINT;
    }
  }

  /** `sbrk` for n units at the break brk: whether it answers brk, and the break it leaves, in units. */
  function Sbrk(brk: nat, n: nat, room: bool): (bool, nat) {
    var grown := GrowProc(brk * HEADER_BYTES, SbrkArg(n), room);
    (grown.0, grown.1 / HEADER_BYTES)
  }

  /** When `sbrk` answers, the region has the n units asked for exactly below LIMIT. */
  lemma SbrkIff(brk: nat, n: nat, room: bool)
    requires n > 0
    ensures Sbrk(brk, n, room).0 ==> (Sbrk(brk, n, room).1 >= brk + n <==> n < LIMIT)
    ensures n < LIMIT ==> Sbrk(brk, n, room).1 == if Sbrk(brk, n, room).0 then brk + n else brk
    ensures LIMIT <= n <= UINT / HEADER_BYTES ==> Sbrk(brk, n, room).1 <= brk
  {
    if n < LIMIT {
      assert SbrkArg(n) == n * HEADER_BYTES;
    } else if n < UINT / HEADER_BYTES {
      assert SbrkArg(n) == n * HEADER_BYTES - UINT < 0;
    } else {
      assert SbrkArg(n) < UINT / 2 && n * HEADER_BYTES >= UINT;
    }
  }

  /** A request is served out of new memory, in full, exactly up to 0x7FFF_FFF0 bytes. */
  lemma ServedIff(nbytes: nat)
    requires nbytes < UINT
    ensures Want(Units(nbytes)) < LIMIT && (Units(nbytes) - 1) * HEADER_BYTES >= nbytes <==> nbytes <= 0x7FFF_FFF0
  {
  }

  // ----- layouts -----

  /** Blocks follow each other without gap or overlap, above `base`. */
  predicate Tiled(l: seq<Block>) {
    && (forall i :: 0 <= i < |l| ==> l[i].addr > BASE && l[i].size > 0)
    && (forall i, j :: 0 <= i < |l| && 0 <= j < |l| && j == i + 1 ==> l[j].addr == l[i].addr + l[i].size)
  }

  predicate Coalesced(l: seq<Block>) {
    forall i, j :: 0 <= i < |l| && 0 <= j < |l| && j == i + 1 ==> !(l[i].kind == Free && l[j].kind == Free)
  }

  /** First address past the memory obtained so far. */
  function End(l: seq<Block>): nat {
    if l == [] then BASE + 1 else l[|l| - 1].addr + l[|l| - 1].size
  }

  function FreeAddr(b: Block): seq<nat> { if b.kind == Free then [b.addr] else [] }

  function FreeAddrs(l: seq<Block>): seq<nat> { if l == [] then [] else FreeAddr(l[0]) + FreeAddrs(l[1..]) }

  /** The free list: `base`, then the free blocks in address order. */
  function Order(l: seq<Block>): seq<nat> { [BASE] + FreeAddrs(l) }

  function Blocks(l: seq<Block>, kind: Kind): set<Block> {
    set b | b in l && b.kind == kind
  }

  lemma FreeAddrsStep(l: seq<Block>)
    requires l != []
    ensures FreeAddrs(l) == FreeAddr(l[0]) + FreeAddrs(l[1..])
  {
  }

  lemma Assoc(a: seq<nat>, b: seq<nat>, c: seq<nat>)
    ensures a + (b + c) == a + b + c
  {
  }

  lemma {:induction false} FreeAddrsConcat(a: seq<Block>, b: seq<Block>)
    ensures FreeAddrs(a + b) == FreeAddrs(a) + FreeAddrs(b)
  {
    if a == [] {
      assert a + b == b;
    } else {
      hide FreeAddrs, FreeAddr;
      FreeAddrsConcat(a[1..], b);
      FreeAddrsStep(a);
      FreeAddrsStep(a + b);
      assert (a + b)[1..] == a[1..] + b;
      Assoc(FreeAddr(a[0]), FreeAddrs(a[1..]), FreeAddrs(b));
    }
  }

  lemma {:induction false} TiledLater(l: seq<Block>, i: nat, j: nat)
    requires Tiled(l) && i < j < |l|
    ensures l[i].addr + l[i].size <= l[j].addr
    decreases j - i
  {
    if i + 1 < j {
      TiledLater(l, i + 1, j);
    }
  }

  /** Distinct blocks of a layout do not overlap. */
  lemma NoOverlap(l: seq<Block>, i: nat, j: nat)
    requires Tiled(l) && i < |l| && j < |l| && i != j
    ensures l[i].addr + l[i].size <= l[j].addr || l[j].addr + l[j].size <= l[i].addr
  {
    if i < j { TiledLater(l, i, j); } else { TiledLater(l, j, i); }
  }

  predicate Ascending(s: seq<nat>) {
    forall i, j :: 0 <= i < j < |s| ==> s[i] < s[j]
  }

  lemma {:induction false} FreeAddrsFrom(l: seq<Block>, i: nat)
    requires i < |FreeAddrs(l)|
    ensures exists k :: 0 <= k < |l| && l[k].kind == Free && l[k].addr == FreeAddrs(l)[i]
  {
    var head: seq<nat> := if l[0].kind == Free then [l[0].addr] else [];
    if i >= |head| {
      FreeAddrsFrom(l[1..], i - |head|);
      var k :| 0 <= k < |l[1..]| && l[1..][k].kind == Free && l[1..][k].addr == FreeAddrs(l[1..])[i - |head|];
      assert l[k + 1] == l[1..][k];
    }
  }

  lemma FreeAddrsRange(l: seq<Block>, i: nat)
    requires Tiled(l) && i < |FreeAddrs(l)|
    ensures l[0].addr <= FreeAddrs(l)[i] < End(l)
  {
    FreeAddrsFrom(l, i);
    var k :| 0 <= k < |l| && l[k].kind == Free && l[k].addr == FreeAddrs(l)[i];
    if k > 0 { TiledLater(l, 0, k); }
    if k < |l| - 1 { TiledLater(l, k, |l| - 1); }
  }

  lemma AscendingCons(x: nat, s: seq<nat>)
    requires Ascending(s) && forall i :: 0 <= i < |s| ==> x < s[i]
    ensures Ascending([x] + s)
  {
  }

  lemma {:induction false} FreeAddrsAscend(l: seq<Block>)
    requires Tiled(l)
    ensures Ascending(FreeAddrs(l)) && Ascending(Order(l))
  {
    if l != [] {
      var rest := FreeAddrs(l[1..]);
      FreeAddrsAscend(l[1..]);
      forall i | 0 <= i < |rest| ensures l[0].addr < rest[i] {
        FreeAddrsRange(l[1..], i);
      }
      AscendingCons(l[0].addr, rest);
      assert FreeAddrs(l) == if l[0].kind == Free then [l[0].addr] + rest else rest;
    }
    forall i | 0 <= i < |FreeAddrs(l)| ensures BASE < FreeAddrs(l)[i] {
      FreeAddrsRange(l, i);
    }
    AscendingCons(BASE, FreeAddrs(l));
  }

  /** Position of free block k in the free list. */
  function Rank(l: seq<Block>, k: nat): nat
    requires k <= |l|
  {
    |FreeAddrs(l[..k])|
  }

  lemma OrderSplit(l: seq<Block>, k: nat)
    requires k < |l|
    ensures Order(l) == Order(l[..k]) + FreeAddrs([l[k]]) + FreeAddrs(l[k + 1..])
    ensures |Order(l[..k])| == 1 + Rank(l, k)
  {
    assert l == l[..k] + ([l[k]] + l[k + 1..]);
    FreeAddrsConcat(l[..k], [l[k]] + l[k + 1..]);
    FreeAddrsConcat([l[k]], l[k + 1..]);
  }

  // ----- what free and malloc do to a layout -----

  /** First block to merge when block k is freed. */
  function Lo(l: seq<Block>, k: nat): nat
    requires k < |l|
  {
    if k > 0 && l[k - 1].kind == Free then k - 1 else k
  }

  /** First block past the ones to merge when block k is freed. */
  function Hi(l: seq<Block>, k: nat): nat
    requires k < |l|
  {
    if k + 1 < |l| && l[k + 1].kind == Free then k + 2 else k + 1
  }

  /** Block k and its free neighbours as one free block. */
  function Merged(l: seq<Block>, k: nat): Block
    requires k < |l| && Tiled(l)
  {
    var i, j := Lo(l, k), Hi(l, k);
    TiledUpTo(l, i, j - 1);
    Block(l[i].addr, l[j - 1].addr + l[j - 1].size - l[i].addr, Free)
  }

  /** The layout after block k is freed. */
  function Release(l: seq<Block>, k: nat): seq<Block>
    requires k < |l| && Tiled(l)
  {
    l[..Lo(l, k)] + [Merged(l, k)] + l[Hi(l, k)..]
  }

  lemma TiledUpTo(l: seq<Block>, i: nat, j: nat)
    requires Tiled(l) && i <= j < |l|
    ensures l[i].addr <= l[j].addr
  {
    if i < j { TiledLater(l, i, j); }
  }

  /** The last n units of free block k are handed out. */
  function Carve(l: seq<Block>, k: nat, n: nat): seq<Block>
    requires k < |l| && n <= l[k].size
  {
    l[..k] + Halves(l[k], n) + l[k + 1..]
  }

  function Halves(b: Block, n: nat): seq<Block>
    requires n <= b.size
  {
    if b.size == n then [b.(kind := Live)] else [b.(size := b.size - n), Block(b.addr + b.size - n, n, Live)]
  }

  /** Memory from `sbrk` joins the layout, with the gap before it if there is one. */
  function Extend(l: seq<Block>, brk: nat, n: nat): seq<Block>
    requires brk >= End(l)
  {
    l + (if brk == End(l) || l == [] then [] else [Block(End(l), brk - End(l), Foreign)]) + [Block(brk, n, Live)]
  }

  lemma SpliceTiled(l: seq<Block>, i: nat, j: nat, m: seq<Block>)
    requires Tiled(l) && i < j <= |l| && Tiled(m) && m != []
    requires m[0].addr == l[i].addr && End(m) == l[j - 1].addr + l[j - 1].size
    ensures Tiled(l[..i] + m + l[j..]) && End(l[..i] + m + l[j..]) == End(l)
  {
    var r := l[..i] + m + l[j..];
    forall x | 0 <= x < |r| - 1 ensures r[x + 1].addr == r[x].addr + r[x].size {
      if x + 1 < i {
        assert r[x] == l[x] && r[x + 1] == l[x + 1];
      } else if i <= x && x + 1 < i + |m| {
        assert r[x] == m[x - i] && r[x + 1] == m[x + 1 - i];
      } else if i + |m| <= x {
        assert r[x] == l[x - i - |m| + j] && r[x + 1] == l[x + 1 - i - |m| + j];
      }
    }
  }

  lemma SpliceCoalesced(l: seq<Block>, i: nat, j: nat, m: seq<Block>)
    requires Coalesced(l) && i < j <= |l| && Coalesced(m) && m != []
    requires i > 0 ==> !(l[i - 1].kind == Free && m[0].kind == Free)
    requires j < |l| ==> !(m[|m| - 1].kind == Free && l[j].kind == Free)
    ensures Coalesced(l[..i] + m + l[j..])
  {
    var r := l[..i] + m + l[j..];
    forall x | 0 <= x < |r| - 1 ensures !(r[x].kind == Free && r[x + 1].kind == Free) {
      if x + 1 < i {
        assert r[x] == l[x] && r[x + 1] == l[x + 1];
      } else if i <= x && x + 1 < i + |m| {
        assert r[x] == m[x - i] && r[x + 1] == m[x + 1 - i];
      } else if i + |m| <= x {
        assert r[x] == l[x - i - |m| + j] && r[x + 1] == l[x + 1 - i - |m| + j];
      }
    }
  }

  lemma MergedIsBounded(l: seq<Block>, k: nat)
    requires Coalesced(l) && k < |l| && l[k].kind != Free
    ensures Lo(l, k) > 0 ==> l[Lo(l, k) - 1].kind != Free
    ensures Hi(l, k) < |l| ==> l[Hi(l, k)].kind != Free
  {
  }

  lemma MergedOk(l: seq<Block>, k: nat)
    requires Tiled(l) && k < |l|
    ensures Tiled([Merged(l, k)]) && Coalesced([Merged(l, k)])
    ensures End([Merged(l, k)]) == l[Hi(l, k) - 1].addr + l[Hi(l, k) - 1].size
  {
    TiledUpTo(l, Lo(l, k), Hi(l, k) - 1);
  }

  /** free keeps the tiling, leaves no two free neighbours, and ends where it ended. */
  lemma ReleaseOk(l: seq<Block>, k: nat)
    requires Tiled(l) && Coalesced(l) && k < |l| && l[k].kind != Free
    ensures Tiled(Release(l, k)) && Coalesced(Release(l, k)) && End(Release(l, k)) == End(l)
  {
    MergedIsBounded(l, k);
    MergedOk(l, k);
    hide Coalesced, Tiled, End;
    SpliceCoalesced(l, Lo(l, k), Hi(l, k), [Merged(l, k)]);
    SpliceTiled(l, Lo(l, k), Hi(l, k), [Merged(l, k)]);
  }

  lemma HalvesOk(b: Block, n: nat)
    requires b.addr > BASE && b.kind == Free && 0 < n <= b.size
    ensures var m := Halves(b, n);
            m != [] && Tiled(m) && Coalesced(m) && m[0].addr == b.addr && End(m) == b.addr + b.size
              && m[|m| - 1].kind == Live
  {
  }

  lemma CarveOk(l: seq<Block>, k: nat, n: nat)
    requires Tiled(l) && Coalesced(l) && k < |l| && l[k].kind == Free && 0 < n <= l[k].size
    ensures Tiled(Carve(l, k, n)) && Coalesced(Carve(l, k, n)) && End(Carve(l, k, n)) == End(l)
  {
    HalvesOk(l[k], n);
    hide Tiled, Coalesced, Halves;
    SpliceTiled(l, k, k + 1, Halves(l[k], n));
    SpliceCoalesced(l, k, k + 1, Halves(l[k], n));
  }

  lemma ExtendOk(l: seq<Block>, brk: nat, n: nat)
    requires Tiled(l) && Coalesced(l) && brk >= End(l) && n > 0
    ensures Tiled(Extend(l, brk, n)) && Coalesced(Extend(l, brk, n)) && End(Extend(l, brk, n)) == brk + n
  {
    var gap := if brk == End(l) || l == [] then [] else [Block(End(l), brk - End(l), Foreign)];
    if gap != [] {
      AppendOk(l, gap[0]);
    } else {
      assert l + gap == l;
    }
    hide Tiled, Coalesced;
    AppendOk(l + gap, Block(brk, n, Live));
  }

  lemma AppendOk(l: seq<Block>, b: Block)
    requires Tiled(l) && Coalesced(l) && (l != [] ==> b.addr == End(l)) && b.addr > BASE && b.size > 0 && b.kind != Free
    ensures Tiled(l + [b]) && Coalesced(l + [b]) && End(l + [b]) == b.addr + b.size
  {
  }

  lemma SpliceMembers(l: seq<Block>, i: nat, j: nat, m: seq<Block>, b: Block)
    requires i <= j <= |l|
    ensures b in l <==> b in l[..i] || b in l[i..j] || b in l[j..]
    ensures b in l[..i] + m + l[j..] <==> b in l[..i] || b in m || b in l[j..]
  {
    assert l == l[..i] + l[i..j] + l[j..];
  }

  lemma OnlyOnce(l: seq<Block>, k: nat, i: nat, j: nat)
    requires Tiled(l) && i <= k < j <= |l|
    ensures l[k] !in l[..i] && l[k] !in l[j..]
  {
    forall x | 0 <= x < |l| && x != k ensures l[x] != l[k] { NoOverlap(l, x, k); }
  }

  lemma MergedMembers(l: seq<Block>, k: nat, b: Block)
    requires k < |l| && l[k].kind != Free && b.kind != Free
    ensures b in l[Lo(l, k)..Hi(l, k)] <==> b == l[k]
  {
    var i, j := Lo(l, k), Hi(l, k);
    assert l[i..j][k - i] == l[k];
  }

  /** free returns exactly block k: every other allocated block, and all foreign memory, is untouched. */
  lemma ReleaseBlocks(l: seq<Block>, k: nat)
    requires Tiled(l) && k < |l| && l[k].kind == Live
    ensures Blocks(Release(l, k), Live) == Blocks(l, Live) - {l[k]}
    ensures Blocks(Release(l, k), Foreign) == Blocks(l, Foreign)
  {
    var i, j := Lo(l, k), Hi(l, k);
    OnlyOnce(l, k, i, j);
    forall b: Block | b.kind != Free ensures b in Release(l, k) <==> b in l && b != l[k] {
      hide Tiled, Lo, Hi;
      SpliceMembers(l, i, j, [Merged(l, k)], b);
      MergedMembers(l, k, b);
    }
  }

  /** malloc adds one allocated block of n units, disjoint from all others. */
  lemma CarveBlocks(l: seq<Block>, k: nat, n: nat)
    requires Tiled(l) && k < |l| && l[k].kind == Free && 0 < n <= l[k].size
    ensures var b := Block(l[k].addr + l[k].size - n, n, Live);
            b !in Blocks(l, Live) && Blocks(Carve(l, k, n), Live) == Blocks(l, Live) + {b}
    ensures Blocks(Carve(l, k, n), Foreign) == Blocks(l, Foreign)
  {
    var b := Block(l[k].addr + l[k].size - n, n, Live);
    assert b !in l by {
      forall i | 0 <= i < |l| ensures l[i] != b { if i != k { NoOverlap(l, i, k); } }
    }
    assert l == l[..k] + [l[k]] + l[k + 1..];
    forall c: Block | c.kind != Free ensures c in Carve(l, k, n) <==> c in l || c == b {}
  }

  // ----- the free list -----

  lemma TiledPart(l: seq<Block>, i: nat, j: nat)
    requires Tiled(l) && i <= j <= |l|
    ensures Tiled(l[i..j])
  {
  }

  /** An allocated block lies strictly between two neighbours of the free list. */
  lemma Between(l: seq<Block>, k: nat)
    requires Tiled(l) && k < |l| && l[k].kind != Free
    ensures var o, t := Order(l), Rank(l, k);
            t < |o| && o[t] < l[k].addr && (t + 1 < |o| ==> l[k].addr < o[t + 1])
  {
    var t := Rank(l, k);
    OrderSplit(l, k);
    FreeAddrsOne(l[k]);
    TiledPart(l, 0, k);
    TiledPart(l, k + 1, |l|);
    assert l[k + 1..|l|] == l[k + 1..];
    hide FreeAddrs;
    if t > 0 {
      FreeAddrsRange(l[..k], t - 1);
      TiledLater(l, k - 1, k);
    }
    if t + 1 < |Order(l)| {
      FreeAddrsRange(l[k + 1..], 0);
    }
  }

  lemma FreeAddrsOne(b: Block)
    ensures FreeAddrs([b]) == if b.kind == Free then [b.addr] else []
  {
    assert [b][1..] == [];
  }

  lemma OrderSplice(a: seq<Block>, m: seq<Block>, c: seq<Block>)
    ensures Order(a + m + c) == Order(a) + FreeAddrs(m) + FreeAddrs(c)
  {
    FreeAddrsConcat(a + m, c);
    FreeAddrsConcat(a, m);
  }

  function LowerAddr(l: seq<Block>, k: nat): seq<nat>
    requires k < |l|
  {
    if Lo(l, k) < k then [l[k - 1].addr] else []
  }

  function UpperAddr(l: seq<Block>, k: nat): seq<nat>
    requires k < |l|
  {
    if Hi(l, k) > k + 1 then [l[k + 1].addr] else []
  }

  /** The free list around allocated block k: what precedes, its free neighbours, what follows. */
  lemma OrderAround(l: seq<Block>, k: nat)
    requires k < |l| && l[k].kind == Live
    ensures Order(l) == Order(l[..Lo(l, k)]) + LowerAddr(l, k) + UpperAddr(l, k) + FreeAddrs(l[Hi(l, k)..])
    ensures Rank(l, k) + 1 == |Order(l[..Lo(l, k)])| + |LowerAddr(l, k)|
  {
    OrderSplit(l, k);
    FreeAddrsOne(l[k]);
    LowerPart(l, k);
    UpperPart(l, k);
    hide FreeAddrs, LowerAddr, UpperAddr;
    FourJoin([BASE], FreeAddrs(l[..Lo(l, k)]), LowerAddr(l, k), UpperAddr(l, k), FreeAddrs(l[Hi(l, k)..]));
  }

  lemma FourJoin(base: seq<nat>, a: seq<nat>, lower: seq<nat>, upper: seq<nat>, c: seq<nat>)
    ensures base + (a + lower) + [] + (upper + c) == base + a + lower + upper + c
  {
  }

  lemma LowerPart(l: seq<Block>, k: nat)
    requires k < |l|
    ensures FreeAddrs(l[..k]) == FreeAddrs(l[..Lo(l, k)]) + LowerAddr(l, k)
  {
    if Lo(l, k) < k {
      assert l[..k] == l[..k - 1] + [l[k - 1]];
      FreeAddrsConcat(l[..k - 1], [l[k - 1]]);
      FreeAddrsOne(l[k - 1]);
    }
  }

  lemma UpperPart(l: seq<Block>, k: nat)
    requires k < |l|
    ensures FreeAddrs(l[k + 1..]) == UpperAddr(l, k) + FreeAddrs(l[Hi(l, k)..])
  {
    if Hi(l, k) > k + 1 {
      assert l[k + 1..] == [l[k + 1]] + l[k + 2..];
      FreeAddrsConcat([l[k + 1]], l[k + 2..]);
      FreeAddrsOne(l[k + 1]);
    }
  }

  lemma FourParts(p: seq<nat>, lower: seq<nat>, upper: seq<nat>, q: seq<nat>, a: nat)
    requires |lower| <= 1 && (|lower| == 1 ==> lower[0] == a)
    ensures var o := p + lower + upper + q;
            p + [a] + q == o[..|p| + |lower|] + (if lower == [] then [a] else []) + o[|p| + |lower| + |upper|..]
  {
    var o := p + lower + upper + q;
    assert o[..|p| + |lower|] == p + lower;
    assert o[|p| + |lower| + |upper|..] == q;
  }

  /** The list after freeing block k: its upper neighbour leaves, and it enters unless a lower one absorbs it. */
  lemma OrderRelease(l: seq<Block>, k: nat)
    requires Tiled(l) && k < |l| && l[k].kind == Live
    ensures var o, t := Order(l), Rank(l, k);
            && t + Hi(l, k) - k <= |o|
            && Order(Release(l, k)) ==
               o[..t + 1] + (if Lo(l, k) < k then [] else [l[k].addr]) + o[t + Hi(l, k) - k..]
    ensures Lo(l, k) < k ==> Order(l)[Rank(l, k)] == l[k - 1].addr
    ensures Hi(l, k) > k + 1 ==> Rank(l, k) + 1 < |Order(l)| && Order(l)[Rank(l, k) + 1] == l[k + 1].addr
  {
    var i, j := Lo(l, k), Hi(l, k);
    TiledUpTo(l, i, j - 1);
    hide Tiled;
    var b := Block(l[i].addr, l[j - 1].addr + l[j - 1].size - l[i].addr, Free);
    assert Release(l, k) == l[..i] + [b] + l[j..];
    FreeAddrsOne(b);
    hide FreeAddrs, Order, Rank, Release;
    OrderSplice(l[..i], [b], l[j..]);
    OrderAround(l, k);
    FourParts(Order(l[..i]), LowerAddr(l, k), UpperAddr(l, k), FreeAddrs(l[j..]), l[i].addr);
  }

  lemma OrderCarve(l: seq<Block>, k: nat, n: nat)
    requires k < |l| && l[k].kind == Free && n <= l[k].size
    ensures var o, t := Order(l), Rank(l, k);
            && t + 1 < |o| && o[t + 1] == l[k].addr
            && Order(Carve(l, k, n)) == if l[k].size == n then o[..t + 1] + o[t + 2..] else o
  {
    OrderSplit(l, k);
    FreeAddrsOne(l[k]);
    HalvesAddrs(l[k], n);
    hide FreeAddrs, Halves, Order, Rank;
    OrderSplice(l[..k], Halves(l[k], n), l[k + 1..]);
    CutMiddle(Order(l[..k]), l[k].addr, FreeAddrs(l[k + 1..]));
  }

  lemma CutMiddle(p: seq<nat>, x: nat, q: seq<nat>)
    ensures var o := p + [x] + q; o[|p|] == x && o[..|p|] + o[|p| + 1..] == p + [] + q
  {
    var o := p + [x] + q;
    assert o[..|p|] == p && o[|p| + 1..] == q;
  }

  lemma HalvesAddrs(b: Block, n: nat)
    requires b.kind == Free && n <= b.size
    ensures FreeAddrs(Halves(b, n)) == if b.size == n then [] else [b.addr]
  {
    if b.size == n {
      FreeAddrsOne(b.(kind := Live));
    } else {
      var m1, m2 := b.(size := b.size - n), Block(b.addr + b.size - n, n, Live);
      FreeAddrsOne(m1);
      FreeAddrsOne(m2);
      FreeAddrsConcat([m1], [m2]);
      assert [m1] + [m2] == [m1, m2];
    }
  }

  lemma OrderExtend(l: seq<Block>, brk: nat, n: nat)
    requires brk >= End(l)
    ensures Order(Extend(l, brk, n)) == Order(l)
  {
    var gap := if brk == End(l) || l == [] then [] else [Block(End(l), brk - End(l), Foreign)];
    FreeAddrsConcat(l + gap, [Block(brk, n, Live)]);
    FreeAddrsConcat(l, gap);
  }

  function Succ(o: seq<nat>, i: nat): nat
    requires i < |o|
  {
    if i + 1 < |o| then o[i + 1] else o[0]
  }

  /** The `ptr` fields run once round the addresses in `o`. */
  predicate Ring(hdr: map<nat, Header>, o: seq<nat>) {
    && (forall i :: 0 <= i < |o| ==> o[i] in hdr)
    && (forall i {:trigger Succ(o, i)} :: 0 <= i < |o| ==> hdr[o[i]].ptr == Succ(o, i))
  }

  lemma RingStep(hdr: map<nat, Header>, o: seq<nat>, i: nat)
    requires Ring(hdr, o) && i < |o|
    ensures o[i] in hdr && hdr[o[i]].ptr == Succ(o, i)
  {
  }

  /** Re-pointing o[t] past `drop` entries, through `mid` if there is one, gives the spliced ring. */
  lemma RingSplice(hdr: map<nat, Header>, h2: map<nat, Header>, o: seq<nat>, t: nat, mid: seq<nat>, drop: nat)
    requires Ring(hdr, o) && Ascending(o) && t < |o| && |mid| <= 1 && t + 1 + drop <= |o|
    requires forall i :: 0 <= i < |o| && i != t ==> o[i] in h2 && h2[o[i]].ptr == hdr[o[i]].ptr
    requires o[t] in h2
    requires var next := if t + 1 + drop < |o| then o[t + 1 + drop] else o[0];
             if mid == [] then h2[o[t]].ptr == next
             else h2[o[t]].ptr == mid[0] && mid[0] in h2 && h2[mid[0]].ptr == next
    ensures Ring(h2, o[..t + 1] + mid + o[t + 1 + drop..])
  {
    var r := o[..t + 1] + mid + o[t + 1 + drop..];
    forall i | 0 <= i < |r| ensures r[i] in h2 && h2[r[i]].ptr == Succ(r, i) {
      if i < t {
        RingStep(hdr, o, i);
      } else if i >= t + 1 + |mid| {
        RingStep(hdr, o, i - |mid| + drop);
      }
    }
  }

  /** Every obtained block carries its size in its header. */
  predicate Headers(hdr: map<nat, Header>, l: seq<Block>) {
    forall b :: b in l && b.kind != Foreign ==> b.addr in hdr && hdr[b.addr].size == b.size
  }

  /** Block k is followed by free memory exactly when it ends where the next list entry starts. */
  lemma UpperNeighbour(l: seq<Block>, k: nat)
    requires Tiled(l) && k < |l| && l[k].kind == Live
    ensures var o, t := Order(l), Rank(l, k);
            Hi(l, k) > k + 1 <==> t < |o| && Succ(o, t) == l[k].addr + l[k].size
  {
    Between(l, k);
    OrderRelease(l, k);
    var o, t := Order(l), Rank(l, k);
    if t + 1 < |o| && o[t + 1] == l[k].addr + l[k].size {
      FreeAddrsFrom(l, t);
      var x :| 0 <= x < |l| && l[x].kind == Free && l[x].addr == FreeAddrs(l)[t];
      SameAddr(l, k, x);
    }
  }

  lemma SameAddr(l: seq<Block>, k: nat, x: nat)
    requires Tiled(l) && k < |l| && x < |l| && l[x].addr == l[k].addr + l[k].size
    ensures x == k + 1
  {
    if x <= k { if x < k { TiledLater(l, x, k); } } else if x > k + 1 { TiledLater(l, k + 1, x); }
  }

  /** Block k is preceded by free memory exactly when its list predecessor ends where it starts. */
  lemma LowerNeighbour(l: seq<Block>, k: nat, hdr: map<nat, Header>)
    requires Tiled(l) && k < |l| && l[k].kind == Live && Headers(hdr, l)
    requires BASE in hdr && hdr[BASE].size == 0
    ensures var o, t := Order(l), Rank(l, k);
            Lo(l, k) < k <==> t < |o| && o[t] in hdr && o[t] + hdr[o[t]].size == l[k].addr
  {
    Between(l, k);
    OrderRelease(l, k);
    var o, t := Order(l), Rank(l, k);
    if Lo(l, k) < k {
      assert l[k - 1] in l;
    } else if t > 0 && o[t] in hdr && o[t] + hdr[o[t]].size == l[k].addr {
      FreeAddrsFrom(l, t - 1);
      var x :| 0 <= x < |l| && l[x].kind == Free && l[x].addr == FreeAddrs(l)[t - 1];
      assert l[x] in l;
      SameAddr(l, x, k);
      assert false;
    }
  }

  lemma StillListed(l: seq<Block>, k: nat)
    requires Tiled(l) && k < |l| && l[k].kind == Live
    ensures Rank(l, k) < |Order(l)| && Order(l)[Rank(l, k)] in Order(Release(l, k)) && Order(l)[Rank(l, k)] > 0
  {
    OrderRelease(l, k);
    Between(l, k);
    var o, t := Order(l), Rank(l, k);
    assert Order(Release(l, k))[t] == o[t];
    FreeAddrsAscend(l);
    assert o[0] == BASE && (t > 0 ==> o[0] < o[t]);
  }

  /** Replacing blocks i..j of a layout by m: sizes may change only in headers of the replaced blocks. */
  lemma HeadersSplice(hdr: map<nat, Header>, h2: map<nat, Header>, l: seq<Block>, i: nat, j: nat, m: seq<Block>)
    requires Headers(hdr, l) && Tiled(l) && i < j <= |l| && Headers(h2, m)
    requires forall x :: x in hdr && (x < l[i].addr || x >= l[j - 1].addr + l[j - 1].size) ==>
               x in h2 && h2[x].size == hdr[x].size
    ensures Headers(h2, l[..i] + m + l[j..])
  {
    forall b | b in l[..i] + m + l[j..] && b.kind != Foreign ensures b.addr in h2 && h2[b.addr].size == b.size {
      SpliceMembers(l, i, j, m, b);
      if b in l[..i] {
        var x :| 0 <= x < i && l[x] == b;
        TiledLater(l, x, i);
      } else if b in l[j..] {
        var x :| 0 <= x < |l[j..]| && l[j..][x] == b;
        assert l[j + x] == b;
        TiledLater(l, j - 1, j + x);
      }
    }
  }

  /** The headers after `free` has linked bp in after p. */
  function Joined(hdr: map<nat, Header>, p: nat, bp: nat): map<nat, Header>
    requires p in hdr && bp in hdr && hdr[p].ptr in hdr
  {
    var next := hdr[p].ptr;
    var b := if bp + hdr[bp].size == next then Header(hdr[next].ptr, hdr[bp].size + hdr[next].size)
             else Header(next, hdr[bp].size);
    hdr[bp := b][p := if p + hdr[p].size == bp then Header(b.ptr, hdr[p].size + b.size) else Header(bp, hdr[p].size)]
  }

  lemma JoinRing(hdr: map<nat, Header>, o: seq<nat>, t: nat, bp: nat)
    requires Ring(hdr, o) && Ascending(o) && t < |o| && bp in hdr
    requires o[t] < bp && (t + 1 < |o| ==> bp < o[t + 1])
    requires bp + hdr[bp].size == Succ(o, t) ==> t + 1 < |o|
    ensures o[t] in hdr && hdr[o[t]].ptr == Succ(o, t) && Succ(o, t) in hdr
    ensures var mid := if o[t] + hdr[o[t]].size == bp then [] else [bp];
            var drop := if bp + hdr[bp].size == Succ(o, t) then 1 else 0;
            Ring(Joined(hdr, o[t], bp), o[..t + 1] + mid + o[t + 1 + drop..])
  {
    assert o[t] in hdr && hdr[o[t]].ptr == Succ(o, t);
    assert t + 1 < |o| ==> o[t + 1] in hdr && hdr[o[t + 1]].ptr == Succ(o, t + 1);
    assert o[0] in hdr;
    var mid := if o[t] + hdr[o[t]].size == bp then [] else [bp];
    var drop := if bp + hdr[bp].size == Succ(o, t) then 1 else 0;
    forall x | 0 <= x < |o| ensures o[x] != bp && (x != t ==> o[x] != o[t]) {}
    RingSplice(hdr, Joined(hdr, o[t], bp), o, t, mid, drop);
  }

  lemma JoinedRing(hdr: map<nat, Header>, l: seq<Block>, k: nat)
    requires Tiled(l) && k < |l| && l[k].kind == Live && Headers(hdr, l) && Ring(hdr, Order(l))
    requires BASE in hdr && hdr[BASE].size == 0
    ensures Rank(l, k) < |Order(l)|
    ensures var p := Order(l)[Rank(l, k)];
            p in hdr && l[k].addr in hdr && hdr[p].ptr in hdr && p < l[k].addr
            && Ring(Joined(hdr, p, l[k].addr), Order(Release(l, k)))
  {
    assert l[k] in l;
    FreeAddrsAscend(l);
    hide Tiled, Order, Rank, Release, Joined, Ring, FreeAddrs;
    Between(l, k);
    UpperNeighbour(l, k);
    LowerNeighbour(l, k, hdr);
    OrderRelease(l, k);
    JoinRing(hdr, Order(l), Rank(l, k), l[k].addr);
  }

  lemma JoinedSizes(hdr: map<nat, Header>, p: nat, bp: nat)
    requires p in hdr && bp in hdr && hdr[p].ptr in hdr && p < bp
    ensures var h2, next := Joined(hdr, p, bp), hdr[p].ptr;
            var size := hdr[bp].size + if bp + hdr[bp].size == next then hdr[next].size else 0;
            && p in h2 && bp in h2
            && (forall x :: x in hdr && x != p && x != bp ==> x in h2 && h2[x].size == hdr[x].size)
            && h2[p].size == hdr[p].size + (if p + hdr[p].size == bp then size else 0)
            && h2[bp].size == size
  {
  }

  lemma JoinedHeaders(hdr: map<nat, Header>, l: seq<Block>, k: nat)
    requires Tiled(l) && k < |l| && l[k].kind == Live && Headers(hdr, l) && Ring(hdr, Order(l))
    requires BASE in hdr && hdr[BASE].size == 0 && Rank(l, k) < |Order(l)|
    requires var p := Order(l)[Rank(l, k)]; p in hdr && l[k].addr in hdr && hdr[p].ptr in hdr && p < l[k].addr
    ensures var h2 := Joined(hdr, Order(l)[Rank(l, k)], l[k].addr);
            Headers(h2, Release(l, k)) && BASE in h2 && h2[BASE].size == 0
  {
    var p, i, j := Order(l)[Rank(l, k)], Lo(l, k), Hi(l, k);
    var h2 := Joined(hdr, p, l[k].addr);
    TiledUpTo(l, i, j - 1);
    var b := Merged(l, k);
    RingStep(hdr, Order(l), Rank(l, k));
    UpperNeighbour(l, k);
    LowerNeighbour(l, k, hdr);
    OrderRelease(l, k);
    JoinedSizes(hdr, p, l[k].addr);
    hide Order, Rank, Release, Ring, Succ, Joined;
    assert l[k] in l && l[i] in l && l[j - 1] in l;
    assert k > i ==> l[k].addr == l[i].addr + l[i].size;
    assert j > k + 1 ==> l[j - 1].addr == l[k].addr + l[k].size;
    assert h2[b.addr].size == b.size by { hide Tiled, Headers; }
    HeadersSplice(hdr, h2, l, i, j, [b]);
  }

  /** Every list entry but `base` is a free block of the layout, at the matching rank. */
  lemma {:induction false} BlockAt(l: seq<Block>, q: nat) returns (k: nat)
    requires 0 < q < |Order(l)|
    ensures k < |l| && l[k].kind == Free && l[k].addr == Order(l)[q] && Rank(l, k) + 1 == q
    decreases |l|
  {
    k := |l| - 1;
    OrderSplit(l, k);
    FreeAddrsOne(l[k]);
    if !(l[k].kind == Free && Rank(l, k) + 1 == q) {
      k := BlockAt(l[..k], q);
      assert l[..|l| - 1][..k] == l[..k];
    }
  }

  lemma FreeIsListed(l: seq<Block>, k: nat) returns (q: nat)
    requires k < |l| && l[k].kind == Free
    ensures q == Rank(l, k) + 1 < |Order(l)| && Order(l)[q] == l[k].addr
  {
    q := Rank(l, k) + 1;
    OrderSplit(l, k);
    FreeAddrsOne(l[k]);
  }

  /** The layout after `morecore`. */
  function Grown(l: seq<Block>, brk: nat, n: nat): seq<Block>
    requires Tiled(l) && brk >= End(l) && n > 0 && brk > BASE && Coalesced(l)
  {
    ExtendOk(l, brk, n);
    Release(Extend(l, brk, n), |Extend(l, brk, n)| - 1)
  }

  /** The block obtained, with whatever it merged into, is free and large enough. */
  lemma GrownHasRoom(l: seq<Block>, brk: nat, n: nat) returns (k: nat)
    requires Tiled(l) && brk >= End(l) && n > 0 && brk > BASE && Coalesced(l)
    ensures k < |Grown(l, brk, n)| && Grown(l, brk, n)[k].kind == Free && Grown(l, brk, n)[k].size >= n
  {
    var e := Extend(l, brk, n);
    ExtendOk(l, brk, n);
    k := Lo(e, |e| - 1);
    TiledUpTo(e, k, |e| - 1);
  }

  /** Obtaining memory changes no allocated block. */
  lemma GrownBlocks(l: seq<Block>, brk: nat, n: nat)
    requires Tiled(l) && brk >= End(l) && n > 0 && brk > BASE && Coalesced(l)
    ensures Tiled(Grown(l, brk, n)) && Coalesced(Grown(l, brk, n)) && End(Grown(l, brk, n)) == brk + n
    ensures Blocks(Grown(l, brk, n), Live) == Blocks(l, Live)
  {
    var e := Extend(l, brk, n);
    ExtendOk(l, brk, n);
    ReleaseOk(e, |e| - 1);
    ReleaseBlocks(e, |e| - 1);
    var b := e[|e| - 1];
    assert b !in l by {
      forall x | 0 <= x < |l| ensures l[x] != b { assert e[x] == l[x]; NoOverlap(e, x, |e| - 1); }
    }
    forall c: Block | c.kind == Live ensures c in e <==> c in l || c == b {}
    assert Blocks(e, Live) == Blocks(l, Live) + {b};
  }

  /** Writing the header of fresh memory disturbs neither the list nor the other headers. */
  lemma ExtendLinked(hdr: map<nat, Header>, h: Header, l: seq<Block>, brk: nat, n: nat)
    requires Tiled(l) && brk >= End(l) && n > 0 && brk > BASE && h.size == n
    requires Headers(hdr, l) && Ring(hdr, Order(l))
    ensures Headers(hdr[brk := h], Extend(l, brk, n)) && Ring(hdr[brk := h], Order(Extend(l, brk, n)))
  {
    OrderExtend(l, brk, n);
    forall i | 0 <= i < |Order(l)| ensures Order(l)[i] < brk {
      if i > 0 { FreeAddrsRange(l, i - 1); }
    }
    forall b | b in l ensures b.addr < brk {
      var x :| 0 <= x < |l| && l[x] == b;
      TiledUpTo(l, x, |l| - 1);
    }
  }

  /** The headers after `malloc` takes n units from free block p, listed after prev; g is leftover memory. */
  function Taken(hdr: map<nat, Header>, prev: nat, p: nat, n: nat, g: nat): map<nat, Header>
    requires prev in hdr && p in hdr && n <= hdr[p].size
  {
    if hdr[p].size == n then hdr[prev := hdr[prev].(ptr := hdr[p].ptr)]
    else hdr[p := hdr[p].(size := hdr[p].size - n)][p + hdr[p].size - n := Header(g, n)]
  }

  lemma TakenHeaders(hdr: map<nat, Header>, l: seq<Block>, k: nat, n: nat, prev: nat, g: nat)
    requires Tiled(l) && k < |l| && l[k].kind == Free && 0 < n <= l[k].size && Headers(hdr, l)
    requires prev in hdr && BASE in hdr && hdr[BASE].size == 0
    ensures l[k].addr in hdr && hdr[l[k].addr].size == l[k].size
    ensures var h2 := Taken(hdr, prev, l[k].addr, n, g);
            Headers(h2, Carve(l, k, n)) && BASE in h2 && h2[BASE].size == 0
  {
    assert l[k] in l;
    var m := if l[k].size == n then [l[k].(kind := Live)]
             else [l[k].(size := l[k].size - n), Block(l[k].addr + l[k].size - n, n, Live)];
    HeadersSplice(hdr, Taken(hdr, prev, l[k].addr, n, g), l, k, k + 1, m);
  }

  /** No list entry lies strictly inside a free block. */
  lemma NoneInside(l: seq<Block>, k: nat, x: nat, i: nat)
    requires Tiled(l) && k < |l| && l[k].addr < x < l[k].addr + l[k].size && i < |Order(l)|
    ensures Order(l)[i] != x
  {
    if i > 0 {
      FreeAddrsFrom(l, i - 1);
      var y :| 0 <= y < |l| && l[y].kind == Free && l[y].addr == Order(l)[i];
      if y != k { NoOverlap(l, y, k); }
    }
  }

  lemma TakeRing(hdr: map<nat, Header>, o: seq<nat>, t: nat, p: nat, n: nat, g: nat)
    requires Ring(hdr, o) && Ascending(o) && t + 1 < |o| && o[t + 1] == p && p in hdr && o[t] in hdr && n <= hdr[p].size
    requires forall i :: 0 <= i < |o| && n < hdr[p].size ==> o[i] != p + hdr[p].size - n
    ensures Ring(Taken(hdr, o[t], p, n, g), if hdr[p].size == n then o[..t + 1] + o[t + 2..] else o)
  {
    RingStep(hdr, o, t + 1);
    if hdr[p].size == n {
      RingSplice(hdr, Taken(hdr, o[t], p, n, g), o, t, [], 1);
      assert o[..t + 1] + [] + o[t + 2..] == o[..t + 1] + o[t + 2..];
    }
  }

  lemma TakenRing(hdr: map<nat, Header>, l: seq<Block>, k: nat, n: nat, g: nat)
    requires Tiled(l) && k < |l| && l[k].kind == Free && 0 < n <= l[k].size && Ring(hdr, Order(l))
    requires Rank(l, k) < |Order(l)| && Order(l)[Rank(l, k)] in hdr
    requires l[k].addr in hdr && hdr[l[k].addr].size == l[k].size
    ensures Ring(Taken(hdr, Order(l)[Rank(l, k)], l[k].addr, n, g), Order(Carve(l, k, n)))
    ensures Order(l)[Rank(l, k)] in Order(Carve(l, k, n))
  {
    var o, t := Order(l), Rank(l, k);
    hide Ring, Taken;
    FreeAddrsAscend(l);
    OrderCarve(l, k, n);
    forall i | 0 <= i < |o| && n < l[k].size ensures o[i] != l[k].addr + l[k].size - n {
      NoneInside(l, k, l[k].addr + l[k].size - n, i);
    }
    hide Tiled, Order, Rank, Carve;
    TakeRing(hdr, o, t, l[k].addr, n, g);
    assert Order(Carve(l, k, n))[t] == o[t];
  }

  /** Index of the entry c steps after entry s of a ring of n. */
  function Wrap(n: nat, s: nat, c: nat): nat
    requires s < n && c <= n
  {
    if s + c < n then s + c else s + c - n
  }

  /** Size of the entry c steps past the one after s, or 0. */
  ghost function SizeAt(hdr: map<nat, Header>, o: seq<nat>, s: nat, c: nat): nat {
    if s < |o| && c < |o| && o[Wrap(|o|, s, c + 1)] in hdr then hdr[o[Wrap(|o|, s, c + 1)]].size else 0
  }

  /** The walk that began after entry s is at p, the d entries it passed being too small. */
  ghost predicate Walk(hdr: map<nat, Header>, o: seq<nat>, s: nat, d: nat, prevp: nat, p: nat, n: nat) {
    && Ring(hdr, o) && Ascending(o) && s < |o| && d < |o|
    && prevp == o[Wrap(|o|, s, d)] && p == o[Wrap(|o|, s, d + 1)]
    && forall c :: 0 <= c < d ==> SizeAt(hdr, o, s, c) < n
  }

  /** Some entry not yet passed is large enough. */
  ghost predicate Ahead(hdr: map<nat, Header>, o: seq<nat>, s: nat, d: nat, n: nat) {
    exists c :: d <= c < |o| && SizeAt(hdr, o, s, c) >= n
  }

  ghost predicate TooSmall(l: seq<Block>, n: nat) {
    forall b :: b in l && b.kind == Free ==> b.size < n
  }

  lemma BrkAboveBase(l: seq<Block>, brk: nat)
    requires Tiled(l) && brk >= End(l)
    ensures brk > BASE
  {
  }

  lemma EmptyList(hdr: map<nat, Header>)
    requires BASE in hdr && hdr[BASE] == Header(BASE, 0)
    ensures Order([]) == [BASE] && Ring(hdr, Order([])) && Headers(hdr, []) && Ascending(Order([]))
  {
  }

  ghost function IndexOf(o: seq<nat>, x: nat): (i: nat)
    requires x in o
    ensures i < |o| && o[i] == x
  {
    var i :| 0 <= i < |o| && o[i] == x;
    i
  }

  lemma SuccWrap(o: seq<nat>, s: nat, c: nat)
    requires s < |o| && c < |o|
    ensures Succ(o, Wrap(|o|, s, c)) == o[Wrap(|o|, s, c + 1)]
  {
  }

  /** A walk can start at any entry. */
  lemma WalkStart(hdr: map<nat, Header>, o: seq<nat>, s: nat, n: nat)
    requires Ring(hdr, o) && Ascending(o) && s < |o|
    ensures o[s] in hdr && Walk(hdr, o, s, 0, o[s], hdr[o[s]].ptr, n)
  {
    RingStep(hdr, o, s);
  }

  /** One step of the walk. */
  lemma WalkNext(hdr: map<nat, Header>, o: seq<nat>, s: nat, d: nat, prevp: nat, p: nat, n: nat)
    requires Walk(hdr, o, s, d, prevp, p, n)
    ensures s < |o| && d < |o| && p == o[Wrap(|o|, s, d + 1)]
    ensures p in hdr && prevp in hdr && hdr[p].size == SizeAt(hdr, o, s, d)
    ensures p == o[s] <==> d + 1 == |o|
    ensures hdr[p].size < n && d + 1 < |o| ==> Walk(hdr, o, s, d + 1, p, hdr[p].ptr, n)
    ensures Wrap(|o|, s, d + 1) > 0 ==> prevp == o[Wrap(|o|, s, d + 1) - 1]
  {
    RingStep(hdr, o, Wrap(|o|, s, d));
    RingStep(hdr, o, Wrap(|o|, s, d + 1));
    assert d + 1 < |o| ==> o[Wrap(|o|, s, d + 1)] != o[s] by { hide Ring, SizeAt; }
    if hdr[p].size < n && d + 1 < |o| {
      SuccWrap(o, s, d + 1);
      hide Ring, Ascending;
    }
  }

  /** A walk that came all the way round has seen every entry. */
  lemma WalkedAll(hdr: map<nat, Header>, o: seq<nat>, s: nat, prevp: nat, p: nat, n: nat, i: nat)
    requires |o| > 0 && Walk(hdr, o, s, |o| - 1, prevp, p, n) && p in hdr && hdr[p].size < n && i < |o|
    ensures o[i] in hdr && hdr[o[i]].size < n
  {
    var c := WrapMeets(|o|, s, i);
    assert SizeAt(hdr, o, s, c) < n;
  }

  lemma AllTooSmall(hdr: map<nat, Header>, l: seq<Block>, s: nat, prevp: nat, p: nat, n: nat)
    requires Walk(hdr, Order(l), s, |Order(l)| - 1, prevp, p, n) && p in hdr && hdr[p].size < n && Headers(hdr, l)
    ensures TooSmall(l, n)
  {
    forall b | b in l && b.kind == Free ensures b.size < n {
      var k :| 0 <= k < |l| && l[k] == b;
      var q := FreeIsListed(l, k);
      WalkedAll(hdr, Order(l), s, prevp, p, n, q);
    }
  }

  /** The entry the walk stops at is a free block, listed right after prevp. */
  lemma FitBlock(hdr: map<nat, Header>, l: seq<Block>, s: nat, d: nat, prevp: nat, p: nat, n: nat) returns (k: nat)
    requires Walk(hdr, Order(l), s, d, prevp, p, n) && p in hdr && hdr[p].size >= n > 0
    requires Headers(hdr, l) && BASE in hdr && hdr[BASE].size == 0
    ensures k < |l| && l[k].kind == Free && l[k].addr == p && l[k].size == hdr[p].size
    ensures Rank(l, k) < |Order(l)| && Order(l)[Rank(l, k)] == prevp && prevp in hdr && prevp > 0
  {
    var o := Order(l);
    WalkNext(hdr, o, s, d, prevp, p, n);
    var q := Wrap(|o|, s, d + 1);
    k := BlockAt(l, q);
    assert l[k] in l;
    assert q > 1 ==> o[0] < o[q - 1];
  }

  lemma AheadEnds(hdr: map<nat, Header>, o: seq<nat>, s: nat, d: nat, p: nat, n: nat)
    requires s < |o| && d + 1 == |o| && p == o[Wrap(|o|, s, d + 1)] && p in hdr && hdr[p].size < n
    ensures !Ahead(hdr, o, s, d, n)
  {
  }

  lemma AheadNext(hdr: map<nat, Header>, o: seq<nat>, s: nat, d: nat, p: nat, n: nat)
    requires s < |o| && d + 1 < |o| && p == o[Wrap(|o|, s, d + 1)] && p in hdr && hdr[p].size < n
    ensures Ahead(hdr, o, s, d, n) ==> Ahead(hdr, o, s, d + 1, n)
  {
    if Ahead(hdr, o, s, d, n) {
      var c :| d <= c < |o| && SizeAt(hdr, o, s, c) >= n;
      assert c != d;
    }
  }

  /** After `morecore` a large enough entry lies ahead, wherever the walk restarts. */
  lemma GrownAhead(hdr: map<nat, Header>, l: seq<Block>, brk: nat, m: nat, n: nat, s: nat)
    requires Tiled(l) && Coalesced(l) && brk >= End(l) && brk > BASE && m >= n > 0
    requires Headers(hdr, Grown(l, brk, m)) && s < |Order(Grown(l, brk, m))|
    ensures Ahead(hdr, Order(Grown(l, brk, m)), s, 0, n)
  {
    var g := Grown(l, brk, m);
    var k := GrownHasRoom(l, brk, m);
    assert g[k] in g;
    var q := FreeIsListed(g, k);
    var c := WrapMeets(|Order(g)|, s, q);
    assert SizeAt(hdr, Order(g), s, c) >= n;
  }

  /** Walking n entries from s + 1 meets every entry. */
  lemma WrapMeets(n: nat, s: nat, i: nat) returns (c: nat)
    requires s < n && i < n
    ensures c < n && Wrap(n, s, c + 1) == i
  {
    c := if i > s then i - s - 1 else i + n - s - 1;
  }

  /**
    The walk of `free`: from anywhere on the ring it reaches the entry after which
    address bp belongs, and stops there.
   */
  method FindPredecessor(hdr: map<nat, Header>, freep: nat, bp: nat, ghost o: seq<nat>, ghost t: nat) returns (p: nat)
    requires Ring(hdr, o) && Ascending(o) && freep in o
    requires t < |o| && o[t] < bp && (t + 1 < |o| ==> bp < o[t + 1])
    ensures p == o[t]
  {
    p := freep;
    ghost var j :| 0 <= j < |o| && o[j] == p;
    while !(bp > p && bp < hdr[p].ptr)
      invariant 0 <= j < |o| && p == o[j] && p in hdr && hdr[p].ptr == Succ(o, j)
      decreases if j <= t then t - j else |o| + t - j
    {
      if p >= hdr[p].ptr && (bp > p || bp < hdr[p].ptr) {
        break;
      }
      assert j != t;
      p := hdr[p].ptr;
      j := if j + 1 < |o| then j + 1 else 0;
    }
    assert j == t;
  }

  class Allocator {
    var hdr: map<nat, Header>
    var freep: nat
    ghost var layout: seq<Block>

    ghost predicate Valid()
      reads this
    {
      && Tiled(layout) && Coalesced(layout)
      && (freep == 0 ==> layout == [])
      && (freep != 0 ==> Linked())
    }

    ghost predicate Linked()
      reads this
    {
      && BASE in hdr && hdr[BASE].size == 0
      && Headers(hdr, layout) && Ring(hdr, Order(layout)) && freep in Order(layout)
    }

    constructor ()
      ensures Valid() && freep == 0 && layout == []
    {
      hdr, freep, layout := map[], 0, [];
    }

    /**
      `free` of allocated block k: the block and its free neighbours become one free
      block, and the list is again one cycle in address order.
     */
    method Free(ap: nat, ghost k: nat)
      requires Valid() && k < |layout| && layout[k].kind == Live && ap == layout[k].addr + 1
      modifies this
      ensures Valid() && freep != 0 && layout == Release(old(layout), k)
      ensures Blocks(layout, Live) == Blocks(old(layout), Live) - {old(layout)[k]}
      ensures Blocks(layout, Foreign) == Blocks(old(layout), Foreign) && End(layout) == End(old(layout))
    {
      hide Tiled, Coalesced, Ring, Headers, Order, Rank, Release, Blocks, End;
      ReleaseBlocks(layout, k);
      var bp := ap - 1;
      ghost var l, h0 := layout, hdr;
      assert freep != 0;
      FreeAddrsAscend(l);
      Between(l, k);
      JoinedRing(h0, l, k);
      JoinedHeaders(h0, l, k);
      ReleaseOk(l, k);
      var p := FindPredecessor(hdr, freep, bp, Order(l), Rank(l, k));
      if bp + hdr[bp].size == hdr[p].ptr {
        hdr := hdr[bp := Header(hdr[hdr[p].ptr].ptr, hdr[bp].size + hdr[hdr[p].ptr].size)];
      } else {
        hdr := hdr[bp := hdr[bp].(ptr := hdr[p].ptr)];
      }
      if p + hdr[p].size == bp {
        hdr := hdr[p := Header(hdr[bp].ptr, hdr[p].size + hdr[bp].size)];
      } else {
        hdr := hdr[p := hdr[p].(ptr := bp)];
      }
      freep := p;
      layout := Release(l, k);
      assert hdr == Joined(h0, p, bp);
      StillListed(l, k);
    }

    /**
      `morecore` at the break brk.  Where `sbrk` answers and the region is short of the
      units asked for, the header store that follows is astray, past the end of memory.
     */
    method Morecore(nu: nat, brk: nat, room: bool) returns (p: nat, top: nat, astray: bool)
      requires Valid() && freep != 0 && 0 < nu <= UINT / HEADER_BYTES && brk >= End(layout)
      modifies this
      ensures Valid() && freep != 0 && brk > BASE
      ensures top == Sbrk(brk, Want(nu), room).1
      ensures astray <==> Sbrk(brk, Want(nu), room).0 && nu >= LIMIT
      ensures astray ==> top <= brk
      ensures p == 0 <==> astray || !Sbrk(brk, Want(nu), room).0
      ensures p == 0 ==> layout == old(layout) && hdr == old(hdr) && freep == old(freep)
      ensures p != 0 ==> p == freep && layout == Grown(old(layout), brk, Want(nu)) && top == brk + Want(nu)
    {
      hide Ring, Headers, Order, Release, Sbrk;
      var n := Want(nu);
      ghost var l := layout;
      assert brk > BASE;
      SbrkIff(brk, n, room);
      var answer := Sbrk(brk, n, room);
      top, astray := answer.1, answer.0 && answer.1 < brk + n;
      if !answer.0 || astray {
        return 0, top, astray;
      }
      var h := Header(if brk in hdr then hdr[brk].ptr else 0, n);
      ExtendOk(l, brk, n);
      ExtendLinked(hdr, h, l, brk, n);
      OrderExtend(l, brk, n);
      hdr := hdr[brk := h];
      layout := Extend(l, brk, n);
      Free(brk + 1, |layout| - 1);
      p := freep;
    }

    /** Malloc's call of morecore, and where its walk stands afterwards. */
    method Refill(nu: nat, brk: nat, room: bool) returns (p: nat, top: nat, astray: bool, ghost s: nat)
      requires Valid() && freep != 0 && 0 < nu <= UINT / HEADER_BYTES && brk >= End(layout) && brk > BASE
      modifies this
      ensures Valid() && freep != 0
      ensures top == Sbrk(brk, Want(nu), room).1
      ensures astray <==> Sbrk(brk, Want(nu), room).0 && nu >= LIMIT
      ensures astray ==> top <= brk
      ensures p == 0 <==> astray || !Sbrk(brk, Want(nu), room).0
      ensures p == 0 ==> layout == old(layout) && hdr == old(hdr) && freep == old(freep)
      ensures p != 0 ==> p == freep && layout == Grown(old(layout), brk, Want(nu)) && top == brk + Want(nu)
      ensures p != 0 ==> s < |Order(layout)| && Order(layout)[s] == freep && p in hdr
                         && Walk(hdr, Order(layout), s, 0, p, hdr[p].ptr, nu) && Ahead(hdr, Order(layout), s, 0, nu)
    {
      hide Tiled, Coalesced, Ring, Headers, Grown, Walk, Ahead, FreeAddrs, End, Sbrk;
      ghost var l := layout;
      s := 0;
      p, top, astray := Morecore(nu, brk, room);
      if p != 0 {
        s := IndexOf(Order(layout), freep);
        FreeAddrsAscend(layout);
        GrownAhead(hdr, l, brk, Want(nu), nu, s);
        WalkStart(hdr, Order(layout), s, nu);
      }
    }

    /** A program may store anything in the units of its block past the header. */
    method Store(a: nat, h: Header, ghost k: nat)
      requires Valid() && k < |layout| && layout[k].kind == Live && layout[k].addr < a < layout[k].addr + layout[k].size
      modifies this`hdr
      ensures Valid() && hdr == old(hdr)[a := h]
    {
      assert freep != 0;
      forall i | 0 <= i < |Order(layout)| ensures Order(layout)[i] != a {
        NoneInside(layout, k, a, i);
      }
      forall b | b in layout ensures b.addr != a {
        var x :| 0 <= x < |layout| && layout[x] == b;
        if x != k { NoOverlap(layout, x, k); }
      }
      assert a > BASE;
      hide Tiled, Order;
      hdr := hdr[a := h];
    }

    /** The part of `malloc` that takes n units from the free block p it stopped at. */
    method Take(prevp: nat, p: nat, n: nat, ghost k: nat) returns (q: nat)
      requires Valid() && freep != 0 && k < |layout| && layout[k].kind == Kind.Free && layout[k].addr == p
      requires p in hdr && 0 < n <= hdr[p].size == layout[k].size && prevp in hdr && prevp > 0
      requires Rank(layout, k) < |Order(layout)| && Order(layout)[Rank(layout, k)] == prevp
      modifies this
      ensures Valid() && freep == prevp && layout == Carve(old(layout), k, n)
      ensures q == old(layout)[k].addr + old(layout)[k].size - n
    {
      hide Tiled, Coalesced, Ring, Headers, Carve, Order, Rank;
      ghost var l, h0 := layout, hdr;
      q := p;
      if hdr[p].size == n {
        hdr := hdr[prevp := hdr[prevp].(ptr := hdr[p].ptr)];
      } else {
        hdr := hdr[p := hdr[p].(size := hdr[p].size - n)];
        q := p + hdr[p].size;
        hdr := hdr[q := Header(if q in hdr then hdr[q].ptr else 0, n)];
      }
      ghost var g := if q in h0 then h0[q].ptr else 0;
      assert hdr == Taken(h0, prevp, p, n, g);
      TakenHeaders(h0, l, k, n, prevp, g);
      TakenRing(h0, l, k, n, g);
      CarveOk(l, k, n);
      freep := prevp;
      layout := Carve(l, k, n);
    }

    /**
      `malloc` at the break brk: first fit from the rover, carving the tail of a larger
      block; memory is asked for, once, only when no free block is large enough.  A call
      that goes astray has no answer; it is followed no further, and ap is 0.
     */
    method Malloc(nbytes: nat, brk: nat, room: bool)
      returns (ap: nat, top: nat, astray: bool, ghost grown: bool, ghost k: nat)
      requires Valid() && nbytes < UINT && brk >= End(layout)
      modifies this
      ensures Valid() && Tiled(old(layout)) && Coalesced(old(layout)) && brk > BASE
      ensures ap == 0 ==> layout == old(layout)
      ensures ap == 0 <==> TooSmall(old(layout), Units(nbytes))
                           && (astray || !Sbrk(brk, Want(Units(nbytes)), room).0)
      ensures grown <==> ap != 0 && TooSmall(old(layout), Units(nbytes))
      ensures astray <==> TooSmall(old(layout), Units(nbytes)) && Sbrk(brk, Want(Units(nbytes)), room).0
                          && Units(nbytes) >= LIMIT
      ensures top == if ap == 0 || grown then Sbrk(brk, Want(Units(nbytes)), room).1 else brk
      ensures grown ==> Units(nbytes) < LIMIT
      ensures ap != 0 ==> End(layout) <= top
      ensures ap != 0 ==>
                var n := Units(nbytes);
                var l := if grown then Grown(old(layout), brk, Want(n)) else old(layout);
                && k < |l| && l[k].kind == Kind.Free && n <= l[k].size
                && layout == Carve(l, k, n) && ap == l[k].addr + l[k].size - n + 1
      ensures ap != 0 ==>
                var b := Block(ap - 1, Units(nbytes), Live);
                b !in Blocks(old(layout), Live) && Blocks(layout, Live) == Blocks(old(layout), Live) + {b}
    {
      hide Tiled, Coalesced, Ring, Headers, Release, Carve, Grown, Walk, Ahead, FreeAddrs, TooSmall, Rank, Units, End,
          Blocks, Order, IndexOf, Sbrk;
      UnitsBounds(nbytes);
      BrkAboveBase(layout, brk);
      var nunits := Units(nbytes);
      var prevp: nat := freep;
      grown, k, top, astray := false, 0, brk, false;
      if prevp == 0 {
        hdr := hdr[BASE := Header(BASE, 0)];
        freep, prevp := BASE, BASE;
        EmptyList(hdr);
      }
      ghost var s: nat, d: nat := IndexOf(Order(layout), freep), 0;
      FreeAddrsAscend(layout);
      WalkStart(hdr, Order(layout), s, nunits);
      var p: nat := hdr[prevp].ptr;
      while true
        invariant Valid() && freep != 0 && s < |Order(layout)| && Order(layout)[s] == freep
        invariant Walk(hdr, Order(layout), s, d, prevp, p, nunits) && !astray
        invariant !grown ==> layout == old(layout) && top == brk
        invariant grown ==> TooSmall(old(layout), nunits) && nunits < LIMIT && Sbrk(brk, Want(nunits), room).0
                            && top == brk + Want(nunits) == Sbrk(brk, Want(nunits), room).1
                            && layout == Grown(old(layout), brk, Want(nunits))
                            && Ahead(hdr, Order(layout), s, d, nunits)
        decreases !grown, |Order(layout)| - d
      {
        ghost var l, o := layout, Order(layout);
        WalkNext(hdr, o, s, d, prevp, p, nunits);
        if hdr[p].size >= nunits {
          k := FitBlock(hdr, l, s, d, prevp, p, nunits);
          CarveBlocks(l, k, nunits);
          CarveOk(l, k, nunits);
          if grown {
            GrownBlocks(old(layout), brk, Want(nunits));
          } else {
            NotTooSmall(l, k, nunits);
          }
          p := Take(prevp, p, nunits, k);
          ap := p + 1;
          return;
        }
        if p == freep {
          AheadEnds(hdr, o, s, d, p, nunits);
          AllTooSmall(hdr, l, s, prevp, p, nunits);
          p, top, astray, s := Refill(nunits, brk, room);
          if p == 0 {
            ap := 0;
            return;
          }
          grown, d := true, 0;
        } else {
          AheadNext(hdr, o, s, d, p, nunits);
          d := d + 1;
        }
        prevp := p;
        p := hdr[p].ptr;
      }
    }
  }

  lemma NotTooSmall(l: seq<Block>, k: nat, n: nat)
    requires k < |l| && l[k].kind == Kind.Free && n <= l[k].size
    ensures !TooSmall(l, n)
  {
    assert l[k] in l;
  }

  /**
    A request of 0xFFFF_FFF1 bytes, whose unit count is right, asks `sbrk` for 0 bytes: it
    answers without giving any memory, and the header goes astray.
   */
  method NoMemoryBehind(brk: nat, room: bool) returns (top: nat, astray: bool)
    requires brk > BASE
    ensures (Units(0xFFFF_FFF1) - 1) * HEADER_BYTES >= 0xFFFF_FFF1 && astray && top == brk
  {
    var a := new Allocator();
    var ap: nat;
    ghost var grown, k;
    ap, top, astray, grown, k := a.Malloc(0xFFFF_FFF1, brk, room);
  }
}
