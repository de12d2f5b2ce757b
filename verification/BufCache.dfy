/**
  The buffer cache list of xv6's bio.c: a doubly linked ring through a header, kept in
  order of use by brelse and searched from both ends by bget.
 */
module BufCache {

  import opened Wrappers

  const NBUF: nat := 30
  const HEAD: nat := NBUF

  datatype Buf = Buf(dev: nat, blockno: nat, refcnt: nat, valid: bool, dirty: bool)

  // ---------------------------------------------------------------- rings

  /** The place after i on a ring of n. */
  function After(i: nat, n: nat): nat { if i + 1 >= n then 0 else i + 1 }

  predicate PairOk(next: seq<nat>, prev: seq<nat>, c: seq<nat>, i: nat) {
    i < |c| ==>
      c[i] < |next| && c[After(i, |c|)] < |prev| && next[c[i]] == c[After(i, |c|)] && prev[c[After(i, |c|)]] == c[i]
  }

  predicate Distinct(c: seq<nat>) { forall i, j :: 0 <= i < j < |c| ==> c[i] != c[j] }

  /** Following next from c[0] visits c in order and returns; following prev visits it backwards. */
  ghost predicate Ring(next: seq<nat>, prev: seq<nat>, c: seq<nat>) {
    && |c| > 0 && |next| == |prev| && Distinct(c)
    && (forall i: nat {:trigger PairOk(next, prev, c, i)} :: PairOk(next, prev, c, i))
  }

  function Without(c: seq<nat>, k: nat): seq<nat>
    requires k < |c|
  {
    c[..k] + c[k + 1..]
  }

  /** The two stores that take c[k] out. */
  lemma Unlinked(next: seq<nat>, prev: seq<nat>, c: seq<nat>, k: nat)
    requires Ring(next, prev, c) && 1 <= k < |c|
    ensures c[k] < |next| && next[c[k]] < |prev| && prev[c[k]] < |next|
    ensures Ring(next[prev[c[k]] := next[c[k]]], prev[next[c[k]] := prev[c[k]]], Without(c, k))
  {
    var n, b := |c|, c[k];
    assert PairOk(next, prev, c, k) && PairOk(next, prev, c, k - 1);
    assert PairOk(next, prev, c, After(k, n));
    var d := Without(c, k);
    var nx, pv := next[prev[b] := next[b]], prev[next[b] := prev[b]];
    forall i: nat ensures PairOk(nx, pv, d, i) {
      var a := if i < k then i else i + 1;
      assert PairOk(next, prev, c, a);
      assert i < |d| && i + 1 != k && !(i + 1 == |d| && k == |d|) ==> d[After(i, |d|)] == c[After(a, n)];
    }
  }

  /** The four stores that put b behind the header. */
  lemma Inserted(next: seq<nat>, prev: seq<nat>, c: seq<nat>, b: nat)
    requires Ring(next, prev, c) && b < |next| && b !in c
    ensures c[0] < |next| && next[c[0]] < |prev|
    ensures Ring(next[b := next[c[0]]][c[0] := b], prev[b := c[0]][next[c[0]] := b], [c[0], b] + c[1..])
  {
    assert PairOk(next, prev, c, 0);
    var d := [c[0], b] + c[1..];
    var first := next[c[0]];
    var nx, pv := next[b := first][c[0] := b], prev[b := c[0]][first := b];
    forall i: nat ensures PairOk(nx, pv, d, i) {
      if i >= 2 {
        assert PairOk(next, prev, c, i - 1);
      }
    }
  }

  // ---------------------------------------------------------------- the cache

  predicate Holds(b: Buf, dev: nat, blockno: nat) { b.dev == dev && b.blockno == blockno }

  predicate Idle(b: Buf) { b.refcnt == 0 && !b.dirty }

  /** At most one buffer holds a block of a real device; device 0 is where all buffers start. */
  predicate OneEach(bufs: seq<Buf>) {
    forall a, b :: 0 <= a < b < |bufs| && bufs[a].dev != 0 ==> !Holds(bufs[b], bufs[a].dev, bufs[a].blockno)
  }

  predicate Falling(c: seq<nat>, stamp: seq<nat>) {
    forall i, j :: 1 <= i < j < |c| && c[i] < |stamp| && c[j] < |stamp| ==> stamp[c[i]] > stamp[c[j]]
  }

  /** Every buffer, and after the header no other node, is on the ring. */
  predicate Members(c: seq<nat>) {
    && |c| == NBUF + 1 && c[0] == HEAD
    && (forall i :: 1 <= i < |c| ==> c[i] < NBUF)
    && (forall b: nat :: b < NBUF ==> b in c)
  }

  lemma MovedFront(c: seq<nat>, k: nat, stamp: seq<nat>, clock: nat)
    requires Members(c) && Distinct(c) && 1 <= k < |c| && |stamp| == NBUF && Falling(c, stamp)
    requires forall b :: 0 <= b < NBUF ==> stamp[b] < clock
    ensures var d := [HEAD, c[k]] + Without(c, k)[1..];
            Members(d) && Falling(d, stamp[c[k] := clock])
  {
    var d := [HEAD, c[k]] + Without(c, k)[1..];
    forall i | 2 <= i < |d| ensures d[i] == if i <= k then c[i - 1] else c[i] { }
    forall b: nat | b < NBUF ensures b in d {
      assert b in c;
      var i :| 0 <= i < |c| && c[i] == b;
      assert b == if i == k then d[1] else if i < k then d[i + 1] else d[i];
    }
  }

  /** The last idle buffer of the ring is the one released longest ago. */
  lemma Oldest(c: seq<nat>, stamp: seq<nat>, bufs: seq<Buf>, i: nat)
    requires Members(c) && |stamp| == |bufs| == NBUF && Falling(c, stamp) && 1 <= i < |c|
    requires forall j :: i < j < |c| ==> !Idle(bufs[c[j]])
    ensures forall b: nat :: b < NBUF && Idle(bufs[b]) ==> stamp[c[i]] <= stamp[b]
  {
    forall b: nat | b < NBUF && Idle(bufs[b]) ensures stamp[c[i]] <= stamp[b] {
      assert b in c;
      var j :| 0 <= j < |c| && c[j] == b;
    }
  }

  class Cache {
    var next: seq<nat>
    var prev: seq<nat>
    var bufs: seq<Buf>
    ghost var ring: seq<nat>
    ghost var stamp: seq<nat>    // when each buffer last moved to the front
    ghost var clock: nat

    ghost predicate Valid()
      reads this
    {
      && |next| == |prev| == NBUF + 1 && |bufs| == |stamp| == NBUF
      && Members(ring) && Ring(next, prev, ring) && Falling(ring, stamp) && OneEach(bufs)
      && (forall b :: 0 <= b < NBUF ==> stamp[b] < clock)
    }

    /** binit: the buffers are put behind the header one after the other. */
    constructor ()
      ensures Valid() && forall b :: 0 <= b < NBUF ==> bufs[b] == Buf(0, 0, 0, false, false)
    {
      next := seq(NBUF + 1, _ => HEAD);
      prev := seq(NBUF + 1, _ => HEAD);
      bufs := seq(NBUF, _ => Buf(0, 0, 0, false, false));
      ring := [HEAD];
      stamp := seq(NBUF, b => b);
      clock := NBUF;
      new;
      var b := 0;
      forall i: nat ensures PairOk(next, prev, ring, i) { }
      while b < NBUF
        invariant 0 <= b <= NBUF && |next| == |prev| == NBUF + 1 && Ring(next, prev, ring)
        invariant |ring| == b + 1 && ring[0] == HEAD && forall i :: 1 <= i < |ring| ==> ring[i] == b - i
        invariant bufs == seq(NBUF, _ => Buf(0, 0, 0, false, false)) && stamp == seq(NBUF, b => b) && clock == NBUF
      {
        Inserted(next, prev, ring, b);
        var first := next[HEAD];
        next := next[b := first];
        prev := prev[b := HEAD];
        prev := prev[first := b];
        next := next[HEAD := b];
        ring := [ring[0], b] + ring[1..];
        b := b + 1;
      }
      forall a: nat | a < NBUF ensures a in ring { assert ring[NBUF - a] == a; }
    }

    /** brelse: the last reference gone, the buffer becomes the most recently used. */
    method Brelse(b: nat)
      requires Valid() && b < NBUF && bufs[b].refcnt > 0
      modifies this
      ensures Valid()
      ensures bufs == old(bufs)[b := old(bufs)[b].(refcnt := old(bufs)[b].refcnt - 1)]
      ensures bufs[b].refcnt > 0 ==> ring == old(ring) && stamp == old(stamp)
      ensures bufs[b].refcnt == 0 ==> ring[1] == b && stamp == old(stamp)[b := old(clock)]
      ensures bufs[b].refcnt == 0 ==> forall k: nat :: 1 <= k < |old(ring)| && old(ring)[k] == b ==>
                ring == [HEAD, b] + Without(old(ring), k)[1..]
    {
      bufs := bufs[b := bufs[b].(refcnt := bufs[b].refcnt - 1)];
      if bufs[b].refcnt == 0 {
        assert b in ring;
        ghost var k: nat :| k < |ring| && ring[k] == b;
        assert k != 0;
        MovedFront(ring, k, stamp, clock);
        hide Ring, Members, Falling;
        Relink(b, k);
        stamp, clock := stamp[b := clock], clock + 1;
      }
    }

    /** The six stores of brelse. */
    method Relink(b: nat, ghost k: nat)
      requires Ring(next, prev, ring) && ring[0] == HEAD < |next| && 1 <= k < |ring| && ring[k] == b
      modifies this`next, this`prev, this`ring
      ensures Ring(next, prev, ring) && ring == [HEAD, b] + Without(old(ring), k)[1..]
      ensures |next| == |old(next)| && |prev| == |old(prev)|
    {
      Unlinked(next, prev, ring, k);
      var after, before := next[b], prev[b];
      prev := prev[after := before];
      next := next[before := after];
      ring := Without(ring, k);
      assert b !in ring;
      Inserted(next, prev, ring, b);
      var first := next[HEAD];
      next := next[b := first];
      prev := prev[b := HEAD];
      prev := prev[first := b];
      next := next[HEAD := b];
      ring := [HEAD, b] + ring[1..];
    }

    /** The first loop of bget, from the most recently used on. */
    method Search(dev: nat, blockno: nat) returns (r: Option<nat>)
      requires Valid()
      ensures r.Some? ==> r.value < NBUF && Holds(bufs[r.value], dev, blockno)
      ensures r.None? ==> forall b :: 0 <= b < NBUF ==> !Holds(bufs[b], dev, blockno)
    {
      ghost var i := 1;
      assert PairOk(next, prev, ring, 0);
      var b := next[HEAD];
      while b != HEAD
        invariant 1 <= i <= |ring| && b == (if i == |ring| then HEAD else ring[i])
        invariant forall j :: 1 <= j < i ==> !Holds(bufs[ring[j]], dev, blockno)
        decreases |ring| - i
      {
        if Holds(bufs[b], dev, blockno) {
          return Some(b);
        }
        assert PairOk(next, prev, ring, i);
        b := next[b];
        i := i + 1;
      }
      forall a: nat | a < NBUF ensures !Holds(bufs[a], dev, blockno) {
        assert a in ring;
        var j :| 0 <= j < |ring| && ring[j] == a;
      }
      r := None;
    }

    /** The second loop of bget, from the least recently used back. */
    method Victim() returns (r: Option<nat>)
      requires Valid()
      ensures r.Some? ==> r.value < NBUF && Idle(bufs[r.value])
      ensures r.Some? ==> forall b :: 0 <= b < NBUF && Idle(bufs[b]) ==> stamp[r.value] <= stamp[b]
      ensures r.None? ==> forall b :: 0 <= b < NBUF ==> !Idle(bufs[b])
    {
      ghost var i := |ring| - 1;
      assert PairOk(next, prev, ring, |ring| - 1);
      var b := prev[HEAD];
      while b != HEAD
        invariant 0 <= i < |ring| && b == ring[i]
        invariant forall j :: i < j < |ring| ==> !Idle(bufs[ring[j]])
        decreases i
      {
        if Idle(bufs[b]) {
          Oldest(ring, stamp, bufs, i);
          return Some(b);
        }
        assert PairOk(next, prev, ring, i - 1);
        b := prev[b];
        i := i - 1;
      }
      forall a: nat | a < NBUF ensures !Idle(bufs[a]) {
        assert a in ring;
        var j :| 0 <= j < |ring| && ring[j] == a;
        assert j != 0;
      }
      r := None;
    }

    /** bget: the buffer already holding the block, or else the idle one released longest ago. */
    method Bget(dev: nat, blockno: nat) returns (r: Option<nat>)
      requires Valid() && dev != 0
      modifies this`bufs
      ensures Valid()
      ensures r.None? <==> forall b :: 0 <= b < NBUF ==> !Holds(old(bufs)[b], dev, blockno) && !Idle(old(bufs)[b])
      ensures r.None? ==> bufs == old(bufs)
      ensures r.Some? ==> r.value < NBUF && Holds(bufs[r.value], dev, blockno)
      ensures r.Some? && Holds(old(bufs)[r.value], dev, blockno) ==>
                bufs == old(bufs)[r.value := old(bufs)[r.value].(refcnt := old(bufs)[r.value].refcnt + 1)]
      ensures r.Some? && !Holds(old(bufs)[r.value], dev, blockno) ==>
                && bufs == old(bufs)[r.value := Buf(dev, blockno, 1, false, false)] && Idle(old(bufs)[r.value])
                && (forall b :: 0 <= b < NBUF ==> !Holds(old(bufs)[b], dev, blockno))
                && (forall b :: 0 <= b < NBUF && Idle(old(bufs)[b]) ==> stamp[r.value] <= stamp[b])
    {
      r := Search(dev, blockno);
      if r.Some? {
        bufs := bufs[r.value := bufs[r.value].(refcnt := bufs[r.value].refcnt + 1)];
        return;
      }
      r := Victim();
      if r.Some? {
        bufs := bufs[r.value := Buf(dev, blockno, 1, false, false)];
      }
    }
  }
}
