/**
  When does write_log stay inside the log area?  Exactly when the area has more than
  LOGSIZE blocks, or only one, or at least as many blocks as there are buffers.  mkfs
  makes an area of LOGSIZE blocks and NBUF is LOGSIZE too: a transaction that outgrows
  the area has pinned every buffer, so its commit stops at bget before it writes.
 */
module LogSpill {

  import LogSpace
  import opened RedoLog
  import opened LogRun
  import opened Wrappers

  // ----- sizes that are safe -----

  /**
    A transaction that has begun to be written left a buffer unpinned; in an area of one
    block nothing is ever logged.
   */
  predicate Slack(s: State) { LeftBuffer(s) && OneBlock(s) }

  predicate LeftBuffer(s: State) { s.phase.WriteLog? && s.phase.tail > 0 ==> |s.log.lh| < |s.bufs| }

  predicate OneBlock(s: State) { s.area.size == 1 ==> s.log.lh == [] && s.log.passed == {} }

  /** A list of distinct blocks, each in a buffer of the set, is no longer than the set. */
  lemma {:induction false} Pigeons(bufs: seq<Buf>, lh: seq<nat>, among: set<nat>)
    requires LogSpace.Distinct(lh)
    requires forall k :: 0 <= k < |lh| ==> InBuffer(bufs, lh[k], among)
    ensures |lh| <= |among|
    decreases |lh|
  {
    if lh != [] {
      var rest, last := lh[..|lh| - 1], lh[|lh| - 1];
      assert InBuffer(bufs, last, among);
      var i: nat :| i in among && i < |bufs| && bufs[i].blockno == last;
      forall k | 0 <= k < |rest| ensures InBuffer(bufs, rest[k], among - {i}) {
        assert InBuffer(bufs, lh[k], among);
        var j: nat :| j in among && j < |bufs| && bufs[j].blockno == lh[k];
        assert j in among - {i};
      }
      Pigeons(bufs, rest, among - {i});
    }
  }

  predicate InBuffer(bufs: seq<Buf>, b: nat, among: set<nat>) {
    exists i: nat :: i in among && i < |bufs| && bufs[i].blockno == b
  }

  function Upto(n: nat): (r: set<nat>)
    ensures |r| == n && forall i: nat :: i in r <==> i < n
  {
    if n == 0 then {} else Upto(n - 1) + {n - 1}
  }

  /** With every logged block pinned, a buffer of any other block is one more. */
  lemma SpareBuffer(s: State, to: nat)
    requires Pinned(s) && s.phase.WriteLog? && LogSpace.Distinct(s.log.lh)
    requires to < |s.bufs| && s.bufs[to].blockno !in s.log.lh
    ensures |s.log.lh| < |s.bufs|
  {
    var all := Upto(|s.bufs|);
    forall k | 0 <= k < |s.log.lh| ensures InBuffer(s.bufs, s.log.lh[k], all - {to}) {
      assert PinnedAt(s.bufs, s.log.lh[k]);
      var i :| 0 <= i < |s.bufs| && s.bufs[i].dev == ROOTDEV && s.bufs[i].blockno == s.log.lh[k] && s.bufs[i].dirty;
      assert i in all - {to};
    }
    Pigeons(s.bufs, s.log.lh, all - {to});
  }

  lemma HomeNotLogged(s: State, b: nat)
    requires Inv(s) && InLog(s.area, b)
    ensures b !in s.log.lh
  {
    HomeBlocksFacts(s.disk, s.area, s.log.lh);
  }

  lemma LogBlockSlack(s: State, to: nat, from: nat)
    requires Inv(s) && Enabled(s, LogBlock(to, from)) && Contained(s, LogBlock(to, from))
    ensures |s.log.lh| < |s.bufs|
  {
    HomeNotLogged(s, s.area.start + 1 + s.phase.tail);
    hide BufsOk, DiskOk;
    SpareBuffer(s, to);
  }

  lemma ReadHeadSlack(s: State, h: nat)
    requires Inv(s) && Enabled(s, ReadHead(h))
    ensures Fits(s.area, Do(s, ReadHead(h)).log.lh)
  {
    BufFact(s, h);
    RecoverableHomeBlocks(s.disk, s.area, s.committed);
  }

  lemma NoOperation(s: State)
    requires Inv(s)
    ensures s.phase != Idle ==> s.log.used == map[]
  {
  }

  lemma StepLeaves(s: State, step: Step)
    requires Inv(s) && LeftBuffer(s) && Enabled(s, step) && Contained(s, step)
    ensures LeftBuffer(Do(s, step)) && |Do(s, step).bufs| == |s.bufs|
  {
    hide Inv;
    NoOperation(s);
    if step.LogBlock? {
      LogBlockSlack(s, step.to, step.from);
    }
  }

  lemma StepOneBlock(s: State, step: Step)
    requires Inv(s) && OneBlock(s) && Enabled(s, step)
    ensures OneBlock(Do(s, step)) && Do(s, step).area == s.area
  {
    hide Inv;
    if step.ReadHead? {
      ReadHeadSlack(s, step.h);
    }
  }

  /** Where every run is contained. */
  predicate Safe(s: State) {
    s.area.size == 1 || s.area.size > LogSpace.LOGSIZE || |s.bufs| <= s.area.size
  }

  lemma SafeContained(s: State, step: Step)
    requires Inv(s) && Slack(s) && Safe(s) && Enabled(s, step)
    ensures Contained(s, step)
  {
    if step.LogBlock? {
      LogSpace.UnusedBounds(s.log.used);
      if s.phase.tail == 0 && s.area.size > 1 {
        assert s.phase.tail + 1 < s.area.size;
      }
    }
  }

  lemma {:induction false} SafeRun(states: seq<State>, steps: seq<Step>, n: nat)
    requires IsRun(states, steps) && n <= |steps| && Safe(states[0])
    ensures Inside(states, steps, n) && Slack(states[n]) && Safe(states[n])
  {
    if n > 0 {
      SafeRun(states, steps, n - 1);
      RunInv(states, steps, n - 1);
      SafeContained(states[n - 1], steps[n - 1]);
      StepLeaves(states[n - 1], steps[n - 1]);
      StepOneBlock(states[n - 1], steps[n - 1]);
    }
  }

  // ----- sizes that are not -----

  ghost predicate Reaches(s: State, t: State) {
    exists states, steps :: IsRun(states, steps) && states[0] == s && states[|steps|] == t
  }

  lemma OneMore(s: State, t: State, step: Step)
    requires Reaches(s, t) && Enabled(t, step)
    ensures Reaches(s, Do(t, step))
  {
    hide Boot, Enabled, Do;
    var states, steps :| IsRun(states, steps) && states[0] == s && states[|steps|] == t;
    var more, longer := states + [Do(t, step)], steps + [step];
    forall i | 0 <= i < |longer| ensures Enabled(more[i], longer[i]) && more[i + 1] == Do(more[i], longer[i]) {
      if i < |steps| {
        assert more[i] == states[i] && more[i + 1] == states[i + 1] && longer[i] == steps[i];
      }
    }
    assert IsRun(more, longer);
  }

  /** Buffer i filled with block b from disk and held by p: what bread returns. */
  function Got(t: State, p: LogSpace.Pid, b: nat, i: nat): State
    requires i < |t.bufs| && b in t.disk
  {
    t.(bufs := t.bufs[i := Buf(ROOTDEV, b, true, false, {p}, Some(p), false, t.disk[b])])
  }

  predicate Vacant(b: Buf) { b.refs == {} && !b.dirty && b.holder == None && !b.pending }

  lemma GetBlock(s: State, t: State, p: LogSpace.Pid, b: nat, i: nat)
    requires Reaches(s, t) && i < |t.bufs| && b in t.disk && !t.Cached(b) && Vacant(t.bufs[i])
    ensures Reaches(s, Got(t, p, b, i))
  {
    hide Reaches;
    OneMore(s, t, GetMiss(p, b, i));
    var u := Do(t, GetMiss(p, b, i));
    OneMore(s, u, Lock(p, i));
    var v := Do(u, Lock(p, i));
    OneMore(s, v, Fill(p, i));
    assert Do(v, Fill(p, i)).bufs == Got(t, p, b, i).bufs;
  }

  /** brelse by the only holder of buffer i. */
  function Let(t: State, i: nat): State
    requires i < |t.bufs|
  {
    t.(bufs := t.bufs[i := t.bufs[i].(refs := {}, holder := None)])
  }

  lemma LetGo(s: State, t: State, p: LogSpace.Pid, i: nat)
    requires Reaches(s, t) && i < |t.bufs|
    requires t.bufs[i].refs == {p} && t.bufs[i].holder == Some(p) && !t.bufs[i].pending
    ensures Reaches(s, Let(t, i))
  {
    hide Reaches;
    OneMore(s, t, Unlock(p, i));
    var u := Do(t, Unlock(p, i));
    OneMore(s, u, Put(p, i));
    assert u.bufs[i].refs - {p} == {};
    assert Do(u, Put(p, i)).bufs == Let(t, i).bufs;
  }

  /**
    A freshly booted machine whose log area is small and has a file system behind it,
    with more buffers than the area has blocks; x differs from the block behind the area.
   */
  ghost predicate Roomy(s: State, x: Block) {
    && Boot(s) && 2 <= s.area.size <= LogSpace.LOGSIZE && s.area.size < |s.bufs|
    && (forall b :: s.area.start <= b <= s.area.start + 2 * s.area.size ==> b in s.disk)
    && x != s.disk[s.area.start + s.area.size]
  }

  /** The k-th block to be logged. */
  function Target(s: State, k: nat): nat { s.area.start + s.area.size + 1 + k }

  function Dirtied(s: State, x: Block, k: nat): Buf { Buf(ROOTDEV, Target(s, k), true, true, {}, None, false, x) }

  function DirtyBufs(s: State, x: Block, k: nat): seq<Buf> {
    seq(|s.bufs|, i requires 0 <= i < |s.bufs| => if i < k then Dirtied(s, x, i) else s.bufs[i])
  }

  function Logged(s: State, x: Block, k: nat): Disk {
    if k == 0 then s.current else Logged(s, x, k - 1)[Target(s, k - 1) := x]
  }

  /** Charges after k blocks: filled evenly up to two below the size, then one each by 1 and 2. */
  function Charges(size: nat, k: nat): map<LogSpace.Pid, nat>
    requires 2 <= size
  {
    if k + 2 <= size then LogSpace.Filled(k).used
    else if k + 1 == size then var u := LogSpace.Filled(size - 2).used; u[1 := u[1] + 1]
    else var u := LogSpace.Filled(size - 2).used; u[1 := u[1] + 1][2 := u[2] + 1]
  }

  /** Block k is charged to p. */
  predicate MayLog(size: nat, k: nat, p: LogSpace.Pid)
    requires 2 <= size
  {
    var u := Charges(size, k);
    p in u && u[p] < LogSpace.MAXOPBLOCKS && Charges(size, k + 1) == u[p := u[p] + 1]
  }

  /** k blocks logged, with the processes in `passed` past the size test. */
  function Filling(s: State, x: Block, k: nat, passed: set<LogSpace.Pid>): State
    requires 2 <= s.area.size
  {
    s.(log := LogSpace.State(seq(k, i requires 0 <= i => Target(s, i)), Charges(s.area.size, k), passed, false),
       bufs := DirtyBufs(s, x, k), current := Logged(s, x, k))
  }

  /** Process p, past the size test, logs block k. */
  lemma LogOne(s: State, x: Block, k: nat, p: LogSpace.Pid, others: set<LogSpace.Pid>)
    requires Roomy(s, x) && k < s.area.size && p !in others
    requires Reaches(s, Filling(s, x, k, others + {p}))
    requires MayLog(s.area.size, k, p)
    ensures Reaches(s, Filling(s, x, k + 1, others))
  {
    hide Reaches, Charges;
    var t, b := Filling(s, x, k, others + {p}), Target(s, k);
    assert s.bufs[k] == Blank(s.bufs[k]);
    assert !t.Cached(b);
    GetBlock(s, t, p, b, k);
    var u := Got(t, p, b, k);
    OneMore(s, u, Modify(p, k, x));
    var v := Do(u, Modify(p, k, x));
    assert b !in v.log.lh;
    OneMore(s, v, Record(p, k));
    var w := Do(v, Record(p, k));
    LetGo(s, w, p, k);
    var z := Filling(s, x, k + 1, others);
    assert Let(w, k).bufs == z.bufs;
    assert Let(w, k).log.lh == z.log.lh;
    assert others + {p} - {p} == others;
    assert Let(w, k).log == z.log;
    assert Let(w, k) == z;
  }

  /** Three operations begin. */
  lemma Begun(s: State, x: Block)
    requires Roomy(s, x)
    ensures Reaches(s, Filling(s, x, 0, {}))
  {
    assert IsRun([s], []);
    assert Reaches(s, s);
    hide Reaches;
    OneMore(s, s, Begin(0));
    var t := Do(s, Begin(0));
    assert |t.log.used| == 1;
    OneMore(s, t, Begin(1));
    var u := Do(t, Begin(1));
    assert |u.log.used| == 2;
    OneMore(s, u, Begin(2));
    var v, z := Do(u, Begin(2)), Filling(s, x, 0, {});
    assert v.bufs == z.bufs;
    assert v.log.lh == z.log.lh && v.log.used == z.log.used;
    assert v == z;
  }

  lemma Pass(s: State, x: Block, k: nat, p: LogSpace.Pid, others: set<LogSpace.Pid>)
    requires Roomy(s, x) && k + 1 < s.area.size && p !in others && p in Charges(s.area.size, k)
    requires Reaches(s, Filling(s, x, k, others))
    ensures Reaches(s, Filling(s, x, k, others + {p}))
  {
    hide Reaches, Charges;
    OneMore(s, Filling(s, x, k, others), Check(p));
  }

  lemma {:induction false} FilledUp(s: State, x: Block, k: nat)
    requires Roomy(s, x) && k + 2 <= s.area.size
    ensures Reaches(s, Filling(s, x, k, {}))
  {
    if k == 0 {
      Begun(s, x);
    } else {
      hide *;
      RoomySize(s, x);
      FilledUp(s, x, k - 1);
      var p := LogSpace.Filler(k - 1);
      FillCharges(s.area.size, k - 1);
      Pass(s, x, k - 1, p, {});
      assert {} + {p} == {p};
      LogOne(s, x, k - 1, p, {});
    }
  }

  lemma FillCharges(n: nat, k: nat)
    requires k + 3 <= n <= LogSpace.LOGSIZE
    ensures LogSpace.Filler(k) in Charges(n, k) && MayLog(n, k, LogSpace.Filler(k))
  {
    LogSpace.FilledAppend(k);
  }

  lemma LastCharges(n: nat)
    requires 2 <= n <= LogSpace.LOGSIZE
    ensures Charges(n, n).Keys == {0, 1, 2}
    ensures 1 in Charges(n, n - 2) && 2 in Charges(n, n - 2)
    ensures MayLog(n, n - 2, 1) && MayLog(n, n - 1, 2)
  {
  }

  lemma RoomySize(s: State, x: Block)
    requires Roomy(s, x)
    ensures 2 <= s.area.size <= LogSpace.LOGSIZE == 30 && s.area.size < |s.bufs|
  {
  }

  lemma BothPass(s: State, x: Block)
    requires Roomy(s, x)
    ensures Reaches(s, Filling(s, x, s.area.size - 2, {2} + {1}))
  {
    hide *;
    var n := s.area.size;
    RoomySize(s, x);
    FilledUp(s, x, n - 2);
    LastCharges(n);
    Pass(s, x, n - 2, 2, {});
    assert {} + {2} == {2};
    Pass(s, x, n - 2, 1, {2});
  }

  /** Two operations pass the size test at the last free slot, and both append. */
  lemma Outgrown(s: State, x: Block)
    requires Roomy(s, x)
    ensures Reaches(s, Filling(s, x, s.area.size, {}))
  {
    hide *;
    var n := s.area.size;
    RoomySize(s, x);
    BothPass(s, x);
    LastCharges(n);
    LogOne(s, x, n - 2, 1, {2});
    assert {} + {2} == {2};
    LogOne(s, x, n - 1, 2, {});
  }

  // ----- the commit that spills -----

  function Overlaid(s: State, x: Block, j: nat): Disk {
    if j == 0 then s.disk else Overlaid(s, x, j - 1)[s.area.start + j := x]
  }

  /** The buffer that serves the log slots, after j of them. */
  function Spare(s: State, x: Block, j: nat): Buf
    requires s.area.size < |s.bufs|
  {
    if j == 0 then s.bufs[s.area.size] else Buf(ROOTDEV, s.area.start + j, true, false, {}, None, false, x)
  }

  /** write_log after j slots. */
  function Writing(s: State, x: Block, j: nat): State
    requires 2 <= s.area.size < |s.bufs|
  {
    var t := Filling(s, x, s.area.size, {});
    t.(log := LogSpace.State(t.log.lh, map[], {}, true), phase := WriteLog(j), committer := 2,
       disk := Overlaid(s, x, j), bufs := t.bufs[s.area.size := Spare(s, x, j)])
  }

  /** The three operations end, and the last of them commits. */
  lemma EndAll(s: State, t: State)
    requires Reaches(s, t) && t.log.used.Keys == {0, 1, 2} && t.log.passed == {} && t.phase == Idle
    requires forall i :: 0 <= i < |t.bufs| ==> !t.bufs[i].pending
    ensures Reaches(s, t.(log := LogSpace.State(t.log.lh, map[], {}, true), phase := WriteLog(0), committer := 2))
  {
    hide Reaches;
    OneMore(s, t, End(0));
    var u := Do(t, End(0));
    assert 1 in u.log.used;
    OneMore(s, u, End(1));
    var v := Do(u, End(1));
    assert 2 in v.log.used;
    OneMore(s, v, End(2));
    assert Do(v, End(2)).log.used == map[];
  }

  lemma Ended(s: State, x: Block)
    requires Roomy(s, x)
    ensures Reaches(s, Writing(s, x, 0))
  {
    Outgrown(s, x);
    LastCharges(s.area.size);
    hide Reaches, Charges;
    var t, z := Filling(s, x, s.area.size, {}), Writing(s, x, 0);
    forall i | 0 <= i < |t.bufs| ensures !t.bufs[i].pending { assert s.bufs[i] == Blank(s.bufs[i]); }
    EndAll(s, t);
    assert t.bufs == z.bufs;
  }

  lemma {:induction false} SlotsAt(s: State, x: Block, j: nat, b: nat)
    requires j <= s.area.size
    requires forall c :: s.area.start <= c <= s.area.start + 2 * s.area.size ==> c in s.disk
    ensures Overlaid(s, x, j).Keys == s.disk.Keys
    ensures b in s.disk ==> Overlaid(s, x, j)[b] == if s.area.start < b <= s.area.start + j then x else s.disk[b]
  {
    if j > 0 { SlotsAt(s, x, j - 1, b); }
  }

  lemma WriteOne(s: State, x: Block, j: nat)
    requires Roomy(s, x) && j < s.area.size && Reaches(s, Writing(s, x, j))
    ensures Reaches(s, Writing(s, x, j + 1))
  {
    hide Reaches, Charges, Overlaid;
    var t, b, n := Writing(s, x, j), s.area.start + 1 + j, s.area.size;
    SlotsAt(s, x, j, b);
    forall i | 0 <= i < |s.bufs| ensures s.bufs[i] == Blank(s.bufs[i]) { }
    assert !t.Cached(b);
    GetBlock(s, t, 2, b, n);
    var u := Got(t, 2, b, n);
    OneMore(s, u, GetHit(2, j));
    var v := Do(u, GetHit(2, j));
    assert {} + {2} == {2};
    OneMore(s, v, Lock(2, j));
    var w := Do(v, Lock(2, j));
    OneMore(s, w, LogBlock(n, j));
    var y := Do(w, LogBlock(n, j));
    LetGo(s, y, 2, n);
    LetGo(s, Let(y, n), 2, j);
    WroteOne(s, x, j, Let(Let(y, n), j));
  }

  lemma WroteOne(s: State, x: Block, j: nat, y: State)
    requires Roomy(s, x) && j < s.area.size
    requires y == Writing(s, x, j).(disk := Overlaid(s, x, j)[s.area.start + 1 + j := x], phase := WriteLog(j + 1),
               bufs := y.bufs)
    requires y.bufs == Writing(s, x, j + 1).bufs
    ensures y == Writing(s, x, j + 1)
  {
  }

  lemma {:induction false} Written(s: State, x: Block, j: nat)
    requires Roomy(s, x) && j <= s.area.size
    ensures 2 <= s.area.size < |s.bufs| && Reaches(s, Writing(s, x, j))
  {
    hide *;
    RoomySize(s, x);
    if j == 0 {
      Ended(s, x);
    } else {
      Written(s, x, j - 1);
      WriteOne(s, x, j - 1);
    }
  }

  /** The last slot lands on the block behind the log: the disk no longer stands for what is committed. */
  lemma Spilled(s: State, x: Block) returns (t: State)
    requires Roomy(s, x)
    ensures Reaches(s, t) && t.area == s.area && t.committed == Home(s.disk, s.area)
    ensures !Recoverable(t.disk, t.area, t.committed)
  {
    t := Writing(s, x, s.area.size);
    Written(s, x, s.area.size);
    var b := s.area.start + s.area.size;
    SlotsAt(s, x, s.area.size, s.area.start);
    SlotsAt(s, x, s.area.size, b);
    hide Reaches, Overlaid;
    assert LogOnDisk(t.disk, t.area);
    EmptyHeaderMeaning(t.disk, t.area, t.committed);
    assert b in Home(s.disk, s.area) && Home(s.disk, s.area)[b] == s.disk[b];
    assert b in Home(t.disk, t.area) ==> Home(t.disk, t.area)[b] == x;
  }

  /**
    Crash safety decided: from a clean boot, the disk stands for the committed contents
    in every reachable state if and only if the area has one block, or more than LOGSIZE,
    or no fewer than there are buffers.
   */
  lemma SafeIff(s: State)
    requires Boot(s) && forall b :: s.area.start <= b <= s.area.start + 2 * s.area.size ==> b in s.disk
    ensures (forall t :: Reaches(s, t) ==> Recoverable(t.disk, t.area, t.committed)) <==> Safe(s)
  {
    if Safe(s) {
      forall t | Reaches(s, t) ensures Recoverable(t.disk, t.area, t.committed) {
        var states, steps :| IsRun(states, steps) && states[0] == s && states[|steps|] == t;
        SafeRun(states, steps, |steps|);
        RunInv(states, steps, |steps|);
      }
    } else {
      var prior := s.disk[s.area.start + s.area.size];
      var x: Block := prior[0 := prior[0] + 1];
      assert x[0] != prior[0];
      var t := Spilled(s, x);
    }
  }

  /** Crash safety with no condition on the run, for mkfs's LOGSIZE-block area and NBUF buffers among others. */
  lemma SafeCrashes(states: seq<State>, steps: seq<Step>, n: nat)
    requires IsRun(states, steps) && n <= |steps| && Safe(states[0])
    ensures Recoverable(states[n].disk, states[n].area, CommittedImage(states, steps, n))
    ensures forall e :: Recoverable(states[n].disk, states[n].area, e) ==> e == CommittedImage(states, steps, n)
  {
    SafeRun(states, steps, n);
    CrashSafety(states, steps, n);
  }

  /** There too, `bread` returns the last contents logged. */
  lemma SafeReads(states: seq<State>, steps: seq<Step>, n: nat, p: LogSpace.Pid, i: nat, b: nat)
    requires IsRun(states, steps) && n <= |steps| && Safe(states[0]) && states[0].IsHome(b)
    requires !states[n].Recovering() && states[n].Holds(p, i, b)
    ensures states[n].bufs[i].pending ==> p in states[n].log.used
    ensures !states[n].bufs[i].pending ==> states[n].bufs[i].data == LastLogged(states, steps, n, b)
  {
    SafeRun(states, steps, n);
    ReadsSeeLastLogged(states, steps, n, p, i, b);
  }

  /** And home copies keep their committed contents until install_trans. */
  lemma SafeHomes(states: seq<State>, steps: seq<Step>, n: nat, b: nat)
    requires IsRun(states, steps) && n <= |steps| && Safe(states[0]) && states[0].IsHome(b)
    requires states[n].phase.Idle? || states[n].phase.WriteLog?
    ensures b in states[n].disk && states[n].disk[b] == LastCommitted(states, steps, n, b)
  {
    SafeRun(states, steps, n);
    HomeUntouched(states, steps, n, b);
  }
}
