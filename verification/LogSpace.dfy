/**
  Space reservation in the write-ahead log: `begin_op`, `log_write` and `end_op`
  as a step system over every interleaving of file-system operations.

  `log_write` tests the size of the log before it takes `log.lock`, so the test
  (`Guard`) and the append (`Append`) are separate steps and other processes may
  run between them.
 */
module LogSpace {

  type Pid = nat

  const MAXOPBLOCKS: nat := 10
  const LOGSIZE: nat := MAXOPBLOCKS * 3

  /**
    lh          the block numbers in the in-memory header, `log.lh.block[..log.lh.n]`
    used        for each operation in progress, how many new block numbers it logged;
                `log.outstanding` is |used|
    passed      processes inside `log_write`, past the size test
    committing  `log.committing`
   */
  datatype State = State(lh: seq<nat>, used: map<Pid, nat>, passed: set<Pid>, committing: bool)

  datatype Step =
    | BeginOp(p: Pid)
    | Guard(p: Pid)
    | Append(p: Pid, b: nat)
    | EndOp(p: Pid)
    | CommitDone

  const Init := State([], map[], {}, false)

  predicate TooBig(s: State, size: nat) {
    |s.lh| >= LOGSIZE || |s.lh| >= size - 1
  }

  /**
    `Append` carries the discipline every caller promises: an operation adds at
    most MAXOPBLOCKS block numbers that are new to the log.
   */
  predicate Enabled(size: nat, s: State, step: Step) {
    match step
    case BeginOp(p) =>
      p !in s.used && !s.committing && |s.lh| + (|s.used| + 1) * MAXOPBLOCKS <= LOGSIZE
    case Guard(p) => p in s.used && p !in s.passed && !TooBig(s, size)
    case Append(p, b) => p in s.used && p in s.passed && (b in s.lh || s.used[p] < MAXOPBLOCKS)
    case EndOp(p) => p in s.used && p !in s.passed
    case CommitDone => s.committing
  }

  function Do(s: State, step: Step): State {
    match step
    case BeginOp(p) => s.(used := s.used[p := 0])
    case Guard(p) => s.(passed := s.passed + {p})
    case Append(p, b) =>
      var t := s.(passed := s.passed - {p});
      if b in s.lh || p !in s.used then t
      else t.(lh := s.lh + [b], used := s.used[p := s.used[p] + 1])
    case EndOp(p) =>
      var left := s.used - {p};
      s.(used := left, committing := left == map[])
    case CommitDone => s.(lh := [], committing := false)
  }

  predicate Runs(size: nat, s: State, steps: seq<Step>, t: State)
    decreases |steps|
  {
    if steps == [] then s == t
    else Enabled(size, s, steps[0]) && Runs(size, Do(s, steps[0]), steps[1..], t)
  }

  ghost predicate Reachable(size: nat, t: State) {
    exists steps :: Runs(size, Init, steps, t)
  }

  predicate Distinct(lh: seq<nat>) {
    forall i, j :: 0 <= i < j < |lh| ==> lh[i] != lh[j]
  }

  /** Log blocks still promised to operations in progress. */
  ghost function Unused(used: map<Pid, nat>): int {
    if used == map[] then 0
    else
      var p :| p in used;
      MAXOPBLOCKS - used[p] + Unused(used - {p})
  }

  ghost predicate Inv(s: State) {
    && Distinct(s.lh)
    && (forall p :: p in s.used ==> s.used[p] <= MAXOPBLOCKS)
    && |s.lh| + Unused(s.used) <= LOGSIZE
    && s.passed <= s.used.Keys
    && (s.committing ==> s.used == map[])
  }

  lemma {:induction false} UnusedSplit(used: map<Pid, nat>, p: Pid)
    requires p in used
    ensures Unused(used) == MAXOPBLOCKS - used[p] + Unused(used - {p})
    decreases |used|
  {
    var q :| q in used && Unused(used) == MAXOPBLOCKS - used[q] + Unused(used - {q});
    if q != p {
      UnusedSplit(used - {q}, p);
      UnusedSplit(used - {p}, q);
      assert used - {q} - {p} == used - {p} - {q};
    }
  }

  lemma {:induction false} UnusedBounds(used: map<Pid, nat>)
    requires forall p :: p in used ==> used[p] <= MAXOPBLOCKS
    ensures 0 <= Unused(used) <= |used| * MAXOPBLOCKS
    decreases |used|
  {
    if used != map[] {
      var p :| p in used;
      UnusedSplit(used, p);
      UnusedBounds(used - {p});
    }
  }

  lemma UnusedUpdate(used: map<Pid, nat>, p: Pid, k: nat)
    ensures Unused(used[p := k]) == MAXOPBLOCKS - k + Unused(used - {p})
  {
    UnusedSplit(used[p := k], p);
    assert used[p := k] - {p} == used - {p};
  }

  lemma BeginKeepsInv(size: nat, s: State, p: Pid)
    requires Inv(s) && Enabled(size, s, BeginOp(p))
    ensures Inv(Do(s, BeginOp(p)))
  {
    UnusedBounds(s.used);
    UnusedUpdate(s.used, p, 0);
    hide Unused;
    assert s.used - {p} == s.used;
    assert |s.used.Keys| == |s.used|;
  }

  lemma AppendKeepsInv(size: nat, s: State, p: Pid, b: nat)
    requires Inv(s) && Enabled(size, s, Append(p, b))
    ensures Inv(Do(s, Append(p, b)))
  {
    UnusedUpdate(s.used, p, s.used[p] + 1);
    UnusedSplit(s.used, p);
    hide Unused;
  }

  lemma EndKeepsInv(size: nat, s: State, p: Pid)
    requires Inv(s) && Enabled(size, s, EndOp(p))
    ensures Inv(Do(s, EndOp(p)))
  {
    UnusedSplit(s.used, p);
    hide Unused;
  }

  lemma StepKeepsInv(size: nat, s: State, step: Step)
    requires Inv(s) && Enabled(size, s, step)
    ensures Inv(Do(s, step))
  {
    match step
    case BeginOp(p) => BeginKeepsInv(size, s, p);
    case Append(p, b) => AppendKeepsInv(size, s, p, b);
    case EndOp(p) => EndKeepsInv(size, s, p);
    case Guard(_) => hide Unused;
    case CommitDone => UnusedBounds(s.used);
  }

  lemma {:induction false} RunKeepsInv(size: nat, s: State, steps: seq<Step>, t: State)
    requires Inv(s) && Runs(size, s, steps, t)
    ensures Inv(t)
    decreases |steps|
  {
    if steps != [] {
      StepKeepsInv(size, s, steps[0]);
      RunKeepsInv(size, Do(s, steps[0]), steps[1..], t);
    }
  }

  /**
    Over every interleaving: the header never holds more than LOGSIZE block
    numbers, all distinct; the reservations of running operations still fit; and
    a commit runs only when no operation does, so `end_op` cannot reach its
    "log.committing" panic.
   */
  lemma ReservationHolds(size: nat, s: State)
    requires Reachable(size, s)
    ensures Distinct(s.lh)
    ensures |s.lh| + Unused(s.used) <= LOGSIZE && 0 <= Unused(s.used)
    ensures s.committing ==> s.used == map[] && s.passed == {}
  {
    var steps :| Runs(size, Init, steps, s);
    RunKeepsInv(size, Init, steps, s);
    UnusedBounds(s.used);
  }

  /** A charged append always finds room in the LOGSIZE-entry header array. */
  lemma ChargedAppendHasRoom(size: nat, s: State, p: Pid)
    requires Reachable(size, s) && p in s.used && s.used[p] < MAXOPBLOCKS
    ensures |s.lh| < LOGSIZE
  {
    var steps :| Runs(size, Init, steps, s);
    RunKeepsInv(size, Init, steps, s);
    UnusedSplit(s.used, p);
    UnusedBounds(s.used - {p});
  }

  // ----- when the header fits the on-disk log area -----

  lemma {:induction false} RunExtend(size: nat, s: State, steps: seq<Step>, t: State, step: Step)
    requires Runs(size, s, steps, t) && Enabled(size, t, step)
    ensures Runs(size, s, steps + [step], Do(t, step))
    decreases |steps|
  {
    if steps == [] {
      assert (steps + [step])[1..] == [];
      assert Runs(size, Do(s, step), [], Do(t, step));
    } else {
      RunExtend(size, Do(s, steps[0]), steps[1..], t, step);
      assert (steps + [step])[1..] == steps[1..] + [step];
    }
  }

  lemma Extend(size: nat, t: State, step: Step)
    requires Reachable(size, t) && Enabled(size, t, step)
    ensures Reachable(size, Do(t, step))
  {
    var steps :| Runs(size, Init, steps, t);
    RunExtend(size, Init, steps, t, step);
  }

  function Clamp(k: int, hi: nat): nat { if k < 0 then 0 else if k > hi then hi else k }

  /** Three operations have logged blocks 0..k: ten by process 0, then nine each by 1 and 2. */
  function Filled(k: nat): State {
    State(seq(k, i => i), map[0 := Clamp(k, 10), 1 := Clamp(k - 10, 9), 2 := Clamp(k - 19, 9)], {}, false)
  }

  lemma FilledStart(size: nat)
    ensures Reachable(size, Filled(0))
  {
    assert Runs(size, Init, [], Init);
    Extend(size, Init, BeginOp(0));
    var s1 := Do(Init, BeginOp(0));
    assert |s1.used| == 1;
    Extend(size, s1, BeginOp(1));
    var s2 := Do(s1, BeginOp(1));
    assert |s2.used| == 2;
    Extend(size, s2, BeginOp(2));
    assert Do(s2, BeginOp(2)) == Filled(0);
  }

  function Filler(k: nat): Pid { if k < 10 then 0 else if k < 19 then 1 else 2 }

  lemma FilledAppend(k: nat)
    requires k + 3 <= LOGSIZE
    ensures k !in Filled(k).lh && Filled(k).used[Filler(k)] < MAXOPBLOCKS
    ensures Do(Do(Filled(k), Guard(Filler(k))), Append(Filler(k), k)) == Filled(k + 1)
  {
    var p := Filler(k);
    var s2 := Do(Do(Filled(k), Guard(p)), Append(p, k));
    assert s2.lh == Filled(k + 1).lh;
    assert s2.used == Filled(k + 1).used;
  }

  lemma FilledStep(size: nat, k: nat)
    requires size <= LOGSIZE && k + 3 <= size && Reachable(size, Filled(k))
    ensures Reachable(size, Filled(k + 1))
  {
    FilledAppend(k);
    Extend(size, Filled(k), Guard(Filler(k)));
    Extend(size, Do(Filled(k), Guard(Filler(k))), Append(Filler(k), k));
  }

  lemma {:induction false} FilledReachable(size: nat, k: nat)
    requires size <= LOGSIZE && k + 2 <= size
    ensures Reachable(size, Filled(k))
  {
    if k == 0 {
      FilledStart(size);
    } else {
      FilledReachable(size, k - 1);
      FilledStep(size, k - 1);
    }
  }

  /**
    Two operations pass the size test one entry below the limit, then both append:
    the header outgrows the `size - 1` data slots of the on-disk log.
   */
  lemma Overflow(size: nat) returns (t: State)
    requires 2 <= size <= LOGSIZE
    ensures Reachable(size, t) && |t.lh| == size
  {
    FilledReachable(size, size - 2);
    var s0 := Filled(size - 2);
    Extend(size, s0, Guard(1));
    var s1 := Do(s0, Guard(1));
    Extend(size, s1, Guard(2));
    var s2 := Do(s1, Guard(2));
    assert size - 2 !in s2.lh;
    Extend(size, s2, Append(1, size - 2));
    var s3 := Do(s2, Append(1, size - 2));
    assert size - 1 !in s3.lh;
    Extend(size, s3, Append(2, size - 1));
    t := Do(s3, Append(2, size - 1));
  }

  lemma {:induction false} OneBlockLogStaysEmpty(s: State, steps: seq<Step>, t: State)
    requires Runs(1, s, steps, t) && s.lh == [] && s.passed == {}
    ensures t.lh == []
    decreases |steps|
  {
    if steps != [] {
      OneBlockLogStaysEmpty(Do(s, steps[0]), steps[1..], t);
    }
  }

  /**
    Exactly when the logged blocks always fit in the on-disk log: `log.size` must
    exceed LOGSIZE (or be 1, when every `log_write` panics).  mkfs sets it to LOGSIZE.
   */
  lemma FitsIff(size: nat)
    ensures (forall t :: Reachable(size, t) ==> |t.lh| <= size - 1) <==> (size == 1 || size > LOGSIZE)
  {
    if size == 1 {
      forall t | Reachable(size, t) ensures |t.lh| <= size - 1 {
        var steps :| Runs(size, Init, steps, t);
        OneBlockLogStaysEmpty(Init, steps, t);
      }
    } else if size > LOGSIZE {
      forall t | Reachable(size, t) ensures |t.lh| <= size - 1 {
        ReservationHolds(size, t);
      }
    } else if size == 0 {
      assert Runs(size, Init, [], Init);
      assert Reachable(size, Init);
    } else {
      var t := Overflow(size);
    }
  }
}
