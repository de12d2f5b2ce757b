/**
  Sleep locks on top of sleep and wakeup, one step per lock operation or store, over
  every interleaving of any number of processes on one sleep lock.
 */
module SleepLock {

  import opened Wrappers

  type Pid = nat

  /** Where a process is, named by the statement it executes next. */
  datatype Pc =
    | Idle
    | AcqSpin      // acquiresleep: acquire(&lk->lk)
    | AcqTest      // while (lk->locked)
    | AcqTable     // sleep: acquire(&ptable.lock)
    | AcqDrop      // sleep: release(lk)
    | AcqSleep     // sleep: p->chan = chan; p->state = SLEEPING
    | AcqSched     // sleep: sched(), the scheduler releases ptable.lock
    | Asleep       // switched out, until SLEEPING is cleared and the scheduler picks it
    | AcqTidy      // sleep: p->chan = 0
    | AcqUntable   // sleep: release(&ptable.lock), then acquire(lk) again
    | AcqUnlock    // acquiresleep: release(&lk->lk)
    | Crit         // the caller holds the sleep lock
    | RelSpin      // releasesleep: acquire(&lk->lk)
    | RelClear     // lk->locked = 0; lk->pid = 0
    | RelTable     // wakeup: acquire(&ptable.lock)
    | RelWake      // wakeup1(lk)
    | RelUntable   // wakeup: release(&ptable.lock)
    | RelUnlock    // releasesleep: release(&lk->lk)

  /**
    lk        holder of the spin lock lk->lk
    table     holder of ptable.lock
    locked    lk->locked, and lk->pid
    sleeping  processes in state SLEEPING with chan == lk
   */
  datatype State = State(pc: map<Pid, Pc>, lk: Option<Pid>, table: Option<Pid>, locked: bool, owner: Option<Pid>,
      sleeping: set<Pid>)

  datatype Step =
    | Call(p: Pid)      // an idle process calls acquiresleep, or the holder releasesleep
    | Go(p: Pid)        // process p executes its next statement
    | Kill(p: Pid)      // kill() makes a sleeping process runnable
    | Other(p: Pid, take: bool)  // an unrelated process takes or releases ptable.lock

  predicate Enabled(s: State, step: Step) {
    step.p in s.pc &&
    match step
    case Call(p) => s.pc[p] == Crit || (s.pc[p] == Idle && s.table != Some(p))
    case Kill(p) => p in s.sleeping && s.table == None
    case Other(p, take) =>
      s.pc[p] == Idle && (if take then s.table == None else s.table == Some(p))
    case Go(p) =>
      match s.pc[p]
      case Idle => false
      case Crit => false
      case AcqSpin => s.lk == None
      case RelSpin => s.lk == None
      case AcqTable => s.table == None
      case RelTable => s.table == None
      case Asleep => p !in s.sleeping && s.table == None
      case _ => true
  }

  function At(s: State, p: Pid, pc: Pc): State { s.(pc := s.pc[p := pc]) }

  function Do(s: State, step: Step): State
    requires Enabled(s, step)
  {
    var p := step.p;
    match step
    case Call(_) => At(s, p, if s.pc[p] == Crit then RelSpin else AcqSpin)
    case Kill(_) => s.(sleeping := s.sleeping - {p})
    case Other(_, take) => s.(table := if take then Some(p) else None)
    case Go(_) =>
      match s.pc[p]
      case AcqSpin => At(s, p, AcqTest).(lk := Some(p))
      case AcqTest => if s.locked then At(s, p, AcqTable) else At(s, p, AcqUnlock).(locked := true, owner := Some(p))
      case AcqTable => At(s, p, AcqDrop).(table := Some(p))
      case AcqDrop => At(s, p, AcqSleep).(lk := None)
      case AcqSleep => At(s, p, AcqSched).(sleeping := s.sleeping + {p})
      case AcqSched => At(s, p, Asleep).(table := None)
      case Asleep => At(s, p, AcqTidy).(table := Some(p))
      case AcqTidy => At(s, p, AcqUntable)
      case AcqUntable => At(s, p, AcqSpin).(table := None)
      case AcqUnlock => At(s, p, Crit).(lk := None)
      case RelSpin => At(s, p, RelClear).(lk := Some(p))
      case RelClear => At(s, p, RelTable).(locked := false, owner := None)
      case RelTable => At(s, p, RelWake).(table := Some(p))
      case RelWake => At(s, p, RelUntable).(sleeping := {})
      case RelUntable => At(s, p, RelUnlock).(table := None)
      case RelUnlock => At(s, p, Idle).(lk := None)
      case _ => s
  }

  predicate HoldsLk(pc: Pc) {
    match pc
    case AcqTest | AcqTable | AcqDrop | AcqUnlock | RelClear | RelTable | RelWake | RelUntable | RelUnlock => true
    case _ => false
  }

  predicate HoldsTable(pc: Pc) {
    match pc
    case AcqDrop | AcqSleep | AcqSched | AcqTidy | AcqUntable | RelWake | RelUntable => true
    case _ => false
  }

  /** Between taking the sleep lock and clearing `locked`. */
  predicate Owns(pc: Pc) {
    match pc
    case AcqUnlock | Crit | RelSpin | RelClear => true
    case _ => false
  }

  /** Between clearing `locked` and the wakeup that follows. */
  predicate Waking(pc: Pc) { pc == RelTable || pc == RelWake }

  /** A wakeup is due: the lock is held, or a releaser has yet to wake the sleepers. */
  predicate Due(s: State) { s.locked || (s.lk.Some? && s.lk.value in s.pc && Waking(s.pc[s.lk.value])) }

  predicate ProcOk(s: State, p: Pid) {
    p in s.pc ==>
      && (HoldsLk(s.pc[p]) <==> s.lk == Some(p))
      && (HoldsTable(s.pc[p]) ==> s.table == Some(p))
      && (s.table == Some(p) ==> HoldsTable(s.pc[p]) || s.pc[p] == Idle)
      && (Owns(s.pc[p]) <==> s.locked && s.owner == Some(p))
      && (p in s.sleeping ==> s.pc[p] == AcqSched || s.pc[p] == Asleep)
      && (s.pc[p] == AcqTable || s.pc[p] == AcqDrop ==> s.locked)
      && (s.pc[p] == AcqSleep || p in s.sleeping ==> Due(s))
  }

  ghost predicate Inv(s: State) {
    && (forall p {:trigger ProcOk(s, p)} :: ProcOk(s, p))
    && s.sleeping <= s.pc.Keys
    && (s.lk.Some? ==> s.lk.value in s.pc)
    && (s.table.Some? ==> s.table.value in s.pc)
    && (s.locked <==> s.owner.Some?)
    && (s.owner.Some? ==> s.owner.value in s.pc)
  }

  /** The statements of acquiresleep and sleep. */
  predicate Acquiring(pc: Pc) {
    match pc
    case AcqSpin | AcqTest | AcqTable | AcqDrop | AcqSleep | AcqSched
       | Asleep | AcqTidy | AcqUntable | AcqUnlock => true
    case _ => false
  }

  lemma AcquirerKeeps(s: State, p: Pid)
    requires Inv(s) && Enabled(s, Go(p)) && Acquiring(s.pc[p])
    ensures ProcOk(Do(s, Go(p)), p)
  {
    assert ProcOk(s, p);
    if s.lk.Some? { assert ProcOk(s, s.lk.value); }
  }

  lemma MoverKeeps(s: State, step: Step)
    requires Inv(s) && Enabled(s, step)
    requires step.Go? ==> !Acquiring(s.pc[step.p])
    ensures ProcOk(Do(s, step), step.p)
  {
    assert ProcOk(s, step.p);
    if s.lk.Some? { assert ProcOk(s, s.lk.value); }
  }

  lemma PeerKeeps(s: State, step: Step, q: Pid)
    requires Inv(s) && Enabled(s, step) && q != step.p
    ensures ProcOk(Do(s, step), q)
  {
    assert ProcOk(s, q) && ProcOk(s, step.p);
    if s.lk.Some? { assert ProcOk(s, s.lk.value); }
  }

  lemma StepInv(s: State, step: Step)
    requires Inv(s) && Enabled(s, step)
    ensures Inv(Do(s, step))
  {
    var t := Do(s, step);
    forall q ensures ProcOk(t, q) {
      if q != step.p {
        PeerKeeps(s, step, q);
      } else if step.Go? && Acquiring(s.pc[q]) {
        AcquirerKeeps(s, q);
      } else {
        MoverKeeps(s, step);
      }
    }
    assert ProcOk(s, step.p);
  }

  ghost predicate Initial(s: State) {
    && (forall p :: p in s.pc ==> s.pc[p] == Idle)
    && s.lk == None && s.table == None && !s.locked && s.owner == None && s.sleeping == {}
  }

  /** s leads to t by some sequence of steps of the processes. */
  ghost predicate Reaches(s: State, steps: seq<Step>, t: State)
    decreases |steps|
  {
    if |steps| == 0 then s == t
    else Enabled(s, steps[0]) && Reaches(Do(s, steps[0]), steps[1..], t)
  }

  lemma {:induction false} RunInv(s: State, steps: seq<Step>, t: State)
    requires Inv(s) && Reaches(s, steps, t)
    ensures Inv(t)
    decreases |steps|
  {
    if |steps| > 0 {
      StepInv(s, steps[0]);
      RunInv(Do(s, steps[0]), steps[1..], t);
    }
  }

  lemma InitialInv(s: State)
    requires Initial(s)
    ensures Inv(s)
  {
    forall q ensures ProcOk(s, q) { }
  }

  /** A process asleep on the lock always has a wakeup ahead of it. */
  lemma NoLostWakeup(s: State, steps: seq<Step>, t: State, p: Pid)
    requires Initial(s) && Reaches(s, steps, t) && p in t.sleeping
    ensures t.locked || exists q :: q in t.pc && Waking(t.pc[q])
    ensures t.locked ==> exists q :: q in t.pc && Owns(t.pc[q])
    ensures p in t.pc && (t.pc[p] == AcqSched || t.pc[p] == Asleep)
  {
    InitialInv(s);
    RunInv(s, steps, t);
    assert ProcOk(t, p);
    if t.locked { assert ProcOk(t, t.owner.value); }
  }

  /** At most one process is between acquiresleep and releasesleep, and lk->pid names it. */
  lemma MutualExclusion(s: State, steps: seq<Step>, t: State, p: Pid, q: Pid)
    requires Initial(s) && Reaches(s, steps, t)
    requires p in t.pc && q in t.pc && t.pc[p] == Crit
    ensures t.pc[q] == Crit ==> p == q
    ensures t.locked && t.owner == Some(p)
  {
    InitialInv(s);
    RunInv(s, steps, t);
    assert ProcOk(t, p) && ProcOk(t, q);
  }

  /** Some process can move: on its own, by leaving its critical section, or by releasing ptable.lock. */
  ghost predicate SomeoneMoves(s: State) {
    exists step: Step :: Enabled(s, step) && !step.Kill? && (step.Other? ==> !step.take)
      && (step.Call? ==> s.pc[step.p] == Crit)
  }

  /** While anyone is inside acquiresleep or releasesleep, or holds the lock, the system is not stuck. */
  lemma NeverStuck(s: State, steps: seq<Step>, t: State, p: Pid)
    requires Initial(s) && Reaches(s, steps, t)
    requires p in t.pc && t.pc[p] != Idle
    ensures SomeoneMoves(t)
  {
    InitialInv(s);
    RunInv(s, steps, t);
    assert ProcOk(t, p);
    if t.table.Some? {
      var q := t.table.value;
      assert ProcOk(t, q);
      if t.pc[q] == Idle { assert Enabled(t, Other(q, false)); } else { assert Enabled(t, Go(q)); }
    } else if t.lk.Some? {
      assert ProcOk(t, t.lk.value);
      assert Enabled(t, Go(t.lk.value));
    } else if p in t.sleeping {
      OwnerMoves(t);
    } else if t.pc[p] == Crit {
      assert Enabled(t, Call(p));
    } else {
      assert Enabled(t, Go(p));
    }
  }

  lemma OwnerMoves(t: State)
    requires Inv(t) && t.locked && t.lk == None && t.table == None
    ensures SomeoneMoves(t)
  {
    var q := t.owner.value;
    assert ProcOk(t, q);
    if t.pc[q] == Crit { assert Enabled(t, Call(q)); } else { assert Enabled(t, Go(q)); }
  }

  // ---------------------------------------------------------------- what the calls achieve

  function Goes(p: Pid, n: nat): seq<Step> { if n == 0 then [] else [Go(p)] + Goes(p, n - 1) }

  /** How many statements are left of the call, once nobody holds the sleep lock. */
  function Left(pc: Pc): nat {
    match pc
    case AcqSched => 7
    case Asleep | RelSpin => 6
    case AcqTidy | RelClear => 5
    case AcqUntable | RelTable => 4
    case AcqSpin | RelWake => 3
    case AcqTest | RelUntable => 2
    case AcqUnlock | RelUnlock => 1
    case _ => 0
  }

  /** No other process has either spin lock. */
  predicate Undisturbed(s: State, p: Pid) {
    (s.lk == None || s.lk == Some(p)) && (s.table == None || s.table == Some(p))
  }

  predicate Releasing(pc: Pc) { pc == RelSpin || pc == RelClear || Waking(pc) || pc == RelUntable || pc == RelUnlock }

  /** The rest of p's call can be carried out in one go. */
  predicate Ready(s: State, p: Pid) {
    && p in s.pc && Undisturbed(s, p)
    && (Releasing(s.pc[p]) || (Acquiring(s.pc[p]) && (s.locked ==> s.owner == Some(p))))
  }

  /** What p's call is for: the lock for p, or the lock free and the sleepers woken, and nothing else changed. */
  predicate Achieves(s: State, p: Pid, t: State)
    requires p in s.pc
  {
    && t.lk == None && t.table == None
    && t.pc == s.pc[p := if Acquiring(s.pc[p]) then Crit else Idle]
    && t.owner == (if Acquiring(s.pc[p]) then Some(p) else if Owns(s.pc[p]) then None else s.owner)
    && t.sleeping == if Acquiring(s.pc[p]) || s.pc[p] == RelUntable || s.pc[p] == RelUnlock then s.sleeping else {}
  }

  lemma OneAcquire(s: State, p: Pid)
    requires Inv(s) && Ready(s, p) && Acquiring(s.pc[p])
    ensures Left(s.pc[p]) > 0 && Enabled(s, Go(p))
    ensures Left(s.pc[p]) == 1 ==> Achieves(s, p, Do(s, Go(p)))
    ensures Left(s.pc[p]) > 1 ==> Ready(Do(s, Go(p)), p) && Left(Do(s, Go(p)).pc[p]) == Left(s.pc[p]) - 1
  {
    assert ProcOk(s, p);
  }

  lemma OneRelease(s: State, p: Pid)
    requires Inv(s) && Ready(s, p) && Releasing(s.pc[p])
    ensures Left(s.pc[p]) > 0 && Enabled(s, Go(p))
    ensures Left(s.pc[p]) == 1 ==> Achieves(s, p, Do(s, Go(p)))
    ensures Left(s.pc[p]) > 1 ==> Ready(Do(s, Go(p)), p) && Left(Do(s, Go(p)).pc[p]) == Left(s.pc[p]) - 1
  {
    assert ProcOk(s, p);
  }

  lemma RestAchieves(s: State, p: Pid, t: State)
    requires Inv(s) && Ready(s, p) && Enabled(s, Go(p)) && Left(s.pc[p]) > 1
    requires p in Do(s, Go(p)).pc && Achieves(Do(s, Go(p)), p, t)
    ensures Achieves(s, p, t)
  {
    assert ProcOk(s, p);
  }

  /** Undisturbed, acquiresleep on a free lock gets it, and releasesleep frees it and wakes every sleeper. */
  lemma {:induction false} CallEnds(s: State, p: Pid) returns (t: State)
    requires Inv(s) && Ready(s, p)
    ensures Reaches(s, Goes(p, Left(s.pc[p])), t) && Achieves(s, p, t)
    decreases Left(s.pc[p])
  {
    hide Inv, Do, Achieves, Undisturbed, Enabled;
    if Acquiring(s.pc[p]) { OneAcquire(s, p); } else { OneRelease(s, p); }
    t := Do(s, Go(p));
    StepInv(s, Go(p));
    assert Goes(p, Left(s.pc[p]))[1..] == Goes(p, Left(s.pc[p]) - 1);
    if Left(s.pc[p]) > 1 {
      t := CallEnds(t, p);
      RestAchieves(s, p, t);
    }
  }

  /** The whole call, from outside to outside. */
  lemma WholeCall(s: State, p: Pid) returns (t: State)
    requires Inv(s) && p in s.pc && s.lk == None && s.table == None
    requires s.pc[p] == Crit || (s.pc[p] == Idle && !s.locked)
    ensures Reaches(s, [Call(p)] + Goes(p, if s.pc[p] == Crit then 6 else 3), t)
    ensures s.pc[p] == Idle ==> t.pc == s.pc[p := Crit] && t.owner == Some(p) && t.sleeping == s.sleeping
    ensures s.pc[p] == Crit ==> t.pc == s.pc[p := Idle] && t.owner == None && t.sleeping == {}
    ensures t.lk == None && t.table == None
  {
    assert ProcOk(s, p);
    StepInv(s, Call(p));
    var u := Do(s, Call(p));
    t := CallEnds(u, p);
    var rest := Goes(p, if s.pc[p] == Crit then 6 else 3);
    assert ([Call(p)] + rest)[1..] == rest;
  }

  /** acquiresleep on a held lock puts the caller to sleep with both spin locks free, until it is woken or killed. */
  lemma WaitsAsleep(s: State, p: Pid) returns (t: State)
    requires Inv(s) && p in s.pc && s.pc[p] == AcqTest && s.locked && s.table == None
    ensures Reaches(s, Goes(p, 5), t) && t == s.(pc := s.pc[p := Asleep], lk := None, sleeping := s.sleeping + {p})
    ensures !Enabled(t, Go(p))
  {
    assert ProcOk(s, p);
    var s1 := Do(s, Go(p));
    var s2 := Do(s1, Go(p));
    var s3 := Do(s2, Go(p));
    var s4 := Do(s3, Go(p));
    t := Do(s4, Go(p));
    assert Goes(p, 1)[1..] == [] && Goes(p, 2)[1..] == Goes(p, 1) && Goes(p, 3)[1..] == Goes(p, 2);
    assert Goes(p, 4)[1..] == Goes(p, 3) && Goes(p, 5)[1..] == Goes(p, 4);
    assert Reaches(s4, Goes(p, 1), t) && Reaches(s3, Goes(p, 2), t) && Reaches(s2, Goes(p, 3), t);
    assert t.pc == s.pc[p := Asleep];
  }

  /** A sleeper is woken by the releaser's wakeup and by kill alone, and by kill it alone. */
  lemma WokenBy(s: State, step: Step, q: Pid)
    requires Enabled(s, step) && q in s.sleeping
    ensures q !in Do(s, step).sleeping <==> step == Kill(q) || (step.Go? && s.pc[step.p] == RelWake)
  {
  }

  /** acquiresleep does not return without the lock: a process inside it leaves it only as the lock's holder. */
  lemma {:induction false} NeverGivesUp(s: State, steps: seq<Step>, t: State, p: Pid)
    requires Reaches(s, steps, t) && p in s.pc && Acquiring(s.pc[p])
    ensures p in t.pc
    ensures Acquiring(t.pc[p]) || exists k, u :: 0 <= k <= |steps| && Passes(s, steps, k, u, t) && u.pc[p] == Crit
    decreases |steps|
  {
    if |steps| == 0 {
    } else if Acquiring(Do(s, steps[0]).pc[p]) {
      var s1 := Do(s, steps[0]);
      NeverGivesUp(s1, steps[1..], t, p);
      if !Acquiring(t.pc[p]) {
        var k, u :| 0 <= k <= |steps[1..]| && Passes(s1, steps[1..], k, u, t) && u.pc[p] == Crit;
        assert steps[..k + 1][0] == steps[0] && steps[..k + 1][1..] == steps[1..][..k];
        assert steps[k + 1..] == steps[1..][k..];
        assert Passes(s, steps, k + 1, u, t);
      }
    } else {
      KeepsProcesses(Do(s, steps[0]), steps[1..], t);
      assert steps[..1][1..] == [];
      assert Passes(s, steps, 1, Do(s, steps[0]), t);
    }
  }

  /** The run from s to t is at u after k steps. */
  ghost predicate Passes(s: State, steps: seq<Step>, k: nat, u: State, t: State)
    requires k <= |steps|
    ensures Passes(s, steps, k, u, t) ==> u.pc.Keys == s.pc.Keys
  {
    KeepsProcessesTo(s, steps, k, u);
    Reaches(s, steps[..k], u) && Reaches(u, steps[k..], t)
  }

  lemma {:induction false} KeepsProcesses(s: State, steps: seq<Step>, t: State)
    requires Reaches(s, steps, t)
    ensures t.pc.Keys == s.pc.Keys
    decreases |steps|
  {
    if |steps| > 0 {
      assert Do(s, steps[0]).pc.Keys == s.pc.Keys;
      KeepsProcesses(Do(s, steps[0]), steps[1..], t);
    }
  }

  lemma KeepsProcessesTo(s: State, steps: seq<Step>, k: nat, u: State)
    requires k <= |steps|
    ensures Reaches(s, steps[..k], u) ==> u.pc.Keys == s.pc.Keys
  {
    if Reaches(s, steps[..k], u) { KeepsProcesses(s, steps[..k], u); }
  }

  /** ptable.lock excludes: while someone else has it no step takes it, and giving it back undoes taking it. */
  lemma TableLock(s: State, p: Pid, step: Step)
    requires Inv(s) && Enabled(s, Other(p, true))
    ensures var t := Do(s, Other(p, true));
            && t.table == Some(p) && Enabled(t, Other(p, false)) && Do(t, Other(p, false)) == s
            && (Enabled(t, step) && step.p != p && t.pc[step.p] != Idle ==> Do(t, step).table == Some(p))
  {
    assert ProcOk(s, step.p);
  }
}
