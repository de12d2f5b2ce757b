/**
  The xv6 process table: allocproc, fork, exit, wait, sleep, wakeup, kill and the
  scheduler's choice.  Each step is one critical section of ptable.lock, or one of the
  two stores fork makes without it, so the state between steps is every state in which
  the lock is free.
 */
module ProcTable {

  import opened Wrappers

  const NPROC: nat := 64

  datatype Status = Unused | Embryo | Sleeping | Runnable | Running | Zombie

  /** What a process sleeps on: a process (wait uses its own), or any other kernel address. */
  datatype Chan = Nowhere | OnProc(proc: nat) | OnOther(address: nat)

  datatype Proc = Proc(state: Status, pid: nat, parent: Option<nat>, chan: Chan, killed: bool, priority: nat,
      ctime: int)

  datatype State = State(procs: seq<Proc>, init: nat, nextpid: nat)

  predicate Active(p: Proc) { p.state == Sleeping || p.state == Runnable || p.state == Running }

  predicate AsleepInWait(s: State, p: nat) {
    p < |s.procs| && s.procs[p].state == Sleeping && s.procs[p].chan == OnProc(p)
  }

  predicate ChildOf(s: State, c: nat, p: nat) { c < |s.procs| && s.procs[c].parent == Some(p) }

  // ---------------------------------------------------------------- steps

  datatype Step =
    | Alloc(p: nat)                 // allocproc takes slot p
    | Abort(p: nat)                 // allocproc or fork gives slot p back
    | Adopt(p: nat, parent: nat)    // fork: np->parent = curproc
    | Start(p: nat)                 // fork: np->state = RUNNABLE
    | Exit(p: nat)
    | Reap(p: nat, child: nat)      // wait finds a zombie
    | WaitSleep(p: nat)             // wait goes to sleep
    | Sleep(p: nat, address: nat)
    | Wakeup(ch: Chan)
    | Kill(p: nat)
    | Dispatch(p: nat)
    | Yield(p: nat)

  predicate IsRunning(s: State, p: nat) { p < |s.procs| && s.procs[p].state == Running }

  ghost predicate Enabled(s: State, step: Step) {
    match step
    case Alloc(p) => p < |s.procs| && s.procs[p].state == Unused
    case Abort(p) => p < |s.procs| && s.procs[p].state == Embryo && s.procs[p].parent == None
    case Adopt(p, q) => p < |s.procs| && s.procs[p].state == Embryo && s.procs[p].parent == None && IsRunning(s, q)
    case Start(p) => p < |s.procs| && s.procs[p].state == Embryo && s.procs[p].parent.Some?
    case Exit(p) => IsRunning(s, p) && p != s.init
    case Reap(p, c) => IsRunning(s, p) && ChildOf(s, c, p) && s.procs[c].state == Zombie
    case WaitSleep(p) => IsRunning(s, p) && (forall c: nat :: ChildOf(s, c, p) ==> s.procs[c].state != Zombie)
    case Sleep(p, _) => IsRunning(s, p)
    case Wakeup(_) => true
    case Kill(p) => p < |s.procs|
    case Dispatch(p) => p < |s.procs| && s.procs[p].state == Runnable
    case Yield(p) => IsRunning(s, p)
  }

  function Awake(p: Proc, wake: bool): Proc {
    if p.state == Sleeping && wake then p.(state := Runnable) else p
  }

  function Woken(procs: seq<Proc>, ch: Chan): (r: seq<Proc>)
    ensures |r| == |procs|
  {
    seq(|procs|, i requires 0 <= i < |procs| => Awake(procs[i], procs[i].chan == ch))
  }

  predicate LeavesZombie(s: State, cur: nat, upTo: nat) {
    exists c: nat :: c < upTo && ChildOf(s, c, cur) && s.procs[c].state == Zombie
  }

  /** Slot i once exit has woken the parent and scanned the slots below upTo. */
  ghost function ExitScan(s: State, cur: nat, upTo: nat, i: nat): Proc
    requires cur < |s.procs| && i < |s.procs|
  {
    var p := s.procs[i];
    var wake := (s.procs[cur].parent.Some? && p.chan == OnProc(s.procs[cur].parent.value))
                || (p.chan == OnProc(s.init) && LeavesZombie(s, cur, upTo));
    Awake(p, wake).(parent := if i < upTo && p.parent == Some(cur) then Some(s.init) else p.parent)
  }

  ghost function Exited(s: State, cur: nat): State
    requires cur < |s.procs|
  {
    var scanned := seq(|s.procs|, i requires 0 <= i < |s.procs| => ExitScan(s, cur, |s.procs|, i));
    s.(procs := scanned[cur := scanned[cur].(state := Zombie)])
  }

  function Cleared(p: Proc): Proc { Proc(Unused, 0, None, p.chan, false, 0, 0) }

  function Set(s: State, i: nat, p: Proc): State
    requires i < |s.procs|
  {
    s.(procs := s.procs[i := p])
  }

  ghost function Do(s: State, step: Step): State
    requires Enabled(s, step)
  {
    match step
    case Alloc(p) => Set(s, p, s.procs[p].(state := Embryo, pid := s.nextpid)).(nextpid := s.nextpid + 1)
    case Abort(p) => Set(s, p, s.procs[p].(state := Unused))
    case Adopt(p, q) => Set(s, p, s.procs[p].(parent := Some(q)))
    case Start(p) => Set(s, p, s.procs[p].(state := Runnable))
    case Exit(p) => Exited(s, p)
    case Reap(p, c) => Set(s, c, Cleared(s.procs[c]))
    case WaitSleep(p) => Set(s, p, s.procs[p].(state := Sleeping, chan := OnProc(p)))
    case Sleep(p, a) => Set(s, p, s.procs[p].(state := Sleeping, chan := OnOther(a)))
    case Wakeup(ch) => s.(procs := Woken(s.procs, ch))
    case Kill(p) => Set(s, p, Awake(s.procs[p].(killed := true), true))
    case Dispatch(p) => Set(s, p, s.procs[p].(state := Running))
    case Yield(p) => Set(s, p, s.procs[p].(state := Runnable))
  }

  // ---------------------------------------------------------------- the invariant

  /** What holds of slot c alone and of its parent. */
  predicate SlotOk(s: State, c: nat) {
    c < |s.procs| ==>
      var p := s.procs[c];
      && (p.state == Unused || c == s.init ==> p.parent == None)
      && (c != s.init && p.state != Unused && p.state != Embryo ==> p.parent.Some?)
      && p.pid < s.nextpid
      && (p.parent.Some? ==>
            p.parent.value < |s.procs| && p.parent.value != c
            && Active(s.procs[p.parent.value])
            && (p.state == Zombie ==> !AsleepInWait(s, p.parent.value)))
  }

  predicate PidsApart(s: State, a: nat, b: nat) {
    a < b < |s.procs| && s.procs[a].pid == s.procs[b].pid ==> s.procs[a].pid == 0
  }

  ghost predicate Inv(s: State) {
    && s.init < |s.procs| && Active(s.procs[s.init]) && s.nextpid > 0
    && (forall c: nat {:trigger SlotOk(s, c)} :: SlotOk(s, c))
    && (forall a: nat, b: nat {:trigger PidsApart(s, a, b)} :: PidsApart(s, a, b))
  }

  /** fork's steps: a slot in the making has no children, and gets a running parent. */
  lemma ForkInv(s: State, step: Step)
    requires Inv(s) && Enabled(s, step) && (step.Alloc? || step.Abort? || step.Adopt? || step.Start?)
    ensures Inv(Do(s, step))
  {
    var t := Do(s, step);
    forall c: nat ensures SlotOk(t, c) { assert SlotOk(s, c); }
    forall a: nat, b: nat ensures PidsApart(t, a, b) {
      assert PidsApart(s, a, b) && SlotOk(s, a) && SlotOk(s, b);
    }
  }

  /** What wait reaps has no children. */
  lemma ReapInv(s: State, p: nat, child: nat)
    requires Inv(s) && Enabled(s, Reap(p, child))
    ensures Inv(Do(s, Reap(p, child)))
  {
    var t := Do(s, Reap(p, child));
    forall c: nat ensures SlotOk(t, c) { assert SlotOk(s, c); }
    forall a: nat, b: nat ensures PidsApart(t, a, b) { assert PidsApart(s, a, b); }
  }

  /** wait sleeps only when no child is a zombie. */
  lemma WaitSleepInv(s: State, p: nat)
    requires Inv(s) && Enabled(s, WaitSleep(p))
    ensures Inv(Do(s, WaitSleep(p)))
  {
    var t := Do(s, WaitSleep(p));
    forall c: nat ensures SlotOk(t, c) {
      assert SlotOk(s, c);
      assert ChildOf(s, c, p) ==> s.procs[c].state != Zombie;
    }
    forall a: nat, b: nat ensures PidsApart(t, a, b) { assert PidsApart(s, a, b); }
  }

  lemma StatusInv(s: State, step: Step)
    requires Inv(s) && Enabled(s, step) && (step.Sleep? || step.Kill? || step.Dispatch? || step.Yield?)
    ensures Inv(Do(s, step))
  {
    var t := Do(s, step);
    forall c: nat ensures SlotOk(t, c) { assert SlotOk(s, c); }
    forall a: nat, b: nat ensures PidsApart(t, a, b) { assert PidsApart(s, a, b); }
  }

  lemma WakeupInv(s: State, ch: Chan)
    requires Inv(s)
    ensures Inv(Do(s, Wakeup(ch)))
  {
    var t := Do(s, Wakeup(ch));
    forall c: nat ensures SlotOk(t, c) { assert SlotOk(s, c); }
    forall a: nat, b: nat ensures PidsApart(t, a, b) { assert PidsApart(s, a, b); }
  }

  lemma ExitInv(s: State, p: nat)
    requires Inv(s) && Enabled(s, Exit(p))
    ensures Inv(Do(s, Exit(p)))
  {
    var t := Do(s, Exit(p));
    assert SlotOk(s, p);
    forall c: nat ensures SlotOk(t, c) {
      assert SlotOk(s, c);
      if ChildOf(s, c, p) && s.procs[c].state == Zombie { assert LeavesZombie(s, p, |s.procs|); }
    }
    forall a: nat, b: nat ensures PidsApart(t, a, b) { assert PidsApart(s, a, b); }
  }

  lemma StepInv(s: State, step: Step)
    requires Inv(s) && Enabled(s, step)
    ensures Inv(Do(s, step))
  {
    match step
    case Alloc(_) | Abort(_) | Adopt(_, _) | Start(_) => ForkInv(s, step);
    case Reap(p, c) => ReapInv(s, p, c);
    case WaitSleep(p) => WaitSleepInv(s, p);
    case Exit(p) => ExitInv(s, p);
    case Wakeup(ch) => WakeupInv(s, ch);
    case Sleep(_, _) | Kill(_) | Dispatch(_) | Yield(_) => StatusInv(s, step);
  }

  // ---------------------------------------------------------------- runs

  /** The table after userinit: init alone, ready to run. */
  ghost predicate Booted(s: State) {
    && |s.procs| == NPROC && s.init < NPROC && s.nextpid == 2
    && s.procs[s.init].state == Runnable && s.procs[s.init].pid == 1
    && (forall i :: 0 <= i < NPROC ==> s.procs[i].parent == None)
    && (forall i :: 0 <= i < NPROC && i != s.init ==> s.procs[i].state == Unused && s.procs[i].pid == 0)
  }

  ghost predicate Reaches(s: State, steps: seq<Step>, t: State)
    decreases |steps|
  {
    if |steps| == 0 then s == t
    else Enabled(s, steps[0]) && Reaches(Do(s, steps[0]), steps[1..], t)
  }

  lemma {:induction false} RunInv(s: State, steps: seq<Step>, t: State)
    requires Inv(s) && Reaches(s, steps, t)
    ensures Inv(t)
    decreases |steps|
  {
    if |steps| > 0 {
      StepInv(s, steps[0]);
      RunInv(Do(s, steps[0]), steps[1..], t);
    }
  }

  lemma BootedInv(s: State)
    requires Booted(s)
    ensures Inv(s)
  {
    forall c: nat ensures SlotOk(s, c) { }
    forall a: nat, b: nat ensures PidsApart(s, a, b) { }
  }

  /** Whenever ptable.lock is free, no process asleep in wait has a zombie child. */
  lemma NoMissedZombie(s: State, steps: seq<Step>, t: State, p: nat, c: nat)
    requires Booted(s) && Reaches(s, steps, t)
    requires AsleepInWait(t, p) && ChildOf(t, c, p)
    ensures t.procs[c].state != Zombie
  {
    BootedInv(s);
    RunInv(s, steps, t);
    assert SlotOk(t, c);
  }

  /** Every process but init that fork has finished has a parent, and that parent can still call wait. */
  lemma ParentAlive(s: State, steps: seq<Step>, t: State, c: nat)
    requires Booted(s) && Reaches(s, steps, t)
    requires c < |t.procs|
    ensures c != t.init && (Active(t.procs[c]) || t.procs[c].state == Zombie) ==> t.procs[c].parent.Some?
    ensures t.procs[c].parent.Some? ==>
              t.procs[c].parent.value < |t.procs| && t.procs[c].parent.value != c
              && Active(t.procs[t.procs[c].parent.value])
  {
    BootedInv(s);
    RunInv(s, steps, t);
    assert SlotOk(t, c);
  }

  /** A zombie's parent, once it runs, is able to reap it; and reaping orphans nobody. */
  lemma ZombieReapable(s: State, steps: seq<Step>, t: State, c: nat)
    requires Booted(s) && Reaches(s, steps, t)
    requires c < |t.procs| && t.procs[c].state == Zombie
    ensures t.procs[c].parent.Some? && !AsleepInWait(t, t.procs[c].parent.value)
    ensures IsRunning(t, t.procs[c].parent.value) ==> Enabled(t, Reap(t.procs[c].parent.value, c))
    ensures forall d: nat :: !ChildOf(t, d, c)
  {
    BootedInv(s);
    RunInv(s, steps, t);
    assert SlotOk(t, c);
    forall d: nat ensures !ChildOf(t, d, c) { assert SlotOk(t, d); }
  }

  // ---------------------------------------------------------------- what the steps are for

  /** Pid n belongs to slot c alone. */
  ghost predicate Identifies(s: State, n: nat, c: nat) {
    && c < |s.procs| && s.procs[c].pid == n != 0
    && forall i: nat :: i < |s.procs| && s.procs[i].pid == n ==> i == c
  }

  /** fork: with a free slot, a running process can always bring a child with a pid of its own to run. */
  lemma ForkMakes(s: State, q: nat, c: nat)
    requires Inv(s) && IsRunning(s, q) && c < |s.procs| && s.procs[c].state == Unused
    ensures Enabled(s, Alloc(c))
    ensures var s1 := Do(s, Alloc(c));
            && Identifies(s1, s.nextpid, c) && Enabled(s1, Adopt(c, q))
            && var s2 := Do(s1, Adopt(c, q));
            && Enabled(s2, Start(c))
            && var s3 := Do(s2, Start(c));
            && Enabled(s3, Dispatch(c))
            && var t := Do(s3, Dispatch(c));
            && IsRunning(t, c) && ChildOf(t, c, q) && Identifies(t, s.nextpid, c) && c != t.init
            && forall i: nat :: i < |s.procs| && i != c ==> t.procs[i] == s.procs[i]
  {
    assert SlotOk(s, c);
    forall i: nat | i < |s.procs| ensures s.procs[i].pid < s.nextpid { assert SlotOk(s, i); }
  }

  /** A fork that is given up leaves the slot free, and nothing else changed. */
  lemma ForkGivesUp(s: State, c: nat)
    requires Inv(s) && c < |s.procs| && s.procs[c].state == Unused
    ensures var s1 := Do(s, Alloc(c));
            && Enabled(s1, Abort(c))
            && var t := Do(s1, Abort(c));
            && Enabled(t, Alloc(c)) && |t.procs| == |s.procs|
            && forall i: nat :: i < |s.procs| && i != c ==> t.procs[i] == s.procs[i]
  {
    assert SlotOk(s, c);
  }

  /** exit leaves a zombie for the parent, gives the children to init, and wakes whoever waits for any of them. */
  lemma ExitHandsOver(s: State, p: nat, c: nat)
    requires Inv(s) && IsRunning(s, p) && p != s.init && c < |s.procs|
    ensures Enabled(s, Exit(p))
    ensures var t := Do(s, Exit(p));
            && t.procs[p].state == Zombie && t.procs[p].parent == s.procs[p].parent
            && (ChildOf(s, c, p) ==> t.procs[c].parent == Some(s.init))
            && (AsleepInWait(s, c) && s.procs[p].parent == Some(c) ==> t.procs[c].state == Runnable)
            && (AsleepInWait(s, c) && c == s.init && LeavesZombie(s, p, |s.procs|) ==> t.procs[c].state == Runnable)
  {
    assert SlotOk(s, p);
  }

  /** wait: the parent sleeps until a child exits, and can then run and reap it; the slot is free again. */
  lemma WaitReturns(s: State, q: nat, c: nat)
    requires Inv(s) && IsRunning(s, q) && (forall d: nat :: ChildOf(s, d, q) ==> s.procs[d].state != Zombie)
    requires ChildOf(s, c, q) && IsRunning(s, c) && c != s.init
    ensures Enabled(s, WaitSleep(q))
    ensures var s1 := Do(s, WaitSleep(q));
            && AsleepInWait(s1, q) && Enabled(s1, Exit(c))
            && var s2 := Do(s1, Exit(c));
            && Enabled(s2, Dispatch(q))
            && var s3 := Do(s2, Dispatch(q));
            && Enabled(s3, Reap(q, c))
            && Enabled(Do(s3, Reap(q, c)), Alloc(c))
  {
    assert SlotOk(s, c);
  }

  /** A sleeper is made runnable by a wakeup on its channel, by kill, and by nothing else of the kind. */
  lemma SleepsUntil(s: State, p: nat, a: nat, ch: Chan, k: nat)
    requires IsRunning(s, p) && k < |s.procs|
    ensures Enabled(s, Sleep(p, a))
    ensures var t := Do(s, Sleep(p, a));
            && t.procs[p].state == Sleeping && t.procs[p].chan == OnOther(a)
            && (Do(t, Wakeup(ch)).procs[p].state == Runnable <==> ch == OnOther(a))
            && (Do(t, Kill(k)).procs[p].state == Runnable <==> k == p)
            && Do(t, Kill(k)).procs[k].killed
            && forall i: nat :: i < |s.procs| && i != p ==> t.procs[i] == s.procs[i]
  {
  }

  /** A wakeup makes exactly the sleepers on its channel runnable. */
  lemma WakesExactly(s: State, ch: Chan, i: nat)
    requires i < |s.procs|
    ensures var t := Do(s, Wakeup(ch));
            && |t.procs| == |s.procs|
            && t.procs[i] == if s.procs[i].state == Sleeping && s.procs[i].chan == ch
                             then s.procs[i].(state := Runnable) else s.procs[i]
  {
  }

  /** yield gives up the CPU and no more: the process can be dispatched again, as it was. */
  lemma YieldReturns(s: State, p: nat)
    requires IsRunning(s, p)
    ensures Enabled(s, Yield(p)) && !IsRunning(Do(s, Yield(p)), p) && Enabled(Do(s, Yield(p)), Dispatch(p))
    ensures Do(Do(s, Yield(p)), Dispatch(p)) == s
  {
    assert Do(Do(s, Yield(p)), Dispatch(p)).procs == s.procs;
  }

  // ---------------------------------------------------------------- the killed flag of a new process

  /** Whether slot p is marked after the steps, if it was before: the last kill or reap of the slot decides. */
  function Marked(steps: seq<Step>, p: nat, before: bool): bool {
    if |steps| == 0 then before
    else Marked(steps[1..], p,
                if steps[0] == Kill(p) then true
                else if steps[0].Reap? && steps[0].child == p then false
                else before)
  }

  lemma {:induction false} MarkHistory(s: State, steps: seq<Step>, t: State, p: nat)
    requires Reaches(s, steps, t) && p < |s.procs|
    ensures p < |t.procs| && (t.procs[p].killed <==> Marked(steps, p, s.procs[p].killed))
    decreases |steps|
  {
    if |steps| > 0 {
      MarkHistory(Do(s, steps[0]), steps[1..], t, p);
    }
  }

  /**
    allocproc leaves the flag alone.  A process made in slot p therefore starts unmarked
    exactly when no kill has hit the slot since it was last reaped; kill looks only at
    pids, which unused slots have too: 0, or that of a fork that was given up.
   */
  lemma StartsUnmarked(s: State, steps: seq<Step>, t: State, p: nat)
    requires Booted(s) && p < NPROC && !s.procs[p].killed && Reaches(s, steps, t) && Enabled(t, Alloc(p))
    ensures Do(t, Alloc(p)).procs[p].killed <==> Marked(steps, p, false)
  {
    MarkHistory(s, steps, t, p);
  }

  /** kill(0) right after boot, and the first process made in that slot is born killed. */
  lemma BornKilled(s: State, p: nat)
    requires Booted(s) && p < NPROC && p != s.init
    ensures s.procs[p].pid == 0 && Enabled(s, Kill(p)) && Enabled(Do(s, Kill(p)), Alloc(p))
    ensures Do(Do(s, Kill(p)), Alloc(p)).procs[p].killed
  {
  }

  // ---------------------------------------------------------------- the code

  datatype Waited = Reaped(pid: nat, child: nat) | NoChild | Slept

  /** The scheduler prefers a to b: higher priority, then earlier creation. */
  predicate Better(a: Proc, b: Proc) {
    a.priority > b.priority || (a.priority == b.priority && a.ctime < b.ctime)
  }

  class Table {
    const procs: array<Proc>
    const init: nat
    var nextpid: nat

    ghost function Now(): State
      reads this, procs
    {
      State(procs[..], init, nextpid)
    }

    constructor (table: array<Proc>, initproc: nat, next: nat)
      ensures procs == table && init == initproc && nextpid == next
    {
      procs, init, nextpid := table, initproc, next;
    }

    method Wakeup1(ch: Chan)
      modifies procs
      ensures procs[..] == Woken(old(procs[..]), ch)
    {
      ghost var was := procs[..];
      var i := 0;
      while i < procs.Length
        invariant 0 <= i <= procs.Length
        invariant forall j :: 0 <= j < procs.Length ==>
                    procs[j] == if j < i then Awake(was[j], was[j].chan == ch) else was[j]
      {
        if procs[i].state == Sleeping && procs[i].chan == ch {
          procs[i] := procs[i].(state := Runnable);
        }
        i := i + 1;
      }
    }

    /** Takes the first unused slot, or reports that there is none. */
    method AllocProc() returns (r: Option<nat>)
      requires Inv(Now())
      modifies this, procs
      ensures r.Some? ==> Enabled(old(Now()), Alloc(r.value)) && Now() == Do(old(Now()), Alloc(r.value))
      ensures r.Some? ==> forall j :: 0 <= j < r.value ==> old(procs[j]).state != Unused
      ensures r.None? ==> Now() == old(Now()) && forall j :: 0 <= j < procs.Length ==> procs[j].state != Unused
      ensures Inv(Now())
    {
      var i: nat := 0;
      while i < procs.Length
        invariant 0 <= i <= procs.Length
        invariant forall j :: 0 <= j < i ==> procs[j].state != Unused
      {
        if procs[i].state == Unused {
          ghost var was := Now();
          StepInv(was, Alloc(i));
          procs[i] := procs[i].(state := Embryo, pid := nextpid);
          nextpid := nextpid + 1;
          return Some(i);
        }
        i := i + 1;
      }
      r := None;
    }

    /** The critical section of exit. */
    method Exit(cur: nat)
      requires Inv(Now()) && Enabled(Now(), Step.Exit(cur))
      modifies procs
      ensures Now() == Do(old(Now()), Step.Exit(cur))
      ensures Inv(Now())
    {
      ghost var was := Now();
      StepInv(was, Step.Exit(cur));
      assert SlotOk(was, cur);
      Wakeup1(OnProc(procs[cur].parent.value));
      var i: nat := 0;
      assert forall j: nat :: j < procs.Length ==> procs[j] == ExitScan(was, cur, 0, j);
      while i < procs.Length
        invariant 0 <= i <= procs.Length
        invariant forall j: nat :: j < procs.Length ==> procs[j] == ExitScan(was, cur, i, j)
      {
        Adopt(was, cur, i);
        i := i + 1;
      }
      procs[cur] := procs[cur].(state := Zombie);
      assert procs[..] == Do(was, Step.Exit(cur)).procs;
    }

    /** One turn of exit's loop over the table. */
    method Adopt(ghost was: State, cur: nat, i: nat)
      requires cur < |was.procs| == procs.Length && i < procs.Length && was.init == init
      requires forall j: nat :: j < procs.Length ==> procs[j] == ExitScan(was, cur, i, j)
      modifies procs
      ensures forall j: nat :: j < procs.Length ==> procs[j] == ExitScan(was, cur, i + 1, j)
    {
      ZombieStep(was, cur, i);
      if procs[i].parent == Some(cur) {
        procs[i] := procs[i].(parent := Some(init));
        if procs[i].state == Zombie {
          Wakeup1(OnProc(init));
        }
      }
    }

    /** wait: reaps the first zombie child, fails, or goes to sleep. */
    method Wait(cur: nat) returns (r: Waited)
      requires Inv(Now()) && IsRunning(Now(), cur)
      modifies procs
      ensures r.Reaped? ==> Enabled(old(Now()), Reap(cur, r.child)) && Now() == Do(old(Now()), Reap(cur, r.child))
      ensures r.Reaped? ==> r.pid == old(procs[r.child]).pid
      ensures r.Slept? ==> Enabled(old(Now()), WaitSleep(cur)) && Now() == Do(old(Now()), WaitSleep(cur))
      ensures r.Slept? ==> !old(procs[cur]).killed && exists c: nat :: ChildOf(old(Now()), c, cur)
      ensures r.NoChild? ==> Now() == old(Now())
      ensures r.NoChild? ==> forall c: nat :: ChildOf(Now(), c, cur) ==> procs[cur].killed && procs[c].state != Zombie
      ensures Inv(Now())
    {
      ghost var was := Now();
      var havekids := false;
      var i: nat := 0;
      while i < procs.Length
        invariant 0 <= i <= procs.Length
        invariant havekids <==> exists c: nat :: c < i && ChildOf(was, c, cur)
        invariant forall c: nat :: c < i && ChildOf(was, c, cur) ==> procs[c].state != Zombie
      {
        if procs[i].parent == Some(cur) {
          assert ChildOf(was, i, cur);
          havekids := true;
          if procs[i].state == Zombie {
            var pid := procs[i].pid;
            StepInv(was, Reap(cur, i));
            procs[i] := Cleared(procs[i]);
            return Reaped(pid, i);
          }
        }
        i := i + 1;
      }
      if !havekids || procs[cur].killed {
        return NoChild;
      }
      StepInv(was, WaitSleep(cur));
      procs[cur] := procs[cur].(state := Sleeping, chan := OnProc(cur));
      r := Slept;
    }

    /** kill: marks the one slot holding the pid, wherever it is in the table. */
    method Kill(pid: nat) returns (found: bool)
      requires Inv(Now())
      modifies procs
      ensures found <==> exists p: nat :: p < procs.Length && old(procs[p]).pid == pid
      ensures !found ==> Now() == old(Now())
      ensures found ==>
                exists p: nat :: p < procs.Length && old(procs[p]).pid == pid && Now() == Do(old(Now()), Step.Kill(p))
                                         && forall j: nat :: j < p ==> old(procs[j]).pid != pid
      ensures forall p: nat :: p < procs.Length && old(procs[p]).pid == pid && pid != 0 ==>
                Now() == Do(old(Now()), Step.Kill(p))
      ensures forall p: nat :: p < procs.Length && old(procs[p]).pid == pid && pid != 0 ==>
                && procs[p].killed && procs[p].pid == pid
                && procs[p].state == if old(procs[p]).state == Sleeping then Runnable else old(procs[p]).state
      ensures forall p: nat :: p < procs.Length && old(procs[p]).pid != pid ==> procs[p] == old(procs[p])
      ensures Inv(Now())
    {
      ghost var was := Now();
      var i: nat := 0;
      while i < procs.Length
        invariant 0 <= i <= procs.Length
        invariant forall j: nat :: j < i ==> procs[j].pid != pid
      {
        if procs[i].pid == pid {
          StepInv(was, Step.Kill(i));
          procs[i] := procs[i].(killed := true);
          if procs[i].state == Sleeping {
            procs[i] := procs[i].(state := Runnable);
          }
          assert procs[..] == Do(was, Step.Kill(i)).procs;
          if pid != 0 { OnlyHolder(was, i, pid); }
          return true;
        }
        i := i + 1;
      }
      found := false;
    }

    /** The scheduler's choice: of the runnable processes none is better, and ties go to the lowest slot. */
    method Schedule() returns (ch: Option<nat>)
      requires Inv(Now())
      modifies procs
      ensures ch.None? ==> Now() == old(Now()) && forall j: nat :: j < procs.Length ==> procs[j].state != Runnable
      ensures ch.Some? ==> Enabled(old(Now()), Dispatch(ch.value)) && Now() == Do(old(Now()), Dispatch(ch.value))
      ensures ch.Some? ==> forall j: nat :: j < procs.Length && old(procs[j]).state == Runnable ==>
                !Better(old(procs[j]), old(procs[ch.value]))
                  && (j < ch.value ==> Better(old(procs[ch.value]), old(procs[j])))
      ensures Inv(Now())
    {
      ghost var was := Now();
      ch := None;
      var i: nat := 0;
      while i < procs.Length
        invariant 0 <= i <= procs.Length
        invariant ch.Some? ==> ch.value < i && procs[ch.value].state == Runnable
        invariant ch.None? ==> forall j: nat :: j < i ==> procs[j].state != Runnable
        invariant ch.Some? ==> forall j: nat :: j < i && procs[j].state == Runnable ==>
                    !Better(procs[j], procs[ch.value]) && (j < ch.value ==> Better(procs[ch.value], procs[j]))
      {
        if procs[i].state == Runnable {
          if ch.None? || Better(procs[i], procs[ch.value]) {
            ch := Some(i);
          }
        }
        i := i + 1;
      }
      if ch.Some? {
        StepInv(was, Dispatch(ch.value));
        procs[ch.value] := procs[ch.value].(state := Running);
      }
    }
  }

  lemma ZombieStep(s: State, cur: nat, i: nat)
    requires cur < |s.procs| && i < |s.procs|
    ensures LeavesZombie(s, cur, i + 1) <==>
              LeavesZombie(s, cur, i) || (ChildOf(s, i, cur) && s.procs[i].state == Zombie)
  {
    if LeavesZombie(s, cur, i) {
      var c: nat :| c < i && ChildOf(s, c, cur) && s.procs[c].state == Zombie;
      assert c < i + 1;
    }
  }

  /** A pid other than 0 is held by at most one slot, live or not. */
  lemma OnlyHolder(s: State, i: nat, pid: nat)
    requires Inv(s) && i < |s.procs| && s.procs[i].pid == pid && pid != 0
    ensures forall p: nat :: p < |s.procs| && s.procs[p].pid == pid ==> p == i
  {
    forall p: nat | p < |s.procs| && s.procs[p].pid == pid ensures p == i {
      assert PidsApart(s, p, i) && PidsApart(s, i, p);
    }
  }
}
