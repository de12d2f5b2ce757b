/**
  JOS round-robin scheduling: sched_yield and env_run over the environment table, on any
  number of CPUs under the big kernel lock.
 */
module Sched {

  import opened Wrappers

  const NENV: nat := 1024

  datatype Status = Free | Dying | Runnable | Running | NotRunnable

  type Envs = s: seq<Status> | |s| == 1024 witness seq(1024, _ => Free)

  // ---------------------------------------------------------------- the choice

  /** Where the scan starts: just after the current environment, or at 0. */
  function Start(cur: Option<nat>): nat { if cur.Some? then cur.value + 1 else 0 }

  /** How many environments the scan looks at before it reaches e. */
  function Distance(start: nat, e: nat): nat { (e - start) % NENV }

  /** j is the first runnable environment in circular order from start. */
  ghost predicate First(envs: Envs, start: nat, j: nat) {
    && j < NENV && envs[j] == Runnable
    && forall e: nat :: e < NENV && envs[e] == Runnable ==> Distance(start, j) <= Distance(start, e)
  }

  predicate NoneRunnable(envs: Envs) { forall e: nat :: e < NENV ==> envs[e] != Runnable }

  /** The loop of sched_yield. */
  method Scan(envs: Envs, cur: Option<nat>) returns (r: Option<nat>)
    requires cur.Some? ==> cur.value < NENV
    ensures r.Some? ==> First(envs, Start(cur), r.value)
    ensures r.None? ==> NoneRunnable(envs)
  {
    var start := Start(cur);
    var i: nat := 0;
    while i < NENV
      invariant 0 <= i <= NENV
      invariant forall e: nat :: e < NENV && envs[e] == Runnable ==> i <= Distance(start, e)
    {
      var j := (start + i) % NENV;
      DistanceInverts(start, i);
      if envs[j] == Runnable {
        return Some(j);
      }
      forall e: nat | e < NENV && envs[e] == Runnable ensures i + 1 <= Distance(start, e) {
        if Distance(start, e) == i { DistanceDetermines(start, e, j); }
      }
      i := i + 1;
    }
    r := None;
  }

  lemma DistanceInverts(start: nat, i: nat)
    requires start <= NENV && i < NENV
    ensures Distance(start, (start + i) % NENV) == i
  {
  }

  lemma DistanceDetermines(start: nat, e: nat, j: nat)
    requires start <= NENV && e < NENV && j < NENV && Distance(start, e) == Distance(start, j)
    ensures e == j
  {
  }

  /** The first runnable environment is unique, so the scan's result is determined. */
  lemma FirstUnique(envs: Envs, start: nat, i: nat, j: nat)
    requires start <= NENV && First(envs, start, i) && First(envs, start, j)
    ensures i == j
  {
    assert Distance(start, i) <= Distance(start, j) && Distance(start, j) <= Distance(start, i);
    DistanceDetermines(start, i, j);
  }

  // ---------------------------------------------------------------- bounded wait

  /** Dispatching j instead of the runnable e brings e strictly nearer. */
  lemma DistanceFalls(envs: Envs, start: nat, j: nat, e: nat)
    requires start <= NENV && e < NENV && envs[e] == Runnable
    requires First(envs, start, j) && j != e
    ensures Distance(j + 1, e) < Distance(start, e)
  {
    var dj, de := Distance(start, j), Distance(start, e);
    assert dj <= de;
    if dj == de { DistanceDetermines(start, e, j); }
    Shorter(start, j, e);
  }

  lemma Shorter(start: nat, j: nat, e: nat)
    requires start <= NENV && j < NENV && e < NENV
    requires Distance(start, j) < Distance(start, e)
    ensures Distance(j + 1, e) == Distance(start, e) - Distance(start, j) - 1
  {
  }

  /**
    Successive calls of sched_yield on one CPU whose curenv is never cleared: tables[i] is
    the environment table at call i, whatever happened to it since the call before.
   */
  ghost predicate Calls(tables: seq<Envs>, cur: nat, picks: seq<nat>)
    decreases |tables|
  {
    && |tables| == |picks|
    && (|tables| > 0 ==> First(tables[0], cur + 1, picks[0]) && Calls(tables[1..], picks[0], picks[1..]))
  }

  /** Environment e is runnable at each call until one of them picks it. */
  ghost predicate Waiting(tables: seq<Envs>, picks: seq<nat>, e: nat)
    requires e < NENV && |tables| == |picks|
  {
    forall i :: 0 <= i < |tables| && e !in picks[..i] ==> tables[i][e] == Runnable
  }

  lemma {:induction false} WaitBound(tables: seq<Envs>, cur: nat, picks: seq<nat>, e: nat)
    requires cur < NENV && e < NENV && Calls(tables, cur, picks) && Waiting(tables, picks, e)
    requires Distance(cur + 1, e) < |tables|
    ensures exists i :: 0 <= i <= Distance(cur + 1, e) && picks[i] == e
    decreases |tables|
  {
    assert tables[0][e] == Runnable by { assert picks[..0] == []; }
    if picks[0] != e {
      DistanceFalls(tables[0], cur + 1, picks[0], e);
      forall i | 0 <= i < |tables| - 1 && e !in picks[1..][..i] ensures tables[1..][i][e] == Runnable {
        assert picks[..i + 1] == [picks[0]] + picks[1..][..i];
      }
      WaitBound(tables[1..], picks[0], picks[1..], e);
      var i :| 0 <= i <= Distance(picks[0] + 1, e) && picks[1..][i] == e;
      assert picks[i + 1] == e;
    }
  }

  /** An environment that stays runnable until it is dispatched is dispatched within NENV calls of sched_yield. */
  lemma BoundedWait(tables: seq<Envs>, cur: nat, picks: seq<nat>, e: nat)
    requires cur < NENV && e < NENV && Calls(tables, cur, picks) && |tables| >= NENV
    requires Waiting(tables, picks, e)
    ensures e in picks[..NENV]
  {
    WaitBound(tables, cur, picks, e);
    var i :| 0 <= i <= Distance(cur + 1, e) && picks[i] == e;
    assert picks[..NENV][i] == e;
  }

  // ---------------------------------------------------------------- every CPU

  /** cur[k] is CPU k's curenv. */
  datatype State = State(envs: Envs, cur: seq<Option<nat>>)

  /** env_run of e on CPU k. */
  function EnvRun(s: State, k: nat, e: nat): State
    requires k < |s.cur| && e < NENV
  {
    var envs := if s.cur[k].Some? && s.cur[k].value < NENV && s.envs[s.cur[k].value] == Running
                then s.envs[s.cur[k].value := Runnable] else s.envs;
    State(envs[e := Running], s.cur[k := Some(e)])
  }

  /** What sched_yield's scan answers in s. */
  ghost predicate Picks(s: State, k: nat, choice: Option<nat>)
    requires k < |s.cur|
  {
    if choice.Some? then First(s.envs, Start(s.cur[k]), choice.value) else NoneRunnable(s.envs)
  }

  /** sched_yield on CPU k: the pick, else the environment already running here, else halt. */
  function Yielded(s: State, k: nat, choice: Option<nat>): State
    requires k < |s.cur| && (choice.Some? ==> choice.value < NENV)
  {
    if choice.Some? then EnvRun(s, k, choice.value)
    else if s.cur[k].Some? && s.cur[k].value < NENV && s.envs[s.cur[k].value] == Running
        then EnvRun(s, k, s.cur[k].value)
    else s.(cur := s.cur[k := None])
  }

  /**
    Yield      a timer interrupt or sys_yield
    Leave      the current environment gives itself another status and the trap ends in sched_yield
    Exit       the current environment is freed, because it exits or was found dying on its next trap
    Destroy    sys_env_destroy of another environment
    SetStatus  sys_env_set_status, or the receiver's half of an IPC, on another environment
    Create     env_alloc
   */
  datatype Step =
    | Yield(k: nat, choice: Option<nat>)
    | Leave(k: nat, status: Status, choice: Option<nat>)
    | Exit(k: nat, choice: Option<nat>)
    | Destroy(k: nat, e: nat)
    | SetStatus(k: nat, e: nat, status: Status)
    | Create(k: nat, e: nat)

  /** CPU k is in the kernel on behalf of its environment, which is not dying. */
  predicate Acting(s: State, k: nat) {
    k < |s.cur| && s.cur[k].Some? && s.cur[k].value < NENV && s.envs[s.cur[k].value] == Running
  }

  predicate Settable(status: Status) { status == Runnable || status == NotRunnable }

  function Left(s: State, k: nat, status: Status): State
    requires k < |s.cur| && s.cur[k].Some? && s.cur[k].value < NENV
  {
    s.(envs := s.envs[s.cur[k].value := status])
  }

  function Freed(s: State, k: nat): State
    requires k < |s.cur| && s.cur[k].Some? && s.cur[k].value < NENV
  {
    State(s.envs[s.cur[k].value := Free], s.cur[k := None])
  }

  ghost predicate Enabled(s: State, step: Step) {
    step.k < |s.cur| &&
    match step
    case Yield(k, c) => (s.cur[k].None? || Acting(s, k)) && Picks(s, k, c)
    case Leave(k, st, c) => Acting(s, k) && Settable(st) && Picks(Left(s, k, st), k, c)
    case Exit(k, c) =>
      s.cur[k].Some? && s.cur[k].value < NENV && (s.envs[s.cur[k].value] == Running || s.envs[s.cur[k].value] == Dying)
      && Picks(Freed(s, k), k, c)
    case Destroy(k, e) => Acting(s, k) && e < NENV && s.cur[k] != Some(e) && s.envs[e] != Free
    case SetStatus(k, e, st) => Acting(s, k) && e < NENV && s.cur[k] != Some(e) && s.envs[e] != Free && Settable(st)
    case Create(k, e) => Acting(s, k) && e < NENV && s.envs[e] == Free
  }

  ghost function Do(s: State, step: Step): State
    requires Enabled(s, step)
  {
    match step
    case Yield(k, c) => Yielded(s, k, c)
    case Leave(k, st, c) => Yielded(Left(s, k, st), k, c)
    case Exit(k, c) => Yielded(Freed(s, k), k, c)
    case Destroy(k, e) => s.(envs := s.envs[e := if s.envs[e] == Running then Dying else Free])
    case SetStatus(k, e, st) => s.(envs := s.envs[e := st])
    case Create(k, e) => s.(envs := s.envs[e := NotRunnable])
  }

  // ---------------------------------------------------------------- what a dispatch does to the table

  /** Ready to run, or running. */
  predicate Ready(st: Status) { st == Runnable || st == Running }

  /** sched_yield takes no environment out of the running and brings none in, and moves no other CPU. */
  lemma YieldKeepsReady(s: State, k: nat, choice: Option<nat>, e: nat)
    requires Enabled(s, Yield(k, choice)) && e < NENV
    ensures var t := Do(s, Yield(k, choice));
            && (Ready(t.envs[e]) <==> Ready(s.envs[e])) && |t.cur| == |s.cur|
            && forall l: nat :: l < |s.cur| && l != k ==> t.cur[l] == s.cur[l]
  {
  }

  /** The environment now on the CPU runs, the one it was taken from may run, and all others are as they were. */
  lemma YieldTable(s: State, k: nat, choice: Option<nat>, e: nat)
    requires k < |s.cur| && Picks(s, k, choice) && e < NENV && (s.cur[k].Some? ==> s.cur[k].value < NENV)
    ensures var t := Yielded(s, k, choice);
            t.envs[e] == if t.cur[k] == Some(e) then Running
                         else if s.cur[k] == Some(e) && s.envs[e] == Running then Runnable
                         else s.envs[e]
    ensures Yielded(s, k, choice).cur[k] == None <==>
              NoneRunnable(s.envs) && (s.cur[k].Some? ==> s.envs[s.cur[k].value] != Running)
  {
  }

  // ---------------------------------------------------------------- waiting in a run

  /** The step ends in sched_yield on CPU k. */
  predicate Dispatches(step: Step, k: nat) { step.k == k && (step.Yield? || step.Leave? || step.Exit?) }

  function Dispatched(steps: seq<Step>, k: nat): nat {
    if |steps| == 0 then 0 else (if Dispatches(steps[0], k) then 1 else 0) + Dispatched(steps[1..], k)
  }

  /** A run from s in which e is runnable before every step and no step dispatches it. */
  ghost predicate PassedOver(s: State, steps: seq<Step>, e: nat)
    requires e < NENV
    decreases |steps|
  {
    |steps| > 0 ==>
      && Enabled(s, steps[0]) && s.envs[e] == Runnable
      && (steps[0].Yield? || steps[0].Leave? || steps[0].Exit? ==> steps[0].choice != Some(e))
      && PassedOver(Do(s, steps[0]), steps[1..], e)
  }

  function Exits(steps: seq<Step>, k: nat): nat {
    if |steps| == 0 then 0 else (if steps[0].Exit? && steps[0].k == k then 1 else 0) + Exits(steps[1..], k)
  }

  /** In every run, fewer than NENV dispatches of a CPU, and NENV more for each exit on it, pass over an environment. */
  lemma {:induction false} WaitInRun(s: State, steps: seq<Step>, k: nat, e: nat)
    requires k < |s.cur| && (s.cur[k].Some? ==> s.cur[k].value < NENV) && e < NENV && PassedOver(s, steps, e)
    ensures Dispatched(steps, k) <= Distance(Start(s.cur[k]), e) + NENV * Exits(steps, k)
    ensures Dispatched(steps, k) < NENV * (1 + Exits(steps, k))
    decreases |steps|
  {
    if |steps| > 0 {
      var step, t := steps[0], Do(s, steps[0]);
      if Dispatches(step, k) && !step.Exit? {
        var u := if step.Leave? then Left(s, k, step.status) else s;
        assert u.envs[e] == Runnable && Picks(u, k, step.choice);
        DistanceFalls(u.envs, Start(s.cur[k]), step.choice.value, e);
      }
      WaitInRun(t, steps[1..], k, e);
    }
  }

  /** The step does not set the status of e or destroy it. */
  predicate LeavesAlone(step: Step, e: nat) { !((step.Destroy? || step.SetStatus?) && step.e == e) }

  predicate Dispatch(step: Step, e: nat) { (step.Yield? || step.Leave? || step.Exit?) && step.choice == Some(e) }

  /** Runnable, an environment stays so until it is dispatched. */
  lemma RunnableStays(s: State, step: Step, e: nat)
    requires Enabled(s, step) && e < NENV && s.envs[e] == Runnable && LeavesAlone(step, e) && !Dispatch(step, e)
    ensures Do(s, step).envs[e] == Runnable
  {
  }

  ghost predicate Runs(s: State, steps: seq<Step>)
    decreases |steps|
  {
    |steps| > 0 ==> Enabled(s, steps[0]) && Runs(Do(s, steps[0]), steps[1..])
  }

  /**
    A runnable environment that nobody stops and no CPU dispatches, such as one just
    preempted, sees fewer than NENV dispatches of each CPU, and NENV more for each exit on it.
   */
  lemma {:induction false} ServedInTurn(s: State, steps: seq<Step>, k: nat, e: nat)
    requires k < |s.cur| && (s.cur[k].Some? ==> s.cur[k].value < NENV) && e < NENV && s.envs[e] == Runnable
    requires Runs(s, steps) && forall i :: 0 <= i < |steps| ==> LeavesAlone(steps[i], e) && !Dispatch(steps[i], e)
    ensures Dispatched(steps, k) < NENV * (1 + Exits(steps, k))
    ensures (forall i :: 0 <= i < |steps| ==> !(steps[i].Exit? && steps[i].k == k)) ==> Dispatched(steps, k) < NENV
  {
    NeverDispatched(s, steps, e);
    WaitInRun(s, steps, k, e);
    NoExits(steps, k);
  }

  lemma {:induction false} NoExits(steps: seq<Step>, k: nat)
    ensures Exits(steps, k) == 0 <==> forall i :: 0 <= i < |steps| ==> !(steps[i].Exit? && steps[i].k == k)
    decreases |steps|
  {
    if |steps| > 0 {
      assert steps == [steps[0]] + steps[1..];
      NoExits(steps[1..], k);
    }
  }

  lemma {:induction false} NeverDispatched(s: State, steps: seq<Step>, e: nat)
    requires e < NENV && s.envs[e] == Runnable
    requires Runs(s, steps) && forall i :: 0 <= i < |steps| ==> LeavesAlone(steps[i], e) && !Dispatch(steps[i], e)
    ensures PassedOver(s, steps, e)
    decreases |steps|
  {
    if |steps| > 0 {
      RunnableStays(s, steps[0], e);
      NeverDispatched(Do(s, steps[0]), steps[1..], e);
    }
  }

  /** The running environment 0 or 1 creates the other, makes it runnable and exits. */
  function Relay(x: nat): seq<Step>
    requires x < 2
  {
    [Create(0, 1 - x), SetStatus(0, 1 - x, Runnable), Exit(0, Some(1 - x))]
  }

  function Relays(x: nat, n: nat): seq<Step>
    requires x < 2
    decreases n
  {
    if n == 0 then [] else Relay(x) + Relays(1 - x, n - 1)
  }

  ghost predicate Relaying(s: State, x: nat, e: nat) {
    && x < 2 <= e < NENV && s.cur == [Some(x)]
    && s.envs[x] == Running && s.envs[1 - x] == Free && s.envs[e] == Runnable
  }

  lemma OneRelay(s: State, x: nat, e: nat, rest: seq<Step>)
    requires Relaying(s, x, e)
    ensures var t := State(s.envs[x := Free][1 - x := Running], [Some(1 - x)]);
            Relaying(t, 1 - x, e) && (PassedOver(t, rest, e) ==> PassedOver(s, Relay(x) + rest, e))
  {
    var y: nat := 1 - x;
    var s1 := Do(s, Create(0, y));
    var s2 := Do(s1, SetStatus(0, y, Runnable));
    var u := Freed(s2, 0);
    assert First(u.envs, 0, y);
    var t := Do(s2, Exit(0, Some(y)));
    var steps := Relay(x) + rest;
    assert steps[1..][1..][1..] == rest && steps[0] == Create(0, y);
    assert steps[1..][0] == SetStatus(0, y, Runnable) && steps[1..][1..][0] == Exit(0, Some(y));
    assert t == State(s.envs[x := Free][y := Running], [Some(y)]);
    if PassedOver(t, rest, e) {
      assert PassedOver(s2, steps[1..][1..], e);
      assert PassedOver(s1, steps[1..], e);
    }
  }

  /**
    Once curenv is cleared the scan starts at 0 again, so exits undo the bound: two environments that take turns
    creating each other and exiting are dispatched any number of times over a runnable one behind them.
   */
  lemma {:induction false} Starvation(s: State, x: nat, e: nat, n: nat)
    requires Relaying(s, x, e)
    ensures PassedOver(s, Relays(x, n), e) && Dispatched(Relays(x, n), 0) == n
    decreases n
  {
    if n > 0 {
      var t := State(s.envs[x := Free][1 - x := Running], [Some(1 - x)]);
      OneRelay(s, x, e, Relays(1 - x, n - 1));
      Starvation(t, 1 - x, e, n - 1);
      var steps := Relays(x, n);
      assert steps[1..][1..][1..] == Relays(1 - x, n - 1);
      assert steps[0] == Create(0, 1 - x) && steps[1..][0] == SetStatus(0, 1 - x, Runnable);
      assert steps[1..][1..][0] == Exit(0, Some(1 - x));
      assert Dispatched(steps[1..][1..], 0) == 1 + Dispatched(Relays(1 - x, n - 1), 0);
      assert Dispatched(steps[1..], 0) == n;
    }
  }

  // ---------------------------------------------------------------- one CPU each

  predicate OnCpu(s: State, k: nat) {
    k < |s.cur| && s.cur[k].Some? ==>
      s.cur[k].value < NENV && (s.envs[s.cur[k].value] == Running || s.envs[s.cur[k].value] == Dying)
  }

  predicate Apart(s: State, k: nat, l: nat) {
    k < l < |s.cur| && s.cur[k].Some? ==> s.cur[k] != s.cur[l]
  }

  predicate Homed(s: State, e: nat) {
    e < NENV && (s.envs[e] == Running || s.envs[e] == Dying) ==> Some(e) in s.cur
  }

  /** The environments marked running or dying are exactly those on a CPU, each on one CPU. */
  ghost predicate Inv(s: State) {
    && (forall k: nat {:trigger OnCpu(s, k)} :: OnCpu(s, k))
    && (forall k: nat, l: nat {:trigger Apart(s, k, l)} :: Apart(s, k, l))
    && (forall e: nat {:trigger Homed(s, e)} :: Homed(s, e))
  }

  // ---------------------------------------------------------------- a CPU always goes on

  lemma {:induction false} Nearest(envs: Envs, start: nat, i: nat) returns (c: Option<nat>)
    requires start <= NENV && i <= NENV && forall e: nat :: e < NENV && envs[e] == Runnable ==> i <= Distance(start, e)
    ensures if c.Some? then First(envs, start, c.value) else NoneRunnable(envs)
    decreases NENV - i
  {
    if i == NENV { return None; }
    var j := (start + i) % NENV;
    DistanceInverts(start, i);
    if envs[j] == Runnable { return Some(j); }
    forall e: nat | e < NENV && envs[e] == Runnable ensures i + 1 <= Distance(start, e) {
      if Distance(start, e) == i { DistanceDetermines(start, e, j); }
    }
    c := Nearest(envs, start, i + 1);
  }

  /** Whatever the table, a CPU can yield, block or exit its environment, and must exit a dying one. */
  lemma CpuGoesOn(s: State, k: nat, status: Status)
    requires Inv(s) && k < |s.cur| && Settable(status)
    ensures s.cur[k].None? || Acting(s, k) ==> exists c :: Enabled(s, Yield(k, c))
    ensures Acting(s, k) ==> exists c :: Enabled(s, Leave(k, status, c))
    ensures s.cur[k].Some? ==> exists c :: Enabled(s, Exit(k, c))
  {
    assert OnCpu(s, k);
    var start := Start(s.cur[k]);
    if s.cur[k].None? || Acting(s, k) {
      var c := Nearest(s.envs, start, 0);
      assert Enabled(s, Yield(k, c));
    }
    if Acting(s, k) {
      var c := Nearest(Left(s, k, status).envs, start, 0);
      assert Enabled(s, Leave(k, status, c));
    }
    if s.cur[k].Some? {
      var c := Nearest(Freed(s, k).envs, Start(Freed(s, k).cur[k]), 0);
      assert Enabled(s, Exit(k, c));
    }
  }

  /** A destroyed environment is freed at once, or, if it is on another CPU, when that CPU enters the kernel. */
  lemma DestroyFrees(s: State, k: nat, e: nat, l: nat, c: Option<nat>)
    requires Inv(s) && Acting(s, k) && e < NENV && s.cur[k] != Some(e) && s.envs[e] != Free
    ensures Enabled(s, Destroy(k, e))
    ensures var t := Do(s, Destroy(k, e));
            && t.cur == s.cur && (forall d :: 0 <= d < NENV && d != e ==> t.envs[d] == s.envs[d])
            && (s.envs[e] != Running ==> t.envs[e] == Free)
            && (l < |s.cur| && s.cur[l] == Some(e) && s.envs[e] == Running ==>
                  t.envs[e] == Dying && (Enabled(t, Exit(l, c)) ==> Do(t, Exit(l, c)).envs[e] == Free))
  {
    if l < |s.cur| { assert OnCpu(s, l); }
  }

  /** The step does not touch an environment that another CPU is executing, but to mark it dying. */
  predicate Polite(s: State, step: Step) {
    match step
    case Destroy(k, e) => e < NENV ==> s.envs[e] != Dying
    case SetStatus(k, e, st) => e < NENV ==> s.envs[e] != Running && s.envs[e] != Dying
    case _ => true
  }

  /** The same, when the environment k had may have left the running state. */
  ghost predicate InvBut(s: State, k: nat) {
    && (forall l: nat {:trigger OnCpu(s, l)} :: l != k ==> OnCpu(s, l))
    && (forall l: nat, m: nat {:trigger Apart(s, l, m)} :: Apart(s, l, m))
    && (forall e: nat {:trigger Homed(s, e)} :: Homed(s, e))
    && k < |s.cur| && (s.cur[k].Some? ==> s.cur[k].value < NENV && s.envs[s.cur[k].value] != Dying)
  }

  /** Moving the entry of CPU k from c to d leaves every other entry in place. */
  lemma Moved(cur: seq<Option<nat>>, k: nat, d: Option<nat>, e: nat)
    requires k < |cur| && Some(e) in cur && cur[k] != Some(e)
    ensures Some(e) in cur[k := d]
  {
    var l :| 0 <= l < |cur| && cur[l] == Some(e);
    assert cur[k := d][l] == Some(e);
  }

  lemma YieldInv(s: State, k: nat, choice: Option<nat>)
    requires InvBut(s, k) && Picks(s, k, choice)
    ensures Inv(Yielded(s, k, choice))
    ensures choice.Some? ==> choice !in s.cur || s.cur[k] == choice
  {
    var t := Yielded(s, k, choice);
    forall l: nat | l < |s.cur| && l != k && choice.Some? ensures s.cur[l] != choice { assert OnCpu(s, l); }
    forall l: nat ensures OnCpu(t, l) { assert (l != k ==> OnCpu(s, l)) && Apart(s, k, l) && Apart(s, l, k); }
    forall l: nat, m: nat ensures Apart(t, l, m) {
      assert Apart(s, l, m) && (l != k ==> OnCpu(s, l)) && (m != k ==> OnCpu(s, m));
    }
    forall e: nat ensures Homed(t, e) {
      assert Homed(s, e);
      if Some(e) in s.cur && s.cur[k] != Some(e) { Moved(s.cur, k, t.cur[k], e); }
      assert t.cur[k] in t.cur;
    }
  }

  /** Leaving or freeing k's own environment disturbs no other CPU. */
  lemma OwnStatus(s: State, k: nat, st: Status)
    requires Inv(s) && k < |s.cur| && s.cur[k].Some? && s.cur[k].value < NENV && Settable(st)
    ensures InvBut(Left(s, k, st), k) && InvBut(Freed(s, k), k)
  {
    var t, u := Left(s, k, st), Freed(s, k);
    forall l: nat | l != k ensures OnCpu(t, l) && OnCpu(u, l) {
      assert OnCpu(s, l) && Apart(s, k, l) && Apart(s, l, k);
    }
    forall l: nat, m: nat ensures Apart(t, l, m) && Apart(u, l, m) { assert Apart(s, l, m); }
    forall e: nat ensures Homed(t, e) && Homed(u, e) {
      assert Homed(s, e);
      if Some(e) in s.cur && s.cur[k] != Some(e) { Moved(s.cur, k, None, e); }
    }
  }

  /** Another environment's entry may change exactly when no CPU is executing it, or to mark it dying. */
  lemma OtherStatus(s: State, e: nat, st: Status)
    requires Inv(s) && e < NENV && st != Running && (st == Dying ==> s.envs[e] == Running)
    ensures Inv(s.(envs := s.envs[e := st])) <==> st == Dying || (s.envs[e] != Running && s.envs[e] != Dying)
  {
    var t := s.(envs := s.envs[e := st]);
    assert Homed(s, e);
    if st == Dying || (s.envs[e] != Running && s.envs[e] != Dying) {
      forall l: nat ensures OnCpu(t, l) { assert OnCpu(s, l); }
      forall l: nat, m: nat ensures Apart(t, l, m) { assert Apart(s, l, m); }
      forall d: nat ensures Homed(t, d) { assert Homed(s, d); }
    } else {
      var k :| 0 <= k < |s.cur| && s.cur[k] == Some(e);
      assert !OnCpu(t, k);
    }
  }

  /** The invariant survives a step exactly when the step is polite. */
  lemma StepInv(s: State, step: Step)
    requires Inv(s) && Enabled(s, step)
    ensures Inv(Do(s, step)) <==> Polite(s, step)
  {
    match step
    case Yield(k, c) => assert OnCpu(s, k); YieldInv(s, k, c);
    case Leave(k, st, c) => OwnStatus(s, k, st); YieldInv(Left(s, k, st), k, c);
    case Exit(k, c) => OwnStatus(s, k, Runnable); YieldInv(Freed(s, k), k, c);
    case Destroy(k, e) => OtherStatus(s, e, if s.envs[e] == Running then Dying else Free);
    case SetStatus(k, e, st) => OtherStatus(s, e, st);
    case Create(k, e) => OtherStatus(s, e, NotRunnable);
  }

  ghost predicate Reaches(s: State, steps: seq<Step>, t: State)
    decreases |steps|
  {
    if |steps| == 0 then s == t
    else Enabled(s, steps[0]) && Polite(s, steps[0]) && Reaches(Do(s, steps[0]), steps[1..], t)
  }

  lemma {:induction false} RunInv(s: State, steps: seq<Step>, t: State)
    requires Inv(s) && Reaches(s, steps, t)
    ensures Inv(t)
    decreases |steps|
  {
    if |steps| > 0 {
      StepInv(s, steps[0]);
      RunInv(Do(s, steps[0]), steps[1..], t);
    }
  }

  /** After every polite run, sched_yield never chooses an environment that another CPU is running. */
  lemma NeverRunningElsewhere(s: State, steps: seq<Step>, t: State, k: nat, choice: Option<nat>)
    requires Inv(s) && Reaches(s, steps, t) && Enabled(t, Yield(k, choice))
    ensures var u := Do(t, Yield(k, choice));
            u.cur[k].Some? ==> forall l: nat :: l < |u.cur| && l != k ==> t.cur[l] != u.cur[k] && u.cur[l] != u.cur[k]
  {
    RunInv(s, steps, t);
    var u := Do(t, Yield(k, choice));
    assert OnCpu(t, k);
    YieldInv(t, k, choice);
    forall l: nat | l < |u.cur| && l != k && u.cur[k].Some? ensures t.cur[l] != u.cur[k] && u.cur[l] != u.cur[k] {
      assert Apart(u, k, l) && Apart(u, l, k);
    }
  }

  /** Impolite steps do occur: after SetStatus on an environment running elsewhere, two CPUs can run it. */
  lemma RunTwice(s: State, e: nat, d: nat)
    requires |s.cur| == 2 && e < NENV && d < NENV && s.cur[0] == Some(d) && s.cur[1] == Some(e) && d != e
    requires s.envs[d] == Running && s.envs[e] == Running && NoneRunnable(s.envs)
    ensures Enabled(s, SetStatus(0, e, Runnable)) && Enabled(Do(s, SetStatus(0, e, Runnable)), Yield(0, Some(e)))
    ensures Do(Do(s, SetStatus(0, e, Runnable)), Yield(0, Some(e))).cur == [Some(e), Some(e)]
  {
    var t := Do(s, SetStatus(0, e, Runnable));
    assert First(t.envs, d + 1, e);
  }

  // ---------------------------------------------------------------- the code

  class Kernel {
    const envs: array<Status>
    const cur: array<Option<nat>>

    ghost predicate Valid()
      reads this, envs, cur
    {
      envs.Length == NENV && Inv(Now())
    }

    ghost function Now(): State
      requires envs.Length == NENV
      reads this, envs, cur
    {
      State(envs[..], cur[..])
    }

    /** env_init and mp_init: every environment free, every CPU without one. */
    constructor (cpus: nat)
      ensures Valid() && cur.Length == cpus && fresh(envs) && fresh(cur)
      ensures forall e :: 0 <= e < NENV ==> envs[e] == Free
    {
      envs, cur := new Status[NENV](_ => Free), new Option<nat>[cpus](_ => None);
      new;
      ghost var s := Now();
      forall k: nat ensures OnCpu(s, k) { }
      forall k: nat, l: nat ensures Apart(s, k, l) { }
      forall e: nat ensures Homed(s, e) { }
    }

    method Run(k: nat, e: nat)
      requires envs.Length == NENV && k < cur.Length && e < NENV
      requires cur[k].Some? ==> cur[k].value < NENV
      modifies envs, cur
      ensures Now() == EnvRun(old(Now()), k, e)
    {
      if cur[k].Some? && envs[cur[k].value] == Running {
        envs[cur[k].value] := Runnable;
      }
      cur[k] := Some(e);
      envs[e] := Running;
    }

    /** sched_yield on CPU k, for an environment that is still running or has just left that state. */
    method SchedYield(k: nat)
      requires envs.Length == NENV && k < cur.Length && InvBut(Now(), k)
      modifies envs, cur
      ensures exists choice :: Picks(old(Now()), k, choice) && Now() == Yielded(old(Now()), k, choice)
      ensures Valid()
      ensures cur[k].Some? ==> cur[k] == old(cur[k]) || cur[k] !in old(cur[..])
      ensures forall l :: 0 <= l < cur.Length && l != k ==> cur[l] == old(cur[l])
      ensures cur[k] == None <==> NoneRunnable(old(envs[..]))
                                  && (old(cur[k]).Some? ==> old(envs[..])[old(cur[k]).value] != Running)
      ensures forall e: nat :: e < NENV ==>
                envs[e] == if cur[k] == Some(e) then Running
                           else if old(cur[k]) == Some(e) && old(envs[e]) == Running then Runnable
                           else old(envs[e])
    {
      ghost var was := Now();
      var choice := Scan(envs[..], cur[k]);
      YieldInv(was, k, choice);
      assert Picks(was, k, choice);
      if choice.Some? {
        Run(k, choice.value);
      } else if cur[k].Some? && envs[cur[k].value] == Running {
        Run(k, cur[k].value);
      } else {
        cur[k] := None;
      }
      assert Now() == Yielded(was, k, choice);
      forall e: nat | e < NENV
        ensures envs[e] == Yielded(was, k, choice).envs[e] && was.envs[e] == old(envs[e])
      {
        YieldTable(was, k, choice, e);
      }
      YieldTable(was, k, choice, 0);
    }
  }
}
