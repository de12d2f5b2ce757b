/**
  User-level copy-on-write fork: `pgfault`, `duppage` and `fork` as a step system in
  which every system call and every memory write of every environment is one step.
  Environments run interleaved; an environment in the middle of `fork` may write to
  its pages and take page faults between any two of its system calls.
 */
module CowFork {

  type Env = nat
  type Vpn = nat
  type Frame = nat
  type Content = seq<int>

  const Zeros: Content := []

  const PFTEMP: Vpn := 0x7FF        // (UTEMP + PTSIZE - PGSIZE) >> PGSHIFT
  const NUSER: Vpn := 0xEEBFE       // USTACKTOP >> PGSHIFT: fork copies pages below this one
  const UXSTACK: Vpn := 0xEEBFF     // (UXSTACKTOP - PGSIZE) >> PGSHIFT

  /** A present page table entry: frame and the bits PTE_W, PTE_COW, PTE_SHARE, PTE_U. */
  datatype Pte = Pte(frame: Frame, w: bool, cow: bool, share: bool, u: bool)

  datatype At = At(env: Env, vpn: Vpn)

  /** Where the environment is in `fork`.  Duping: between the two calls of `duppage`. */
  datatype Fork =
    | NoFork
    | Forking(child: Env, next: Vpn)
    | Duping(child: Env, next: Vpn, seen: Content)
    | Starting(child: Env)

  /** Where the environment is in `pgfault`, by the last system call made. */
  datatype Fault =
    | NoFault
    | Mapped(vpn: Vpn)
    | Alloced(vpn: Vpn)
    | Copied(vpn: Vpn)

  datatype Proc = Proc(parent: Env, runnable: bool, fork: Fork, fault: Fault)

  /** `priv`, history: the contents each environment should see at each of its unshared pages. */
  datatype State = State(mem: map<Frame, Content>, ptes: map<At, Pte>, procs: map<Env, Proc>, priv: map<At, Content>)
  {
    predicate Mapped(e: Env, v: Vpn) { At(e, v) in ptes }
    /** Environment e can take a step outside its page-fault handler. */
    predicate Running(e: Env) { e in procs && procs[e].runnable && procs[e].fault == NoFault }
    predicate AtPage(e: Env, v: Vpn) {
      Running(e) && procs[e].fork.Forking? && procs[e].fork.next == v < NUSER && At(e, v) in ptes && ptes[At(e, v)].u
    }
    predicate Free(f: Frame) { f in mem && forall a :: a in ptes ==> ptes[a].frame != f }
  }

  datatype Step =
    | Write(e: Env, v: Vpn, c: Content)
    | FaultMap(e: Env, v: Vpn)         // sys_page_map(0, addr, 0, PFTEMP, PTE_U|PTE_P)
    | FaultAlloc(e: Env, f: Frame)     // sys_page_alloc(0, addr, PTE_P|PTE_U|PTE_W)
    | FaultCopy(e: Env)                // memmove(addr, PFTEMP, PGSIZE)
    | FaultUnmap(e: Env)               // sys_page_unmap(0, PFTEMP)
    | Exofork(e: Env, child: Env)
    | Skip(e: Env)                     // page not present or not PTE_U
    | DupShare(e: Env, ok: bool)       // sys_page_map(.., PTE_SYSCALL), result ignored
    | DupMap(e: Env)                   // first sys_page_map of duppage
    | DupSelf(e: Env)                  // second sys_page_map of duppage
    | DupRead(e: Env, ok: bool)        // read-only page, result ignored
    | ForkStack(e: Env, f: Frame)      // sys_page_alloc of the child's exception stack
    | ForkRun(e: Env)                  // sys_env_set_status(child, ENV_RUNNABLE)

  predicate Enabled(s: State, step: Step) {
    match step
    case Write(e, v, c) =>
      e in s.procs && s.procs[e].runnable && At(e, v) in s.ptes && s.ptes[At(e, v)].w
      && (s.procs[e].fault == NoFault || v == UXSTACK)
    case FaultMap(e, v) =>
      s.Running(e) && At(e, v) in s.ptes && s.ptes[At(e, v)].cow && !s.ptes[At(e, v)].w
    case FaultAlloc(e, f) =>
      e in s.procs && s.procs[e].fault.Mapped? && s.Free(f)
    case FaultCopy(e) =>
      && e in s.procs && s.procs[e].fault.Alloced?
      && At(e, PFTEMP) in s.ptes && At(e, s.procs[e].fault.vpn) in s.ptes && s.ptes[At(e, PFTEMP)].frame in s.mem
    case FaultUnmap(e) => e in s.procs && s.procs[e].fault.Copied?
    case Exofork(e, c) => s.Running(e) && s.procs[e].fork == NoFork && c !in s.procs
    case Skip(e) =>
      && s.Running(e) && s.procs[e].fork.Forking? && s.procs[e].fork.next < NUSER
      && (At(e, s.procs[e].fork.next) in s.ptes ==> !s.ptes[At(e, s.procs[e].fork.next)].u)
    case DupShare(e, ok) =>
      s.Running(e) && s.procs[e].fork.Forking? && s.AtPage(e, s.procs[e].fork.next)
      && s.ptes[At(e, s.procs[e].fork.next)].share
    case DupMap(e) =>
      s.Running(e) && s.procs[e].fork.Forking? && s.AtPage(e, s.procs[e].fork.next)
      && var pte := s.ptes[At(e, s.procs[e].fork.next)];
      !pte.share && (pte.w || pte.cow) && At(e, s.procs[e].fork.next) in s.priv
    case DupSelf(e) =>
      s.Running(e) && s.procs[e].fork.Duping? && At(e, s.procs[e].fork.next) in s.ptes
      && At(s.procs[e].fork.child, s.procs[e].fork.next) in s.ptes
      && s.ptes[At(s.procs[e].fork.child, s.procs[e].fork.next)].frame in s.mem
    case DupRead(e, ok) =>
      s.Running(e) && s.procs[e].fork.Forking? && s.AtPage(e, s.procs[e].fork.next)
      && var pte := s.ptes[At(e, s.procs[e].fork.next)];
      !pte.share && !pte.w && !pte.cow && At(e, s.procs[e].fork.next) in s.priv
    case ForkStack(e, f) =>
      s.Running(e) && s.procs[e].fork.Forking? && s.procs[e].fork.next == NUSER && s.Free(f)
    case ForkRun(e) =>
      s.Running(e) && s.procs[e].fork.Starting? && s.procs[e].fork.child in s.procs
  }

  /** Environment e goes on with page v + 1 of its fork loop. */
  function NextPage(s: State, e: Env): State
    requires e in s.procs && (s.procs[e].fork.Forking? || s.procs[e].fork.Duping?)
  {
    SetFork(s, e, Forking(s.procs[e].fork.child, s.procs[e].fork.next + 1))
  }

  /** `page_insert` of frame f at page v of environment e with the given bits. */
  function Insert(s: State, e: Env, v: Vpn, pte: Pte): State {
    s.(ptes := s.ptes[At(e, v) := pte])
  }

  function SetFault(s: State, e: Env, fault: Fault): State
    requires e in s.procs
  {
    s.(procs := s.procs[e := s.procs[e].(fault := fault)])
  }

  function SetFork(s: State, e: Env, fork: Fork): State
    requires e in s.procs
  {
    s.(procs := s.procs[e := s.procs[e].(fork := fork)])
  }

  function Do(s: State, step: Step): State
    requires Enabled(s, step)
  {
    match step
    case Write(e, v, c) =>
      var pte := s.ptes[At(e, v)];
      s.(mem := s.mem[pte.frame := c], priv := if pte.share then s.priv else s.priv[At(e, v) := c])
    case FaultMap(e, v) =>
      SetFault(Insert(s, e, PFTEMP, Pte(s.ptes[At(e, v)].frame, false, false, false, true)), e, Mapped(v))
    case FaultAlloc(e, f) =>
      var v := s.procs[e].fault.vpn;
      SetFault(Insert(s, e, v, Pte(f, true, false, false, true)), e, Alloced(v)).(mem := s.mem[f := Zeros])
    case FaultCopy(e) =>
      var v := s.procs[e].fault.vpn;
      SetFault(s, e, Copied(v)).(mem := s.mem[s.ptes[At(e, v)].frame := s.mem[s.ptes[At(e, PFTEMP)].frame]])
    case FaultUnmap(e) =>
      SetFault(s, e, NoFault).(ptes := s.ptes - {At(e, PFTEMP)})
    case Exofork(e, c) =>
      SetFork(s.(procs := s.procs[c := Proc(e, false, NoFork, NoFault)]), e, Forking(c, 0))
    case Skip(e) => NextPage(s, e)
    case DupShare(e, ok) =>
      var v := s.procs[e].fork.next;
      var pte := s.ptes[At(e, v)];
      // PTE_SYSCALL asks for PTE_W: refused on a read-only page
      if ok && pte.w then NextPage(Insert(s, s.procs[e].fork.child, v, Pte(pte.frame, true, true, true, true)), e)
      else NextPage(s, e)
    case DupMap(e) =>
      var v, child := s.procs[e].fork.next, s.procs[e].fork.child;
      SetFork(Insert(s, child, v, Pte(s.ptes[At(e, v)].frame, false, true, false, true)),
              e, Duping(child, v, s.priv[At(e, v)]))
    case DupSelf(e) =>
      var v, child := s.procs[e].fork.next, s.procs[e].fork.child;
      NextPage(Insert(s, e, v, Pte(s.ptes[At(e, v)].frame, false, true, false, true)), e)
      .(priv := s.priv[At(child, v) := s.mem[s.ptes[At(child, v)].frame]])
    case DupRead(e, ok) =>
      var v, child := s.procs[e].fork.next, s.procs[e].fork.child;
      if ok
      then NextPage(Insert(s, child, v, Pte(s.ptes[At(e, v)].frame, false, false, false, true)), e)
           .(priv := s.priv[At(child, v) := s.priv[At(e, v)]])
      else NextPage(s, e)
    case ForkStack(e, f) =>
      var child := s.procs[e].fork.child;
      SetFork(Insert(s, child, UXSTACK, Pte(f, true, false, false, true)), e, Starting(child))
      .(mem := s.mem[f := Zeros], priv := s.priv[At(child, UXSTACK) := Zeros])
    case ForkRun(e) =>
      var child := s.procs[e].fork.child;
      SetFork(s.(procs := s.procs[child := s.procs[child].(runnable := true)]), e, NoFork)
  }

  // ----- the invariant -----

  /** Environment e is between the two calls of duppage for page v of child c. */
  ghost predicate Window(s: State, e: Env, c: Env, v: Vpn) {
    e in s.procs && s.procs[e].fork.Duping? && s.procs[e].fork.child == c && s.procs[e].fork.next == v
  }

  /**
    Two mappings of one frame agree on PTE_SHARE, and neither is writable unless the
    frame is shared or they are the two sides of a duppage in progress.
   */
  ghost predicate Compatible(s: State, a: At, b: At) {
    a in s.ptes && b in s.ptes && s.ptes[a].frame == s.ptes[b].frame && a != b ==>
      && s.ptes[a].share == s.ptes[b].share
      && (s.ptes[a].w && !s.ptes[a].share ==> Window(s, a.env, b.env, a.vpn) && a.vpn == b.vpn)
  }

  ghost predicate PteOk(s: State, a: At) {
    a in s.ptes ==>
      && s.ptes[a].frame in s.mem
      && a.env in s.procs
      && (s.ptes[a].share && s.ptes[a].cow ==> s.ptes[a].w)
      && (a.vpn == PFTEMP ==> s.procs[a.env].fault != NoFault)
      && (a.vpn == UXSTACK ==> !s.ptes[a].cow && !s.ptes[a].share)
      && (!s.ptes[a].share && Settled(s, a) ==> a in s.priv && s.mem[s.ptes[a].frame] == s.priv[a])
  }

  /** The child being built by e: known, not yet runnable, with no control state of its own. */
  ghost predicate ForkOk(s: State, e: Env)
    requires e in s.procs
  {
    var p := s.procs[e];
    && (!p.runnable ==> p.fork == NoFork && p.fault == NoFault)
    && (p.runnable && p.fork != NoFork ==>
          p.fork.child in s.procs && !s.procs[p.fork.child].runnable && s.procs[p.fork.child].parent == e)
    && (p.fork.Forking? ==> p.fork.next <= NUSER && Unbuilt(s, p.fork.child, p.fork.next))
    && (p.fork.Duping? ==>
        DupOk(s, e, p.fork.child, p.fork.next, p.fork.seen) && Unbuilt(s, p.fork.child, p.fork.next + 1))
  }

  /** Child c has no page at v or above yet. */
  ghost predicate Unbuilt(s: State, c: Env, from: Vpn) {
    forall v :: v >= from ==> At(c, v) !in s.ptes
  }

  /**
    Between the two calls of duppage the child's page is either the parent's own
    writable page, or a frame nobody can write that holds what the parent had.
   */
  ghost predicate DupOk(s: State, e: Env, c: Env, v: Vpn, seen: Content) {
    && v < NUSER && v != PFTEMP && At(e, v) in s.ptes && At(c, v) in s.ptes
    && !s.ptes[At(e, v)].share
    && var pte := s.ptes[At(c, v)];
    && pte.cow && !pte.w && !pte.share && pte.frame in s.mem
    && ((s.ptes[At(e, v)].w && s.ptes[At(e, v)].frame == pte.frame) || s.mem[pte.frame] == seen)
  }

  ghost predicate FaultOk(s: State, e: Env)
    requires e in s.procs
  {
    s.procs[e].fault != NoFault ==> HandlerOk(s, e, s.procs[e].fault.vpn)
  }

  /** Inside pgfault for page v the old contents are safe behind PFTEMP. */
  ghost predicate HandlerOk(s: State, e: Env, v: Vpn)
    requires e in s.procs
  {
    && v != PFTEMP && v != UXSTACK && At(e, v) in s.ptes && At(e, PFTEMP) in s.ptes
    && var temp, pte := s.ptes[At(e, PFTEMP)], s.ptes[At(e, v)];
    && !temp.w && !temp.cow && !temp.share && temp.frame in s.mem
    && At(e, v) in s.priv && s.mem[temp.frame] == s.priv[At(e, v)]
    && !pte.share
    && (if s.procs[e].fault.Mapped? then pte.frame == temp.frame && pte.cow && !pte.w else pte.w)
  }

  /** The page is not in flux: not the child side of a duppage nor awaiting its copy in pgfault. */
  ghost predicate Settled(s: State, a: At) {
    && a.vpn != PFTEMP
    && a.env in s.procs
    && !Window(s, s.procs[a.env].parent, a.env, a.vpn)
    && s.procs[a.env].fault != Alloced(a.vpn)
  }

  ghost predicate Inv(s: State) {
    && (forall a {:trigger PteOk(s, a)} :: PteOk(s, a))
    && (forall e {:trigger ProcOk(s, e)} :: ProcOk(s, e))
    && (forall a, b {:trigger Compatible(s, a, b)} :: Compatible(s, a, b))
  }

  ghost predicate ProcOk(s: State, e: Env) {
    e in s.procs ==> ForkOk(s, e) && FaultOk(s, e)
  }

  // ----- every step keeps it -----

  /** What the invariant says about page a, given that the step touches page x. */
  lemma PageFacts(s: State, x: At, a: At)
    requires Inv(s)
    ensures PteOk(s, a) && Compatible(s, x, a) && Compatible(s, a, x) && ProcOk(s, a.env)
  {
  }

  lemma ProcFacts(s: State, x: At, f: Env)
    requires Inv(s)
    ensures ProcOk(s, f) && Compatible(s, x, At(f, PFTEMP))
    ensures f in s.procs && s.procs[f].fork.Duping? ==>
              Compatible(s, x, At(s.procs[f].fork.child, s.procs[f].fork.next))
  {
  }

  /** The acting environment itself, its parent, and the page the step touches. */
  lemma ActorFacts(s: State, x: At)
    requires Inv(s) && x.env in s.procs
    ensures PteOk(s, x) && ProcOk(s, x.env) && ProcOk(s, s.procs[x.env].parent)
  {
  }

  /** The page the step touches in the environment that acts. */
  function Touched(s: State, step: Step): At
    requires Enabled(s, step)
  {
    match step
    case Write(e, v, _) => At(e, v)
    case FaultMap(e, v) => At(e, v)
    case FaultAlloc(e, _) => At(e, s.procs[e].fault.vpn)
    case FaultCopy(e) => At(e, s.procs[e].fault.vpn)
    case FaultUnmap(e) => At(e, s.procs[e].fault.vpn)
    case Skip(e) => At(e, s.procs[e].fork.next)
    case DupShare(e, _) => At(e, s.procs[e].fork.next)
    case DupMap(e) => At(e, s.procs[e].fork.next)
    case DupSelf(e) => At(e, s.procs[e].fork.next)
    case DupRead(e, _) => At(e, s.procs[e].fork.next)
    case _ => At(step.e, 0)
  }

  /** A write or a call of pgfault, not of fork. */
  predicate OwnStep(step: Step) {
    step.Write? || step.FaultMap? || step.FaultAlloc? || step.FaultCopy? || step.FaultUnmap?
  }

  lemma OwnPageKept(s: State, step: Step, a: At)
    requires Inv(s) && Enabled(s, step) && OwnStep(step)
    ensures PteOk(Do(s, step), a)
  {
    hide Inv, Unbuilt;
    var x := Touched(s, step);
    ActorFacts(s, x);
    PageFacts(s, x, a);
  }

  lemma ForkPageKept(s: State, step: Step, a: At)
    requires Inv(s) && Enabled(s, step) && !OwnStep(step)
    ensures PteOk(Do(s, step), a)
  {
    hide Inv, Unbuilt;
    var x := Touched(s, step);
    ActorFacts(s, x);
    PageFacts(s, x, a);
  }

  lemma FaultKept(s: State, step: Step, f: Env)
    requires Inv(s) && Enabled(s, step)
    ensures f in Do(s, step).procs ==> FaultOk(Do(s, step), f)
  {
    hide Inv, Unbuilt, DupOk;
    var x := Touched(s, step);
    ActorFacts(s, x);
    ProcFacts(s, x, f);
  }

  lemma OwnForkKept(s: State, step: Step, f: Env)
    requires Inv(s) && Enabled(s, step) && OwnStep(step)
    ensures f in Do(s, step).procs ==> ForkOk(Do(s, step), f)
  {
    hide Inv;
    var x := Touched(s, step);
    ActorFacts(s, x);
    ProcFacts(s, x, f);
  }

  lemma ForkKept(s: State, step: Step, f: Env)
    requires Inv(s) && Enabled(s, step) && !OwnStep(step)
    ensures f in Do(s, step).procs ==> ForkOk(Do(s, step), f)
  {
    hide Inv, HandlerOk;
    var x := Touched(s, step);
    ActorFacts(s, x);
    ProcFacts(s, x, f);
    if step.Exofork? { NothingMapped(s, step.child); }
  }

  lemma NothingMapped(s: State, c: Env)
    requires Inv(s) && c !in s.procs
    ensures forall v: Vpn :: At(c, v) !in s.ptes
  {
    forall v: Vpn ensures At(c, v) !in s.ptes { assert PteOk(s, At(c, v)); }
  }

  lemma PairKept(s: State, step: Step, a: At, b: At)
    requires Inv(s) && Enabled(s, step)
    ensures Compatible(Do(s, step), a, b)
  {
    var x := Touched(s, step);
    ActorFacts(s, x);
    PageFacts(s, x, a);
    PageFacts(s, x, b);
    assert Compatible(s, a, b);
    hide Inv;
  }

  lemma InvFrom(t: State)
    requires (forall a :: PteOk(t, a)) && (forall e :: ProcOk(t, e)) && forall a, b :: Compatible(t, a, b)
    ensures Inv(t)
  {
  }

  lemma StepInv(s: State, step: Step)
    requires Inv(s) && Enabled(s, step)
    ensures Inv(Do(s, step))
  {
    hide Inv;
    if OwnStep(step) {
      forall a ensures PteOk(Do(s, step), a) { OwnPageKept(s, step, a); }
      forall f ensures ProcOk(Do(s, step), f) { FaultKept(s, step, f); OwnForkKept(s, step, f); }
    } else {
      forall a ensures PteOk(Do(s, step), a) { ForkPageKept(s, step, a); }
      forall f ensures ProcOk(Do(s, step), f) { FaultKept(s, step, f); ForkKept(s, step, f); }
    }
    forall a, b ensures Compatible(Do(s, step), a, b) { PairKept(s, step, a, b); }
    InvFrom(Do(s, step));
  }

  // ----- whole runs -----

  /**
    Before the first fork: no handler active, and two mappings of one frame are both
    PTE_SHARE or both read-only.
   */
  ghost predicate Start(s: State) {
    && (forall e :: e in s.procs ==> s.procs[e].runnable && s.procs[e].fork == NoFork && s.procs[e].fault == NoFault)
    && (forall a :: a in s.ptes ==>
          && s.ptes[a].frame in s.mem && a.env in s.procs && a.vpn != PFTEMP
          && (s.ptes[a].share && s.ptes[a].cow ==> s.ptes[a].w)
          && (a.vpn == UXSTACK ==> !s.ptes[a].cow && !s.ptes[a].share)
          && a in s.priv && s.priv[a] == s.mem[s.ptes[a].frame])
    && (forall a, b :: a in s.ptes && b in s.ptes && a != b && s.ptes[a].frame == s.ptes[b].frame ==>
          s.ptes[a].share == s.ptes[b].share && (s.ptes[a].w ==> s.ptes[a].share))
  }

  ghost predicate IsRun(states: seq<State>, steps: seq<Step>) {
    && |states| == |steps| + 1 && Start(states[0])
    && forall i :: 0 <= i < |steps| ==> Enabled(states[i], steps[i]) && states[i + 1] == Do(states[i], steps[i])
  }

  lemma {:induction false} RunInv(states: seq<State>, steps: seq<Step>, n: nat)
    requires IsRun(states, steps) && n <= |steps|
    ensures Inv(states[n])
  {
    if n > 0 {
      hide Inv, Start;
      RunInv(states, steps, n - 1);
      StepInv(states[n - 1], steps[n - 1]);
    }
  }

  /** The contents environment e sees at page v. */
  function Sees(s: State, e: Env, v: Vpn): Content
    requires At(e, v) in s.ptes && s.ptes[At(e, v)].frame in s.mem
  {
    s.mem[s.ptes[At(e, v)].frame]
  }

  /** An unshared page of e that is not the child side of a duppage in progress. */
  ghost predicate Own(s: State, e: Env, v: Vpn) {
    && e in s.procs && At(e, v) in s.ptes && s.ptes[At(e, v)].frame in s.mem && !s.ptes[At(e, v)].share
    && v != PFTEMP && !Window(s, s.procs[e].parent, e, v)
  }

  /**
    Isolation: in every reachable state a frame writable through an unshared mapping is
    mapped nowhere else by a started environment.
   */
  lemma WritableIsPrivate(states: seq<State>, steps: seq<Step>, n: nat, a: At, b: At)
    requires IsRun(states, steps) && n <= |steps| && a in states[n].ptes && b in states[n].ptes
    requires states[n].ptes[a].frame == states[n].ptes[b].frame
    requires states[n].ptes[a].w && !states[n].ptes[a].share
    requires b.env in states[n].procs && states[n].procs[b.env].runnable
    ensures a == b
  {
    RunInv(states, steps, n);
    assert Compatible(states[n], a, b) && ProcOk(states[n], a.env);
  }

  /** A step of another environment changes neither e's mapping of its own page v nor its contents. */
  lemma OthersStep(s: State, step: Step, e: Env, v: Vpn)
    requires Inv(s) && Enabled(s, step) && step.e != e && Own(s, e, v)
    ensures Own(Do(s, step), e, v) && Sees(Do(s, step), e, v) == Sees(s, e, v)
    ensures Do(s, step).ptes[At(e, v)] == s.ptes[At(e, v)]
  {
    var a := At(e, v);
    var x := At(step.e, if step.Write? then step.v else if step.FaultCopy? then s.procs[step.e].fault.vpn else 0);
    PageFacts(s, x, a);
    ActorFacts(s, x);
  }

  /** What a started environment keeps through any step: it stays started, and no duppage targets it. */
  lemma StartedStays(s: State, step: Step, e: Env)
    requires Inv(s) && Enabled(s, step) && e in s.procs && s.procs[e].runnable
    ensures e in Do(s, step).procs && Do(s, step).procs[e].runnable
    ensures step.e != e ==> Do(s, step).procs[e] == s.procs[e]
  {
    ActorFacts(s, At(step.e, 0));
  }

  lemma StartedOwns(s: State, e: Env, v: Vpn)
    requires Inv(s) && e in s.procs && s.procs[e].runnable && At(e, v) in s.ptes && !s.ptes[At(e, v)].share
             && v != PFTEMP
    ensures Own(s, e, v)
  {
    ActorFacts(s, At(e, v));
  }

  /** The last contents e itself wrote to page v in steps m..n, or what it saw there at m. */
  ghost function LastWritten(states: seq<State>, steps: seq<Step>, m: nat, n: nat, e: Env, v: Vpn): Content
    requires |states| == |steps| + 1 && m <= n <= |steps|
    requires At(e, v) in states[m].ptes && states[m].ptes[At(e, v)].frame in states[m].mem
  {
    if m == n then Sees(states[m], e, v)
    else if steps[n - 1].Write? && steps[n - 1].e == e && steps[n - 1].v == v then steps[n - 1].c
    else LastWritten(states, steps, m, n - 1, e, v)
  }

  /** One step and the private contents of a started environment's page. */
  lemma PrivateStep(s: State, step: Step, e: Env, v: Vpn)
    requires Inv(s) && Enabled(s, step) && e in s.procs && s.procs[e].runnable
    requires At(e, v) in s.ptes && !s.ptes[At(e, v)].share && v != PFTEMP && At(e, v) in s.priv
    ensures At(e, v) in Do(s, step).ptes && !Do(s, step).ptes[At(e, v)].share && At(e, v) in Do(s, step).priv
    ensures Do(s, step).priv[At(e, v)] ==
            if step.Write? && step.e == e && step.v == v then step.c else s.priv[At(e, v)]
  {
    ActorFacts(s, At(step.e, 0));
    ActorFacts(s, At(e, v));
  }

  lemma {:induction false} PrivateRun(states: seq<State>, steps: seq<Step>, m: nat, n: nat, e: Env, v: Vpn)
    requires IsRun(states, steps) && m <= n <= |steps|
    requires e in states[m].procs && states[m].procs[e].runnable && states[m].procs[e].fault == NoFault
    requires At(e, v) in states[m].ptes && !states[m].ptes[At(e, v)].share
    ensures v != PFTEMP && states[m].ptes[At(e, v)].frame in states[m].mem
    ensures e in states[n].procs && states[n].procs[e].runnable
    ensures At(e, v) in states[n].ptes && !states[n].ptes[At(e, v)].share && At(e, v) in states[n].priv
    ensures states[n].priv[At(e, v)] == LastWritten(states, steps, m, n, e, v)
    decreases n
  {
    if m == n {
      RunInv(states, steps, m);
      ActorFacts(states[m], At(e, v));
      StartedOwns(states[m], e, v);
    } else {
      PrivateRun(states, steps, m, n - 1, e, v);
      RunInv(states, steps, n - 1);
      hide Inv, Start;
      PrivateStep(states[n - 1], steps[n - 1], e, v);
      StartedStays(states[n - 1], steps[n - 1], e);
      hide Do, Enabled;
    }
  }

  /**
    Private memory: whatever the other environments write, fault on or fork, and
    whatever faults and forks e itself goes through, an unshared page of a started
    environment reads as the last contents that environment wrote to it.
   */
  lemma PrivateMemory(states: seq<State>, steps: seq<Step>, m: nat, n: nat, e: Env, v: Vpn)
    requires IsRun(states, steps) && m <= n <= |steps|
    requires e in states[m].procs && states[m].procs[e].runnable && states[m].procs[e].fault == NoFault
    requires At(e, v) in states[m].ptes && !states[m].ptes[At(e, v)].share
    ensures states[m].ptes[At(e, v)].frame in states[m].mem
    ensures e in states[n].procs && At(e, v) in states[n].ptes && states[n].ptes[At(e, v)].frame in states[n].mem
    ensures states[n].procs[e].fault == NoFault ==>
              Sees(states[n], e, v) == LastWritten(states, steps, m, n, e, v)
  {
    PrivateRun(states, steps, m, n, e, v);
    RunInv(states, steps, n);
    hide Start, LastWritten;
    ActorFacts(states[n], At(e, v));
    StartedOwns(states[n], e, v);
  }

  lemma {:induction false} ForkStateUntil(states: seq<State>, steps: seq<Step>, i: nat, k: nat, p: Env)
    requires IsRun(states, steps) && i < k <= |steps| && steps[i] == DupMap(p)
    requires forall m :: i < m < k ==> steps[m] != DupSelf(p)
    ensures p in states[i + 1].procs && p in states[k].procs
    ensures states[k].procs[p].fork == states[i + 1].procs[p].fork && states[k].procs[p].runnable
    decreases k
  {
    RunInv(states, steps, k - 1);
    hide Inv, Start;
    if k > i + 1 {
      ForkStateUntil(states, steps, i, k - 1, p);
      StartedStays(states[k - 1], steps[k - 1], p);
    }
  }

  /**
    What a forked page starts as: when duppage of page v returns, the child sees there
    contents the parent saw either at its first system call or at its second.
   */
  lemma ChildSnapshot(states: seq<State>, steps: seq<Step>, i: nat, j: nat, p: Env)
    requires IsRun(states, steps) && i < j < |steps| && steps[i] == DupMap(p) && steps[j] == DupSelf(p)
    requires forall k :: i < k < j ==> steps[k] != DupSelf(p)
    ensures var c, v := states[i].procs[p].fork.child, states[i].procs[p].fork.next;
            && At(p, v) in states[i].ptes && states[i].ptes[At(p, v)].frame in states[i].mem
            && At(p, v) in states[j].ptes && states[j].ptes[At(p, v)].frame in states[j].mem
            && At(c, v) in states[j + 1].ptes && states[j + 1].ptes[At(c, v)].frame in states[j + 1].mem
            && (|| Sees(states[j + 1], c, v) == Sees(states[i], p, v)
                || Sees(states[j + 1], c, v) == Sees(states[j], p, v))
  {
    RunInv(states, steps, i);
    RunInv(states, steps, j);
    ForkStateUntil(states, steps, i, j, p);
    var v := states[i].procs[p].fork.next;
    ActorFacts(states[i], At(p, v));
    ActorFacts(states[j], At(p, v));
    StartedOwns(states[i], p, v);
  }

  /** From then on nothing but the child itself changes that page, before it starts or after. */
  lemma {:induction false} ChildPageKept(states: seq<State>, steps: seq<Step>, m: nat, n: nat, c: Env, v: Vpn)
    requires IsRun(states, steps) && m <= n <= |steps| && Own(states[m], c, v)
    requires forall k :: m <= k < n ==> steps[k].e != c
    ensures Own(states[n], c, v) && Sees(states[n], c, v) == Sees(states[m], c, v)
    decreases n
  {
    if m < n {
      ChildPageKept(states, steps, m, n - 1, c, v);
      RunInv(states, steps, n - 1);
      hide Inv, Start, Own;
      OthersStep(states[n - 1], steps[n - 1], c, v);
    }
  }

  // ----- what the child is given -----

  /** Environment p is in the middle of building child c. */
  ghost predicate Builds(s: State, p: Env, c: Env) {
    && p in s.procs && s.procs[p].runnable && s.procs[p].fork != NoFork && s.procs[p].fork.child == c
    && c in s.procs && !s.procs[c].runnable && c != p
  }

  /** The page p's loop is at. */
  function Next(s: State, p: Env): Vpn
    requires p in s.procs && s.procs[p].fork != NoFork
  {
    if s.procs[p].fork.Starting? then NUSER else s.procs[p].fork.next
  }

  /** The step is the turn of page v in the loop of p. */
  ghost predicate Turn(s: State, step: Step, p: Env, v: Vpn) {
    && step.e == p && (step.Skip? || step.DupShare? || step.DupMap? || step.DupRead?)
    && p in s.procs && s.procs[p].fork.Forking? && s.procs[p].fork.next == v
  }

  /** At its turn the page is present, for user access, and its call of sys_page_map succeeds. */
  ghost predicate Given(s: State, step: Step, p: Env, v: Vpn) {
    && At(p, v) in s.ptes && s.ptes[At(p, v)].u
    && (step.DupRead? ==> step.ok) && (step.DupShare? ==> step.ok && s.ptes[At(p, v)].w)
  }

  /** The child's entry for a page its parent has as pte: the same frame, writable only if shared. */
  predicate CopyOf(child: Pte, pte: Pte) {
    && child.frame == pte.frame && child.share == pte.share && child.u
    && (child.w <==> pte.share) && (child.cow <==> pte.w || pte.cow)
  }

  /** One turn: the child has the page afterwards exactly if it was given, and sees what the parent sees. */
  lemma OneTurn(s: State, step: Step, p: Env, v: Vpn)
    requires Inv(s) && Enabled(s, step) && Turn(s, step, p, v)
    ensures var t, c := Do(s, step), s.procs[p].fork.child;
            && (At(c, v) in t.ptes <==> Given(s, step, p, v))
            && (Given(s, step, p, v) ==>
                  && CopyOf(t.ptes[At(c, v)], s.ptes[At(p, v)])
                  && s.ptes[At(p, v)].frame in s.mem && t.ptes[At(c, v)].frame in t.mem
                  && Sees(t, c, v) == Sees(s, p, v))
  {
    ActorFacts(s, At(p, v));
    assert ForkOk(s, p);
  }

  /** The loop of p has come to page v. */
  ghost predicate Reached(s: State, p: Env, v: Vpn)
    requires p in s.procs && s.procs[p].fork != NoFork
  {
    Next(s, p) > v || InTurn(s, p, v)
  }

  /** It is between the two calls of duppage for page v. */
  ghost predicate InTurn(s: State, p: Env, v: Vpn)
    requires p in s.procs
  {
    s.procs[p].fork.Duping? && s.procs[p].fork.next == v
  }

  /** Until it starts, the child does nothing, and its pages are its parent's doing alone. */
  lemma BuildStep(s: State, step: Step, p: Env, c: Env, v: Vpn)
    requires Inv(s) && Enabled(s, step) && Builds(s, p, c) && step != ForkRun(p)
    ensures Builds(Do(s, step), p, c) && step.e != c
    ensures !Turn(s, step, p, v) && !(step.ForkStack? && step.e == p && v == UXSTACK) ==>
              && (At(c, v) in Do(s, step).ptes <==> At(c, v) in s.ptes)
              && (At(c, v) in s.ptes ==> Do(s, step).ptes[At(c, v)] == s.ptes[At(c, v)])
  {
    hide Unbuilt, DupOk, HandlerOk;
    ActorFacts(s, At(step.e, 0));
    ActorFacts(s, At(p, 0));
    ActorFacts(s, At(c, 0));
  }

  /** The loop comes to its pages one by one. */
  lemma LoopStep(s: State, step: Step, p: Env, c: Env, v: Vpn)
    requires Inv(s) && Enabled(s, step) && Builds(s, p, c) && step != ForkRun(p) && v < NUSER
    requires Builds(Do(s, step), p, c)
    ensures Reached(Do(s, step), p, v) <==> Reached(s, p, v) || Turn(s, step, p, v)
    ensures InTurn(Do(s, step), p, v) <==>
              (InTurn(s, p, v) && step != DupSelf(p)) || (Turn(s, step, p, v) && step.DupMap?)
  {
    hide Inv, Unbuilt, DupOk, HandlerOk;
    ActorFacts(s, At(p, 0));
  }

  lemma {:induction false} BuildRun(states: seq<State>, steps: seq<Step>, a: nat, n: nat, p: Env, c: Env)
    requires IsRun(states, steps) && a < n <= |steps| && steps[a] == Exofork(p, c)
    requires forall k :: a < k < n ==> steps[k] != ForkRun(p)
    ensures Inv(states[n]) && Builds(states[n], p, c)
    decreases n
  {
    RunInv(states, steps, n);
    RunInv(states, steps, n - 1);
    if n > a + 1 {
      BuildRun(states, steps, a, n - 1, p, c);
      hide Inv, Start;
      BuildStep(states[n - 1], steps[n - 1], p, c, 0);
    }
  }

  /** At n the child's entry for page v is what the turn at i made it. */
  ghost predicate GivenCopy(states: seq<State>, steps: seq<Step>, i: nat, n: nat, p: Env, c: Env, v: Vpn)
    requires |states| == |steps| + 1 && i < n <= |steps|
  {
    && Turn(states[i], steps[i], p, v)
    && (At(c, v) in states[n].ptes <==> Given(states[i], steps[i], p, v))
    && (At(c, v) in states[n].ptes ==> CopyOf(states[n].ptes[At(c, v)], states[i].ptes[At(p, v)]))
  }

  ghost predicate Saw(s: State, p: Env, v: Vpn, x: Content) {
    At(p, v) in s.ptes && s.ptes[At(p, v)].frame in s.mem && Sees(s, p, v) == x
  }

  /** At n the child sees on its own page v what the parent saw at j. */
  ghost predicate GivenContents(states: seq<State>, j: nat, n: nat, p: Env, c: Env, v: Vpn)
    requires j < |states| && n < |states|
  {
    Own(states[n], c, v) && Saw(states[j], p, v, Sees(states[n], c, v))
  }

  /** The first system call of duppage, and no second one since. */
  ghost predicate Opened(steps: seq<Step>, i: nat, n: nat, p: Env)
    requires i < n <= |steps|
  {
    steps[i] == DupMap(p) && forall k :: i < k < n ==> steps[k] != DupSelf(p)
  }

  /** Outside its turn, an unshared page of the child is the child's own. */
  lemma OwnGiven(s: State, p: Env, c: Env, v: Vpn)
    requires Inv(s) && Builds(s, p, c) && !InTurn(s, p, v) && At(c, v) in s.ptes && !s.ptes[At(c, v)].share
    ensures Own(s, c, v)
  {
    ActorFacts(s, At(c, v));
    assert ProcOk(s, p);
  }

  /** The turn itself. */
  lemma TurnGives(states: seq<State>, steps: seq<Step>, n: nat, p: Env, c: Env, v: Vpn)
    requires IsRun(states, steps) && n < |steps| && Turn(states[n], steps[n], p, v)
    requires Inv(states[n]) && Inv(states[n + 1])
    requires Builds(states[n], p, c) && Builds(states[n + 1], p, c)
    ensures GivenCopy(states, steps, n, n + 1, p, c, v) && (steps[n].DupMap? ==> steps[n] == DupMap(p))
    ensures !InTurn(states[n + 1], p, v) && At(c, v) in states[n + 1].ptes && !states[n + 1].ptes[At(c, v)].share ==>
              GivenContents(states, n, n + 1, p, c, v)
  {
    OneTurn(states[n], steps[n], p, v);
    if !InTurn(states[n + 1], p, v) && At(c, v) in states[n + 1].ptes && !states[n + 1].ptes[At(c, v)].share {
      OwnGiven(states[n + 1], p, c, v);
    }
  }

  /** Its end, when it took two calls. */
  lemma TurnCloses(states: seq<State>, steps: seq<Step>, i: nat, n: nat, p: Env, c: Env, v: Vpn) returns (j: nat)
    requires IsRun(states, steps) && i < n < |steps| && Opened(steps, i, n, p) && steps[n] == DupSelf(p)
    requires Turn(states[i], steps[i], p, v) && states[i].procs[p].fork.child == c
    requires Inv(states[n + 1]) && Builds(states[n + 1], p, c) && !InTurn(states[n + 1], p, v)
    ensures i <= j <= n
    ensures At(c, v) in states[n + 1].ptes && !states[n + 1].ptes[At(c, v)].share ==>
              GivenContents(states, j, n + 1, p, c, v)
  {
    j := n;
    if At(c, v) in states[n + 1].ptes && !states[n + 1].ptes[At(c, v)].share {
      OwnGiven(states[n + 1], p, c, v);
      hide Inv, Start, Own;
      ChildSnapshot(states, steps, i, n, p);
      j := if Saw(states[i], p, v, Sees(states[n + 1], c, v)) then i else n;
    }
  }

  /** And everything after it. */
  lemma StaysGiven(states: seq<State>, steps: seq<Step>, i: nat, j: nat, n: nat, p: Env, c: Env, v: Vpn)
    requires IsRun(states, steps) && i < n < |steps| && j < n && Inv(states[n]) && Builds(states[n], p, c) && v < NUSER
    requires steps[n] != ForkRun(p) && !Turn(states[n], steps[n], p, v) && GivenCopy(states, steps, i, n, p, c, v)
    ensures GivenCopy(states, steps, i, n + 1, p, c, v)
    ensures At(c, v) in states[n + 1].ptes <==> At(c, v) in states[n].ptes
    ensures At(c, v) in states[n].ptes ==> states[n + 1].ptes[At(c, v)] == states[n].ptes[At(c, v)]
    ensures GivenContents(states, j, n, p, c, v) ==> GivenContents(states, j, n + 1, p, c, v)
  {
    hide Inv, Start, Own;
    BuildStep(states[n], steps[n], p, c, v);
    if GivenContents(states, j, n, p, c, v) {
      OthersStep(states[n], steps[n], c, v);
    }
  }

  /** Who builds whom is settled when the loop comes to a page. */
  lemma TurnOf(states: seq<State>, steps: seq<Step>, a: nat, n: nat, p: Env, c: Env, v: Vpn)
    requires IsRun(states, steps) && a + 1 < n <= |steps| && steps[a] == Exofork(p, c) && v < NUSER
    requires forall k :: a < k < n ==> steps[k] != ForkRun(p)
    ensures Inv(states[n]) && Inv(states[n - 1]) && Builds(states[n - 1], p, c) && Builds(states[n], p, c)
    ensures Reached(states[n], p, v) <==> Reached(states[n - 1], p, v) || Turn(states[n - 1], steps[n - 1], p, v)
    ensures InTurn(states[n], p, v) <==>
              (InTurn(states[n - 1], p, v) && steps[n - 1] != DupSelf(p))
              || (Turn(states[n - 1], steps[n - 1], p, v) && steps[n - 1].DupMap?)
    ensures Turn(states[n - 1], steps[n - 1], p, v) ==> !Reached(states[n - 1], p, v) && !InTurn(states[n - 1], p, v)
  {
    BuildRun(states, steps, a, n, p, c);
    BuildRun(states, steps, a, n - 1, p, c);
    hide Inv, Start;
    LoopStep(states[n - 1], steps[n - 1], p, c, v);
  }

  lemma FirstTurn(states: seq<State>, steps: seq<Step>, a: nat, p: Env, c: Env, v: Vpn)
    requires IsRun(states, steps) && a < |steps| && steps[a] == Exofork(p, c)
    ensures Inv(states[a + 1]) && Builds(states[a + 1], p, c) && !Reached(states[a + 1], p, v)
  {
    BuildRun(states, steps, a, a + 1, p, c);
    hide Inv, Start;
  }

  /** What holds at n of a page the loop has come to: its turn was at i, and its contents are the parent's at j. */
  ghost predicate Dealt(states: seq<State>, steps: seq<Step>, a: nat, i: nat, j: nat, n: nat, p: Env, c: Env, v: Vpn)
    requires |states| == |steps| + 1 && n <= |steps| && p in states[n].procs
  {
    && a < i < n && GivenCopy(states, steps, i, n, p, c, v) && i <= j < n
    && states[i].procs[p].fork.child == c
    && (InTurn(states[n], p, v) ==> Opened(steps, i, n, p))
    && (!InTurn(states[n], p, v) && At(c, v) in states[n].ptes && !states[n].ptes[At(c, v)].share ==>
          GivenContents(states, j, n, p, c, v))
  }

  lemma {:induction false} PageTurn(states: seq<State>, steps: seq<Step>, a: nat, n: nat, p: Env, c: Env, v: Vpn)
    returns (i: nat, j: nat)
    requires IsRun(states, steps) && a < n <= |steps| && steps[a] == Exofork(p, c) && v < NUSER
    requires forall k :: a < k < n ==> steps[k] != ForkRun(p)
    ensures Inv(states[n]) && Builds(states[n], p, c)
    ensures Reached(states[n], p, v) ==> Dealt(states, steps, a, i, j, n, p, c, v)
    decreases n
  {
    hide Inv, Start, Own, Reached, Turn, Given, CopyOf, Enabled, Do, GivenContents, InTurn;
    i, j := a, a;
    if n == a + 1 {
      FirstTurn(states, steps, a, p, c, v);
      return;
    }
    TurnOf(states, steps, a, n, p, c, v);
    i, j := PageTurn(states, steps, a, n - 1, p, c, v);
    if Turn(states[n - 1], steps[n - 1], p, v) {
      TurnGives(states, steps, n - 1, p, c, v);
      i, j := n - 1, n - 1;
    } else if Reached(states[n - 1], p, v) {
      StaysGiven(states, steps, i, j, n - 1, p, c, v);
      if InTurn(states[n - 1], p, v) && steps[n - 1] == DupSelf(p) {
        j := TurnCloses(states, steps, i, n - 1, p, c, v);
      }
    }
  }

  lemma StartsChild(states: seq<State>, steps: seq<Step>, z: nat, p: Env, c: Env, v: Vpn)
    requires IsRun(states, steps) && z < |steps| && steps[z] == ForkRun(p) && Inv(states[z]) && Builds(states[z], p, c)
    ensures c in states[z + 1].procs && states[z + 1].procs[c].runnable && states[z + 1].ptes == states[z].ptes
    ensures v < NUSER ==> Reached(states[z], p, v) && !InTurn(states[z], p, v)
    ensures states[z].procs[p].fork.Starting?
    ensures Own(states[z], c, v) ==> Own(states[z + 1], c, v) && Sees(states[z + 1], c, v) == Sees(states[z], c, v)
  {
    if Own(states[z], c, v) { OthersStep(states[z], ForkRun(p), c, v); }
  }

  /**
    fork gives the child its memory.  When sys_env_set_status starts it, every page below
    the user stack top has had its turn, at some i; the child has the page exactly if it
    was then present for user access and its sys_page_map succeeded, on the same frame
    with the permissions duppage promises; and an unshared page shows what the parent saw
    there at i or at the second system call of that turn.
   */
  lemma ForkGives(states: seq<State>, steps: seq<Step>, a: nat, z: nat, p: Env, c: Env, v: Vpn)
    returns (i: nat, j: nat)
    requires IsRun(states, steps) && a < z < |steps| && steps[a] == Exofork(p, c) && steps[z] == ForkRun(p) && v < NUSER
    requires forall k :: a < k < z ==> steps[k] != ForkRun(p)
    ensures c in states[z + 1].procs && states[z + 1].procs[c].runnable
    ensures a < i < z && GivenCopy(states, steps, i, z + 1, p, c, v)
    ensures At(c, v) in states[z + 1].ptes && !states[z + 1].ptes[At(c, v)].share ==>
              i <= j < z && GivenContents(states, j, z + 1, p, c, v)
  {
    hide Inv, Start, Own, Reached, InTurn, Enabled, Do;
    i, j := PageTurn(states, steps, a, z, p, c, v);
    StartsChild(states, steps, z, p, c, v);
  }

  /** Its exception stack is a page of its own, writable and zero; above the user stack it has nothing else. */
  lemma {:induction false} StackGiven(states: seq<State>, steps: seq<Step>, a: nat, n: nat, p: Env, c: Env, v: Vpn)
    requires IsRun(states, steps) && a < n <= |steps| && steps[a] == Exofork(p, c) && v >= NUSER
    requires forall k :: a < k < n ==> steps[k] != ForkRun(p)
    ensures Inv(states[n]) && Builds(states[n], p, c)
    ensures At(c, v) in states[n].ptes <==> v == UXSTACK && states[n].procs[p].fork.Starting?
    ensures At(c, v) in states[n].ptes ==>
              && Own(states[n], c, v) && Sees(states[n], c, v) == Zeros
              && states[n].ptes[At(c, v)].w && !states[n].ptes[At(c, v)].cow
    decreases n
  {
    BuildRun(states, steps, a, n, p, c);
    if n == a + 1 {
      RunInv(states, steps, a);
      NothingMapped(states[a], c);
    } else {
      StackGiven(states, steps, a, n - 1, p, c, v);
      StackStep(states[n - 1], steps[n - 1], p, c, v);
    }
  }

  lemma StackStep(s: State, step: Step, p: Env, c: Env, v: Vpn)
    requires Inv(s) && Enabled(s, step) && Builds(s, p, c) && step != ForkRun(p) && v >= NUSER
    requires At(c, v) in s.ptes <==> v == UXSTACK && s.procs[p].fork.Starting?
    requires At(c, v) in s.ptes ==>
               Own(s, c, v) && Sees(s, c, v) == Zeros && s.ptes[At(c, v)].w && !s.ptes[At(c, v)].cow
    ensures var t := Do(s, step);
            && p in t.procs
            && (At(c, v) in t.ptes <==> v == UXSTACK && t.procs[p].fork.Starting?)
            && (At(c, v) in t.ptes ==>
                  Own(t, c, v) && Sees(t, c, v) == Zeros && t.ptes[At(c, v)].w && !t.ptes[At(c, v)].cow)
  {
    BuildStep(s, step, p, c, v);
    if step.ForkStack? && step.e == p {
      assert ProcOk(s, p);
    } else if At(c, v) in s.ptes {
      OthersStep(s, step, c, v);
    }
    assert ProcOk(s, step.e);
  }

  /**
    pgfault resolves a write fault: with a free frame its four calls go through, and the
    page is writable, unshared, and reads as before.
   */
  lemma FaultResolves(s: State, e: Env, v: Vpn, f: Frame)
    requires Inv(s) && Enabled(s, FaultMap(e, v)) && s.Free(f)
    ensures var s1 := Do(s, FaultMap(e, v));
            && Enabled(s1, FaultAlloc(e, f))
            && var s2 := Do(s1, FaultAlloc(e, f));
            && Enabled(s2, FaultCopy(e))
            && var s3 := Do(s2, FaultCopy(e));
            && Enabled(s3, FaultUnmap(e))
            && var t := Do(s3, FaultUnmap(e));
            && t.Running(e) && At(e, v) in t.ptes && t.ptes[At(e, v)].w && !t.ptes[At(e, v)].share
            && s.ptes[At(e, v)].frame in s.mem && t.ptes[At(e, v)].frame in t.mem && Sees(t, e, v) == Sees(s, e, v)
            && forall x: Content :: Enabled(t, Write(e, v, x))
  {
    ActorFacts(s, At(e, v));
    ActorFacts(s, At(e, PFTEMP));
  }

  // ---------------------------------------------------------------- nothing stands in fork's way

  /** How many steps are left of e's fork, at most. */
  function StepsLeft(fork: Fork): int {
    match fork
    case NoFork => 0
    case Starting(_) => 1
    case Duping(_, next, _) => 2 * (NUSER - next) + 1
    case Forking(_, next) => 2 * (NUSER - next) + 2
  }

  predicate OfFork(step: Step, e: Env) {
    step.e == e && (step.Skip? || step.DupShare? || step.DupMap? || step.DupSelf? || step.DupRead? || step.ForkStack?
                    || step.ForkRun?)
  }

  /** With a free frame, an environment outside its fault handler can start a fork, and go on with one it has begun. */
  lemma ForkGoesOn(s: State, e: Env, c: Env, f: Frame)
    requires Inv(s) && s.Running(e) && s.Free(f)
    ensures s.procs[e].fork == NoFork && c !in s.procs ==> Enabled(s, Exofork(e, c))
    ensures s.procs[e].fork != NoFork ==> exists step :: OfFork(step, e) && Enabled(s, step)
  {
    assert ProcOk(s, e) && ProcOk(s, s.procs[e].parent);
    var fork := s.procs[e].fork;
    if fork.Forking? {
      assert PteOk(s, At(e, fork.next));
      if fork.next == NUSER { assert Enabled(s, ForkStack(e, f)); }
      else if !s.AtPage(e, fork.next) { assert Enabled(s, Skip(e)); }
      else if s.ptes[At(e, fork.next)].share { assert Enabled(s, DupShare(e, true)); }
      else if s.ptes[At(e, fork.next)].w || s.ptes[At(e, fork.next)].cow { assert Enabled(s, DupMap(e)); }
      else { assert Enabled(s, DupRead(e, true)); }
    } else if fork.Duping? {
      assert PteOk(s, At(fork.child, fork.next));
      assert Enabled(s, DupSelf(e));
    } else if fork.Starting? {
      assert Enabled(s, ForkRun(e));
    }
  }

  /** Each of its steps brings the fork nearer its end, and nobody else moves it. */
  lemma ForkNearer(s: State, step: Step, e: Env)
    requires Inv(s) && Enabled(s, step) && e in s.procs
    ensures e in Do(s, step).procs
    ensures OfFork(step, e) ==> 0 <= StepsLeft(Do(s, step).procs[e].fork) < StepsLeft(s.procs[e].fork)
    ensures !OfFork(step, e) && (step.Exofork? ==> step.e != e) ==> Do(s, step).procs[e].fork == s.procs[e].fork
  {
    assert ProcOk(s, e) && ProcOk(s, step.e);
  }

  /** A write to a page that is writable or copy-on-write goes through, or faults into the handler. */
  lemma WriteOrFault(s: State, e: Env, v: Vpn, x: Content)
    requires s.Running(e) && At(e, v) in s.ptes && (s.ptes[At(e, v)].w || s.ptes[At(e, v)].cow)
    ensures if s.ptes[At(e, v)].w then Enabled(s, Write(e, v, x)) else Enabled(s, FaultMap(e, v))
  {
  }
}
