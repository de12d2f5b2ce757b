/**
  Write-ahead log and buffer cache together, as one step system: operations, reads,
  buffer recycling, group commit one disk write at a time, crashes at any point and
  recovery that may crash again.

  The log area may have any size.  The results about the contents of blocks ask of a run
  that write_log stays inside the area (`Contained`); LogSpill shows exactly when every
  run does.  The others hold of every run.
 */
module LogRun {

  import opened LogSpace
  import opened RedoLog
  import opened Wrappers

  const ROOTDEV: nat := 1

  /**
    refs     processes between bget's `refcnt++` and brelse's `refcnt--`
    holder   process holding the sleep lock
    pending  history: the holder changed `data` and has not called log_write since
   */
  datatype Buf = Buf(dev: nat, blockno: nat, valid: bool, dirty: bool,
                     refs: set<Pid>, holder: Option<Pid>, pending: bool, data: Block)

  datatype Phase =
    | Idle
    | WriteLog(tail: nat)
    | Install(tail: nat)
    | Finish
    | RecoverHead
    | RecoverInstall(tail: nat)

  /**
    current    history: for each file-system block, the contents last passed to log_write
    committed  history: `current` as it was at the last header write
   */
  datatype State = State(area: Area, disk: Disk, bufs: seq<Buf>, log: LogSpace.State,
                         phase: Phase, committer: Pid, current: Disk, committed: Disk)
  {
    predicate Recovering() { phase.RecoverHead? || phase.RecoverInstall? }
    predicate IsHome(b: nat) { b in disk && !InLog(area, b) }
    /** Process p holds buffer i locked and filled with block b. */
    predicate Holds(p: Pid, i: nat, b: nat) {
      && i < |bufs| && bufs[i].holder == Some(p) && bufs[i].valid
      && bufs[i].dev == ROOTDEV && bufs[i].blockno == b
    }
    predicate Cached(b: nat) {
      exists i :: 0 <= i < |bufs| && bufs[i].dev == ROOTDEV && bufs[i].blockno == b
    }
  }

  datatype Step =
    | Begin(p: Pid)
    | Check(p: Pid)                       // log_write: size test, before the lock
    | Record(p: Pid, i: nat)              // log_write: under log.lock
    | End(p: Pid)
    | GetHit(p: Pid, i: nat)              // bget finds the block cached
    | GetMiss(p: Pid, b: nat, i: nat)     // bget recycles buffer i
    | Lock(p: Pid, i: nat)                // acquiresleep returns
    | Fill(p: Pid, i: nat)                // bread: iderw reads the disk
    | Modify(p: Pid, i: nat, data: Block)
    | Unlock(p: Pid, i: nat)              // brelse: releasesleep
    | Put(p: Pid, i: nat)                 // brelse: refcnt--
    | LogBlock(to: nat, from: nat)        // one round of write_log
    | CommitHead(h: nat)                  // write_head with the transaction
    | InstallBlock(l: nat, d: nat)        // one round of install_trans
    | ClearHead(h: nat)                   // write_head with n == 0
    | Done
    | Crash
    | ReadHead(h: nat)

  predicate Enabled(s: State, step: Step) {
    match step
    case Begin(p) => LogSpace.Enabled(s.area.size, s.log, BeginOp(p))
    case Check(p) => LogSpace.Enabled(s.area.size, s.log, Guard(p))
    case Record(p, i) =>
      && i < |s.bufs| && s.Holds(p, i, s.bufs[i].blockno) && s.IsHome(s.bufs[i].blockno)
      && LogSpace.Enabled(s.area.size, s.log, Append(p, s.bufs[i].blockno))
    case End(p) =>
      && LogSpace.Enabled(s.area.size, s.log, EndOp(p))
      && (forall i :: 0 <= i < |s.bufs| ==> s.bufs[i].holder == Some(p) ==> !s.bufs[i].pending)
    case GetHit(p, i) =>
      i < |s.bufs| && s.bufs[i].dev == ROOTDEV && p !in s.bufs[i].refs
    case GetMiss(p, b, i) =>
      b in s.disk && !s.Cached(b) && i < |s.bufs| && s.bufs[i].refs == {} && !s.bufs[i].dirty
    case Lock(p, i) => i < |s.bufs| && p in s.bufs[i].refs && s.bufs[i].holder == None
    case Fill(p, i) => i < |s.bufs| && s.bufs[i].holder == Some(p) && !s.bufs[i].valid && s.bufs[i].blockno in s.disk
    case Modify(p, i, data) =>
      i < |s.bufs| && s.Holds(p, i, s.bufs[i].blockno) && s.IsHome(s.bufs[i].blockno) && p in s.log.used
    case Unlock(p, i) => i < |s.bufs| && s.bufs[i].holder == Some(p) && !s.bufs[i].pending
    case Put(p, i) => i < |s.bufs| && p in s.bufs[i].refs && s.bufs[i].holder != Some(p)
    case LogBlock(to, from) =>
      && s.phase.WriteLog? && s.phase.tail < |s.log.lh|
      && s.Holds(s.committer, to, s.area.start + 1 + s.phase.tail)
      && s.Holds(s.committer, from, s.log.lh[s.phase.tail])
    case CommitHead(h) =>
      && s.phase.WriteLog? && s.phase.tail == |s.log.lh| && 0 < |s.log.lh| <= LOGSIZE
      && s.Holds(s.committer, h, s.area.start)
    case InstallBlock(l, d) =>
      && (s.phase.Install? || s.phase.RecoverInstall?) && s.phase.tail < |s.log.lh|
      && s.Holds(s.committer, l, s.area.start + 1 + s.phase.tail)
      && s.Holds(s.committer, d, s.log.lh[s.phase.tail])
    case ClearHead(h) =>
      && (s.phase.Install? || s.phase.RecoverInstall?) && s.phase.tail == |s.log.lh|
      && s.Holds(s.committer, h, s.area.start)
    case Done => s.phase == Finish || (s.phase.WriteLog? && s.log.lh == [])
    case Crash => true
    case ReadHead(h) =>
      && s.phase == RecoverHead && s.Holds(s.committer, h, s.area.start) && HeaderOk(s.bufs[h].data)
  }

  /** `bwrite` of buffer i after its data became `x`: one atomic disk write, B_DIRTY cleared. */
  function Bwrite(s: State, i: nat, x: Block): State
    requires i < |s.bufs|
  {
    s.(disk := s.disk[s.bufs[i].blockno := x], bufs := s.bufs[i := s.bufs[i].(data := x, dirty := false)])
  }

  function Advance(phase: Phase): Phase
    requires phase.Install? || phase.RecoverInstall?
  {
    if phase.Install? then Install(phase.tail + 1) else RecoverInstall(phase.tail + 1)
  }

  function Do(s: State, step: Step): State
    requires Enabled(s, step)
  {
    match step
    case Begin(p) => s.(log := LogSpace.Do(s.log, BeginOp(p)))
    case Check(p) => s.(log := LogSpace.Do(s.log, Guard(p)))
    case Record(p, i) =>
      var b := s.bufs[i].blockno;
      s.(log := LogSpace.Do(s.log, Append(p, b)),
         bufs := s.bufs[i := s.bufs[i].(dirty := true, pending := false)],
         current := s.current[b := s.bufs[i].data])
    case End(p) =>
      var log := LogSpace.Do(s.log, EndOp(p));
      if log.committing then s.(log := log, phase := WriteLog(0), committer := p) else s.(log := log)
    case GetHit(p, i) => s.(bufs := s.bufs[i := s.bufs[i].(refs := s.bufs[i].refs + {p})])
    case GetMiss(p, b, i) =>
      s.(bufs := s.bufs[i := Buf(ROOTDEV, b, false, false, {p}, s.bufs[i].holder, s.bufs[i].pending, s.bufs[i].data)])
    case Lock(p, i) => s.(bufs := s.bufs[i := s.bufs[i].(holder := Some(p))])
    case Fill(p, i) => s.(bufs := s.bufs[i := s.bufs[i].(valid := true, data := s.disk[s.bufs[i].blockno])])
    case Modify(p, i, data) => s.(bufs := s.bufs[i := s.bufs[i].(data := data, pending := true)])
    case Unlock(p, i) => s.(bufs := s.bufs[i := s.bufs[i].(holder := None)])
    case Put(p, i) => s.(bufs := s.bufs[i := s.bufs[i].(refs := s.bufs[i].refs - {p})])
    case LogBlock(to, from) =>
      Bwrite(s, to, s.bufs[from].data).(phase := WriteLog(s.phase.tail + 1))
    case CommitHead(h) =>
      Bwrite(s, h, Encode(s.bufs[h].data, s.log.lh)).(phase := Install(0), committed := s.current)
    case InstallBlock(l, d) =>
      Bwrite(s, d, s.bufs[l].data).(phase := Advance(s.phase))
    case ClearHead(h) =>
      var t := Bwrite(s, h, Encode(s.bufs[h].data, []));
      if s.phase.Install? then t.(log := s.log.(lh := []), phase := Finish)
      else t.(log := LogSpace.Init, phase := Idle)
    case Done => s.(log := LogSpace.Do(s.log, CommitDone), phase := Idle)
    case Crash => Rebooted(s)
    case ReadHead(h) => s.(log := s.log.(lh := Decode(s.bufs[h].data)), phase := RecoverInstall(0))
  }

  function Blank(b: Buf): Buf { Buf(0, 0, false, false, {}, None, false, b.data) }

  /**
    Only the disk survives.  `initlog` runs before the first system call, which the
    model shows by `committing` holding new operations back until recovery is over.
   */
  function Rebooted(s: State): State {
    s.(bufs := seq(|s.bufs|, i requires 0 <= i < |s.bufs| => Blank(s.bufs[i])),
       log := LogSpace.State([], map[], {}, true), phase := RecoverHead, current := s.committed)
  }

  // ----- the invariant -----

  predicate Unique(bufs: seq<Buf>) {
    forall i, j :: 0 <= i < j < |bufs| && bufs[i].dev == ROOTDEV && bufs[j].dev == ROOTDEV ==>
      bufs[i].blockno != bufs[j].blockno
  }

  /** Contents the block would have if read back now. */
  predicate Fresh(s: State, b: Buf) {
    if s.Recovering() || InLog(s.area, b.blockno) then b.blockno in s.disk && b.data == s.disk[b.blockno]
    else b.pending || (b.blockno in s.current && b.data == s.current[b.blockno])
  }

  /** First logged block whose home copy may be stale. */
  function Low(s: State): nat { if s.phase.Install? then s.phase.tail else 0 }

  predicate Uninstalled(s: State, b: nat) {
    exists k :: Low(s) <= k < |s.log.lh| && s.log.lh[k] == b
  }

  predicate BufOk(s: State, b: Buf) {
    && (b.dev == 0 ==> !b.valid)
    && (b.dev == 0 || b.dev == ROOTDEV)
    && (b.dev == ROOTDEV ==> b.blockno in s.disk)
    && (b.refs != {} ==> b.dev == ROOTDEV)
    && (b.holder.Some? ==> b.holder.value in b.refs)
    && (b.pending ==> b.valid && b.holder.Some? && b.holder.value in s.log.used && !InLog(s.area, b.blockno))
    && (b.dirty ==> b.valid && Uninstalled(s, b.blockno) && !s.Recovering())
    && (b.valid ==> Fresh(s, b))
  }

  predicate BufsOk(s: State) {
    Unique(s.bufs) && forall i :: 0 <= i < |s.bufs| ==> BufOk(s, s.bufs[i])
  }

  predicate PinnedAt(bufs: seq<Buf>, b: nat) {
    exists i :: 0 <= i < |bufs| && bufs[i].dev == ROOTDEV && bufs[i].blockno == b && bufs[i].dirty
  }

  /** Logged blocks not yet installed have a dirty buffer, which bget never recycles. */
  predicate Pinned(s: State) {
    !s.Recovering() ==>
      forall k :: Low(s) <= k < |s.log.lh| ==> PinnedAt(s.bufs, s.log.lh[k])
  }

  predicate Installed(d: Disk, current: Disk, lh: seq<nat>, tail: nat) {
    tail <= |lh| && forall k :: 0 <= k < tail ==> lh[k] in d && lh[k] in current && d[lh[k]] == current[lh[k]]
  }

  /** Blocks outside the running transaction still have their committed contents. */
  predicate OnlyLoggedDiffer(current: Disk, committed: Disk, lh: seq<nat>) {
    forall b :: b in current && b !in lh ==> b in committed && current[b] == committed[b]
  }

  predicate Slots(d: Disk, area: Area, current: Disk, lh: seq<nat>, tail: nat) {
    tail <= |lh| && forall k :: 0 <= k < tail ==>
      lh[k] in current && area.start + 1 + k in d && d[area.start + 1 + k] == current[lh[k]]
  }

  ghost predicate DiskOk(s: State) {
    && LogOnDisk(s.disk, s.area) && HeaderOk(s.disk[s.area.start])
    && Recoverable(s.disk, s.area, s.committed)
    && s.current.Keys == s.committed.Keys
    && HomeBlocks(s.disk, s.area, s.log.lh)
    && var header := Decode(s.disk[s.area.start]);
    match s.phase
    case Idle => header == [] && OnlyLoggedDiffer(s.current, s.committed, s.log.lh)
    case WriteLog(tail) =>
      && tail < s.area.size && header == [] && OnlyLoggedDiffer(s.current, s.committed, s.log.lh)
      && Slots(s.disk, s.area, s.current, s.log.lh, tail)
    case Install(tail) => header == s.log.lh && s.current == s.committed && Installed(s.disk, s.current, s.log.lh, tail)
    case Finish => header == [] == s.log.lh && s.current == s.committed
    case RecoverHead => s.log.lh == [] && s.current == s.committed
    case RecoverInstall(tail) =>
      header == s.log.lh && s.current == s.committed && Installed(s.disk, s.current, s.log.lh, tail)
  }

  /** `log.committing` is set exactly during a commit or recovery, and nothing stays logged between commits. */
  ghost predicate LogOk(s: State) {
    && LogSpace.Inv(s.log) && (s.log.committing <==> s.phase != Idle)
    && (s.phase == Idle && s.log.used == map[] ==> s.log.lh == [])
  }

  ghost predicate Inv(s: State) {
    LogOk(s) && BufsOk(s) && Pinned(s) && DiskOk(s)
  }

  /** A machine just booted on a cleanly formatted disk: buffers zeroed by binit, empty header. */
  ghost predicate Boot(s: State) {
    && s.log == LogSpace.Init && s.phase == Idle
    && (forall i :: 0 <= i < |s.bufs| ==> s.bufs[i] == Blank(s.bufs[i]))
    && LogOnDisk(s.disk, s.area) && HeaderOk(s.disk[s.area.start]) && Decode(s.disk[s.area.start]) == []
    && s.current == s.committed == Home(s.disk, s.area)
  }

  // ----- every step keeps it -----

  lemma BootInv(s: State)
    requires Boot(s)
    ensures Inv(s)
  {
    EmptyHeaderMeaning(s.disk, s.area, s.committed);
  }

  lemma ReplaceUnique(bufs: seq<Buf>, i: nat, b: Buf)
    requires Unique(bufs) && i < |bufs|
    requires (b.dev == bufs[i].dev && b.blockno == bufs[i].blockno)
             || forall j :: 0 <= j < |bufs| && bufs[j].dev == ROOTDEV ==> bufs[j].blockno != b.blockno
    ensures Unique(bufs[i := b])
  {
  }

  lemma ReplacePins(bufs: seq<Buf>, i: nat, b: Buf, x: nat)
    requires i < |bufs| && PinnedAt(bufs, x)
    requires bufs[i].dirty ==> b.dirty && b.dev == bufs[i].dev && b.blockno == bufs[i].blockno
    ensures PinnedAt(bufs[i := b], x)
  {
    var j :| 0 <= j < |bufs| && bufs[j].dev == ROOTDEV && bufs[j].blockno == x && bufs[j].dirty;
    assert bufs[i := b][j].dirty;
  }

  lemma BufOkFrame(s: State, bufs: seq<Buf>, b: Buf)
    requires BufOk(s, b)
    ensures BufOk(s.(bufs := bufs), b)
  {
    var t := s.(bufs := bufs);
    assert Uninstalled(s, b.blockno) ==> Uninstalled(t, b.blockno);
  }

  lemma DiskOkFrame(s: State, bufs: seq<Buf>)
    requires DiskOk(s)
    ensures DiskOk(s.(bufs := bufs))
  {
    hide Recoverable, HomeBlocks, Home, Slots, Installed, OnlyLoggedDiffer;
  }

  /** A step that only replaces buffer i: enough that the new buffer is sound and loses no pin. */
  lemma ReplaceBuf(s: State, i: nat, b: Buf)
    requires Inv(s) && i < |s.bufs| && BufOk(s, b)
    requires s.bufs[i].dirty ==> b.dirty
    requires (b.dev == s.bufs[i].dev && b.blockno == s.bufs[i].blockno)
             || (!s.bufs[i].dirty && !s.Cached(b.blockno))
    ensures Inv(s.(bufs := s.bufs[i := b]))
  {
    var t := s.(bufs := s.bufs[i := b]);
    hide DiskOk, LogSpace.Inv, Unique, PinnedAt, BufOk;
    DiskOkFrame(s, t.bufs);
    forall j | 0 <= j < |t.bufs| ensures BufOk(t, t.bufs[j]) {
      BufOkFrame(s, t.bufs, t.bufs[j]);
    }
    ReplaceUnique(s.bufs, i, b);
    forall k | Low(t) <= k < |t.log.lh| && !t.Recovering() ensures PinnedAt(t.bufs, t.log.lh[k]) {
      ReplacePins(s.bufs, i, b, s.log.lh[k]);
    }
  }

  /** A block logged and not yet installed is in the cache, dirty, so it is not read from disk. */
  lemma LoggedIsDirty(s: State, k: nat, i: nat)
    requires Unique(s.bufs) && Pinned(s) && !s.Recovering()
    requires Low(s) <= k < |s.log.lh|
    requires i < |s.bufs| && s.bufs[i].dev == ROOTDEV && s.bufs[i].blockno == s.log.lh[k]
    ensures s.bufs[i].dirty
  {
    assert PinnedAt(s.bufs, s.log.lh[k]);
    var j :| 0 <= j < |s.bufs| && s.bufs[j].dev == ROOTDEV && s.bufs[j].blockno == s.log.lh[k] && s.bufs[j].dirty;
    assert i == j;
  }

  lemma UninstalledIsDirty(s: State, i: nat)
    requires BufsOk(s) && Pinned(s) && i < |s.bufs| && s.bufs[i].dev == ROOTDEV && !s.Recovering()
    ensures Uninstalled(s, s.bufs[i].blockno) ==> s.bufs[i].dirty
  {
    if Uninstalled(s, s.bufs[i].blockno) {
      var k :| Low(s) <= k < |s.log.lh| && s.log.lh[k] == s.bufs[i].blockno;
      LoggedIsDirty(s, k, i);
    }
  }

  /** A home block that the header on disk does not mention has its committed contents. */
  lemma UnmentionedHome(d: Disk, area: Area, c: Disk, b: nat)
    requires Recoverable(d, area, c) && b in d && !InLog(area, b) && b !in Decode(d[area.start])
    ensures b in c && d[b] == c[b]
  {
    assert b in Home(d, area);
  }

  /** Reading an unfilled buffer from disk gives the current contents. */
  lemma FilledIsFresh(s: State, i: nat)
    requires Inv(s) && i < |s.bufs| && s.bufs[i].dev == ROOTDEV && !s.bufs[i].valid
    requires !s.Recovering() && !InLog(s.area, s.bufs[i].blockno)
    ensures s.bufs[i].blockno in s.current && s.disk[s.bufs[i].blockno] == s.current[s.bufs[i].blockno]
  {
    var b := s.bufs[i].blockno;
    BufFact(s, i);
    UninstalledIsDirty(s, i);
    hide BufsOk, Pinned, LogOk, Recoverable, HomeBlocks, Decode, HeaderOk, Slots;
    if b in s.log.lh {
      var k :| 0 <= k < |s.log.lh| && s.log.lh[k] == b;
      assert k < Low(s);
    } else {
      UnmentionedHome(s.disk, s.area, s.committed, b);
    }
  }

  lemma CacheStep(s: State, step: Step)
    requires Inv(s) && Enabled(s, step)
    requires step.GetHit? || step.GetMiss? || step.Lock? || step.Fill? || step.Modify? || step.Unlock? || step.Put?
    ensures Inv(Do(s, step))
  {
    var i := step.i;
    assert BufOk(s, s.bufs[i]);
    assert s.Recovering() ==> s.log.used == map[];
    if step.Fill? && !s.Recovering() && !InLog(s.area, s.bufs[i].blockno) {
      FilledIsFresh(s, i);
    }
    hide DiskOk, LogOk, Pinned, BufsOk;
    ReplaceBuf(s, i, Do(s, step).bufs[i]);
    assert Do(s, step) == s.(bufs := s.bufs[i := Do(s, step).bufs[i]]);
  }

  /** A step that touches neither disk nor buffers nor the list of logged blocks. */
  lemma LogOnly(s: State, t: State)
    requires Inv(s) && LogOk(t)
    requires t == s.(log := t.log, phase := t.phase, committer := t.committer) && t.log.lh == s.log.lh
    requires || t.phase == s.phase
             || (s.phase == Idle && t.phase == WriteLog(0))
             || (s.phase != Idle && !s.Recovering() && s.log.lh == [] && t.phase == Idle)
    requires forall i :: 0 <= i < |s.bufs| && s.bufs[i].pending ==>
               s.bufs[i].holder.Some? && s.bufs[i].holder.value in t.log.used
    ensures Inv(t)
  {
    hide LogOk, Recoverable, HomeBlocks, Home, Decode;
    forall i | 0 <= i < |t.bufs| ensures BufOk(t, t.bufs[i]) {
      assert BufOk(s, s.bufs[i]);
      if s.bufs[i].dirty {
        var m :| Low(s) <= m < |s.log.lh| && s.log.lh[m] == s.bufs[i].blockno;
        assert t.log.lh[m] == s.bufs[i].blockno;
      }
    }
  }

  lemma OpStep(s: State, step: Step)
    requires Inv(s) && Enabled(s, step) && (step.Begin? || step.Check? || step.End?)
    ensures Inv(Do(s, step))
  {
    var t := Do(s, step);
    match step {
      case Begin(p) => StepKeepsInv(s.area.size, s.log, BeginOp(p));
      case Check(p) => StepKeepsInv(s.area.size, s.log, Guard(p));
      case End(p) => StepKeepsInv(s.area.size, s.log, EndOp(p));
    }
    hide LogSpace.Inv, Pinned, DiskOk;
    forall i | 0 <= i < |s.bufs| && s.bufs[i].pending
      ensures s.bufs[i].holder.Some? && s.bufs[i].holder.value in t.log.used
    {
      assert BufOk(s, s.bufs[i]);
    }
    LogOnly(s, t);
  }

  lemma DoneStep(s: State)
    requires Inv(s) && Enabled(s, Done)
    ensures Inv(Do(s, Done))
  {
    StepKeepsInv(s.area.size, s.log, CommitDone);
    assert s.log.lh == [];
    forall i | 0 <= i < |s.bufs| ensures !s.bufs[i].pending {
      NoPending(s, i);
    }
    hide LogSpace.Inv, Pinned, DiskOk, BufsOk;
    LogOnly(s, Do(s, Done));
  }

  lemma RecordDisk(s: State, p: Pid, i: nat)
    requires Inv(s) && Enabled(s, Record(p, i))
    ensures LogOk(Do(s, Record(p, i))) && DiskOk(Do(s, Record(p, i)))
  {
    hide BufsOk, Pinned, Unused, Recoverable, Decode;
    var t := Do(s, Record(p, i));
    var b := s.bufs[i].blockno;
    RecordList(s, p, i);
    CommittedKeys(s);
    assert b in Home(s.disk, s.area);
  }

  lemma CommittedKeys(s: State)
    requires DiskOk(s)
    ensures s.committed.Keys == Home(s.disk, s.area).Keys
  {
  }

  lemma RecordList(s: State, p: Pid, i: nat)
    requires LogOk(s) && HomeBlocks(s.disk, s.area, s.log.lh) && Enabled(s, Record(p, i))
    ensures LogOk(Do(s, Record(p, i))) && HomeBlocks(s.disk, s.area, Do(s, Record(p, i)).log.lh)
  {
    var b := s.bufs[i].blockno;
    StepKeepsInv(s.area.size, s.log, Append(p, b));
    UnusedBounds(Do(s, Record(p, i)).log.used);
    assert b in Home(s.disk, s.area);
  }

  /** What log_write does to its buffer and the header. */
  predicate Recorded(s: State, t: State, i: nat)
    requires i < |s.bufs|
  {
    var b := s.bufs[i].blockno;
    && t == s.(log := t.log, bufs := s.bufs[i := s.bufs[i].(dirty := true, pending := false)],
               current := s.current[b := s.bufs[i].data])
    && t.log.lh == (if b in s.log.lh then s.log.lh else s.log.lh + [b])
    && t.log.used.Keys == s.log.used.Keys
  }

  lemma RecordBufs(s: State, t: State, i: nat)
    requires BufsOk(s) && s.phase == Idle && i < |s.bufs| && Recorded(s, t, i)
    requires s.bufs[i].dev == ROOTDEV && s.bufs[i].valid && !InLog(s.area, s.bufs[i].blockno)
    ensures BufsOk(t)
  {
    var b := s.bufs[i].blockno;
    assert Uninstalled(t, b) by {
      var k :| 0 <= k < |t.log.lh| && t.log.lh[k] == b;
    }
    forall j | 0 <= j < |t.bufs| ensures BufOk(t, t.bufs[j]) {
      assert BufOk(s, s.bufs[j]);
      if s.bufs[j].dirty {
        var m :| Low(s) <= m < |s.log.lh| && s.log.lh[m] == s.bufs[j].blockno;
        assert t.log.lh[m] == s.bufs[j].blockno;
      }
    }
  }

  lemma RecordPins(s: State, t: State, i: nat)
    requires Pinned(s) && s.phase == Idle && i < |s.bufs| && Recorded(s, t, i) && s.bufs[i].dev == ROOTDEV
    ensures Pinned(t)
  {
    forall k | 0 <= k < |t.log.lh| ensures PinnedAt(t.bufs, t.log.lh[k]) {
      if t.log.lh[k] == s.bufs[i].blockno {
        assert t.bufs[i].dirty;
      } else {
        assert PinnedAt(s.bufs, s.log.lh[k]);
        var j :| 0 <= j < |s.bufs| && s.bufs[j].dev == ROOTDEV && s.bufs[j].blockno == s.log.lh[k] && s.bufs[j].dirty;
        assert t.bufs[j].dirty;
      }
    }
  }

  lemma RecordStep(s: State, p: Pid, i: nat)
    requires Inv(s) && Enabled(s, Record(p, i))
    ensures Inv(Do(s, Record(p, i)))
  {
    RecordDisk(s, p, i);
    assert s.phase == Idle;
    hide DiskOk, BufsOk, Pinned, LogSpace.Inv;
    RecordBufs(s, Do(s, Record(p, i)), i);
    RecordPins(s, Do(s, Record(p, i)), i);
  }

  /** After a disk write through buffer i, the other buffers are as sound as before. */
  lemma WrittenBufs(s: State, i: nat, x: Block, t: State)
    requires BufsOk(s) && i < |s.bufs| && s.bufs[i].dev == ROOTDEV && s.bufs[i].valid
    requires t.disk == Bwrite(s, i, x).disk && t.bufs == Bwrite(s, i, x).bufs
    requires t.area == s.area && t.current == s.current && t.log.used == s.log.used
    requires t.Recovering() == s.Recovering()
    requires forall j :: 0 <= j < |s.bufs| && j != i && s.bufs[j].dirty ==> Uninstalled(t, s.bufs[j].blockno)
    requires !s.bufs[i].pending && Fresh(t, t.bufs[i])
    ensures BufsOk(t)
  {
    assert BufOk(s, s.bufs[i]);
    forall j | 0 <= j < |t.bufs| ensures BufOk(t, t.bufs[j]) {
      assert BufOk(s, s.bufs[j]);
      if j != i && s.bufs[j].valid {
        assert s.bufs[j].blockno != s.bufs[i].blockno;
      }
    }
  }

  /** A write through a buffer that was not pinned keeps the pins of the listed blocks. */
  lemma WrittenPins(s: State, i: nat, x: Block, b: nat)
    requires i < |s.bufs| && PinnedAt(s.bufs, b) && s.bufs[i].blockno != b
    ensures PinnedAt(Bwrite(s, i, x).bufs, b)
  {
    var j :| 0 <= j < |s.bufs| && s.bufs[j].dev == ROOTDEV && s.bufs[j].blockno == b && s.bufs[j].dirty;
    assert Bwrite(s, i, x).bufs[j].dirty;
  }

  /** While a commit runs no operation does, so no buffer holds an unlogged change. */
  lemma NoPending(s: State, i: nat)
    requires Inv(s) && s.phase != Idle && i < |s.bufs|
    ensures !s.bufs[i].pending
  {
    assert BufOk(s, s.bufs[i]);
  }

  /** write_log copies the current contents of the block it is at. */
  lemma LoggedData(s: State, i: nat, k: nat)
    requires Inv(s) && s.phase.WriteLog? && k < |s.log.lh| && s.Holds(s.committer, i, s.log.lh[k])
    ensures s.log.lh[k] in s.current && s.bufs[i].data == s.current[s.log.lh[k]]
  {
    HomeBlocksFacts(s.disk, s.area, s.log.lh);
    NoPending(s, i);
    assert BufOk(s, s.bufs[i]);
  }

  /** install_trans copies the contents the transaction committed. */
  lemma SlotData(s: State, i: nat, k: nat)
    requires BufsOk(s) && DiskOk(s) && (s.phase.Install? || s.phase.RecoverInstall?) && k < |s.log.lh|
    requires s.Holds(s.committer, i, s.area.start + 1 + k)
    ensures s.log.lh[k] in s.current && s.area.start + 1 + k in s.disk
    ensures s.bufs[i].data == s.current[s.log.lh[k]] == s.disk[s.area.start + 1 + k]
    ensures !InLog(s.area, s.log.lh[k]) && Distinct(s.log.lh)
  {
    hide Recoverable, Home, Decode;
    assert BufOk(s, s.bufs[i]);
    RecoverableFacts(s.disk, s.area, s.committed, k);
  }

  lemma LogSlotDisk(s: State, t: State, k: nat)
    requires DiskOk(s) && s.phase.WriteLog? && k == s.phase.tail < |s.log.lh| && s.log.lh[k] in s.current
    requires k + 1 < s.area.size
    requires t == s.(disk := s.disk[s.area.start + 1 + k := s.current[s.log.lh[k]]], bufs := t.bufs,
               phase := WriteLog(k + 1))
    ensures DiskOk(t)
  {
    hide Recoverable, HomeBlocks, Home, Decode;
    HomeBlocksFacts(s.disk, s.area, s.log.lh);
    SlotWriteIsSilent(s.disk, s.area, k, s.current[s.log.lh[k]]);
    EmptyHeaderMeaning(s.disk, s.area, s.committed);
    SameHomeBlocks(s.disk, t.disk, s.area, s.log.lh);
  }

  lemma LogBlockDisk(s: State, to: nat, from: nat)
    requires Inv(s) && Enabled(s, LogBlock(to, from)) && Contained(s, LogBlock(to, from))
    ensures DiskOk(Do(s, LogBlock(to, from)))
  {
    hide BufsOk, Pinned, LogOk, DiskOk;
    LoggedData(s, from, s.phase.tail);
    LogSlotDisk(s, Do(s, LogBlock(to, from)), s.phase.tail);
  }

  lemma LogBlockBufs(s: State, to: nat, from: nat)
    requires Inv(s) && Enabled(s, LogBlock(to, from)) && Contained(s, LogBlock(to, from))
    ensures BufsOk(Do(s, LogBlock(to, from))) && Pinned(Do(s, LogBlock(to, from)))
  {
    var t := Do(s, LogBlock(to, from));
    var x := s.bufs[from].data;
    NoPending(s, to);
    HomeBlocksFacts(s.disk, s.area, s.log.lh);
    hide Recoverable, HomeBlocks, Home, LogOk;
    WrittenBufs(s, to, x, t);
    forall j | 0 <= j < |t.log.lh| ensures PinnedAt(t.bufs, t.log.lh[j]) {
      WrittenPins(s, to, x, s.log.lh[j]);
    }
  }

  /** The commit point: with every slot filled, the header write makes the disk stand for `current`. */
  lemma CommitPoint(s: State, hb: Block)
    requires DiskOk(s) && s.phase == WriteLog(|s.log.lh|) && HeaderOk(hb) && Decode(hb) == s.log.lh
    ensures Recoverable(s.disk[s.area.start := hb], s.area, s.current)
  {
    var d := s.disk[s.area.start := hb];
    assert Home(d, s.area) == Home(s.disk, s.area);
    EmptyHeaderMeaning(s.disk, s.area, s.committed);
    assert forall b :: b in s.committed ==> b in Home(s.disk, s.area);
    SameHomeBlocks(s.disk, d, s.area, s.log.lh);
  }

  lemma CommitHeadDisk(s: State, h: nat)
    requires Inv(s) && Enabled(s, CommitHead(h))
    ensures DiskOk(Do(s, CommitHead(h)))
  {
    var t := Do(s, CommitHead(h));
    hide BufsOk, Pinned, LogOk, Recoverable, HomeBlocks, Home, Decode;
    CommitPoint(s, t.bufs[h].data);
    RecoverableHomeBlocks(t.disk, t.area, t.committed);
  }

  lemma CommitHeadBufs(s: State, h: nat)
    requires Inv(s) && Enabled(s, CommitHead(h))
    ensures BufsOk(Do(s, CommitHead(h))) && Pinned(Do(s, CommitHead(h)))
  {
    var t := Do(s, CommitHead(h));
    var hb := t.bufs[h].data;
    NoPending(s, h);
    HomeBlocksFacts(s.disk, s.area, s.log.lh);
    hide Recoverable, HomeBlocks, Home, LogOk, Decode;
    WrittenBufs(s, h, hb, t);
    forall j | 0 <= j < |t.log.lh| ensures PinnedAt(t.bufs, t.log.lh[j]) {
      WrittenPins(s, h, hb, s.log.lh[j]);
    }
  }

  lemma InstallDisk(s: State, t: State, k: nat)
    requires DiskOk(s) && (s.phase.Install? || s.phase.RecoverInstall?) && k == s.phase.tail < |s.log.lh|
    requires s.area.start + 1 + k in s.disk
    requires t == s.(disk := s.disk[s.log.lh[k] := s.disk[s.area.start + 1 + k]], bufs := t.bufs,
               phase := Advance(s.phase))
    ensures DiskOk(t)
  {
    hide Recoverable, HomeBlocks, Decode;
    RecoverableFacts(s.disk, s.area, s.committed, k);
    InstallKeepsMeaning(s.disk, s.area, s.committed, k);
    RecoverableHomeBlocks(t.disk, t.area, t.committed);
    assert t.disk[t.area.start] == s.disk[s.area.start];
  }

  lemma InstallBufs(s: State, t: State, k: nat, d: nat, x: Block)
    requires BufsOk(s) && Pinned(s) && (s.phase.Install? || s.phase.RecoverInstall?) && k == s.phase.tail < |s.log.lh|
    requires Distinct(s.log.lh) && s.Holds(s.committer, d, s.log.lh[k]) && !s.bufs[d].pending
    requires s.log.lh[k] in s.current && x == s.current[s.log.lh[k]] && !InLog(s.area, s.log.lh[k])
    requires t == Bwrite(s, d, x).(phase := Advance(s.phase))
    ensures BufsOk(t) && Pinned(t)
  {
    forall j | 0 <= j < |s.bufs| && j != d && s.bufs[j].dirty ensures Uninstalled(t, s.bufs[j].blockno) {
      assert BufOk(s, s.bufs[j]);
      var m :| Low(s) <= m < |s.log.lh| && s.log.lh[m] == s.bufs[j].blockno;
      assert t.log.lh[m] == s.bufs[j].blockno;
    }
    assert BufOk(s, s.bufs[d]);
    WrittenBufs(s, d, x, t);
    forall j | k < j < |t.log.lh| && !t.Recovering() ensures PinnedAt(t.bufs, t.log.lh[j]) {
      WrittenPins(s, d, x, s.log.lh[j]);
    }
  }

  lemma InstallBlockStep(s: State, l: nat, d: nat)
    requires Inv(s) && Enabled(s, InstallBlock(l, d))
    ensures Inv(Do(s, InstallBlock(l, d)))
  {
    var t := Do(s, InstallBlock(l, d));
    var k := s.phase.tail;
    hide BufsOk, Pinned, DiskOk, LogSpace.Inv;
    SlotData(s, l, k);
    NoPending(s, d);
    InstallDisk(s, t, k);
    InstallBufs(s, t, k, d, s.bufs[l].data);
  }

  lemma ClearHeadDisk(s: State, h: nat)
    requires Inv(s) && Enabled(s, ClearHead(h))
    ensures DiskOk(Do(s, ClearHead(h)))
  {
    hide BufsOk, Pinned, LogOk, Recoverable, Home;
    var t := Do(s, ClearHead(h));
    AllInstalled(s.disk, s.area, s.committed);
    HeadEraseIsSilent(s.disk, s.area, t.bufs[h].data);
  }

  lemma ClearHeadBufs(s: State, h: nat)
    requires Inv(s) && Enabled(s, ClearHead(h))
    ensures BufsOk(Do(s, ClearHead(h))) && Pinned(Do(s, ClearHead(h)))
  {
    hide Recoverable, HomeBlocks, Decode, Encode, HeaderOk, LogSpace.Inv;
    var t := Do(s, ClearHead(h));
    AllInstalled(s.disk, s.area, s.committed);
    forall j | 0 <= j < |t.bufs| ensures BufOk(t, t.bufs[j]) {
      NoPending(s, j);
      assert BufOk(s, s.bufs[j]);
      assert s.bufs[j].valid && !InLog(s.area, s.bufs[j].blockno) ==> s.bufs[j].blockno in Home(s.disk, s.area);
    }
  }

  lemma RebootStep(s: State)
    requires Inv(s)
    ensures Inv(Rebooted(s))
  {
    hide Recoverable, Home;
  }

  lemma BufFact(s: State, i: nat)
    requires Inv(s) && i < |s.bufs|
    ensures BufOk(s, s.bufs[i])
  {
  }

  lemma ReadHeadBufs(s: State, h: nat)
    requires Inv(s) && Enabled(s, ReadHead(h))
    ensures BufsOk(Do(s, ReadHead(h))) && Pinned(Do(s, ReadHead(h)))
  {
    hide Recoverable, Home, DiskOk, LogOk;
    var t := Do(s, ReadHead(h));
    forall i | 0 <= i < |t.bufs| ensures BufOk(t, t.bufs[i]) { BufFact(s, i); }
  }

  lemma ReadHeadDisk(s: State, h: nat)
    requires Inv(s) && Enabled(s, ReadHead(h))
    ensures DiskOk(Do(s, ReadHead(h))) && LogOk(Do(s, ReadHead(h)))
  {
    BufFact(s, h);
    RecoverableHomeBlocks(s.disk, s.area, s.committed);
    hide Recoverable, Home, BufsOk, Pinned;
  }

  /** write_log writes to a slot of the log area, not past its end. */
  predicate Contained(s: State, step: Step) {
    step.LogBlock? && s.phase.WriteLog? ==> s.phase.tail + 1 < s.area.size
  }

  lemma ContainedInv(s: State, step: Step)
    requires Inv(s) && Enabled(s, step) && Contained(s, step)
    ensures Inv(Do(s, step))
  {
    hide BufsOk, Pinned, DiskOk;
    match step
    case Record(p, i) => RecordStep(s, p, i);
    case LogBlock(to, from) => LogBlockDisk(s, to, from); LogBlockBufs(s, to, from);
    case CommitHead(h) => CommitHeadDisk(s, h); CommitHeadBufs(s, h);
    case InstallBlock(l, d) => InstallBlockStep(s, l, d);
    case ClearHead(h) => ClearHeadDisk(s, h); ClearHeadBufs(s, h);
    case Crash => RebootStep(s);
    case ReadHead(h) => ReadHeadDisk(s, h); ReadHeadBufs(s, h);
    case Begin(p) => OpStep(s, step);
    case Check(p) => OpStep(s, step);
    case End(p) => OpStep(s, step);
    case Done => DoneStep(s);
    case _ => CacheStep(s, step);
  }

  /** Every step keeps the invariant, but for a write of write_log past the log area. */
  lemma StepInv(s: State, step: Step)
    requires Inv(s) && Enabled(s, step)
    ensures Inv(Do(s, step)) <==> Contained(s, step)
  {
    if Contained(s, step) {
      hide Inv;
      ContainedInv(s, step);
    } else {
      assert !DiskOk(Do(s, step));
    }
  }

  // ----- whole runs -----

  /** A run: `steps[i]` takes `states[i]` to `states[i + 1]`. */
  ghost predicate IsRun(states: seq<State>, steps: seq<Step>) {
    && |states| == |steps| + 1 && Boot(states[0])
    && forall i :: 0 <= i < |steps| ==> Enabled(states[i], steps[i]) && states[i + 1] == Do(states[i], steps[i])
  }

  /** Up to step n, write_log has stayed inside the log area. */
  ghost predicate Inside(states: seq<State>, steps: seq<Step>, n: nat) {
    n <= |steps| <= |states| && forall i :: 0 <= i < n ==> Contained(states[i], steps[i])
  }

  lemma {:induction false} RunInv(states: seq<State>, steps: seq<Step>, n: nat)
    requires IsRun(states, steps) && Inside(states, steps, n)
    ensures Inv(states[n]) && states[n].area == states[0].area && states[n].disk.Keys == states[0].disk.Keys
  {
    hide Inv, Boot;
    if n == 0 {
      BootInv(states[0]);
    } else {
      RunInv(states, steps, n - 1);
      StepInv(states[n - 1], steps[n - 1]);
      StepKeepsKeys(states[n - 1], steps[n - 1]);
    }
  }

  lemma StepKeepsKeys(s: State, step: Step)
    requires Inv(s) && Enabled(s, step)
    ensures Do(s, step).area == s.area && Do(s, step).disk.Keys == s.disk.Keys
  {
    hide Inv;
    if step.LogBlock? { BufFact(s, step.to); }
    if step.CommitHead? || step.ClearHead? { BufFact(s, step.h); }
    if step.InstallBlock? { BufFact(s, step.d); }
  }

  // ----- what runs keep that write behind the log area, too -----

  /** The list names distinct blocks outside the log area. */
  predicate Listed(s: State, lh: seq<nat>) {
    |lh| <= LOGSIZE && Distinct(lh) && forall k :: 0 <= k < |lh| ==> s.IsHome(lh[k])
  }

  /** A buffer of the header block has what is on disk. */
  predicate HeadBuf(s: State, b: Buf) {
    b.dev == ROOTDEV ==>
      b.blockno in s.disk && (b.valid && b.blockno == s.area.start ==> b.data == s.disk[s.area.start])
  }

  predicate TailOk(s: State) {
    s.phase.WriteLog? || s.phase.Install? || s.phase.RecoverInstall? ==> s.phase.tail <= |s.log.lh|
  }

  /** The header on disk and the one in memory are lists the code has made. */
  ghost predicate Sound(s: State) {
    && LogOk(s) && TailOk(s) && Unique(s.bufs) && Listed(s, s.log.lh) && LogOnDisk(s.disk, s.area)
    && HeaderOk(s.disk[s.area.start]) && Listed(s, Decode(s.disk[s.area.start]))
    && forall i :: 0 <= i < |s.bufs| ==> HeadBuf(s, s.bufs[i])
  }

  lemma SoundLog(s: State, step: Step)
    requires Sound(s) && Enabled(s, step)
    ensures LogOk(Do(s, step)) && TailOk(Do(s, step)) && Listed(s, Do(s, step).log.lh)
  {
    if step.Record? {
      SoundRecord(s, step.p, step.i);
    } else if step.Begin? || step.Check? || step.End? || step.Done? {
      SoundOp(s, step);
    } else {
      SoundOther(s, step);
    }
  }

  lemma SoundOp(s: State, step: Step)
    requires Sound(s) && Enabled(s, step) && (step.Begin? || step.Check? || step.End? || step.Done?)
    ensures LogOk(Do(s, step)) && TailOk(Do(s, step)) && Listed(s, Do(s, step).log.lh)
  {
    hide Unique, HeadBuf, LogOnDisk, Decode;
    match step {
      case Begin(p) => StepKeepsInv(s.area.size, s.log, BeginOp(p));
      case Check(p) => StepKeepsInv(s.area.size, s.log, Guard(p));
      case End(p) => StepKeepsInv(s.area.size, s.log, EndOp(p));
      case Done => StepKeepsInv(s.area.size, s.log, CommitDone);
    }
  }

  lemma EmptyLogOk(committing: bool)
    ensures LogSpace.Inv(LogSpace.State([], map[], {}, committing))
  {
  }

  lemma CommittingLogOk(s: LogSpace.State, lh: seq<nat>)
    requires LogSpace.Inv(s) && s.used == map[] && Distinct(lh) && |lh| <= LOGSIZE
    ensures LogSpace.Inv(s.(lh := lh))
  {
  }

  lemma SoundOther(s: State, step: Step)
    requires Sound(s) && Enabled(s, step)
    requires !step.Record? && !step.Begin? && !step.Check? && !step.End? && !step.Done?
    ensures LogOk(Do(s, step)) && TailOk(Do(s, step)) && Listed(s, Do(s, step).log.lh)
  {
    hide Unique, HeadBuf, Encode, LogSpace.Inv, LogSpace.Enabled, LogSpace.Do;
    EmptyLogOk(true);
    EmptyLogOk(false);
    if step.ReadHead? { ReadHeader(s, step.h); }
    if s.phase != Idle {
      NoneOutstanding(s);
      CommittingLogOk(s.log, []);
      CommittingLogOk(s.log, Decode(s.disk[s.area.start]));
    }
  }

  lemma ReadHeader(s: State, h: nat)
    requires Sound(s) && h < |s.bufs| && s.Holds(s.committer, h, s.area.start)
    ensures s.bufs[h].data == s.disk[s.area.start] && HeaderOk(s.bufs[h].data)
  {
    assert HeadBuf(s, s.bufs[h]);
  }

  lemma SoundRecord(s: State, p: Pid, i: nat)
    requires Sound(s) && Enabled(s, Record(p, i))
    ensures LogOk(Do(s, Record(p, i))) && TailOk(Do(s, Record(p, i))) && Listed(s, Do(s, Record(p, i)).log.lh)
  {
    hide Unique, HeadBuf, LogOnDisk, Decode;
    StepKeepsInv(s.area.size, s.log, Append(p, s.bufs[i].blockno));
    UnusedBounds(Do(s, Record(p, i)).log.used);
  }

  lemma SoundDisk(s: State, step: Step)
    requires Sound(s) && Enabled(s, step)
    ensures var t := Do(s, step);
            && t.area == s.area && t.disk.Keys == s.disk.Keys
            && HeaderOk(t.disk[s.area.start]) && Listed(s, Decode(t.disk[s.area.start]))
  {
    hide LogOk, Decode, HeaderOk, Unique;
    if step.LogBlock? { assert HeadBuf(s, s.bufs[step.to]); }
    if step.CommitHead? || step.ClearHead? { assert HeadBuf(s, s.bufs[step.h]); }
    if step.InstallBlock? { assert HeadBuf(s, s.bufs[step.d]) && s.IsHome(s.log.lh[s.phase.tail]); }
  }

  lemma SoundBufs(s: State, step: Step, j: nat)
    requires Sound(s) && Enabled(s, step) && j < |Do(s, step).bufs|
    requires Do(s, step).area == s.area && Do(s, step).disk.Keys == s.disk.Keys
    ensures HeadBuf(Do(s, step), Do(s, step).bufs[j])
  {
    hide LogOk, Encode, Decode, HeaderOk, Listed, LogSpace.Enabled, LogSpace.Do;
    assert j < |s.bufs| && HeadBuf(s, s.bufs[j]);
    if step.InstallBlock? { assert HeadBuf(s, s.bufs[step.d]); }
  }

  lemma SoundStep(s: State, step: Step)
    requires Sound(s) && Enabled(s, step)
    ensures Sound(Do(s, step)) && Do(s, step).area == s.area && Do(s, step).disk.Keys == s.disk.Keys
  {
    var t := Do(s, step);
    SoundLog(s, step);
    SoundDisk(s, step);
    UniqueStep(s, step);
    forall j | 0 <= j < |t.bufs| ensures HeadBuf(t, t.bufs[j]) { SoundBufs(s, step, j); }
  }

  lemma {:induction false} SoundRun(states: seq<State>, steps: seq<Step>, n: nat)
    requires IsRun(states, steps) && n <= |steps|
    ensures Sound(states[n]) && states[n].area == states[0].area && states[n].disk.Keys == states[0].disk.Keys
  {
    if n > 0 {
      SoundRun(states, steps, n - 1);
      hide Sound;
      SoundStep(states[n - 1], steps[n - 1]);
    }
  }

  // ----- commits end, and operations are let in again -----

  /** Steps of commit, of recovery and of the end of end_op. */
  predicate Works(step: Step) {
    step.LogBlock? || step.CommitHead? || step.InstallBlock? || step.ClearHead? || step.Done? || step.ReadHead?
  }

  /** How many of them are left. */
  ghost function Remaining(s: State): nat
    requires Sound(s)
  {
    match s.phase
    case Idle => 0
    case Finish => 1
    case WriteLog(tail) => if s.log.lh == [] then 1 else |s.log.lh| - tail + |s.log.lh| + 3
    case Install(tail) => |s.log.lh| - tail + 2
    case RecoverHead => |Decode(s.disk[s.area.start])| + 2
    case RecoverInstall(tail) => |s.log.lh| - tail + 1
  }

  /** The blocks the committer must have in its hands for the next one. */
  function Needed(s: State): set<nat> {
    match s.phase
    case Idle => {}
    case Finish => {}
    case WriteLog(tail) =>
      if tail < |s.log.lh| then {s.area.start + 1 + tail, s.log.lh[tail]}
      else if s.log.lh == [] then {}
      else {s.area.start}
    case Install(tail) => if tail < |s.log.lh| then {s.area.start + 1 + tail, s.log.lh[tail]} else {s.area.start}
    case RecoverHead => {s.area.start}
    case RecoverInstall(tail) => if tail < |s.log.lh| then {s.area.start + 1 + tail, s.log.lh[tail]} else {s.area.start}
  }

  ghost predicate InHand(s: State, b: nat) { exists i: nat :: s.Holds(s.committer, i, b) }

  /** bread of an uncached block: the recycled buffer ends locked and filled with the disk's contents. */
  lemma BreadMiss(s: State, p: Pid, b: nat, i: nat)
    requires b in s.disk && !s.Cached(b) && i < |s.bufs|
    requires s.bufs[i].refs == {} && !s.bufs[i].dirty && s.bufs[i].holder == None
    ensures Enabled(s, GetMiss(p, b, i))
    ensures var s1 := Do(s, GetMiss(p, b, i));
            && Enabled(s1, Lock(p, i)) && Enabled(Do(s1, Lock(p, i)), Fill(p, i))
            && var t := Do(Do(s1, Lock(p, i)), Fill(p, i));
            && t.Holds(p, i, b) && t.bufs[i].data == s.disk[b] && t.bufs[i].refs == {p}
            && t == s.(bufs := s.bufs[i := t.bufs[i]])
  {
  }

  /** bread of a cached block whose lock is free. */
  lemma BreadHit(s: State, p: Pid, b: nat, i: nat)
    requires b in s.disk && i < |s.bufs| && s.bufs[i].dev == ROOTDEV && s.bufs[i].blockno == b
    requires p !in s.bufs[i].refs && s.bufs[i].holder == None
    ensures Enabled(s, GetHit(p, i)) && Enabled(Do(s, GetHit(p, i)), Lock(p, i))
    ensures var s2 := Do(Do(s, GetHit(p, i)), Lock(p, i));
            && (!s.bufs[i].valid ==> Enabled(s2, Fill(p, i)))
            && var t := if s.bufs[i].valid then s2 else Do(s2, Fill(p, i));
            && t.Holds(p, i, b) && t.bufs[i].refs == s.bufs[i].refs + {p}
            && t.bufs[i].data == (if s.bufs[i].valid then s.bufs[i].data else s.disk[b])
            && t == s.(bufs := s.bufs[i := t.bufs[i]])
  {
  }

  /** A change made in an operation with room left goes into the log. */
  lemma WriteGoesThrough(s: State, p: Pid, i: nat, b: nat, x: Block)
    requires s.Holds(p, i, b) && s.IsHome(b)
    requires p in s.log.used && p !in s.log.passed && !TooBig(s.log, s.area.size)
    requires b in s.log.lh || s.log.used[p] < MAXOPBLOCKS
    ensures Enabled(s, Modify(p, i, x))
    ensures var s1 := Do(s, Modify(p, i, x));
            && Enabled(s1, Check(p)) && Enabled(Do(s1, Check(p)), Record(p, i))
            && var t := Do(Do(s1, Check(p)), Record(p, i));
            && b in t.log.lh && p in t.log.used && p !in t.log.passed
            && t.bufs == s.bufs[i := s.bufs[i].(data := x, dirty := true, pending := false)]
            && t == s.(bufs := t.bufs, log := t.log, current := s.current[b := x])
  {
  }

  /** A buffer with nothing unlogged in it can be given up, and an operation with none left can end. */
  lemma GivesUp(s: State, p: Pid, i: nat)
    requires i < |s.bufs| && s.bufs[i].holder == Some(p) && p in s.bufs[i].refs && !s.bufs[i].pending
    ensures Enabled(s, Unlock(p, i)) && Enabled(Do(s, Unlock(p, i)), Put(p, i))
    ensures var t := Do(Do(s, Unlock(p, i)), Put(p, i));
            t == s.(bufs := s.bufs[i := s.bufs[i].(holder := None, refs := s.bufs[i].refs - {p})])
    ensures p in s.log.used && p !in s.log.passed && NothingPending(s, p) ==> Enabled(s, End(p))
  {
  }

  predicate NothingPending(s: State, p: Pid) {
    forall i :: 0 <= i < |s.bufs| ==> s.bufs[i].holder == Some(p) ==> !s.bufs[i].pending
  }

  /** A crash can come at any time; it leaves the disk, and every buffer free to read it. */
  lemma CrashLeaves(s: State, i: nat)
    requires i < |s.bufs|
    ensures Enabled(s, Crash)
    ensures var t := Do(s, Crash);
            && t.disk == s.disk && t.phase == RecoverHead && |t.bufs| == |s.bufs|
            && t.bufs[i].refs == {} && !t.bufs[i].dirty && t.bufs[i].holder == None && !t.bufs[i].valid
            && (forall b :: !t.Cached(b))
  {
  }

  /** With its blocks in hand, commit or recovery can always go on. */
  lemma CommitGoesOn(s: State)
    requires Sound(s) && s.phase != Idle && forall b :: b in Needed(s) ==> InHand(s, b)
    ensures exists step :: Works(step) && Enabled(s, step)
  {
    var start, lh := s.area.start, s.log.lh;
    if s.phase == Finish || (s.phase.WriteLog? && lh == []) {
      assert Enabled(s, Done);
    } else if s.phase == RecoverHead || s.phase.tail == |lh| {
      assert InHand(s, start);
      var h: nat :| s.Holds(s.committer, h, start);
      ReadHeader(s, h);
      var step := if s.phase == RecoverHead then ReadHead(h)
                  else if s.phase.WriteLog? then CommitHead(h)
                  else ClearHead(h);
      assert Enabled(s, step);
    } else {
      assert InHand(s, start + 1 + s.phase.tail) && InHand(s, lh[s.phase.tail]);
      var i: nat :| s.Holds(s.committer, i, start + 1 + s.phase.tail);
      var j: nat :| s.Holds(s.committer, j, lh[s.phase.tail]);
      assert Enabled(s, if s.phase.WriteLog? then LogBlock(i, j) else InstallBlock(i, j));
    }
  }

  /** Each such step brings the end nearer by one, and no other step but a crash takes it away. */
  lemma OneNearer(s: State, step: Step)
    requires Sound(s) && Enabled(s, step) && Sound(Do(s, step)) && !step.Crash? && s.phase != Idle
    ensures Remaining(Do(s, step)) == Remaining(s) - (if Works(step) then 1 else 0)
  {
    hide Sound, Unique, Decode;
    NoneOutstanding(s);
    if step.ReadHead? { ReadHeader(s, step.h); }
  }

  lemma NoneOutstanding(s: State)
    requires Sound(s) && s.phase != Idle
    ensures s.log.used == map[] && s.log.committing && TailOk(s)
  {
  }

  function Worked(steps: seq<Step>, m: nat, n: nat): nat
    requires m <= n <= |steps|
    decreases n
  {
    if m == n then 0 else Worked(steps, m, n - 1) + (if Works(steps[n - 1]) then 1 else 0)
  }

  /** A commit or recovery without a crash is over exactly when it has made its steps, which are known beforehand. */
  lemma {:induction false} CommitEnds(states: seq<State>, steps: seq<Step>, m: nat, n: nat)
    requires IsRun(states, steps) && m <= n <= |steps|
    requires forall i :: m <= i < n ==> states[i].phase != Idle && !steps[i].Crash?
    ensures Sound(states[m]) && Sound(states[n])
    ensures Remaining(states[n]) + Worked(steps, m, n) == Remaining(states[m])
    ensures states[n].phase == Idle <==> Worked(steps, m, n) == Remaining(states[m])
    decreases n
  {
    hide *;
    RunLength(states, steps);
    SoundRun(states, steps, m);
    SoundRun(states, steps, n);
    IdleIff(states[n]);
    MoreWorked(steps, m, n);
    if m < n {
      CommitEnds(states, steps, m, n - 1);
      OneStep(states, steps, n - 1);
      OneNearer(states[n - 1], steps[n - 1]);
    }
  }

  lemma RunLength(states: seq<State>, steps: seq<Step>)
    requires IsRun(states, steps)
    ensures |states| == |steps| + 1
  {
  }

  lemma OneStep(states: seq<State>, steps: seq<Step>, i: nat)
    requires IsRun(states, steps) && i < |steps|
    ensures Enabled(states[i], steps[i]) && states[i + 1] == Do(states[i], steps[i])
  {
  }

  lemma MoreWorked(steps: seq<Step>, m: nat, n: nat)
    requires m <= n <= |steps|
    ensures m < n ==> Worked(steps, m, n) == Worked(steps, m, n - 1) + (if Works(steps[n - 1]) then 1 else 0)
    ensures m == n ==> Worked(steps, m, n) == 0
  {
  }

  lemma IdleIff(s: State)
    requires Sound(s)
    ensures s.phase == Idle <==> Remaining(s) == 0
  {
  }

  /** In every run, an operation is let in whenever none is outstanding and no commit or recovery is going on. */
  lemma BeginsAgain(states: seq<State>, steps: seq<Step>, n: nat, p: Pid)
    requires IsRun(states, steps) && n <= |steps|
    ensures states[n].log.committing <==> states[n].phase != Idle
    ensures states[n].phase == Idle && states[n].log.used == map[] ==> Enabled(states[n], Begin(p))
  {
    SoundRun(states, steps, n);
  }

  /** Contents of block b last passed to log_write and not lost to a crash, read off the run. */
  ghost function LastLogged(states: seq<State>, steps: seq<Step>, n: nat, b: nat): Block
    requires |states| == |steps| + 1 && n <= |steps| && b in states[0].disk
  {
    if n == 0 then states[0].disk[b]
    else
      var step, s := steps[n - 1], states[n - 1];
      if step.Crash? then LastCommitted(states, steps, n - 1, b)
      else if step.Record? && step.i < |s.bufs| && s.bufs[step.i].blockno == b then s.bufs[step.i].data
      else LastLogged(states, steps, n - 1, b)
  }

  /** Contents of block b at the last header write that committed a transaction. */
  ghost function LastCommitted(states: seq<State>, steps: seq<Step>, n: nat, b: nat): Block
    requires |states| == |steps| + 1 && n <= |steps| && b in states[0].disk
  {
    if n == 0 then states[0].disk[b]
    else if steps[n - 1].CommitHead? then LastLogged(states, steps, n - 1, b)
    else LastCommitted(states, steps, n - 1, b)
  }

  lemma StepHistory(s: State, step: Step)
    requires Enabled(s, step)
    ensures Do(s, step).committed == if step.CommitHead? then s.current else s.committed
    ensures Do(s, step).current ==
            if step.Crash? then s.committed
            else if step.Record? then s.current[s.bufs[step.i].blockno := s.bufs[step.i].data]
            else s.current
  {
  }

  lemma {:induction false} HistoryVariables(states: seq<State>, steps: seq<Step>, n: nat, b: nat)
    requires IsRun(states, steps) && n <= |steps| && states[0].IsHome(b)
    ensures b in states[n].current && states[n].current[b] == LastLogged(states, steps, n, b)
    ensures b in states[n].committed && states[n].committed[b] == LastCommitted(states, steps, n, b)
  {
    if n > 0 {
      HistoryVariables(states, steps, n - 1, b);
      StepHistory(states[n - 1], steps[n - 1]);
      assert steps[n - 1].Record? ==> steps[n - 1].i < |states[n - 1].bufs|;
      assert states[n] == Do(states[n - 1], steps[n - 1]);
      hide Boot, Do, Enabled;
    }
  }

  /** The file system as of the last committed transaction. */
  ghost function CommittedImage(states: seq<State>, steps: seq<Step>, n: nat): Disk
    requires |states| == |steps| + 1 && n <= |steps|
  {
    map b | b in states[0].disk && !InLog(states[0].area, b) :: LastCommitted(states, steps, n, b)
  }

  lemma CommittedIsImage(states: seq<State>, steps: seq<Step>, n: nat)
    requires IsRun(states, steps) && Inside(states, steps, n)
    ensures states[n].committed == CommittedImage(states, steps, n)
  {
    var s, c := states[n], CommittedImage(states, steps, n);
    RunInv(states, steps, n);
    assert s.committed.Keys == Home(s.disk, s.area).Keys;
    assert c.Keys == Home(s.disk, s.area).Keys;
    hide Inv, Boot, IsRun;
    forall b | b in c ensures b in s.committed && c[b] == s.committed[b] {
      HistoryVariables(states, steps, n, b);
    }
  }

  /**
    Crash safety over every run, at every point (in the middle of an operation, of a
    commit, of an earlier recovery): the disk stands for exactly the contents of the
    last committed transaction, and for nothing else.
   */
  lemma CrashSafety(states: seq<State>, steps: seq<Step>, n: nat)
    requires IsRun(states, steps) && Inside(states, steps, n)
    ensures Recoverable(states[n].disk, states[n].area, CommittedImage(states, steps, n))
    ensures forall e :: Recoverable(states[n].disk, states[n].area, e) ==> e == CommittedImage(states, steps, n)
  {
    var s := states[n];
    RunInv(states, steps, n);
    CommittedIsImage(states, steps, n);
    hide Recoverable;
    forall e | Recoverable(s.disk, s.area, e) ensures e == s.committed {
      MeaningUnique(s.disk, s.area, e, s.committed);
    }
  }

  /** In every run, only a header write with no operation in progress changes what is committed. */
  lemma CommitsAreAtomic(states: seq<State>, steps: seq<Step>, n: nat)
    requires IsRun(states, steps) && n < |steps| && steps[n].CommitHead?
    ensures states[n].log.used == map[]
    ensures forall b :: states[0].IsHome(b) ==>
              LastCommitted(states, steps, n + 1, b) == LastLogged(states, steps, n, b)
  {
    SoundRun(states, steps, n);
  }

  /**
    `bread` returns the last contents logged for the block, whichever buffer was
    recycled in between; a buffer its holder has changed and not yet logged is held
    inside an operation.
   */
  lemma ReadsSeeLastLogged(states: seq<State>, steps: seq<Step>, n: nat, p: Pid, i: nat, b: nat)
    requires IsRun(states, steps) && Inside(states, steps, n) && states[0].IsHome(b)
    requires !states[n].Recovering() && states[n].Holds(p, i, b)
    ensures states[n].bufs[i].pending ==> p in states[n].log.used
    ensures !states[n].bufs[i].pending ==> states[n].bufs[i].data == LastLogged(states, steps, n, b)
  {
    RunInv(states, steps, n);
    HistoryVariables(states, steps, n, b);
    assert BufOk(states[n], states[n].bufs[i]);
  }

  /** Only recycling and a crash give a buffer another block. */
  lemma SameBlocks(s: State, step: Step)
    requires Enabled(s, step) && !step.GetMiss? && !step.Crash?
    ensures |Do(s, step).bufs| == |s.bufs|
    ensures forall i :: 0 <= i < |s.bufs| ==>
              Do(s, step).bufs[i].dev == s.bufs[i].dev && Do(s, step).bufs[i].blockno == s.bufs[i].blockno
  {
    hide LogSpace.Enabled, LogSpace.Do, Encode, Decode, HeaderOk;
  }

  lemma UniqueStep(s: State, step: Step)
    requires Unique(s.bufs) && Enabled(s, step)
    ensures Unique(Do(s, step).bufs)
  {
    hide LogSpace.Enabled, LogSpace.Do, Encode, Decode, HeaderOk;
    if step.GetMiss? {
      ReplaceUnique(s.bufs, step.i, Do(s, step).bufs[step.i]);
    } else if step.Crash? {
    } else {
      SameBlocks(s, step);
    }
  }

  /** A block has at most one buffer, in every run. */
  lemma {:induction false} OneBufferPerBlock(states: seq<State>, steps: seq<Step>, n: nat)
    requires IsRun(states, steps) && n <= |steps|
    ensures Unique(states[n].bufs)
  {
    if n > 0 {
      OneBufferPerBlock(states, steps, n - 1);
      UniqueStep(states[n - 1], steps[n - 1]);
    }
  }

  /** Until install_trans, the home copy of every block keeps its committed contents. */
  lemma HomeUntouched(states: seq<State>, steps: seq<Step>, n: nat, b: nat)
    requires IsRun(states, steps) && Inside(states, steps, n) && states[0].IsHome(b)
    requires states[n].phase.Idle? || states[n].phase.WriteLog?
    ensures b in states[n].disk && states[n].disk[b] == LastCommitted(states, steps, n, b)
  {
    RunInv(states, steps, n);
    HistoryVariables(states, steps, n, b);
    EmptyHeaderMeaning(states[n].disk, states[n].area, states[n].committed);
  }

  /** In every run `commit` and recovery run alone, so `end_op` never meets `log.committing`. */
  lemma CommitRunsAlone(states: seq<State>, steps: seq<Step>, n: nat)
    requires IsRun(states, steps) && n <= |steps|
    ensures states[n].phase != Idle ==> states[n].log.used == map[]
    ensures forall p :: p in states[n].log.used ==> !states[n].log.committing
    ensures |states[n].log.lh| <= LOGSIZE && Distinct(states[n].log.lh)
  {
    SoundRun(states, steps, n);
  }
}
