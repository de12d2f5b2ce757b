/**
  The xv6 pipe: a ring of PIPESIZE bytes with two 32-bit counters that are allowed to
  wrap.  A step is one critical section of p->lock, which a call of pipewrite leaves
  only by returning or by going to sleep on a full pipe.
 */
module Pipe {

  const PIPESIZE: nat := 512
  const WORD: nat := 0x1_0000_0000

  type Byte = x: int | 0 <= x < 256
  type Word = x: int | 0 <= x < 0x1_0000_0000
  type Ring = d: seq<Byte> | |d| == 512 witness seq(512, _ => 0)

  /**
    readers, writers   processes asleep on &p->nread and on &p->nwrite
    stored, delivered  history: every byte pipewrite put in and piperead took out
   */
  datatype State = State(
    data: Ring, nread: Word, nwrite: Word, readopen: bool, writeopen: bool,
    readers: set<nat>, writers: set<nat>, stored: seq<Byte>, delivered: seq<Byte>)

  function Count(s: State): nat { (s.nwrite - s.nread) % WORD }

  /** The bytes in transit, oldest first. */
  function Queue(s: State): (q: seq<Byte>)
    ensures |q| == Count(s)
  {
    seq(Count(s), k requires 0 <= k < Count(s) => s.data[(s.nread + k) % PIPESIZE])
  }

  /** The test of pipewrite, on the wrapped counters. */
  predicate FullAt(nread: Word, nwrite: Word) { nwrite == (nread + PIPESIZE) % WORD }

  predicate Full(s: State) { FullAt(s.nread, s.nwrite) }

  function Put(s: State, b: Byte): State {
    s.(data := s.data[s.nwrite % PIPESIZE := b], nwrite := (s.nwrite + 1) % WORD, stored := s.stored + [b])
  }

  function Get(s: State): State {
    s.(nread := (s.nread + 1) % WORD, delivered := s.delivered + [s.data[s.nread % PIPESIZE]])
  }

  ghost predicate Inv(s: State) {
    && Count(s) <= PIPESIZE
    && s.stored == s.delivered + Queue(s)
  }

  // ---------------------------------------------------------------- one byte

  lemma Offset(a: Word, b: Word)
    ensures (a - b) % WORD == if a >= b then a - b else a - b + WORD
  {
  }

  lemma Wrapped(a: Word, k: nat)
    requires k <= PIPESIZE
    ensures (a + k) % WORD == if a + k < WORD then a + k else a + k - WORD
  {
  }

  /** The wrapped counters are an offset from each other, whether or not either has wrapped. */
  lemma Counters(s: State)
    requires Count(s) <= PIPESIZE
    ensures Full(s) <==> Count(s) == PIPESIZE
    ensures s.nread == s.nwrite <==> Count(s) == 0
    ensures Count(s) < PIPESIZE ==> ((s.nwrite + 1) % WORD - s.nread) % WORD == Count(s) + 1
    ensures Count(s) > 0 ==> (s.nwrite - (s.nread + 1) % WORD) % WORD == Count(s) - 1
    ensures s.nwrite % PIPESIZE == (s.nread + Count(s)) % PIPESIZE
  {
    Offset(s.nwrite, s.nread);
    Wrapped(s.nread, PIPESIZE);
    Wrapped(s.nwrite, 1);
    Wrapped(s.nread, 1);
    Offset((s.nwrite + 1) % WORD, s.nread);
    Offset(s.nwrite, (s.nread + 1) % WORD);
    Place(s.nread, s.nwrite);
  }

  lemma Place(r: Word, w: Word)
    ensures w % PIPESIZE == (r + (w - r) % WORD) % PIPESIZE
  {
    Offset(w, r);
    assert w < r ==> (w + WORD) % PIPESIZE == w % PIPESIZE;
  }

  /** Wrapping a counter does not move its place in the ring: PIPESIZE divides 2^32. */
  lemma RingStep(n: Word, k: nat)
    ensures ((n + 1) % WORD + k) % PIPESIZE == (n + (k + 1)) % PIPESIZE
  {
    if n + 1 == WORD { assert n % PIPESIZE == PIPESIZE - 1; }
  }

  lemma PutQueue(s: State, b: Byte)
    requires Count(s) < PIPESIZE
    ensures Queue(Put(s, b)) == Queue(s) + [b]
  {
    var t := Put(s, b);
    Counters(s);
    forall k: nat | k < Count(t) ensures Queue(t)[k] == (Queue(s) + [b])[k] {
      if k < Count(s) { SlotsApart(s.nread, k, Count(s)); }
    }
  }

  lemma SlotsApart(n: Word, a: nat, b: nat)
    requires a < b < a + PIPESIZE
    ensures (n + a) % PIPESIZE != (n + b) % PIPESIZE
  {
  }

  lemma GetQueue(s: State)
    requires 0 < Count(s) <= PIPESIZE
    ensures Queue(Get(s)) == Queue(s)[1..]
    ensures s.data[s.nread % PIPESIZE] == Queue(s)[0]
  {
    var t := Get(s);
    Counters(s);
    forall k: nat | k < Count(t) ensures Queue(t)[k] == Queue(s)[1..][k] { RingStep(s.nread, k); }
  }

  // ---------------------------------------------------------------- critical sections

  function Room(s: State): nat { if Count(s) <= PIPESIZE then PIPESIZE - Count(s) else 0 }

  function Min(a: nat, b: nat): nat { if a <= b then a else b }

  function PutAll(s: State, src: seq<Byte>): State
    decreases |src|
  {
    if src == [] then s else Put(PutAll(s, src[..|src| - 1]), src[|src| - 1])
  }

  function GetAll(s: State, n: nat): State {
    if n == 0 then s else Get(GetAll(s, n - 1))
  }

  /**
    Write   pipewrite with src still to store, from taking the lock to releasing it
    Read    piperead asking for n bytes
    Kill    kill() wakes a process asleep on either channel
   */
  datatype Step =
    | Write(p: nat, src: seq<Byte>, killed: bool)
    | Read(p: nat, n: nat, killed: bool)
    | CloseWrite
    | CloseRead
    | Kill(p: nat)

  function Stored(s: State, src: seq<Byte>): nat { Min(|src|, Room(s)) }

  /** pipewrite gives up: there is more to store, the pipe is full, and nobody will read or the writer is dying. */
  predicate GivesUp(s: State, src: seq<Byte>, killed: bool) {
    Stored(s, src) < |src| && (!s.readopen || killed)
  }

  predicate ReadBlocks(s: State) { s.nread == s.nwrite && s.writeopen }

  function Do(s: State, step: Step): State {
    match step
    case Write(p, src, killed) =>
      var t := PutAll(s, src[..Stored(s, src)]);
      if GivesUp(s, src, killed) then t
      else if Stored(s, src) < |src| then t.(readers := {}, writers := t.writers + {p})
      else t.(readers := {})
    case Read(p, n, killed) =>
      if ReadBlocks(s) then (if killed then s else s.(readers := s.readers + {p}))
      else GetAll(s, Min(n, Count(s))).(writers := {})
    case CloseWrite => s.(writeopen := false, readers := {})
    case CloseRead => s.(readopen := false, writers := {})
    case Kill(p) => s.(readers := s.readers - {p}, writers := s.writers - {p})
  }

  /** s with the ring, the write counter and the stored history as t has them. */
  predicate SameButData(s: State, t: State) {
    t == s.(data := t.data, nwrite := t.nwrite, stored := t.stored)
  }

  lemma {:induction false} PutAllQueue(s: State, src: seq<Byte>)
    requires Count(s) + |src| <= PIPESIZE
    ensures Queue(PutAll(s, src)) == Queue(s) + src
    ensures PutAll(s, src).stored == s.stored + src
    ensures SameButData(s, PutAll(s, src))
    decreases |src|
  {
    if src != [] {
      var front := src[..|src| - 1];
      PutAllQueue(s, front);
      assert |Queue(PutAll(s, front))| == Count(PutAll(s, front));
      PutQueue(PutAll(s, front), src[|src| - 1]);
      assert front + [src[|src| - 1]] == src;
    }
  }

  predicate SameButRead(s: State, t: State) { t == s.(nread := t.nread, delivered := t.delivered) }

  lemma {:induction false} GetAllQueue(s: State, n: nat)
    requires n <= Count(s) <= PIPESIZE
    ensures Queue(GetAll(s, n)) == Queue(s)[n..]
    ensures GetAll(s, n).delivered == s.delivered + Queue(s)[..n]
    ensures SameButRead(s, GetAll(s, n))
  {
    if n > 0 {
      var t := GetAll(s, n - 1);
      GetAllQueue(s, n - 1);
      assert |Queue(t)| == Count(t);
      GetQueue(t);
      assert Queue(s)[..n] == Queue(s)[..n - 1] + [Queue(s)[n - 1]];
    }
  }

  /** The queue depends only on the ring and the counters. */
  lemma SameQueue(s: State, t: State)
    requires t.data == s.data && t.nread == s.nread && t.nwrite == s.nwrite
    ensures Queue(t) == Queue(s) && Count(t) == Count(s)
  {
  }

  lemma WriteInv(s: State, step: Step)
    requires Inv(s) && step.Write?
    ensures Inv(Do(s, step))
  {
    var some := step.src[..Stored(s, step.src)];
    PutAllQueue(s, some);
    var t := PutAll(s, some);
    assert |Queue(t)| == Count(t);
    hide Queue, Count, PutAll;
    SameQueue(t, Do(s, step));
    assert s.delivered + Queue(s) + some == s.delivered + (Queue(s) + some);
  }

  lemma ReadInv(s: State, step: Step)
    requires Inv(s) && step.Read?
    ensures Inv(Do(s, step))
  {
    if ReadBlocks(s) {
      SameQueue(s, Do(s, step));
    } else {
      var m := Min(step.n, Count(s));
      GetAllQueue(s, m);
      var t := GetAll(s, m);
      assert |Queue(t)| == Count(t);
      hide Queue, Count, GetAll;
      SameQueue(t, Do(s, step));
      assert s.delivered + Queue(s) == s.delivered + Queue(s)[..m] + Queue(s)[m..];
    }
  }

  /** Every section keeps the bytes delivered, followed by those in transit, equal to those stored. */
  lemma StepInv(s: State, step: Step)
    requires Inv(s)
    ensures Inv(Do(s, step))
  {
    match step
    case Write(_, _, _) => WriteInv(s, step);
    case Read(_, _, _) => ReadInv(s, step);
    case CloseWrite => SameQueue(s, Do(s, step));
    case CloseRead => SameQueue(s, Do(s, step));
    case Kill(_) => SameQueue(s, Do(s, step));
  }

  // ---------------------------------------------------------------- runs

  function Run(s: State, steps: seq<Step>): State
    decreases |steps|
  {
    if steps == [] then s else Run(Do(s, steps[0]), steps[1..])
  }

  predicate Opened(s: State) {
    s.nread == 0 && s.nwrite == 0 && s.readopen && s.writeopen
    && s.readers == {} && s.writers == {} && s.stored == [] && s.delivered == []
  }

  lemma {:induction false} RunInv(s: State, steps: seq<Step>)
    requires Inv(s)
    ensures Inv(Run(s, steps))
    decreases |steps|
  {
    if steps != [] {
      StepInv(s, steps[0]);
      RunInv(Do(s, steps[0]), steps[1..]);
    }
  }

  /** What readers have been given is a prefix of what writers stored, and at most PIPESIZE bytes lie between. */
  lemma Fifo(s: State, steps: seq<Step>)
    requires Opened(s)
    ensures var t := Run(s, steps);
            && t.delivered <= t.stored
            && |t.stored| - |t.delivered| == (t.nwrite - t.nread) % WORD <= PIPESIZE
            && Queue(t) == t.stored[|t.delivered|..]
  {
    RunInv(s, steps);
  }

  // ---------------------------------------------------------------- sleepers

  /** Nobody sleeps on a condition that has come true. */
  predicate Wakeful(s: State) {
    && (s.readers != {} ==> ReadBlocks(s))
    && (s.writers != {} ==> Full(s) && s.readopen)
  }

  /** A dying writer that fills an empty pipe returns without waking the readers asleep on it. */
  predicate Strands(s: State, step: Step) {
    step.Write? && s.readers != {} && |step.src| > PIPESIZE && (step.killed || !s.readopen)
  }

  lemma WriteWakeful(s: State, step: Step)
    requires Inv(s) && Wakeful(s) && step.Write?
    ensures Wakeful(Do(s, step)) <==> !Strands(s, step)
  {
    var t := PutAll(s, step.src[..Stored(s, step.src)]);
    PutAllQueue(s, step.src[..Stored(s, step.src)]);
    assert |Queue(t)| == Count(t);
    Counters(s);
    Counters(t);
    Counters(Do(s, step));
  }

  lemma ReadWakeful(s: State, step: Step)
    requires Inv(s) && Wakeful(s) && step.Read?
    ensures Wakeful(Do(s, step))
  {
    Counters(s);
    var m := Min(step.n, Count(s));
    GetAllQueue(s, m);
  }

  /** Exactly the stranding writes put a reader to sleep on data; every other section keeps sleepers wakeful. */
  lemma StepWakeful(s: State, step: Step)
    requires Inv(s) && Wakeful(s)
    ensures Wakeful(Do(s, step)) <==> !Strands(s, step)
  {
    match step
    case Write(_, _, _) => WriteWakeful(s, step);
    case Read(_, _, _) => ReadWakeful(s, step);
    case CloseWrite =>
    case CloseRead =>
    case Kill(_) =>
  }

  ghost predicate NeverStrands(s: State, steps: seq<Step>)
    decreases |steps|
  {
    steps != [] ==> !Strands(s, steps[0]) && NeverStrands(Do(s, steps[0]), steps[1..])
  }

  lemma {:induction false} NoLostWakeup(s: State, steps: seq<Step>)
    requires Inv(s) && Wakeful(s) && NeverStrands(s, steps)
    ensures Wakeful(Run(s, steps))
    decreases |steps|
  {
    if steps != [] {
      StepInv(s, steps[0]);
      StepWakeful(s, steps[0]);
      NoLostWakeup(Do(s, steps[0]), steps[1..]);
    }
  }

  /** Stranding happens: a reader sleeps on the empty pipe, then a killed writer of 513 bytes gives up. */
  lemma StrandedReader(s: State, src: seq<Byte>)
    requires Opened(s) && |src| == PIPESIZE + 1
    ensures var t := Run(s, [Read(1, 1, false), Write(2, src, true)]);
            t.readers == {1} && Queue(t) == src[..PIPESIZE] && t.writeopen
  {
    var r := Do(s, Read(1, 1, false));
    assert Queue(r) == [];
    PutAllQueue(r, src[..PIPESIZE]);
    var t := Do(r, Write(2, src, true));
    assert [Read(1, 1, false), Write(2, src, true)][1..] == [Write(2, src, true)];
    assert Run(s, [Read(1, 1, false), Write(2, src, true)]) == Run(r, [Write(2, src, true)]) == Run(t, []) == t;
  }

  /** kill reaches a sleeper on either side, and nobody else. */
  lemma KillWakes(s: State, p: nat, q: nat)
    ensures var t := Do(s, Kill(p));
            && p !in t.readers && p !in t.writers
            && (q != p ==> (q in t.readers <==> q in s.readers) && (q in t.writers <==> q in s.writers))
  {
  }

  /** Once the write end is closed nobody ever sleeps for data, and once the read end is, nobody for room. */
  lemma {:induction false} ClosedForGood(s: State, steps: seq<Step>)
    ensures !s.writeopen && s.readers == {} ==> !Run(s, steps).writeopen && Run(s, steps).readers == {}
    ensures !s.readopen && s.writers == {} ==> !Run(s, steps).readopen && Run(s, steps).writers == {}
    decreases |steps|
  {
    if steps != [] {
      SameEnds(s, steps[0]);
      ClosedForGood(Do(s, steps[0]), steps[1..]);
    }
  }

  lemma SameEnds(s: State, step: Step)
    ensures !s.writeopen && s.readers == {} ==> !Do(s, step).writeopen && Do(s, step).readers == {}
    ensures !s.readopen && s.writers == {} ==> !Do(s, step).readopen && Do(s, step).writers == {}
  {
    if step.Write? { PutAllEnds(s, step.src[..Stored(s, step.src)]); }
    if step.Read? { GetAllEnds(s, Min(step.n, Count(s))); }
  }

  lemma {:induction false} PutAllEnds(s: State, src: seq<Byte>)
    ensures SameButData(s, PutAll(s, src))
    decreases |src|
  {
    if src != [] { PutAllEnds(s, src[..|src| - 1]); }
  }

  lemma {:induction false} GetAllEnds(s: State, n: nat)
    ensures SameButRead(s, GetAll(s, n))
  {
    if n > 0 { GetAllEnds(s, n - 1); }
  }

  /** From the close on, over every run. */
  lemma CloseEnds(s: State, steps: seq<Step>)
    ensures Run(Do(s, CloseWrite), steps).readers == {} && !Run(Do(s, CloseWrite), steps).writeopen
    ensures Run(Do(s, CloseRead), steps).writers == {} && !Run(Do(s, CloseRead), steps).readopen
  {
    ClosedForGood(Do(s, CloseWrite), steps);
    ClosedForGood(Do(s, CloseRead), steps);
  }

  /** A write puts in as much as there is room for, and stops early only at a full buffer. */
  lemma WriteFills(s: State, p: nat, src: seq<Byte>, killed: bool)
    requires Inv(s)
    ensures var t := Do(s, Write(p, src, killed));
            && t.stored == s.stored + src[..Min(|src|, Room(s))]
            && Count(t) == Count(s) + Min(|src|, Room(s))
            && (|src| > Room(s) ==> Full(t))
  {
    hide FullAt, Put, Queue;
    var u := PutAll(s, src[..Min(|src|, Room(s))]);
    PutAllQueue(s, src[..Min(|src|, Room(s))]);
    assert Count(u) == |Queue(u)| == Count(s) + Min(|src|, Room(s));
    Counters(u);
  }

  /** A reader of an empty open pipe and a writer to a full one do go to sleep, unless they are dying. */
  lemma Sleepers(s: State, p: nat, n: nat, src: seq<Byte>)
    requires Inv(s)
    ensures ReadBlocks(s) ==> p in Do(s, Read(p, n, false)).readers && Do(s, Read(p, n, true)) == s
    ensures s.readopen && |src| > Room(s) ==> p in Do(s, Write(p, src, false)).writers
  {
    PutAllEnds(s, src[..Stored(s, src)]);
  }

  // ---------------------------------------------------------------- the code

  datatype Outcome = Returned(n: int) | Blocked

  class Buffer {
    const data: array<Byte>
    var nread: Word
    var nwrite: Word
    var readopen: bool
    var writeopen: bool
    var readers: set<nat>
    var writers: set<nat>
    ghost var stored: seq<Byte>
    ghost var delivered: seq<Byte>

    ghost predicate Valid()
      reads this, data
    {
      data.Length == PIPESIZE && Inv(Now())
    }

    ghost function Now(): State
      requires data.Length == PIPESIZE
      reads this, data
    {
      State(data[..], nread, nwrite, readopen, writeopen, readers, writers, stored, delivered)
    }

    constructor ()
      ensures Valid() && fresh(data) && Opened(Now())
    {
      data := new Byte[PIPESIZE](_ => 0);
      nread, nwrite, readopen, writeopen := 0, 0, true, true;
      readers, writers, stored, delivered := {}, {}, [], [];
    }

    method PutByte(b: Byte)
      requires data.Length == PIPESIZE
      modifies this`nwrite, this`stored, data
      ensures Now() == Put(old(Now()), b)
    {
      data[nwrite % PIPESIZE] := b;
      nwrite, stored := (nwrite + 1) % WORD, stored + [b];
    }

    method GetByte() returns (b: Byte)
      requires data.Length == PIPESIZE
      modifies this`nread, this`delivered
      ensures Now() == Get(old(Now())) && b == data[old(nread) % PIPESIZE]
      ensures delivered == old(delivered) + [b]
    {
      b := data[nread % PIPESIZE];
      nread, delivered := (nread + 1) % WORD, delivered + [b];
    }

    /** pipewrite from taking the lock, with src left to store, until it returns or sleeps; left is what remains. */
    method WriteSection(p: nat, src: seq<Byte>, killed: bool) returns (r: Outcome, left: seq<Byte>)
      requires Valid()
      modifies this, data
      ensures Valid() && Now() == Do(old(Now()), Write(p, src, killed))
      ensures stored + left == old(stored) + src
      ensures r == Blocked <==> left != [] && readopen && !killed
      ensures r.Returned? ==> (r.n == |src| && left == []) || (r.n == -1 && left != [])
    {
      ghost var was := Now();
      var i := 0;
      assert src[..0] == [];
      while i < |src|
        invariant 0 <= i <= Stored(was, src)
        invariant Now() == PutAll(was, src[..i])
      {
        hide Count, Queue, Inv, Put, FullAt;
        Filling(was, src, i);
        if FullAt(nread, nwrite) {
          if !readopen || killed {
            return Returned(-1), src[i..];
          }
          readers := {};
          writers := writers + {p};
          assert Queue(Now()) == Queue(PutAll(was, src[..i]));
          return Blocked, src[i..];
        }
        PutByte(src[i]);
        assert src[..i + 1][..i] == src[..i];
        i := i + 1;
      }
      Filling(was, src, i);
      readers := {};
      assert Queue(Now()) == Queue(PutAll(was, src));
      return Returned(|src|), [];
    }

    /** piperead from taking the lock until it returns or sleeps; 0 bytes of n > 0 only at end of file. */
    method ReadSection(p: nat, n: nat, killed: bool) returns (r: Outcome, got: seq<Byte>)
      requires Valid()
      modifies this
      ensures Valid() && Now() == Do(old(Now()), Read(p, n, killed))
      ensures delivered == old(delivered) + got
      ensures r.Returned? && r.n >= 0 ==> got == old(Queue(Now()))[..Min(n, old(Count(Now())))] && |got| == r.n
      ensures r == Returned(0) && n > 0 ==> !writeopen && old(Count(Now())) == 0
      ensures r == Blocked <==> old(ReadBlocks(Now())) && !killed
      ensures r == Returned(-1) <==> old(ReadBlocks(Now())) && killed
      ensures r == Blocked || r == Returned(-1) ==> got == []
    {
      ghost var was := Now();
      Counters(was);
      StepInv(was, Read(p, n, killed));
      if nread == nwrite && writeopen {
        if killed {
          return Returned(-1), [];
        }
        readers := readers + {p};
        return Blocked, [];
      }
      got := Drain(n);
      writers := {};
      return Returned(|got|), got;
    }

    /** piperead's copying loop. */
    method Drain(n: nat) returns (got: seq<Byte>)
      requires Valid()
      modifies this`nread, this`delivered
      ensures Now() == GetAll(old(Now()), Min(n, old(Count(Now()))))
      ensures got == old(Queue(Now()))[..Min(n, old(Count(Now())))]
      ensures delivered == old(delivered) + got
    {
      ghost var was := Now();
      hide Count, Queue, Inv, Get;
      got := [];
      var i: nat := 0;
      while i < n && nread != nwrite
        invariant 0 <= i <= Min(n, Count(was))
        invariant Now() == GetAll(was, i) && got == Queue(was)[..i]
      {
        Draining(was, i);
        var b := GetByte();
        got := got + [b];
        i := i + 1;
      }
      Draining(was, i);
    }

    /** pipeclose: the pipe's page is freed when both ends are closed. */
    method Close(writable: bool) returns (free: bool)
      requires Valid()
      modifies this
      ensures Valid() && Now() == Do(old(Now()), if writable then CloseWrite else CloseRead)
      ensures free <==> !readopen && !writeopen
      ensures if writable then !writeopen && readers == {} && readopen == old(readopen)
              else !readopen && writers == {} && writeopen == old(writeopen)
    {
      ghost var was := Now();
      StepInv(was, if writable then CloseWrite else CloseRead);
      if writable {
        writeopen, readers := false, {};
      } else {
        readopen, writers := false, {};
      }
      free := !readopen && !writeopen;
    }
  }

  lemma Draining(s: State, i: nat)
    requires Inv(s) && i <= Count(s)
    ensures GetAll(s, i).nread == GetAll(s, i).nwrite <==> i == Count(s)
    ensures i < Count(s) ==> GetAll(s, i + 1) == Get(GetAll(s, i))
    ensures i < Count(s) ==> GetAll(s, i).data[GetAll(s, i).nread % PIPESIZE] == Queue(s)[i]
    ensures i < Count(s) ==> Queue(s)[..i + 1] == Queue(s)[..i] + [Queue(s)[i]]
    ensures GetAll(s, i).delivered == s.delivered + Queue(s)[..i]
  {
    var t := GetAll(s, i);
    GetAllQueue(s, i);
    assert |Queue(t)| == Count(t);
    Counters(t);
    if i < Count(s) { GetQueue(t); }
  }

  /** The pipe fills up exactly when as many bytes are stored as there was room for. */
  lemma Filling(s: State, src: seq<Byte>, i: nat)
    requires Inv(s) && i <= |src| && i <= Room(s)
    ensures Full(PutAll(s, src[..i])) <==> i == Room(s)
    ensures Inv(PutAll(s, src[..i]))
    ensures PutAll(s, src[..i]).stored == s.stored + src[..i]
    ensures i == |src| ==> src[..i] == src
    ensures SameButData(s, PutAll(s, src[..i]))
  {
    var t := PutAll(s, src[..i]);
    PutAllQueue(s, src[..i]);
    assert |Queue(t)| == Count(t);
    Counters(t);
    assert s.delivered + Queue(s) + src[..i] == s.delivered + (Queue(s) + src[..i]);
  }
}
