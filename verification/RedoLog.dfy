/**
  The on-disk redo log: header encoding, what a disk image means to recovery, and
  the loops `write_log`, `write_head`, `install_trans`, `commit` and
  `recover_from_log` with every disk image a crash could leave behind.
 */
module RedoLog {

  import opened LogSpace

  /** A disk block as BSIZE / sizeof(uint) words. */
  const WORDS: nat := 128
  type Block = b: seq<nat> | |b| == WORDS witness seq(WORDS, _ => 0)
  type Disk = map<nat, Block>

  /** `write_head`: word 0 is n, then the block numbers; the other words stay. */
  function Encode(hb: Block, lh: seq<nat>): (b: Block)
    requires |lh| <= LOGSIZE
    ensures HeaderOk(b) && Decode(b) == lh
  {
    [|lh|] + lh + hb[1 + |lh|..]
  }

  predicate HeaderOk(b: Block) { b[0] <= LOGSIZE }

  /** `read_head`. */
  function Decode(b: Block): seq<nat>
    requires HeaderOk(b)
  {
    b[1..1 + b[0]]
  }

  /** Where the log lies on disk: `log.start` and `log.size`, header block included. */
  datatype Area = Area(start: nat, size: nat)

  predicate InLog(area: Area, b: nat) { area.start <= b < area.start + area.size }

  /** The blocks outside the log area: the file system proper. */
  function Home(d: Disk, area: Area): Disk {
    map b | b in d && !InLog(area, b) :: d[b]
  }

  ghost predicate LogOnDisk(d: Disk, area: Area) {
    area.size > 0 && forall b :: InLog(area, b) ==> b in d
  }

  /** `lh` names distinct blocks outside the log area. */
  predicate HomeBlocks(d: Disk, area: Area, lh: seq<nat>) {
    |lh| <= LOGSIZE && Distinct(lh) && forall k :: 0 <= k < |lh| ==> lh[k] in Home(d, area)
  }

  /** Every block of the list has a slot in the log area. */
  predicate Fits(area: Area, lh: seq<nat>) { |lh| < area.size }

  /**
    Disk image `d` stands for file-system contents `c`: a block named in the header
    has its contents in its log slot, every other block has them at home.
   */
  ghost predicate Recoverable(d: Disk, area: Area, c: Disk) {
    && LogOnDisk(d, area)
    && HeaderOk(d[area.start])
    && var lh := Decode(d[area.start]);
    && HomeBlocks(d, area, lh) && Fits(area, lh)
    && c.Keys == Home(d, area).Keys
    && (forall k :: 0 <= k < |lh| ==> lh[k] in c && d[area.start + 1 + k] == c[lh[k]])
    && (forall b :: b in c && b !in lh ==> d[b] == c[b])
  }

  /** An image stands for at most one file-system state. */
  lemma MeaningUnique(d: Disk, area: Area, c1: Disk, c2: Disk)
    requires Recoverable(d, area, c1) && Recoverable(d, area, c2)
    ensures c1 == c2
  {
    var lh := Decode(d[area.start]);
    forall b | b in c1 ensures c1[b] == c2[b] {
      if b in lh {
        var k :| 0 <= k < |lh| && lh[k] == b;
        assert d[area.start + 1 + k] == c1[lh[k]] && d[area.start + 1 + k] == c2[lh[k]];
      }
    }
  }

  /** With an empty header the image stands for exactly its home blocks, and conversely. */
  lemma EmptyHeaderMeaning(d: Disk, area: Area, c: Disk)
    requires LogOnDisk(d, area) && HeaderOk(d[area.start]) && Decode(d[area.start]) == []
    ensures Recoverable(d, area, c) <==> Home(d, area) == c
  {
    if Recoverable(d, area, c) {
      assert forall b :: b in c ==> b !in Decode(d[area.start]);
    }
  }

  lemma HomeBlocksFacts(d: Disk, area: Area, lh: seq<nat>)
    requires HomeBlocks(d, area, lh)
    ensures |lh| <= LOGSIZE && forall k :: 0 <= k < |lh| ==> lh[k] in d && !InLog(area, lh[k])
  {
    forall k | 0 <= k < |lh| ensures lh[k] in d && !InLog(area, lh[k]) {
      assert lh[k] in Home(d, area);
    }
  }

  lemma SameHomeBlocks(d: Disk, e: Disk, area: Area, lh: seq<nat>)
    requires HomeBlocks(d, area, lh) && Home(d, area) == Home(e, area)
    ensures HomeBlocks(e, area, lh)
  {
  }

  lemma RecoverableHomeBlocks(d: Disk, area: Area, c: Disk)
    requires Recoverable(d, area, c)
    ensures HomeBlocks(d, area, Decode(d[area.start])) && Fits(area, Decode(d[area.start]))
  {
  }

  lemma RecoverableFacts(d: Disk, area: Area, c: Disk, k: nat)
    requires Recoverable(d, area, c) && k < |Decode(d[area.start])|
    ensures var b := Decode(d[area.start])[k];
            b in c && b in d && !InLog(area, b) && InLog(area, area.start + 1 + k) && area.start + 1 + k in d
              && d[area.start + 1 + k] == c[b]
  {
    assert Decode(d[area.start])[k] in Home(d, area);
  }

  /** Writing a log slot while the header is empty changes nothing. */
  lemma SlotWriteIsSilent(d: Disk, area: Area, k: nat, x: Block)
    requires LogOnDisk(d, area) && HeaderOk(d[area.start]) && Decode(d[area.start]) == [] && k + 1 < area.size
    ensures Home(d[area.start + 1 + k := x], area) == Home(d, area)
    ensures Recoverable(d[area.start + 1 + k := x], area, Home(d, area))
  {
    var e := d[area.start + 1 + k := x];
    assert LogOnDisk(e, area);
    EmptyHeaderMeaning(e, area, Home(d, area));
  }

  /**
    The slot one past the log area is a block of the file system: writing it under an
    empty header keeps the meaning exactly when it stores what was there.
   */
  lemma SpillWrite(d: Disk, area: Area, x: Block)
    requires LogOnDisk(d, area) && HeaderOk(d[area.start]) && Decode(d[area.start]) == []
    requires area.start + area.size in d
    ensures Recoverable(d[area.start + area.size := x], area, Home(d, area)) <==> x == d[area.start + area.size]
  {
    var b := area.start + area.size;
    var e := d[b := x];
    assert LogOnDisk(e, area);
    EmptyHeaderMeaning(e, area, Home(d, area));
    assert b in Home(d, area) && Home(d, area)[b] == d[b] && Home(e, area)[b] == x;
    if x == d[b] { assert e == d; }
  }

  /** Writing the header over filled slots is the commit point. */
  lemma HeadWriteCommits(d0: Disk, area: Area, cached: map<nat, Block>, pinned: set<nat>, lh: seq<nat>, d: Disk,
      hb: Block)
    requires CacheOk(d0, area, cached, pinned) && (forall b :: b in pinned ==> b in lh)
    requires HomeBlocks(d0, area, lh) && Fits(area, lh) && d.Keys == d0.Keys && Home(d, area) == Home(d0, area)
    requires forall k :: 0 <= k < |lh| ==>
               lh[k] in d0 && area.start + 1 + k in d && d[area.start + 1 + k] == View(d0, cached, lh[k])
    requires HeaderOk(hb) && Decode(hb) == lh
    ensures Recoverable(d[area.start := hb], area, HomeView(d0, cached, area))
  {
    hide Decode, HeaderOk;
    var c := HomeView(d0, cached, area);
    var e := d[area.start := hb];
    assert Home(e, area) == Home(d, area);
    assert c.Keys == Home(d0, area).Keys;
    forall b | b in c && b !in lh ensures e[b] == c[b] {
      assert Home(d, area)[b] == Home(d0, area)[b];
    }
    forall k | 0 <= k < |lh| ensures lh[k] in c && e[area.start + 1 + k] == c[lh[k]] {
      assert lh[k] in Home(d0, area);
    }
  }

  /** Erasing the header once everything is home. */
  lemma HeadEraseIsSilent(d: Disk, area: Area, hb: Block)
    requires LogOnDisk(d, area) && HeaderOk(hb) && Decode(hb) == []
    ensures Home(d[area.start := hb], area) == Home(d, area)
    ensures Recoverable(d[area.start := hb], area, Home(d, area))
  {
    EmptyHeaderMeaning(d[area.start := hb], area, Home(d, area));
  }

  lemma CleanHomeView(d: Disk, area: Area, cached: map<nat, Block>)
    requires CacheOk(d, area, cached, {})
    ensures HomeView(d, cached, area) == Home(d, area)
  {
  }

  /** Installing one slot keeps the meaning. */
  lemma InstallKeepsMeaning(d: Disk, area: Area, c: Disk, k: nat)
    requires Recoverable(d, area, c) && k < |Decode(d[area.start])|
    ensures Recoverable(d[Decode(d[area.start])[k] := d[area.start + 1 + k]], area, c)
  {
    var lh := Decode(d[area.start]);
    assert lh[k] in Home(d, area);
    var e := d[lh[k] := d[area.start + 1 + k]];
    assert Home(e, area).Keys == Home(d, area).Keys;
  }

  /** Once every slot is installed the home blocks are what the image stands for. */
  lemma AllInstalled(d: Disk, area: Area, c: Disk)
    requires Recoverable(d, area, c)
    requires forall k :: 0 <= k < |Decode(d[area.start])| ==>
               Decode(d[area.start])[k] in c && d[Decode(d[area.start])[k]] == c[Decode(d[area.start])[k]]
    ensures Home(d, area) == c
  {
  }

  ghost predicate MeanFrom(images: seq<Disk>, lo: nat, hi: nat, area: Area, c: Disk)
    requires hi <= |images|
  {
    forall i :: lo <= i < hi ==> Recoverable(images[i], area, c)
  }

  /** What `bread` returns for block b. */
  function View(d: Disk, cached: map<nat, Block>, b: nat): Block
    requires b in d
  {
    if b in cached then cached[b] else d[b]
  }

  function HomeView(d: Disk, cached: map<nat, Block>, area: Area): Disk {
    map b | b in d && !InLog(area, b) :: View(d, cached, b)
  }

  /** A cached block agrees with the disk unless its buffer is pinned. */
  ghost predicate CacheOk(d: Disk, area: Area, cached: map<nat, Block>, pinned: set<nat>) {
    && LogOnDisk(d, area)
    && cached.Keys <= d.Keys
    && pinned <= cached.Keys
    && (forall b :: b in cached && b !in pinned ==> cached[b] == d[b])
    && (forall b :: b in pinned ==> !InLog(area, b))
  }

  lemma LogThere(d: Disk, area: Area, cached: map<nat, Block>, pinned: set<nat>)
    requires CacheOk(d, area, cached, pinned)
    ensures LogOnDisk(d, area)
  {
  }

  class Log {
    const area: Area
    var disk: Disk
    /** Contents held by valid buffers of the cache, by block number. */
    var cached: map<nat, Block>
    /** Blocks whose buffer is marked B_DIRTY and so is never recycled. */
    var pinned: set<nat>
    /** `log.lh.block[..log.lh.n]`. */
    var lh: seq<nat>
    /** Every disk image so far, oldest first: a crash leaves one of these. */
    ghost var images: seq<Disk>

    ghost predicate Valid()
      reads this
    {
      CacheOk(disk, area, cached, pinned)
    }

    constructor (area: Area, disk: Disk)
      requires LogOnDisk(disk, area)
      ensures Valid() && this.area == area && this.disk == disk
      ensures cached == map[] && pinned == {} && lh == [] && images == [disk]
    {
      this.area := area;
      this.disk := disk;
      cached, pinned, lh := map[], {}, [];
      images := [disk];
    }

    /** A miss recycles any unpinned buffers and fills one from disk. */
    method Bread(b: nat) returns (data: Block)
      requires Valid() && b in disk
      modifies this`cached
      ensures Valid() && data == old(View(disk, cached, b)) && b in cached
      ensures forall x :: x in disk ==> View(disk, cached, x) == old(View(disk, cached, x))
    {
      if b !in cached {
        var victims: set<nat> :| victims <= cached.Keys - pinned;
        cached := (cached - victims)[b := disk[b]];
      }
      data := cached[b];
    }

    /** `bwrite` after filling the buffer with `data`; one atomic disk write. */
    method Bwrite(b: nat, data: Block)
      requires Valid() && b in disk
      modifies this`cached, this`disk, this`pinned, this`images
      ensures Valid() && disk == old(disk)[b := data] && images == old(images) + [disk]
      ensures pinned == old(pinned) - {b} && cached == old(cached)[b := data]
    {
      cached := cached[b := data];
      disk := disk[b := data];
      pinned := pinned - {b};
      images := images + [disk];
    }

    /**
      `log_write`: record the block number unless it is already there (absorption),
      and pin the buffer.
     */
    method LogWrite(b: nat, data: Block)
      requires Valid() && b in disk && !InLog(area, b) && Distinct(lh)
      modifies this`cached, this`pinned, this`lh
      ensures Valid() && Distinct(lh)
      ensures lh == if b in old(lh) then old(lh) else old(lh) + [b]
      ensures pinned == old(pinned) + {b}
      ensures forall x :: x in disk ==> View(disk, cached, x) == if x == b then data else old(View(disk, cached, x))
    {
      var i := 0;
      while i < |lh| && lh[i] != b
        invariant 0 <= i <= |lh|
        invariant b !in lh[..i]
      {
        i := i + 1;
      }
      if i == |lh| {
        lh := lh + [b];
      } else {
        lh := lh[i := b];
      }
      cached := cached[b := data];
      pinned := pinned + {b};
    }

    method WriteLogBlock(tail: nat)
      requires Valid() && HomeBlocks(disk, area, lh) && Fits(area, lh) && tail < |lh|
      modifies this`cached, this`disk, this`pinned, this`images
      ensures Valid() && pinned == old(pinned) && images == old(images) + [disk]
      ensures disk == old(disk)[area.start + 1 + tail := old(View(disk, cached, lh[tail]))]
      ensures forall b :: b in disk && !InLog(area, b) ==> View(disk, cached, b) == old(View(disk, cached, b))
    {
      hide HomeBlocks, Home;
      HomeBlocksFacts(disk, area, lh);
      var _ := Bread(area.start + tail + 1);
      var from := Bread(lh[tail]);
      Bwrite(area.start + tail + 1, from);
    }

    /** `write_log`: copy the logged blocks from the cache to their log slots. */
    method WriteLog()
      requires Valid() && HomeBlocks(disk, area, lh) && Fits(area, lh)
      requires HeaderOk(disk[area.start]) && Decode(disk[area.start]) == []
      modifies this`cached, this`disk, this`pinned, this`images
      ensures Valid() && pinned == old(pinned)
      ensures disk.Keys == old(disk.Keys) && Home(disk, area) == old(Home(disk, area))
      ensures forall k :: 0 <= k < |lh| ==> disk[area.start + 1 + k] == old(View(disk, cached, lh[k]))
      ensures forall b :: b in disk && !InLog(area, b) ==> View(disk, cached, b) == old(View(disk, cached, b))
      ensures |images| == |old(images)| + |lh| && old(images) <= images
      ensures MeanFrom(images, |old(images)|, |images|, area, old(Home(disk, area)))
    {
      hide Recoverable, HomeBlocks, Home, Decode, HeaderOk;
      HomeBlocksFacts(disk, area, lh);
      var tail := 0;
      while tail < |lh|
        invariant 0 <= tail <= |lh|
        invariant Valid() && pinned == old(pinned)
        invariant disk.Keys == old(disk.Keys) && Home(disk, area) == old(Home(disk, area))
        invariant HomeBlocks(disk, area, lh)
        invariant HeaderOk(disk[area.start]) && Decode(disk[area.start]) == []
        invariant forall k :: 0 <= k < tail ==> disk[area.start + 1 + k] == old(View(disk, cached, lh[k]))
        invariant forall b :: b in disk && !InLog(area, b) ==> View(disk, cached, b) == old(View(disk, cached, b))
        invariant |images| == |old(images)| + tail && old(images) <= images
        invariant MeanFrom(images, |old(images)|, |images|, area, old(Home(disk, area)))
      {
        SlotWriteIsSilent(disk, area, tail, View(disk, cached, lh[tail]));
        WriteLogBlock(tail);
        SameHomeBlocks(old(disk), disk, area, lh);
        tail := tail + 1;
      }
    }

    /** `write_head`: the in-memory header replaces the one on disk in a single write. */
    method WriteHead()
      requires Valid() && |lh| <= LOGSIZE
      modifies this`cached, this`disk, this`pinned, this`images
      ensures Valid() && pinned == old(pinned) && images == old(images) + [disk]
      ensures area.start in disk && HeaderOk(disk[area.start]) && Decode(disk[area.start]) == lh
      ensures disk == old(disk)[area.start := disk[area.start]]
      ensures forall b :: b in disk && !InLog(area, b) ==> View(disk, cached, b) == old(View(disk, cached, b))
    {
      var hb := Bread(area.start);
      Bwrite(area.start, Encode(hb, lh));
    }

    method InstallBlock(tail: nat, ghost c: Disk)
      requires Valid() && Recoverable(disk, area, c) && Decode(disk[area.start]) == lh && tail < |lh|
      modifies this`cached, this`disk, this`pinned, this`images
      ensures Valid() && pinned == old(pinned) - {lh[tail]} && images == old(images) + [disk]
      ensures disk == old(disk)[lh[tail] := c[lh[tail]]] && Recoverable(disk, area, c)
    {
      hide Recoverable, HomeBlocks, Home, Decode;
      RecoverableFacts(disk, area, c, tail);
      InstallKeepsMeaning(disk, area, c, tail);
      var lbuf := Bread(area.start + tail + 1);
      var _ := Bread(lh[tail]);
      Bwrite(lh[tail], lbuf);
    }

    /**
      `install_trans`: copy each log slot home.  Every image on the way still stands
      for the same file-system contents `c`.
     */
    method InstallTrans(ghost c: Disk)
      requires Valid() && Recoverable(disk, area, c) && Decode(disk[area.start]) == lh
      requires forall b :: b in pinned ==> b in lh
      modifies this`cached, this`disk, this`pinned, this`images
      ensures Valid() && pinned == {}
      ensures disk.Keys == old(disk.Keys) && Home(disk, area) == c
      ensures |images| == |old(images)| + |lh| && old(images) <= images
      ensures MeanFrom(images, |old(images)|, |images|, area, c)
    {
      hide Recoverable, HomeBlocks, Home, Decode, HeaderOk;
      var tail := 0;
      while tail < |lh|
        invariant 0 <= tail <= |lh|
        invariant Valid()
        invariant forall b :: b in pinned ==> b in lh[tail..]
        invariant disk.Keys == old(disk.Keys) && disk[area.start] == old(disk[area.start]) && Recoverable(disk, area, c)
        invariant forall k :: 0 <= k < tail ==> lh[k] in c && lh[k] in disk && disk[lh[k]] == c[lh[k]]
        invariant |images| == |old(images)| + tail && old(images) <= images
        invariant MeanFrom(images, |old(images)|, |images|, area, c)
      {
        RecoverableFacts(disk, area, c, tail);
        InstallBlock(tail, c);
        assert lh[tail..] == [lh[tail]] + lh[tail + 1..];
        tail := tail + 1;
      }
      AllInstalled(disk, area, c);
    }

    /** The first half of `commit`: fill the slots, then write the header over them. */
    method Publish()
      requires Valid() && HomeBlocks(disk, area, lh) && Fits(area, lh) && pinned == (set b | b in lh)
      requires HeaderOk(disk[area.start]) && Decode(disk[area.start]) == []
      modifies this`cached, this`disk, this`pinned, this`images
      ensures Valid() && pinned == old(pinned) && disk.Keys == old(disk.Keys)
      ensures HeaderOk(disk[area.start]) && Decode(disk[area.start]) == lh
      ensures Recoverable(disk, area, old(HomeView(disk, cached, area)))
      ensures |images| == |old(images)| + |lh| + 1 && old(images) <= images && images[|images| - 1] == disk
      ensures MeanFrom(images, |old(images)|, |images| - 1, area, old(Home(disk, area)))
    {
      hide Recoverable, HomeBlocks, Home, HomeView, Decode, HeaderOk, CacheOk, View;
      HomeBlocksFacts(disk, area, lh);
      LogThere(disk, area, cached, pinned);
      WriteLog();
      ghost var d := disk;
      WriteHead();
      HeadWriteCommits(old(disk), area, old(cached), pinned, lh, d, disk[area.start]);
    }

    /** The second half of `commit`, and all of recovery: install, then erase the header. */
    method Drain(ghost c: Disk)
      requires Valid() && HeaderOk(disk[area.start]) && Decode(disk[area.start]) == lh && Recoverable(disk, area, c)
      requires forall b :: b in pinned ==> b in lh
      modifies this`cached, this`disk, this`pinned, this`images, this`lh
      ensures Valid() && lh == [] && pinned == {} && disk.Keys == old(disk.Keys)
      ensures HeaderOk(disk[area.start]) && Decode(disk[area.start]) == []
      ensures Home(disk, area) == c
      ensures |images| == |old(images)| + |old(lh)| + 1 && old(images) <= images
      ensures MeanFrom(images, |old(images)|, |images|, area, c)
    {
      hide Recoverable, HomeBlocks, Home, HomeView, Decode, HeaderOk;
      InstallTrans(c);
      lh := [];
      ghost var d := disk;
      WriteHead();
      HeadEraseIsSilent(d, area, disk[area.start]);
    }

    /**
      `commit`.  Every image up to the header write stands for the old contents and
      every later one for the new contents: a crash anywhere sees all of the
      transaction or none of it.
     */
    method Commit()
      requires Valid() && HomeBlocks(disk, area, lh) && Fits(area, lh) && pinned == (set b | b in lh)
      requires HeaderOk(disk[area.start]) && Decode(disk[area.start]) == []
      modifies this`cached, this`disk, this`pinned, this`images, this`lh
      ensures Valid() && lh == [] && pinned == {} && disk.Keys == old(disk.Keys)
      ensures HeaderOk(disk[area.start]) && Decode(disk[area.start]) == []
      ensures Home(disk, area) == old(HomeView(disk, cached, area))
      ensures |images| == |old(images)| + (if old(lh) == [] then 0 else 2 * |old(lh)| + 2)
      ensures old(images) <= images
      ensures MeanFrom(images, |old(images)|, |old(images)| + |old(lh)|, area, old(Home(disk, area)))
      ensures MeanFrom(images, |old(images)| + |old(lh)|, |images|, area, old(HomeView(disk, cached, area)))
    {
      hide Recoverable, HomeBlocks, Home, HomeView, Decode, HeaderOk;
      if |lh| > 0 {
        Publish();
        Drain(old(HomeView(disk, cached, area)));
      } else {
        assert pinned == {};
        CleanHomeView(disk, area, cached);
      }
    }

    /**
      `recover_from_log` on an image that stands for `c`: it ends with `c` at home and
      an empty header, and a crash in the middle leaves an image that stands for `c`
      again, so recovery may be cut short and restarted any number of times.
     */
    method RecoverFromLog(ghost c: Disk)
      requires Valid() && pinned == {} && HeaderOk(disk[area.start]) && Recoverable(disk, area, c)
      modifies this`cached, this`disk, this`pinned, this`images, this`lh
      ensures Valid() && lh == [] && pinned == {} && disk.Keys == old(disk.Keys)
      ensures HeaderOk(disk[area.start]) && Decode(disk[area.start]) == []
      ensures Home(disk, area) == c
      ensures old(images) <= images
      ensures MeanFrom(images, |old(images)|, |images|, area, c)
    {
      hide Recoverable, HomeBlocks, Home, HomeView, Decode;
      var hb := Bread(area.start);
      lh := Decode(hb);
      Drain(c);
    }
  }
}
