/**
  xv6 inodes over the block allocator: the free bitmap, direct and indirect block maps,
  truncation, and reads and writes.

  A disk block is used as file bytes or, when it is an indirect block, as words.
  Ownership (`Inv`) keeps the two uses apart, so the contents are kept as two views of
  the same block, both cleared by `bzero`.
 */
module Inodes {

  import LogSpace

  const BSIZE: nat := 512
  const NDIRECT: nat := 12
  const NINDIRECT: nat := 128
  const MAXFILE: nat := NDIRECT + NINDIRECT
  const BPB: nat := BSIZE * 8
  const UINT: nat := 0x1_0000_0000

  type Byte = x: int | 0 <= x < 256
  type Bytes = b: seq<Byte> | |b| == BSIZE witness seq(BSIZE, _ => 0)
  type Words = w: seq<nat> | |w| == NINDIRECT witness seq(NINDIRECT, _ => 0)
  type Inum = nat

  function ZeroBytes(): Bytes { seq(BSIZE, _ => 0) }
  function ZeroWords(): Words { seq(NINDIRECT, _ => 0) }

  datatype Inode = Inode(size: nat, direct: seq<nat>, indirect: nat)

  /** Where a block number is stored. */
  datatype Slot =
    | Direct(inum: Inum, i: nat)     // addrs[i]
    | Indirect(inum: Inum)           // addrs[NDIRECT]
    | Entry(inum: Inum, j: nat)      // word j of the indirect block

  /**
    bitmap   true for a block in use
    first    number of the first data block
    owner    history: for each data block in use, the slot that holds its number
   */
  datatype State = State(bitmap: seq<bool>, first: nat, bytes: map<nat, Bytes>, words: map<nat, Words>,
                         inode: map<Inum, Inode>, owner: map<nat, Slot>)

  predicate IsData(s: State, b: nat) { 0 < s.first <= b < |s.bitmap| }

  /** The block number in slot x, 0 if there is none. */
  function Val(s: State, x: Slot): nat {
    if x.inum !in s.inode then 0
    else
      var ip := s.inode[x.inum];
      match x
      case Direct(_, i) => if i < NDIRECT && i < |ip.direct| then ip.direct[i] else 0
      case Indirect(_) => ip.indirect
      case Entry(_, j) => if ip.indirect != 0 && ip.indirect in s.words && j < NINDIRECT
          then s.words[ip.indirect][j] else 0
  }

  /** A block number in a slot is a data block in use, owned by that slot alone. */
  predicate SlotOk(s: State, x: Slot) {
    var b := Val(s, x);
    b != 0 ==> IsData(s, b) && s.bitmap[b] && b in s.owner && s.owner[b] == x
  }

  /** A data block is in use exactly when some slot holds its number. */
  predicate BlockOk(s: State, b: nat) {
    && (IsData(s, b) ==> (s.bitmap[b] <==> b in s.owner) && b in s.bytes && b in s.words)
    && (b in s.owner ==> IsData(s, b) && Val(s, s.owner[b]) == b)
  }

  predicate InodeOk(s: State, n: Inum) {
    n in s.inode ==> |s.inode[n].direct| == NDIRECT
  }

  ghost predicate Inv(s: State) {
    && 0 < s.first <= |s.bitmap| && (forall i :: 0 <= i < s.first ==> s.bitmap[i])
    && (forall x {:trigger SlotOk(s, x)} :: SlotOk(s, x))
    && (forall b {:trigger BlockOk(s, b)} :: BlockOk(s, b))
    && (forall n {:trigger InodeOk(s, n)} :: InodeOk(s, n))
  }

  // ----- attaching and detaching blocks -----

  /** Slot x receives block number b. */
  function SetSlot(s: State, x: Slot, b: nat): State
    requires x.inum in s.inode && |s.inode[x.inum].direct| == NDIRECT
    requires x.Direct? ==> x.i < NDIRECT
    requires x.Entry? ==> x.j < NINDIRECT && s.inode[x.inum].indirect in s.words
  {
    var ip := s.inode[x.inum];
    match x
    case Direct(n, i) => s.(inode := s.inode[n := ip.(direct := ip.direct[i := b])])
    case Indirect(n) => s.(inode := s.inode[n := ip.(indirect := b)])
    case Entry(n, j) => s.(words := s.words[ip.indirect := s.words[ip.indirect][j := b]])
  }

  predicate SlotExists(s: State, x: Slot) {
    && x.inum in s.inode && |s.inode[x.inum].direct| == NDIRECT
    && (x.Direct? ==> x.i < NDIRECT)
    && (x.Entry? ==> x.j < NINDIRECT && s.inode[x.inum].indirect != 0 && s.inode[x.inum].indirect in s.words)
  }

  /** Block b, in use for nobody yet and cleared, goes into the empty slot x. */
  function Attach(s: State, x: Slot, b: nat): State
    requires SlotExists(s, x) && b < |s.bitmap|
  {
    SetSlot(s.(bitmap := s.bitmap[b := true], bytes := s.bytes[b := ZeroBytes()], words := s.words[b := ZeroWords()],
               owner := s.owner[b := x]), x, b)
  }

  lemma AttachOk(s: State, x: Slot, b: nat)
    requires Inv(s) && SlotExists(s, x) && Val(s, x) == 0 && IsData(s, b) && !s.bitmap[b]
    ensures Inv(Attach(s, x, b)) && Val(Attach(s, x, b), x) == b
    ensures forall y :: y != x ==> Val(Attach(s, x, b), y) == Val(s, y)
  {
    var t := Attach(s, x, b);
    assert BlockOk(s, b);
    forall y | y != x ensures Val(t, y) == Val(s, y) {
      assert SlotOk(s, y) && SlotOk(s, Indirect(y.inum)) && SlotOk(s, Indirect(x.inum));
    }
    assert SlotOk(s, Indirect(x.inum));
    forall y ensures SlotOk(t, y) { assert SlotOk(s, y); }
    forall c: nat ensures BlockOk(t, c) { assert BlockOk(s, c); }
    forall n: Inum ensures InodeOk(t, n) { assert InodeOk(s, n); }
  }

  /** Slot x gives up its block, which becomes free. */
  function Detach(s: State, x: Slot): State
    requires SlotExists(s, x) && Val(s, x) < |s.bitmap|
  {
    SetSlot(s.(bitmap := s.bitmap[Val(s, x) := false], owner := s.owner - {Val(s, x)}), x, 0)
  }

  lemma DetachOk(s: State, x: Slot)
    requires Inv(s) && SlotExists(s, x) && Val(s, x) != 0
    requires x.Indirect? ==> forall j :: 0 <= j < NINDIRECT ==> Val(s, Entry(x.inum, j)) == 0
    ensures Val(s, x) < |s.bitmap| && s.bitmap[Val(s, x)] && IsData(s, Val(s, x)) && Inv(Detach(s, x))
            && Val(Detach(s, x), x) == 0
    ensures forall y :: y != x ==> Val(Detach(s, x), y) == Val(s, y)
  {
    assert SlotOk(s, x);
    var t := Detach(s, x);
    forall y | y != x ensures Val(t, y) == Val(s, y) {
      assert SlotOk(s, y) && SlotOk(s, Indirect(y.inum)) && SlotOk(s, Indirect(x.inum));
    }
    assert SlotOk(s, Indirect(x.inum));
    forall y ensures SlotOk(t, y) { assert SlotOk(s, y); }
    forall c: nat ensures BlockOk(t, c) { assert BlockOk(s, c); }
    forall n: Inum ensures InodeOk(t, n) { assert InodeOk(s, n); }
  }

  // ----- file contents -----

  function FileSlot(n: Inum, bn: nat): Slot {
    if bn < NDIRECT then Direct(n, bn) else Entry(n, bn - NDIRECT)
  }

  /** Byte o of file n, as its block map finds it. */
  function ByteAt(s: State, n: Inum, o: nat): Byte {
    var b := Val(s, FileSlot(n, o / BSIZE));
    if b in s.bytes then s.bytes[b][o % BSIZE] else 0
  }

  /** Every block below the size is there. */
  predicate NoHoles(s: State, n: Inum, size: nat) {
    size <= MAXFILE * BSIZE && forall o :: 0 <= o < size ==> Val(s, FileSlot(n, o / BSIZE)) != 0
  }

  ghost predicate FilesOk(s: State) {
    forall n {:trigger n in s.inode} :: n in s.inode ==> NoHoles(s, n, s.inode[n].size)
  }

  /** The file as a flat sequence of bytes. */
  ghost function Contents(s: State, n: Inum): seq<Byte>
    requires n in s.inode
  {
    seq(s.inode[n].size, o requires 0 <= o => ByteAt(s, n, o))
  }

  predicate KeptAt(s: State, t: State, n: Inum, o: nat) {
    Val(s, FileSlot(n, o / BSIZE)) != 0 ==>
      Val(t, FileSlot(n, o / BSIZE)) == Val(s, FileSlot(n, o / BSIZE)) && ByteAt(t, n, o) == ByteAt(s, n, o)
  }

  /** Everything already stored reads the same. */
  ghost predicate Kept(s: State, t: State) {
    && t.inode.Keys == s.inode.Keys
    && (forall n :: n in s.inode ==> t.inode[n].size == s.inode[n].size)
    && (forall n, o {:trigger KeptAt(s, t, n, o)} :: KeptAt(s, t, n, o))
  }

  lemma AttachKept(s: State, x: Slot, b: nat)
    requires Inv(s) && SlotExists(s, x) && Val(s, x) == 0 && IsData(s, b) && !s.bitmap[b]
    ensures Kept(s, Attach(s, x, b))
  {
    AttachOk(s, x, b);
    assert BlockOk(s, b);
    var t := Attach(s, x, b);
    forall n: Inum, o: nat ensures KeptAt(s, t, n, o) {
      assert SlotOk(s, FileSlot(n, o / BSIZE));
    }
  }

  /** Rewriting the block of (n, bn) is seen at those bytes of that file and nowhere else. */
  lemma WriteBlock(s: State, t: State, n: Inum, bn: nat, data: Bytes, m: Inum, o: nat)
    requires Inv(s) && Val(s, FileSlot(n, bn)) != 0 && t == s.(bytes := s.bytes[Val(s, FileSlot(n, bn)) := data])
    ensures Val(t, FileSlot(m, o / BSIZE)) == Val(s, FileSlot(m, o / BSIZE))
    ensures (m, o / BSIZE) == (n, bn) ==> ByteAt(t, m, o) == data[o % BSIZE]
    ensures (m, o / BSIZE) != (n, bn) && Val(s, FileSlot(m, o / BSIZE)) != 0 ==> ByteAt(t, m, o) == ByteAt(s, m, o)
  {
    assert SlotOk(s, FileSlot(n, bn)) && SlotOk(s, FileSlot(m, o / BSIZE));
  }

  lemma BytesOk(s: State, b: nat, data: Bytes)
    requires Inv(s) && b in s.bytes
    ensures Inv(s.(bytes := s.bytes[b := data]))
  {
    var t := s.(bytes := s.bytes[b := data]);
    forall y ensures SlotOk(t, y) { assert SlotOk(s, y); }
    forall c: nat ensures BlockOk(t, c) { assert BlockOk(s, c); }
    forall n: Inum ensures InodeOk(t, n) { assert InodeOk(s, n); }
  }

  function Count(b: bool): nat { if b then 1 else 0 }

  lemma KeptRefl(s: State)
    ensures Kept(s, s)
  {
  }

  lemma KeptTrans(s: State, t: State, u: State)
    requires Kept(s, t) && Kept(t, u)
    ensures Kept(s, u)
  {
    forall n: Inum, o: nat ensures KeptAt(s, u, n, o) {
      assert KeptAt(s, t, n, o) && KeptAt(t, u, n, o);
    }
  }

  lemma InodeFacts(s: State, n: Inum)
    requires Inv(s) && n in s.inode
    ensures |s.inode[n].direct| == NDIRECT
  {
    assert InodeOk(s, n);
  }

  /** A nonzero slot names a data block whose contents exist. */
  lemma SlotFacts(s: State, x: Slot)
    requires Inv(s)
    ensures Val(s, x) != 0 ==>
              && IsData(s, Val(s, x)) && s.bitmap[Val(s, x)] && Val(s, x) in s.bytes && Val(s, x) in s.words
              && Val(s, x) in s.owner
  {
    assert SlotOk(s, x) && BlockOk(s, Val(s, x));
  }

  /** Clearing a new block does not disturb the indirect block a slot lives in. */
  lemma SlotSurvives(s: State, x: Slot, b: nat)
    requires Inv(s) && SlotExists(s, x) && IsData(s, b) && !s.bitmap[b]
    ensures x.Entry? ==> s.inode[x.inum].indirect != b
  {
    assert SlotOk(s, Indirect(x.inum));
  }

  lemma AttachFresh(s: State, x: Slot, b: nat)
    requires SlotExists(s, x) && b < |s.bitmap|
    ensures Attach(s, x, b).bytes == s.bytes[b := ZeroBytes()]
  {
  }

  // ----- writing -----

  predicate WroteAt(s: State, t: State, n: Inum, lo: nat, src: seq<Byte>, m: Inum, x: nat) {
    if m == n && lo <= x < lo + |src| then Val(t, FileSlot(m, x / BSIZE)) != 0 && ByteAt(t, m, x) == src[x - lo]
    else Val(s, FileSlot(m, x / BSIZE)) != 0 ==>
        Val(t, FileSlot(m, x / BSIZE)) != 0 && ByteAt(t, m, x) == ByteAt(s, m, x)
  }

  /** From s to t, bytes lo.. of file n became src and everything else stored reads the same. */
  ghost predicate Wrote(s: State, t: State, n: Inum, lo: nat, src: seq<Byte>) {
    && t.inode.Keys == s.inode.Keys
    && (forall m :: m in s.inode ==> t.inode[m].size == s.inode[m].size)
    && (forall m, x {:trigger WroteAt(s, t, n, lo, src, m, x)} :: WroteAt(s, t, n, lo, src, m, x))
  }

  lemma WroteNothing(s: State, n: Inum, lo: nat)
    ensures Wrote(s, s, n, lo, [])
  {
  }

  lemma WroteMore(s: State, t: State, u: State, n: Inum, lo: nat, a: seq<Byte>, b: seq<Byte>)
    requires Wrote(s, t, n, lo, a) && Wrote(t, u, n, lo + |a|, b)
    ensures Wrote(s, u, n, lo, a + b)
  {
    forall m: Inum, x: nat ensures WroteAt(s, u, n, lo, a + b, m, x) {
      assert WroteAt(s, t, n, lo, a, m, x) && WroteAt(t, u, n, lo + |a|, b, m, x);
    }
  }

  function Patch(data: Bytes, at: nat, part: seq<Byte>): Bytes
    requires at + |part| <= BSIZE
  {
    data[..at] + part + data[at + |part|..]
  }

  /** Storing part in the block of byte o. */
  lemma PatchWrote(s: State, t: State, n: Inum, o: nat, part: seq<Byte>)
    requires Inv(s) && o % BSIZE + |part| <= BSIZE
    requires var b := Val(s, FileSlot(n, o / BSIZE));
             && b != 0 && b in s.bytes
             && t == s.(bytes := s.bytes[b := Patch(s.bytes[b], o % BSIZE, part)])
    ensures Wrote(s, t, n, o, part)
  {
    var bn := o / BSIZE;
    var b := Val(s, FileSlot(n, bn));
    var data := Patch(s.bytes[b], o % BSIZE, part);
    forall m: Inum, x: nat ensures WroteAt(s, t, n, o, part, m, x) {
      WriteBlock(s, t, n, bn, data, m, x);
      if m == n && o <= x < o + |part| {
        SameBlock(o, x);
      }
    }
  }

  lemma SameBlock(o: nat, x: nat)
    requires o <= x && o % BSIZE + (x - o) < BSIZE
    ensures x / BSIZE == o / BSIZE && x % BSIZE == o % BSIZE + (x - o)
  {
  }

  lemma KeptWrote(s: State, t: State, u: State, n: Inum, o: nat, part: seq<Byte>)
    requires Kept(s, t) && Wrote(t, u, n, o, part)
    ensures Wrote(s, u, n, o, part)
  {
    forall m: Inum, x: nat ensures WroteAt(s, u, n, o, part, m, x) {
      assert KeptAt(s, t, m, x) && WroteAt(t, u, n, o, part, m, x);
    }
  }

  /** `c` with src written at off, extended if it reaches past the end. */
  function Splice(c: seq<Byte>, off: nat, src: seq<Byte>): seq<Byte>
    requires off <= |c|
  {
    c[..off] + src + (if off + |src| < |c| then c[off + |src|..] else [])
  }

  /** The size update at the end of writei. */
  function Resize(s: State, n: Inum, size: nat): State
    requires n in s.inode
  {
    s.(inode := s.inode[n := s.inode[n].(size := size)])
  }

  lemma ResizeOk(s: State, n: Inum, size: nat)
    requires Inv(s) && n in s.inode
    ensures Inv(Resize(s, n, size))
    ensures forall m: Inum, x: nat :: ByteAt(Resize(s, n, size), m, x) == ByteAt(s, m, x)
    ensures forall y :: Val(Resize(s, n, size), y) == Val(s, y)
  {
    var t := Resize(s, n, size);
    assert forall y :: Val(t, y) == Val(s, y);
    forall y ensures SlotOk(t, y) { assert SlotOk(s, y); }
    forall c: nat ensures BlockOk(t, c) { assert BlockOk(s, c); }
    forall m: Inum ensures InodeOk(t, m) { assert InodeOk(s, m); }
  }

  /** The state writei leaves: as written, with the size raised if the write went past the end. */
  function Written(t: State, n: Inum, end: nat): State
    requires n in t.inode
  {
    if end > t.inode[n].size then Resize(t, n, end) else t
  }

  lemma WrittenByte(s: State, t: State, n: Inum, off: nat, src: seq<Byte>, m: Inum, x: nat)
    requires FilesOk(s) && n in s.inode && off <= s.inode[n].size && Wrote(s, t, n, off, src) && Inv(t)
    requires m in s.inode && x < Written(t, n, off + |src|).inode[m].size
    ensures var u := Written(t, n, off + |src|);
            Val(u, FileSlot(m, x / BSIZE)) != 0
            && ByteAt(u, m, x) == if m == n && off <= x < off + |src| then src[x - off] else ByteAt(s, m, x)
  {
    ResizeOk(t, n, off + |src|);
    assert WroteAt(s, t, n, off, src, m, x) && NoHoles(s, m, s.inode[m].size);
  }

  /** What the byte-level relation means for whole files. */
  lemma WroteContents(s: State, t: State, n: Inum, off: nat, src: seq<Byte>)
    requires FilesOk(s) && n in s.inode && off <= s.inode[n].size && off + |src| <= MAXFILE * BSIZE
    requires Wrote(s, t, n, off, src) && Inv(t)
    ensures var u := Written(t, n, off + |src|);
            && FilesOk(u) && u.inode.Keys == s.inode.Keys
            && Contents(u, n) == Splice(Contents(s, n), off, src)
            && forall m :: m in s.inode && m != n ==> Contents(u, m) == Contents(s, m)
  {
    var u := Written(t, n, off + |src|);
    hide Inv, ByteAt, Val;
    forall m | m in u.inode ensures NoHoles(u, m, u.inode[m].size) {
      WrittenNoHoles(s, t, n, off, src, m);
    }
    WrittenFile(s, t, n, off, src, n);
    forall m | m in s.inode && m != n ensures Contents(u, m) == Contents(s, m) {
      WrittenFile(s, t, n, off, src, m);
    }
  }

  lemma WrittenNoHoles(s: State, t: State, n: Inum, off: nat, src: seq<Byte>, m: Inum)
    requires FilesOk(s) && n in s.inode && off <= s.inode[n].size && off + |src| <= MAXFILE * BSIZE
    requires Wrote(s, t, n, off, src) && Inv(t) && m in s.inode
    ensures var u := Written(t, n, off + |src|); m in u.inode && NoHoles(u, m, u.inode[m].size)
  {
    var u := Written(t, n, off + |src|);
    assert NoHoles(s, m, s.inode[m].size);
    hide Inv, ByteAt, Val;
    forall x: nat | x < u.inode[m].size ensures Val(u, FileSlot(m, x / BSIZE)) != 0 {
      WrittenByte(s, t, n, off, src, m, x);
    }
  }

  lemma SpliceAt(c: seq<Byte>, off: nat, src: seq<Byte>, x: nat)
    requires off <= |c|
    ensures |Splice(c, off, src)| == if off + |src| < |c| then |c| else off + |src|
    ensures x < |Splice(c, off, src)| && !(off <= x < off + |src|) ==> x < |c| && Splice(c, off, src)[x] == c[x]
    ensures x < |Splice(c, off, src)| && off <= x < off + |src| ==> Splice(c, off, src)[x] == src[x - off]
  {
  }

  lemma WrittenSize(s: State, t: State, n: Inum, off: nat, src: seq<Byte>, m: Inum)
    requires n in s.inode && Wrote(s, t, n, off, src) && m in s.inode
    ensures n in t.inode && m in Written(t, n, off + |src|).inode
    ensures Written(t, n, off + |src|).inode[m].size ==
            if m == n && off + |src| > s.inode[n].size then off + |src| else s.inode[m].size
  {
  }

  lemma WrittenFile(s: State, t: State, n: Inum, off: nat, src: seq<Byte>, m: Inum)
    requires FilesOk(s) && n in s.inode && off <= s.inode[n].size && Wrote(s, t, n, off, src) && Inv(t) && m in s.inode
    ensures n in t.inode
    ensures var u := Written(t, n, off + |src|);
            m in u.inode && Contents(u, m) == if m == n then Splice(Contents(s, n), off, src) else Contents(s, m)
  {
    WrittenSize(s, t, n, off, src, m);
    var u := Written(t, n, off + |src|);
    var c := if m == n then Splice(Contents(s, n), off, src) else Contents(s, m);
    SpliceAt(Contents(s, n), off, src, 0);
    hide Inv, ByteAt, Val, Wrote, FilesOk, Splice, Written;
    assert |Contents(u, m)| == |c|;
    forall x: nat | x < u.inode[m].size ensures Contents(u, m)[x] == c[x] {
      WrittenByte(s, t, n, off, src, m, x);
      SpliceAt(Contents(s, n), off, src, x);
    }
  }

  /** m bytes from within one block are the same m bytes of the file. */
  lemma ReadBlock(s: State, n: Inum, o: nat, m: nat)
    requires n in s.inode && o + m <= s.inode[n].size && o % BSIZE + m <= BSIZE && m > 0
    requires Val(s, FileSlot(n, o / BSIZE)) in s.bytes
    ensures s.bytes[Val(s, FileSlot(n, o / BSIZE))][o % BSIZE..o % BSIZE + m] == Contents(s, n)[o..o + m]
  {
    var b := Val(s, FileSlot(n, o / BSIZE));
    forall x: nat | o <= x < o + m ensures ByteAt(s, n, x) == s.bytes[b][o % BSIZE + (x - o)] {
      SameBlock(o, x);
    }
    hide Val;
  }

  /** Largest write filewrite hands to writei at a time. */
  const CHUNK: nat := (LogSpace.MAXOPBLOCKS - 1 - 1 - 2) / 2 * 512

  /** After k rounds that stored tot of cnt bytes: every round but the last ended on a block boundary. */
  predicate Progress(off: nat, tot: nat, cnt: nat, k: nat) {
    && (k == 0 <==> tot == 0)
    && (k > 0 ==> (off / BSIZE + k - 1) * BSIZE < off + tot <= (off / BSIZE + k) * BSIZE)
    && (0 < tot < cnt ==> off + tot == (off / BSIZE + k) * BSIZE)
  }

  /** How many of the `left` bytes from offset o lie in o's block. */
  function Piece(o: nat, left: nat): nat { if left < BSIZE - o % BSIZE then left else BSIZE - o % BSIZE }

  /** k bytes from offset o are in one block, which a file can have. */
  predicate Fits(o: nat, k: nat) { o / BSIZE < MAXFILE && o % BSIZE + k <= BSIZE }

  lemma PieceFits(o: nat, left: nat)
    requires left > 0 && o < MAXFILE * BSIZE
    ensures 0 < Piece(o, left) <= left && Fits(o, Piece(o, left))
  {
    BlockInRange(o);
  }

  lemma ProgressStep(off: nat, tot: nat, cnt: nat, k: nat)
    requires Progress(off, tot, cnt, k) && tot < cnt
    ensures Progress(off, tot + Piece(off + tot, cnt - tot), cnt, k + 1)
  {
  }

  /** A chunk spans at most four blocks, three when it starts on a boundary. */
  lemma ChunkRounds(off: nat, cnt: nat, k: nat)
    requires Progress(off, cnt, cnt, k) && cnt <= CHUNK
    ensures k <= 4 && (off % BSIZE == 0 ==> k <= 3)
  {
  }

  lemma BlockInRange(o: nat)
    requires o < MAXFILE * BSIZE
    ensures o / BSIZE < MAXFILE
  {
  }

  const IPB: nat := 8

  lemma UnionBound(old0: set<nat>, d: set<nat>, m: set<nat>, i: set<nat>, u: set<nat>, all: set<nat>)
    requires all <= old0 + d + m + i + u
    ensures |all| <= |old0| + |d| + |m| + |i| + |u|
  {
    UnionCard(old0, d);
    UnionCard(old0 + d, m);
    UnionCard(old0 + d + m, i);
    UnionCard(old0 + d + m + i, u);
    SubsetCard(all, old0 + d + m + i + u);
  }

  lemma UnionCard(a: set<nat>, b: set<nat>)
    ensures |a + b| <= |a| + |b|
  {
    assert a + b == a + (b - a);
    SubsetCard(b - a, b);
  }

  lemma SubsetCard(a: set<nat>, b: set<nat>)
    requires a <= b
    ensures |a| <= |b|
  {
    assert b == a + (b - a);
  }

  /**
    Blocks logged by a write so far: data blocks, bitmap blocks, the indirect block;
    rounds of the loop, data blocks newly allocated, indirect blocks newly allocated.
   */
  datatype Tally = Tally(data: set<nat>, maps: set<nat>, ind: set<nat>, rounds: nat, news: nat, newInd: nat)

  function Counted(y: Tally, addr: nat, maps: set<nat>, ind: nat, newBlock: bool, far: bool, noInd: bool): Tally {
    Tally(y.data + {addr}, y.maps + maps, if far then y.ind + {ind} else y.ind,
          y.rounds + 1, y.news + Count(newBlock), y.newInd + Count(far && noInd))
  }

  ghost predicate Tallied(logged: set<nat>, log0: set<nat>, off: nat, ind0: nat, ind: nat, y: Tally) {
    && logged <= log0 + y.data + y.maps + y.ind
    && |y.data| <= y.rounds && |y.maps| <= y.news + y.newInd && y.news <= y.rounds
    && (off % BSIZE != 0 && y.rounds > 0 ==> y.news <= y.rounds - 1)
    && y.newInd <= Count(ind != 0) && (ind0 != 0 ==> y.newInd == 0 && ind == ind0)
    && (y.ind == {} || (ind != 0 && y.ind == {ind}))
  }

  lemma NothingTallied(logged: set<nat>, off: nat, ind: nat)
    ensures Tallied(logged, logged, off, ind, ind, Tally({}, {}, {}, 0, 0, 0))
  {
  }

  lemma NoProgress(off: nat, cnt: nat)
    ensures Progress(off, 0, cnt, 0)
  {
  }

  lemma TallyStep(logged: set<nat>, logged2: set<nat>, log0: set<nat>, off: nat, tot: nat, cnt: nat,
                  ind0: nat, ind: nat, ind2: nat, y: Tally, addr: nat, maps: set<nat>, newBlock: bool, far: bool)
    requires Tallied(logged, log0, off, ind0, ind, y) && Progress(off, tot, cnt, y.rounds)
    requires off % BSIZE != 0 && tot == 0 ==> !newBlock
    requires logged2 <= logged + maps + {addr} + (if far then {ind2} else {})
    requires |maps| <= Count(newBlock) + Count(far && ind == 0)
    requires ind2 == ind || ind == 0
    requires !far ==> ind2 == ind
    requires far ==> ind2 != 0
    ensures Tallied(logged2, log0, off, ind0, ind2, Counted(y, addr, maps, ind2, newBlock, far, ind == 0))
  {
    UnionCard(y.data, {addr});
    UnionCard(y.maps, maps);
  }

  /** A chunk logs at most MAXOPBLOCKS blocks, the inode's block included. */
  lemma ChunkBound(logged: set<nat>, log0: set<nat>, off: nat, cnt: nat, ind0: nat, ind: nat, y: Tally, inodeBlock: nat)
    requires Tallied(logged, log0, off, ind0, ind, y) && Progress(off, cnt, cnt, y.rounds) && cnt <= CHUNK
    ensures |logged| <= |log0| + LogSpace.MAXOPBLOCKS && |logged + {inodeBlock}| <= |log0| + LogSpace.MAXOPBLOCKS
  {
    ChunkRounds(off, cnt, y.rounds);
    UnionBound(log0, y.data, y.maps, y.ind, {inodeBlock}, logged + {inodeBlock});
    UnionBound(log0, y.data, y.maps, y.ind, {inodeBlock}, logged);
  }

  lemma ContentsSize(s: State, n: Inum)
    requires n in s.inode
    ensures |Contents(s, n)| == s.inode[n].size
  {
  }

  /** A write that starts inside a block finds that block: the file has no holes and off is not past its end. */
  lemma FirstBlockThere(s: State, t: State, n: Inum, off: nat, src: seq<Byte>)
    requires FilesOk(s) && n in s.inode && off <= s.inode[n].size && off % BSIZE != 0 && Wrote(s, t, n, off, src)
    ensures Val(t, FileSlot(n, off / BSIZE)) != 0
  {
    assert NoHoles(s, n, s.inode[n].size);
    assert (off - 1) / BSIZE == off / BSIZE;
    assert WroteAt(s, t, n, off, src, n, off - 1);
  }

  lemma WroteSizes(s: State, t: State, n: Inum, lo: nat, src: seq<Byte>)
    requires Wrote(s, t, n, lo, src) && n in s.inode
    ensures n in t.inode && t.inode[n].size == s.inode[n].size
  {
  }

  /** The state of writei's loop after tot bytes: t from s, the blocks logged so far, and their tally. */
  ghost predicate Stored(s: State, t: State, n: Inum, off: nat, tot: nat, src: seq<Byte>, log0: set<nat>,
      log: set<nat>, y: Tally) {
    && tot <= |src| && n in s.inode && n in t.inode && Inv(t) && Wrote(s, t, n, off, src[..tot])
    && t.inode[n].size == s.inode[n].size && Progress(off, tot, |src|, y.rounds)
    && Tallied(log, log0, off, s.inode[n].indirect, t.inode[n].indirect, y)
  }

  /** What bmap and one round of writei log at most, for block bn at addr. */
  ghost predicate StepLogs(t: State, u: State, n: Inum, bn: nat, log: set<nat>, log2: set<nat>, addr: nat,
      maps: set<nat>)
    requires n in t.inode && n in u.inode
  {
    && (u.inode[n].indirect == t.inode[n].indirect || t.inode[n].indirect == 0)
    && (bn < NDIRECT ==> u.inode[n].indirect == t.inode[n].indirect)
    && (addr != 0 && bn >= NDIRECT ==> u.inode[n].indirect != 0)
    && log2 <= log + maps + {addr} + (if bn < NDIRECT then {} else {u.inode[n].indirect})
    && |maps| <= Count(Val(t, FileSlot(n, bn)) == 0) + Count(bn >= NDIRECT && t.inode[n].indirect == 0)
  }

  ghost function NextTally(t: State, u: State, n: Inum, o: nat, y: Tally, addr: nat, maps: set<nat>): Tally
    requires n in t.inode && n in u.inode
  {
    var bn := o / BSIZE;
    Counted(y, addr, maps, u.inode[n].indirect, Val(t, FileSlot(n, bn)) == 0, bn >= NDIRECT, t.inode[n].indirect == 0)
  }

  lemma StoredNothing(s: State, n: Inum, off: nat, src: seq<Byte>, log: set<nat>)
    requires Inv(s) && n in s.inode
    ensures Stored(s, s, n, off, 0, src, log, log, Tally({}, {}, {}, 0, 0, 0))
  {
    WroteNothing(s, n, off);
    NoProgress(off, |src|);
    NothingTallied(log, off, s.inode[n].indirect);
    assert src[..0] == [];
  }

  lemma StoredAll(s: State, t: State, n: Inum, off: nat, src: seq<Byte>, log0: set<nat>, log: set<nat>, y: Tally)
    requires Stored(s, t, n, off, |src|, src, log0, log, y)
    ensures n in s.inode && n in t.inode && Wrote(s, t, n, off, src) && t.inode[n].size == s.inode[n].size
    ensures Progress(off, |src|, |src|, y.rounds)
            && Tallied(log, log0, off, s.inode[n].indirect, t.inode[n].indirect, y)
  {
    assert src[..|src|] == src;
  }

  /** One more block stored. */
  lemma StoredMore(s: State, t: State, u: State, n: Inum, off: nat, tot: nat, src: seq<Byte>,
                   log0: set<nat>, log: set<nat>, log2: set<nat>, y: Tally, addr: nat, maps: set<nat>)
    requires Stored(s, t, n, off, tot, src, log0, log, y) && FilesOk(s) && off <= s.inode[n].size && tot < |src|
    requires var m := Piece(off + tot, |src| - tot);
             tot + m <= |src| && Inv(u) && n in u.inode && Wrote(t, u, n, off + tot, src[tot..tot + m])
    requires StepLogs(t, u, n, (off + tot) / BSIZE, log, log2, addr, maps) && addr != 0
    ensures Stored(s, u, n, off, tot + Piece(off + tot, |src| - tot), src, log0, log2,
                   NextTally(t, u, n, off + tot, y, addr, maps))
  {
    hide Inv, Wrote, Val, Progress, Tallied, FileSlot, FilesOk, Piece, StepLogs, NextTally;
    MoreWrote(s, t, u, n, off, tot, Piece(off + tot, |src| - tot), src);
    MoreTally(s, t, u, n, off, tot, src, log0, log, log2, y, addr, maps);
  }

  lemma MoreWrote(s: State, t: State, u: State, n: Inum, off: nat, tot: nat, m: nat, src: seq<Byte>)
    requires tot + m <= |src| && n in s.inode && n in t.inode && t.inode[n].size == s.inode[n].size
    requires Wrote(s, t, n, off, src[..tot]) && Wrote(t, u, n, off + tot, src[tot..tot + m])
    ensures Wrote(s, u, n, off, src[..tot + m]) && n in u.inode && u.inode[n].size == s.inode[n].size
  {
    hide Wrote;
    WroteSizes(t, u, n, off + tot, src[tot..tot + m]);
    WroteMore(s, t, u, n, off, src[..tot], src[tot..tot + m]);
    assert src[..tot] + src[tot..tot + m] == src[..tot + m];
  }

  lemma MoreTally(s: State, t: State, u: State, n: Inum, off: nat, tot: nat, src: seq<Byte>,
                  log0: set<nat>, log: set<nat>, log2: set<nat>, y: Tally, addr: nat, maps: set<nat>)
    requires FilesOk(s) && n in s.inode && n in t.inode && n in u.inode && off <= s.inode[n].size && tot < |src|
    requires Wrote(s, t, n, off, src[..tot]) && Progress(off, tot, |src|, y.rounds)
    requires Tallied(log, log0, off, s.inode[n].indirect, t.inode[n].indirect, y)
    requires StepLogs(t, u, n, (off + tot) / BSIZE, log, log2, addr, maps) && addr != 0
    ensures var y2 := NextTally(t, u, n, off + tot, y, addr, maps);
            && Progress(off, tot + Piece(off + tot, |src| - tot), |src|, y2.rounds)
            && Tallied(log2, log0, off, s.inode[n].indirect, u.inode[n].indirect, y2)
  {
    hide Wrote, Val, Progress, Tallied, FileSlot, FilesOk, Piece, Count;
    FirstNotNew(s, t, n, off, tot, src);
    ProgressStep(off, tot, |src|, y.rounds);
    TallyStep(log, log2, log0, off, tot, |src|, s.inode[n].indirect, t.inode[n].indirect, u.inode[n].indirect,
              y, addr, maps, Val(t, FileSlot(n, (off + tot) / BSIZE)) == 0, (off + tot) / BSIZE >= NDIRECT);
  }

  /** Inside the file no block is missing, before or after some of the write. */
  lemma BlockThere(s: State, t: State, n: Inum, off: nat, tot: nat, src: seq<Byte>,
                   log0: set<nat>, log: set<nat>, y: Tally)
    requires FilesOk(s) && n in s.inode && tot < |src| && Stored(s, t, n, off, tot, src, log0, log, y)
    ensures off + |src| <= s.inode[n].size ==> Val(t, FileSlot(n, (off + tot) / BSIZE)) != 0
  {
    if off + |src| <= s.inode[n].size {
      assert NoHoles(s, n, s.inode[n].size);
      assert WroteAt(s, t, n, off, src[..tot], n, off + tot);
    }
  }

  lemma FirstNotNew(s: State, t: State, n: Inum, off: nat, tot: nat, src: seq<Byte>)
    requires FilesOk(s) && n in s.inode && off <= s.inode[n].size && tot <= |src| && Wrote(s, t, n, off, src[..tot])
    ensures off % BSIZE != 0 && tot == 0 ==> Val(t, FileSlot(n, (off + tot) / BSIZE)) != 0
  {
    hide Wrote, Val, FileSlot, FilesOk;
    if off % BSIZE != 0 && tot == 0 {
      FirstBlockThere(s, t, n, off, src[..tot]);
    }
  }

  // ----- truncation -----

  /** s with the first j words of block ind read as 0. */
  function Cleared(s: State, ind: nat, j: nat): State
    requires ind in s.words
  {
    s.(words := s.words[ind := seq(NINDIRECT, k requires 0 <= k < NINDIRECT => if k < j then 0 else s.words[ind][k])])
  }

  lemma ClearedNone(s: State, ind: nat)
    requires ind in s.words
    ensures Cleared(s, ind, 0) == s
  {
    assert Cleared(s, ind, 0).words[ind] == s.words[ind];
  }

  /** Freeing the block in word j, without clearing the word, detaches it from the cleared view. */
  lemma ClearedStep(s: State, t: State, n: Inum, j: nat)
    requires n in s.inode && s.inode[n].indirect in s.words && s.inode[n].indirect != 0 && j < NINDIRECT
    requires var ind := s.inode[n].indirect; var b := s.words[ind][j]; var c := Cleared(s, ind, j);
             && Inv(c)
             && (b == 0 ==> t == s)
             && (b != 0 ==> b < |s.bitmap| && t == s.(bitmap := s.bitmap[b := false], owner := s.owner - {b}))
    ensures var ind := s.inode[n].indirect;
            Inv(Cleared(t, ind, j + 1))
            && forall y :: Val(Cleared(t, ind, j + 1), y) == if y == Entry(n, j) then 0 else Val(Cleared(s, ind, j), y)
  {
    var ind := s.inode[n].indirect;
    var c := Cleared(s, ind, j);
    var b := s.words[ind][j];
    assert Val(c, Entry(n, j)) == b;
    InodeFacts(c, n);
    if b == 0 {
      assert Cleared(t, ind, j + 1).words[ind] == c.words[ind];
      assert Cleared(t, ind, j + 1) == c;
    } else {
      DetachOk(c, Entry(n, j));
      assert Cleared(t, ind, j + 1).words[ind] == Detach(c, Entry(n, j)).words[ind];
      assert Cleared(t, ind, j + 1) == Detach(c, Entry(n, j));
    }
  }

  lemma IndirectVal(s: State, n: Inum)
    requires n in s.inode
    ensures Val(s, Indirect(n)) == s.inode[n].indirect
    ensures forall y: Slot :: y.Entry? && y.j >= NINDIRECT ==> Val(s, y) == 0
  {
  }

  /** A nonzero word still to be freed names a block in use: bfree does not panic. */
  lemma EntryInUse(s: State, n: Inum, j: nat)
    requires n in s.inode && s.inode[n].indirect in s.words && s.inode[n].indirect != 0 && j < NINDIRECT
    requires Inv(Cleared(s, s.inode[n].indirect, j))
    ensures var b := s.words[s.inode[n].indirect][j]; b != 0 ==> b < |s.bitmap| && s.bitmap[b] && b in s.owner
  {
    var c := Cleared(s, s.inode[n].indirect, j);
    assert SlotOk(c, Entry(n, j));
    assert Val(c, Entry(n, j)) == s.words[s.inode[n].indirect][j];
  }

  /** What a free block holds is nobody's concern. */
  lemma WordsOfFree(s: State, ind: nat, w: Words)
    requires Inv(s) && IsData(s, ind) && !s.bitmap[ind]
    ensures Inv(s.(words := s.words[ind := w]))
    ensures forall y :: Val(s.(words := s.words[ind := w]), y) == Val(s, y)
  {
    var t := s.(words := s.words[ind := w]);
    forall y ensures Val(t, y) == Val(s, y) { assert SlotOk(s, Indirect(y.inum)); }
    forall y ensures SlotOk(t, y) { assert SlotOk(s, y); }
    forall c: nat ensures BlockOk(t, c) { assert BlockOk(s, c); }
    forall n: Inum ensures InodeOk(t, n) { assert InodeOk(s, n); }
  }

  lemma NoIndirect(s: State, n: Inum)
    requires n in s.inode && s.inode[n].indirect == 0
    ensures forall y: Slot :: !y.Direct? && y.inum == n ==> Val(s, y) == 0
  {
  }

  /** With every word cleared, freeing the indirect block empties all indirect slots of n. */
  lemma LastDetach(t: State, n: Inum)
    requires n in t.inode && t.inode[n].indirect != 0 && t.inode[n].indirect in t.words
    requires var c := Cleared(t, t.inode[n].indirect, NINDIRECT);
             Inv(c) && forall j :: 0 <= j < NINDIRECT ==> Val(c, Entry(n, j)) == 0
    ensures var ind := t.inode[n].indirect;
            var c := Cleared(t, ind, NINDIRECT);
            && ind < |t.bitmap| && t.bitmap[ind] && ind in t.owner
            && var u := t.(bitmap := t.bitmap[ind := false], owner := t.owner - {ind},
                           inode := t.inode[n := t.inode[n].(indirect := 0)]);
            Inv(u) && forall y :: Val(u, y) == if y == Indirect(n) then 0 else Val(c, y)
  {
    var ind := t.inode[n].indirect;
    var c := Cleared(t, ind, NINDIRECT);
    IndirectVal(c, n);
    InodeFacts(c, n);
    DetachOk(c, Indirect(n));
    SlotFacts(c, Indirect(n));
    var d := Detach(c, Indirect(n));
    WordsOfFree(d, ind, t.words[ind]);
    var u := t.(bitmap := t.bitmap[ind := false], owner := t.owner - {ind},
      inode := t.inode[n := t.inode[n].(indirect := 0)]);
    assert d.(words := d.words[ind := t.words[ind]]).words == u.words;
    assert d.(words := d.words[ind := t.words[ind]]) == u;
  }

  /** When the slots of n are emptied and the others kept, exactly the blocks of n became free. */
  lemma FreedExactly(s: State, t: State, n: Inum, b: nat)
    requires Inv(s) && Inv(t) && t.first == s.first && |t.bitmap| == |s.bitmap| && IsData(s, b)
    requires forall y :: Val(t, y) == if y.inum == n then 0 else Val(s, y)
    ensures t.bitmap[b] <==> s.bitmap[b] && b in s.owner && s.owner[b].inum != n
  {
    assert BlockOk(s, b) && BlockOk(t, b);
    if b in t.owner { assert SlotOk(s, t.owner[b]); }
    if b in s.owner { assert SlotOk(t, s.owner[b]); }
  }

  lemma TruncatedFiles(s: State, t: State, n: Inum)
    requires t.bytes == s.bytes && t.inode.Keys == s.inode.Keys && n in s.inode && t.inode[n].size == 0
    requires forall m :: m in s.inode && m != n ==> t.inode[m] == s.inode[m]
    requires forall y :: Val(t, y) == if y.inum == n then 0 else Val(s, y)
    ensures FilesOk(s) ==> FilesOk(t)
    ensures forall m :: m in s.inode && m != n ==> Contents(t, m) == Contents(s, m)
  {
    hide Val;
    if FilesOk(s) {
      forall m | m in t.inode ensures NoHoles(t, m, t.inode[m].size) {
        assert m != n ==> NoHoles(s, m, s.inode[m].size);
      }
    }
    forall m | m in s.inode && m != n ensures Contents(t, m) == Contents(s, m) {
      forall o: nat ensures ByteAt(t, m, o) == ByteAt(s, m, o) {}
    }
  }

  /** Writing a then b right behind it is writing a + b. */
  lemma SpliceTwice(c: seq<Byte>, off: nat, a: seq<Byte>, b: seq<Byte>)
    requires off <= |c|
    ensures off + |a| <= |Splice(c, off, a)| && Splice(Splice(c, off, a), off + |a|, b) == Splice(c, off, a + b)
  {
  }

  lemma WroteChunk(s: State, t: State, u: State, n: Inum, off0: nat, src: seq<Byte>, i: nat, n1: nat)
    requires n in s.inode && n in t.inode && n in u.inode && i + n1 <= |src| && 0 < n1
    requires i == 0 ==> t == s
    requires i > 0 ==> off0 <= s.inode[n].size && Contents(t, n) == Splice(Contents(s, n), off0, src[..i])
    requires off0 + i <= t.inode[n].size && Contents(u, n) == Splice(Contents(t, n), off0 + i, src[i..i + n1])
    ensures off0 <= s.inode[n].size && off0 + i + n1 <= u.inode[n].size
    ensures Contents(u, n) == Splice(Contents(s, n), off0, src[..i + n1])
  {
    ContentsSize(s, n);
    ContentsSize(t, n);
    ContentsSize(u, n);
    if i > 0 {
      SpliceTwice(Contents(s, n), off0, src[..i], src[i..i + n1]);
      assert src[..i] + src[i..i + n1] == src[..i + n1];
    } else {
      assert src[i..i + n1] == src[..i + n1];
    }
    SpliceTwice(Contents(t, n), off0 + i, src[i..i + n1], []);
  }

  function ZeroedBytes(n: nat): (m: map<nat, Bytes>)
    ensures forall b: nat :: b in m <==> b < n
  {
    if n == 0 then map[] else ZeroedBytes(n - 1)[n - 1 := ZeroBytes()]
  }

  function ZeroedWords(n: nat): (m: map<nat, Words>)
    ensures forall b: nat :: b in m <==> b < n
  {
    if n == 0 then map[] else ZeroedWords(n - 1)[n - 1 := ZeroWords()]
  }

  // ----- nothing changes unlogged -----

  /** If the contents of block b changed, b was passed to log_write. */
  predicate BlockLogged(s: State, t: State, log: set<nat>, b: nat) {
    && (b in t.bytes && (b in s.bytes ==> t.bytes[b] != s.bytes[b]) ==> b in log)
    && (b in t.words && (b in s.words ==> t.words[b] != s.words[b]) ==> b in log)
  }

  /** If the bit of block i changed, its bitmap block was. */
  predicate BitLogged(s: State, t: State, start: nat, log: set<nat>, i: nat) {
    i < |s.bitmap| && i < |t.bitmap| && t.bitmap[i] != s.bitmap[i] ==> start + i / BPB in log
  }

  /** Everything that changed from s to t on disk, but for inodes, is in the log. */
  ghost predicate Covers(s: State, t: State, start: nat, log: set<nat>) {
    && |t.bitmap| == |s.bitmap|
    && (forall b {:trigger BlockLogged(s, t, log, b)} :: BlockLogged(s, t, log, b))
    && (forall i {:trigger BitLogged(s, t, start, log, i)} :: BitLogged(s, t, start, log, i))
  }

  lemma CoversNothing(s: State, start: nat, log: set<nat>)
    ensures Covers(s, s, start, log)
  {
    forall b ensures BlockLogged(s, s, log, b) { }
    forall i ensures BitLogged(s, s, start, log, i) { }
  }

  lemma CoversTrans(s: State, t: State, u: State, start: nat, log: set<nat>, more: set<nat>)
    requires Covers(s, t, start, log) && Covers(t, u, start, more) && log <= more
    ensures Covers(s, u, start, more)
  {
    forall b ensures BlockLogged(s, u, more, b) { assert BlockLogged(s, t, log, b) && BlockLogged(t, u, more, b); }
    forall i ensures BitLogged(s, u, start, more, i) {
      assert BitLogged(s, t, start, log, i) && BitLogged(t, u, start, more, i);
    }
  }

  lemma AttachCovers(s: State, x: Slot, b: nat, start: nat, log: set<nat>)
    requires SlotExists(s, x) && b < |s.bitmap| && {start + b / BPB, b} <= log
    requires x.Entry? ==> s.inode[x.inum].indirect in log
    ensures Covers(s, Attach(s, x, b), start, log)
  {
    var t := Attach(s, x, b);
    forall c ensures BlockLogged(s, t, log, c) { }
    forall i ensures BitLogged(s, t, start, log, i) { }
  }

  /** A change of one block's bytes. */
  lemma BytesCovers(s: State, t: State, b: nat, start: nat, log: set<nat>)
    requires b in log && t.bitmap == s.bitmap && t.words == s.words
    requires b in t.bytes && t.bytes == s.bytes[b := t.bytes[b]]
    ensures Covers(s, t, start, log)
  {
    forall c ensures BlockLogged(s, t, log, c) { }
    forall i ensures BitLogged(s, t, start, log, i) { }
  }

  /** What does not touch blocks or bits needs no log. */
  lemma InodeCovers(s: State, t: State, start: nat, log: set<nat>)
    requires t.bitmap == s.bitmap && t.words == s.words && t.bytes == s.bytes
    ensures Covers(s, t, start, log)
  {
    forall c ensures BlockLogged(s, t, log, c) { }
    forall i ensures BitLogged(s, t, start, log, i) { }
  }

  /** Whatever the j-th transaction changed, the inode included, it logged. */
  ghost predicate LoggedStep(s: State, t: State, log: set<nat>, n: Inum, start: nat, inodes: nat) {
    && Covers(s, t, start, log) && n in s.inode && n in t.inode
    && (t.inode[n] != s.inode[n] ==> inodes + n / IPB in log)
  }

  /** The states between the transactions. */
  ghost predicate InTransactions(cuts: seq<State>, txns: seq<set<nat>>, n: Inum, start: nat, inodes: nat) {
    |cuts| == |txns| + 1 && forall j, k :: 0 <= j < |txns| && k == j + 1 ==>
      LoggedStep(cuts[j], cuts[k], txns[j], n, start, inodes)
  }

  lemma OneMore(cuts: seq<State>, txns: seq<set<nat>>, t: State, log: set<nat>, n: Inum, start: nat, inodes: nat)
    requires InTransactions(cuts, txns, n, start, inodes) && LoggedStep(cuts[|txns|], t, log, n, start, inodes)
    ensures InTransactions(cuts + [t], txns + [log], n, start, inodes)
  {
  }

  /** Transactions txns lead from s to t by way of cuts, none larger than an operation may log. */
  ghost predicate Committed(cuts: seq<State>, txns: seq<set<nat>>, s: State, t: State, n: Inum, start: nat,
      inodes: nat) {
    && InTransactions(cuts, txns, n, start, inodes) && cuts[0] == s && cuts[|txns|] == t
    && forall i :: 0 <= i < |txns| ==> |txns[i]| <= LogSpace.MAXOPBLOCKS
  }

  lemma CommitNothing(s: State, n: Inum, start: nat, inodes: nat)
    ensures Committed([s], [], s, s, n, start, inodes)
  {
  }

  lemma CommitsEnd(cuts: seq<State>, txns: seq<set<nat>>, s: State, t: State, n: Inum, start: nat, inodes: nat)
    requires Committed(cuts, txns, s, t, n, start, inodes)
    ensures cuts != [] && cuts[|cuts| - 1] == t
  {
  }

  lemma CommitMore(cuts: seq<State>, txns: seq<set<nat>>, s: State, t: State, u: State, log: set<nat>, n: Inum,
                   start: nat, inodes: nat)
    requires Committed(cuts, txns, s, t, n, start, inodes)
    requires LoggedStep(t, u, log, n, start, inodes) && |log| <= LogSpace.MAXOPBLOCKS
    ensures Committed(cuts + [u], txns + [log], s, u, n, start, inodes)
  {
    hide LoggedStep;
    OneMore(cuts, txns, u, log, n, start, inodes);
  }

  lemma PatchLogs(s: State, t: State, u: State, n: Inum, bn: nat, log: set<nat>, log2: set<nat>, log3: set<nat>,
                  addr: nat, maps: set<nat>)
    requires n in s.inode && n in t.inode && u.inode == t.inode && log3 == log2 + {addr}
    requires StepLogs(s, t, n, bn, log, log2, addr, maps)
    ensures StepLogs(s, u, n, bn, log, log3, addr, maps)
  {
  }

  /** The store and the log_write of one round of writei. */
  lemma Patched(s: State, t: State, u: State, n: Inum, o: nat, part: seq<Byte>, addr: nat,
                start: nat, log: set<nat>, more: set<nat>)
    requires Inv(t) && Kept(s, t) && n in t.inode && Fits(o, |part|) && Covers(s, t, start, log)
    requires addr == Val(t, FileSlot(n, o / BSIZE)) && addr != 0 && addr in t.bytes && more == log + {addr}
    requires Val(s, FileSlot(n, o / BSIZE)) == 0 ==> t.bytes[addr] == ZeroBytes()
    requires u == t.(bytes := t.bytes[addr := Patch(t.bytes[addr], o % BSIZE, part)])
    ensures Inv(u) && Wrote(s, u, n, o, part) && Covers(s, u, start, more)
  {
    hide Inv, Kept, Wrote, Covers, Patch, Val;
    BytesOk(t, addr, Patch(t.bytes[addr], o % BSIZE, part));
    PatchWrote(t, u, n, o, part);
    KeptWrote(s, t, u, n, o, part);
    BytesCovers(t, u, addr, start, more);
    CoversTrans(s, t, u, start, log, more);
  }

  // ----- what truncation logs -----

  /** The bitmap blocks that hold the bits of the given blocks. */
  function MapBlocks(start: nat, blocks: set<nat>): set<nat> { set b | b in blocks :: start + b / BPB }

  /** The blocks of file n, the indirect block included. */
  function OwnedBy(s: State, n: Inum): set<nat> { set b | b in s.owner && s.owner[b].inum == n }

  lemma NoMapBlocks(start: nat, a: set<nat>)
    ensures MapBlocks(start, a - a) == {}
  {
  }

  lemma MoreMapBlocks(start: nat, a: set<nat>, c: set<nat>, b: nat)
    requires c <= a && b in c
    ensures MapBlocks(start, a - (c - {b})) == MapBlocks(start, a - c) + {start + b / BPB}
  {
    assert a - (c - {b}) == a - c + {b};
  }

  lemma MapBlocksAdd(start: nat, a: set<nat>, b: set<nat>, c: set<nat>)
    requires c <= b <= a
    ensures MapBlocks(start, a - b) + MapBlocks(start, b - c) == MapBlocks(start, a - c)
  {
    assert a - c == (a - b) + (b - c);
  }

  /** Truncation gives up exactly the blocks of its file. */
  lemma GivenUp(s: State, t: State, n: Inum)
    requires Inv(s) && Inv(t) && t.first == s.first && |t.bitmap| == |s.bitmap|
    requires forall b :: s.first <= b < |t.bitmap| ==>
               (t.bitmap[b] <==> s.bitmap[b] && b in s.owner && s.owner[b].inum != n)
    ensures s.owner.Keys - t.owner.Keys == OwnedBy(s, n)
  {
    forall b: nat ensures b in s.owner && b !in t.owner <==> b in s.owner && s.owner[b].inum == n {
      assert BlockOk(s, b) && BlockOk(t, b);
    }
  }

  lemma TruncCovers(s: State, t: State, n: Inum, start: nat, log: set<nat>)
    requires Inv(s) && Inv(t) && t.first == s.first && |t.bitmap| == |s.bitmap|
    requires t.bytes == s.bytes && t.words == s.words
    requires forall b :: s.first <= b < |t.bitmap| ==>
               (t.bitmap[b] <==> s.bitmap[b] && b in s.owner && s.owner[b].inum != n)
    requires MapBlocks(start, OwnedBy(s, n)) <= log
    ensures Covers(s, t, start, log)
  {
    forall b ensures BlockLogged(s, t, log, b) { }
    forall i: nat ensures BitLogged(s, t, start, log, i) {
      if i < |s.bitmap| && s.bitmap[i] != t.bitmap[i] {
        assert BlockOk(s, i);
        assert i in OwnedBy(s, n);
        assert start + i / BPB in MapBlocks(start, OwnedBy(s, n));
      }
    }
  }

  /**
    An operation that truncates, and logs nothing else, keeps to MAXOPBLOCKS exactly when
    the file's bits are in fewer bitmap blocks than that.  The inode's block is none of them.
   */
  lemma TruncBound(s: State, n: Inum, bmap: nat, inodeBlock: nat)
    requires inodeBlock < bmap
    ensures |MapBlocks(bmap, OwnedBy(s, n)) + {inodeBlock}| <= LogSpace.MAXOPBLOCKS <==>
            |MapBlocks(bmap, OwnedBy(s, n))| < LogSpace.MAXOPBLOCKS
  {
    assert inodeBlock !in MapBlocks(bmap, OwnedBy(s, n));
  }

  function Range(lo: nat, n: nat): (r: set<nat>)
    ensures |r| == n && forall x: nat :: x in r <==> lo <= x < lo + n
  {
    if n == 0 then {} else Range(lo, n - 1) + {lo + n - 1}
  }

  /** How many bitmap blocks hold bits of data blocks. */
  function DataMaps(first: nat, size: nat): nat
    requires first < size
  {
    (size - 1) / BPB - first / BPB + 1
  }

  lemma FewMaps(s: State, n: Inum, bmap: nat)
    requires Inv(s) && s.first < |s.bitmap|
    ensures |MapBlocks(bmap, OwnedBy(s, n))| <= DataMaps(s.first, |s.bitmap|)
  {
    var lo := bmap + s.first / BPB;
    forall b | b in OwnedBy(s, n) ensures lo <= bmap + b / BPB < lo + DataMaps(s.first, |s.bitmap|) {
      assert BlockOk(s, b);
      Quotients(s.first, b);
      Quotients(b, |s.bitmap| - 1);
    }
    SubsetCard(MapBlocks(bmap, OwnedBy(s, n)), Range(lo, DataMaps(s.first, |s.bitmap|)));
  }

  lemma Quotients(a: nat, b: nat)
    requires a <= b
    ensures a / BPB <= b / BPB
  {
  }

  /** The first data block whose bit is in the k-th bitmap block that has any. */
  function Pick(first: nat, k: nat): nat { if k == 0 then first else (first / BPB + k) * BPB }

  function Picks(first: nat, k: nat): map<nat, Slot> {
    if k == 0 then map[] else Picks(first, k - 1)[Pick(first, k - 1) := Direct(1, k - 1)]
  }

  lemma {:induction false} PicksAre(first: nat, k: nat)
    requires k <= LogSpace.MAXOPBLOCKS
    ensures forall j: nat :: j < k ==>
              Pick(first, j) in Picks(first, k) && Picks(first, k)[Pick(first, j)] == Direct(1, j)
    ensures forall b :: b in Picks(first, k) ==>
              Picks(first, k)[b].Direct? && Picks(first, k)[b].inum == 1 && Picks(first, k)[b].i < k
              && b == Pick(first, Picks(first, k)[b].i)
  {
    if k > 0 {
      PicksAre(first, k - 1);
    }
  }

  /** A file of MAXOPBLOCKS blocks, each with its bit in another bitmap block. */
  function Spread(first: nat, size: nat): State {
    var picks := Picks(first, LogSpace.MAXOPBLOCKS);
    State(seq(size, b => b < first || b in picks), first, ZeroedBytes(size), ZeroedWords(size),
          map[1 := Inode(0, seq(NDIRECT, k => if 0 <= k < LogSpace.MAXOPBLOCKS then Pick(first, k) else 0), 0)], picks)
  }

  lemma SpreadOk(first: nat, size: nat)
    requires 0 < first < size && DataMaps(first, size) >= LogSpace.MAXOPBLOCKS
    ensures Inv(Spread(first, size))
  {
    var s := Spread(first, size);
    PicksAre(first, LogSpace.MAXOPBLOCKS);
    forall k: nat | k < LogSpace.MAXOPBLOCKS ensures first <= Pick(first, k) < size { PickInside(first, size, k); }
    forall x ensures SlotOk(s, x) { }
    forall b ensures BlockOk(s, b) { }
    forall n ensures InodeOk(s, n) { }
  }

  lemma PickInside(first: nat, size: nat, k: nat)
    requires first < size && k < DataMaps(first, size)
    ensures first <= Pick(first, k) < size && Pick(first, k) / BPB == first / BPB + k
  {
  }

  lemma SpreadOwns(first: nat, size: nat, bmap: nat, k: nat)
    requires 0 < first < size && DataMaps(first, size) >= LogSpace.MAXOPBLOCKS > k
    ensures bmap + first / BPB + k in MapBlocks(bmap, OwnedBy(Spread(first, size), 1))
  {
    PicksAre(first, LogSpace.MAXOPBLOCKS);
    assert Pick(first, k) in OwnedBy(Spread(first, size), 1);
    hide Spread, OwnedBy, Picks;
    PickInside(first, size, k);
    assert bmap + first / BPB + k == bmap + Pick(first, k) / BPB;
  }

  lemma SpreadMaps(first: nat, size: nat, bmap: nat)
    requires 0 < first < size && DataMaps(first, size) >= LogSpace.MAXOPBLOCKS
    ensures |MapBlocks(bmap, OwnedBy(Spread(first, size), 1))| >= LogSpace.MAXOPBLOCKS
  {
    hide Spread, OwnedBy, MapBlocks, DataMaps, Range;
    var lo := bmap + first / BPB;
    var all := Range(lo, LogSpace.MAXOPBLOCKS);
    forall m | m in all ensures m in MapBlocks(bmap, OwnedBy(Spread(first, size), 1)) {
      SpreadOwns(first, size, bmap, m - lo);
    }
    SubsetCard(all, MapBlocks(bmap, OwnedBy(Spread(first, size), 1)));
  }

  /** Every truncation keeps to MAXOPBLOCKS if and only if fewer bitmap blocks than that serve data blocks. */
  lemma TruncFitsIff(first: nat, size: nat, bmap: nat)
    requires 0 < first < size
    ensures (forall s, n :: Inv(s) && s.first == first && |s.bitmap| == size ==>
               |MapBlocks(bmap, OwnedBy(s, n))| < LogSpace.MAXOPBLOCKS)
            <==> DataMaps(first, size) < LogSpace.MAXOPBLOCKS
  {
    hide Inv, MapBlocks, OwnedBy, Spread, DataMaps;
    forall s, n | Inv(s) && s.first == first && |s.bitmap| == size
      ensures |MapBlocks(bmap, OwnedBy(s, n))| <= DataMaps(first, size)
    {
      FewMaps(s, n, bmap);
    }
    if DataMaps(first, size) >= LogSpace.MAXOPBLOCKS {
      SpreadOk(first, size);
      SpreadMaps(first, size, bmap);
      SpreadSize(first, size);
    }
  }

  lemma SpreadSize(first: nat, size: nat)
    ensures Spread(first, size).first == first && |Spread(first, size).bitmap| == size
  {
  }

  // ----- room on the disk -----

  ghost function FreeBlocks(s: State): set<nat> { set b: nat | 0 <= b < |s.bitmap| && !s.bitmap[b] }

  /** The slots that blocks lo to hi - 1 of file n need. */
  ghost function Span(n: Inum, lo: nat, hi: nat): set<Slot> {
    (set bn: nat | lo <= bn < hi :: FileSlot(n, bn)) + if lo < hi && hi > NDIRECT then {Indirect(n)} else {}
  }

  ghost function Holes(s: State, n: Inum, lo: nat, hi: nat): set<Slot> {
    Empty(s, Span(n, lo, hi))
  }

  /** One past the last block that len bytes from offset o touch. */
  function LastBlock(o: nat, len: nat): nat { if len == 0 then o / BSIZE else (o + len - 1) / BSIZE + 1 }

  /** The blocks that will be free once len bytes are stored at o, if the disk has enough of them. */
  ghost function Slack(s: State, n: Inum, o: nat, len: nat): int {
    |FreeBlocks(s)| - |Holes(s, n, o / BSIZE, LastBlock(o, len))|
  }

  /** How many blocks bmap must find for block bn. */
  function Wanted(s: State, n: Inum, bn: nat): nat {
    Count(Val(s, FileSlot(n, bn)) == 0) + Count(bn >= NDIRECT && Val(s, Indirect(n)) == 0)
  }

  /** From s to t, block bn of file n was provided and no other slot changed. */
  ghost predicate Provided(s: State, t: State, n: Inum, bn: nat) {
    && Val(t, FileSlot(n, bn)) != 0 && (bn >= NDIRECT ==> Val(t, Indirect(n)) != 0)
    && (forall x :: x != FileSlot(n, bn) && (x != Indirect(n) || bn < NDIRECT) ==> Val(t, x) == Val(s, x))
    && |FreeBlocks(s)| == |FreeBlocks(t)| + Wanted(s, n, bn)
  }

  /** After m bytes at o the rest of any longer write finds as much room as the whole would have. */
  ghost predicate Carries(s: State, t: State, n: Inum, o: nat, m: nat) {
    forall len: nat {:trigger Slack(s, n, o, len)} :: len >= m ==> Slack(t, n, o + m, len - m) == Slack(s, n, o, len)
  }

  lemma AttachTakes(s: State, x: Slot, b: nat)
    requires SlotExists(s, x) && b < |s.bitmap| && !s.bitmap[b]
    ensures |FreeBlocks(s)| == |FreeBlocks(Attach(s, x, b))| + 1
  {
    assert FreeBlocks(s) == FreeBlocks(Attach(s, x, b)) + {b};
  }

  lemma NoneFree(s: State)
    requires forall i :: 0 <= i < |s.bitmap| ==> s.bitmap[i]
    ensures |FreeBlocks(s)| == 0
  {
    assert FreeBlocks(s) == {};
  }

  /** Of a set of slots, those that are empty. */
  ghost function Empty(s: State, xs: set<Slot>): set<Slot> { set x | x in xs && Val(s, x) == 0 }

  lemma EmptyOne(s: State, x: Slot)
    ensures |Empty(s, {x})| == Count(Val(s, x) == 0)
  {
    hide Val;
    assert Empty(s, {x}) == if Val(s, x) == 0 then {x} else {};
  }

  lemma EmptyBoth(s: State, xs: set<Slot>, ys: set<Slot>)
    requires xs !! ys
    ensures |Empty(s, xs + ys)| == |Empty(s, xs)| + |Empty(s, ys)|
  {
    hide Val;
    assert Empty(s, xs + ys) == Empty(s, xs) + Empty(s, ys);
    assert Empty(s, xs) !! Empty(s, ys);
  }

  lemma WantedIs(s: State, n: Inum, bn: nat)
    requires bn < MAXFILE
    ensures |Holes(s, n, bn, bn + 1)| == Wanted(s, n, bn)
  {
    SpanOne(n, bn);
    assert FileSlot(n, bn) != Indirect(n);
    hide Val, Span, FileSlot, Empty;
    EmptyOne(s, FileSlot(n, bn));
    if bn >= NDIRECT {
      EmptyOne(s, Indirect(n));
      EmptyBoth(s, {FileSlot(n, bn)}, {Indirect(n)});
    } else {
      assert Span(n, bn, bn + 1) == {FileSlot(n, bn)};
    }
  }

  /** The first block of a range apart from the others. */
  lemma SpanFirst(n: Inum, lo: nat, hi: nat)
    requires lo < hi
    ensures Span(n, lo, hi) == Span(n, lo, lo + 1) + Span(n, lo + 1, hi)
    ensures FileSlot(n, lo) !in Span(n, lo + 1, hi)
  {
    var rest := set bn: nat | lo + 1 <= bn < hi :: FileSlot(n, bn);
    assert (set bn: nat | lo <= bn < hi :: FileSlot(n, bn)) == {FileSlot(n, lo)} + rest;
    assert (set bn: nat | lo <= bn < lo + 1 :: FileSlot(n, bn)) == {FileSlot(n, lo)};
  }

  /** What was missing is what was provided and what is missing still. */
  lemma HolesLeft(s: State, t: State, n: Inum, bn: nat, hi: nat)
    requires Provided(s, t, n, bn) && bn < hi && bn < MAXFILE
    ensures |Holes(s, n, bn, hi)| == Wanted(s, n, bn) + |Holes(t, n, bn + 1, hi)|
    ensures Holes(t, n, bn, hi) == Holes(t, n, bn + 1, hi)
  {
    var one, rest := Span(n, bn, bn + 1), Span(n, bn + 1, hi);
    SpanFirst(n, bn, hi);
    WantedIs(s, n, bn);
    SpanOne(n, bn);
    hide Val, Span, FileSlot, Wanted, Empty;
    EmptyBoth(s, one, rest - one);
    assert one + (rest - one) == Span(n, bn, hi);
    NowFull(s, t, n, bn, rest);
    NowFull(s, t, n, bn, Span(n, bn, hi));
    assert Span(n, bn, hi) - one == rest - one;
  }

  /** After the step, what is empty of any slots is what was empty of them apart from those of block bn. */
  lemma NowFull(s: State, t: State, n: Inum, bn: nat, xs: set<Slot>)
    requires Provided(s, t, n, bn)
    ensures Empty(t, xs) == Empty(s, xs - Span(n, bn, bn + 1))
  {
    SpanOne(n, bn);
    hide Val, Span, FileSlot, Wanted;
  }

  lemma SpanOne(n: Inum, bn: nat)
    ensures Span(n, bn, bn + 1) == {FileSlot(n, bn)} + if bn >= NDIRECT then {Indirect(n)} else {}
  {
    assert (set k: nat | bn <= k < bn + 1 :: FileSlot(n, k)) == {FileSlot(n, bn)};
  }

  lemma BlocksOfRest(o: nat, m: nat, len: nat)
    requires o % BSIZE + m <= BSIZE && 0 < m <= len
    ensures o / BSIZE < LastBlock(o, len) && (len == m ==> LastBlock(o, len) == o / BSIZE + 1)
    ensures len > m ==> LastBlock(o + m, len - m) == LastBlock(o, len)
    ensures (o + m) / BSIZE == o / BSIZE || (o + m) / BSIZE == o / BSIZE + 1
  {
  }

  lemma NothingMissing(s: State, n: Inum, lo: nat)
    ensures Holes(s, n, lo, lo) == {}
  {
    assert Span(n, lo, lo) == {};
  }

  lemma SlackStep(s: State, t: State, n: Inum, o: nat, m: nat, len: nat)
    requires Provided(s, t, n, o / BSIZE) && Fits(o, m) && 0 < m <= len
    ensures Slack(t, n, o + m, len - m) == Slack(s, n, o, len)
  {
    assert |FreeBlocks(s)| == |FreeBlocks(t)| + Wanted(s, n, o / BSIZE);
    hide Provided, Holes, FreeBlocks, Wanted, LastBlock;
    BlocksOfRest(o, m, len);
    HolesLeft(s, t, n, o / BSIZE, LastBlock(o, len));
    if len == m {
      NothingMissing(t, n, o / BSIZE + 1);
      NothingMissing(t, n, (o + m) / BSIZE);
      assert LastBlock(o + m, 0) == (o + m) / BSIZE by { LastOfNone(o + m); }
    }
  }

  lemma LastOfNone(o: nat)
    ensures LastBlock(o, 0) == o / BSIZE
  {
  }

  lemma StepCarries(s: State, t: State, n: Inum, o: nat, m: nat)
    requires Provided(s, t, n, o / BSIZE) && Fits(o, m) && m > 0
    ensures Carries(s, t, n, o, m)
  {
    hide Provided, Slack;
    forall len: nat | len >= m ensures Slack(t, n, o + m, len - m) == Slack(s, n, o, len) {
      SlackStep(s, t, n, o, m, len);
    }
  }

  lemma CarriesOn(s: State, t: State, u: State, n: Inum, o: nat, m: nat, more: nat)
    requires Carries(s, t, n, o, m) && Carries(t, u, n, o + m, more)
    ensures Carries(s, u, n, o, m + more)
  {
    hide Slack;
    forall len: nat | len >= m + more ensures Slack(u, n, o + (m + more), len - (m + more)) == Slack(s, n, o, len) {
      assert Slack(t, n, o + m, len - m) == Slack(s, n, o, len);
      assert o + m + more == o + (m + more) && len - m - more == len - (m + more);
    }
  }

  /** Sizes, bytes and owners do not matter. */
  lemma CarriesSame(s: State, t: State, u: State, n: Inum, o: nat, m: nat)
    requires Carries(s, t, n, o, m) && u.bitmap == t.bitmap && forall x :: Val(u, x) == Val(t, x)
    ensures Carries(s, u, n, o, m)
  {
    hide Val, LastBlock;
    forall len: nat | len >= m ensures Slack(u, n, o + m, len - m) == Slack(s, n, o, len) {
      assert Slack(t, n, o + m, len - m) == Slack(s, n, o, len);
      assert Holes(u, n, (o + m) / BSIZE, LastBlock(o + m, len - m))
          == Holes(t, n, (o + m) / BSIZE, LastBlock(o + m, len - m));
    }
  }

  lemma SameSlots(t: State, u: State)
    requires u.words == t.words && u.inode.Keys == t.inode.Keys
    requires forall m :: m in t.inode ==>
               u.inode[m].direct == t.inode[m].direct && u.inode[m].indirect == t.inode[m].indirect
    ensures forall x :: Val(u, x) == Val(t, x)
  {
  }

  lemma CarriesNothing(s: State, n: Inum, o: nat)
    ensures Carries(s, s, n, o, 0)
  {
    hide Slack;
  }

  lemma SlackOfNone(s: State, n: Inum, o: nat)
    ensures Slack(s, n, o, 0) >= 0
  {
    NothingMissing(s, n, o / BSIZE);
  }

  /** A longer write leaves no more room. */
  lemma SlackFalls(s: State, n: Inum, o: nat, len: nat, more: nat)
    requires len <= more
    ensures Slack(s, n, o, more) <= Slack(s, n, o, len)
  {
    var lo := o / BSIZE;
    assert LastBlock(o, len) <= LastBlock(o, more);
    SpanGrows(n, lo, LastBlock(o, len), LastBlock(o, more));
    hide Val, LastBlock, Span;
    Fewer(Holes(s, n, lo, LastBlock(o, len)), Holes(s, n, lo, LastBlock(o, more)));
  }

  lemma SpanGrows(n: Inum, lo: nat, mid: nat, hi: nat)
    requires mid <= hi
    ensures Span(n, lo, mid) <= Span(n, lo, hi)
  {
  }

  lemma {:induction false} Fewer(a: set<Slot>, b: set<Slot>)
    requires a <= b
    ensures |a| <= |b|
  {
    assert b == a + (b - a);
  }

  lemma ProvidedNear(s: State, t: State, n: Inum, bn: nat)
    requires bn < NDIRECT && Val(t, FileSlot(n, bn)) != 0
    requires s == t || (Val(s, FileSlot(n, bn)) == 0 && |FreeBlocks(s)| == |FreeBlocks(t)| + 1
                        && forall y :: y != FileSlot(n, bn) ==> Val(t, y) == Val(s, y))
    ensures Provided(s, t, n, bn)
  {
    hide Val, FreeBlocks;
  }

  lemma ProvidedFar(s: State, t: State, u: State, n: Inum, bn: nat)
    requires bn >= NDIRECT && Val(t, Indirect(n)) != 0 && Val(u, FileSlot(n, bn)) != 0
    requires s == t || (Val(s, Indirect(n)) == 0 && |FreeBlocks(s)| == |FreeBlocks(t)| + 1
                        && forall y :: y != Indirect(n) ==> Val(t, y) == Val(s, y))
    requires t == u || (Val(t, FileSlot(n, bn)) == 0 && |FreeBlocks(t)| == |FreeBlocks(u)| + 1
                        && forall y :: y != FileSlot(n, bn) ==> Val(u, y) == Val(t, y))
    ensures Provided(s, u, n, bn)
  {
    hide Val, FreeBlocks;
  }

  lemma ShortFar(s: State, t: State, n: Inum, bn: nat)
    requires bn >= NDIRECT && |FreeBlocks(t)| == 0
    requires if s == t then Val(s, Indirect(n)) == 0 || Val(s, FileSlot(n, bn)) == 0
             else Val(s, Indirect(n)) == 0 == Val(s, FileSlot(n, bn)) && |FreeBlocks(s)| == 1
    ensures |FreeBlocks(s)| < Wanted(s, n, bn)
  {
  }

  lemma ProvidedPatched(s: State, t: State, u: State, n: Inum, bn: nat)
    requires Provided(s, t, n, bn) && u.bitmap == t.bitmap && u.inode == t.inode && u.words == t.words
    ensures Provided(s, u, n, bn)
  {
    assert FreeBlocks(u) == FreeBlocks(t);
    forall x ensures Val(u, x) == Val(t, x) { }
  }

  lemma SizeBound(s: State, n: Inum)
    requires FilesOk(s) && n in s.inode
    ensures s.inode[n].size <= MAXFILE * BSIZE
  {
    assert NoHoles(s, n, s.inode[n].size);
  }

  /** What is stored was affordable. */
  lemma Enough(s: State, t: State, n: Inum, o: nat, m: nat)
    requires Carries(s, t, n, o, m)
    ensures Slack(s, n, o, m) >= 0
  {
    hide Slack;
    assert Slack(t, n, o + m, m - m) == Slack(s, n, o, m);
    SlackOfNone(t, n, o + m);
  }

  /** What cannot be stored after the first m bytes could not be stored from the start. */
  lemma TooLittle(s: State, t: State, n: Inum, o: nat, m: nat, len: nat, all: nat)
    requires Carries(s, t, n, o, m) && Slack(t, n, o + m, len) < 0 && m + len <= all
    ensures Slack(s, n, o, all) < 0
  {
    hide Slack;
    SlackFalls(t, n, o + m, len, all - m);
    assert Slack(t, n, o + m, all - m) == Slack(s, n, o, all);
  }

  /** The bytes of filewrite's chunks that end inside a file of maximum size. */
  function Fitting(off: nat, len: nat): nat {
    if off + len <= MAXFILE * BSIZE then len
    else if off > MAXFILE * BSIZE then 0
    else (MAXFILE * BSIZE - off) / CHUNK * CHUNK
  }

  lemma FittingAll(s: State, n: Inum, off: nat, len: nat)
    ensures off + len <= MAXFILE * BSIZE || len == 0 ==> Fitting(off, len) == len
    ensures Fitting(off, len) <= len
  {
  }

  lemma ChunkQuotient(room: nat, q: nat)
    ensures q * 1536 <= room ==> q <= room / 1536
    ensures room < (q + 1) * 1536 ==> room / 1536 <= q
  {
  }

  lemma FittingIs(off: nat, len: nat, i: nat, n1: nat)
    requires i % CHUNK == 0 && i < len && n1 == (if len - i > CHUNK then CHUNK else len - i)
    requires off + i <= MAXFILE * BSIZE
    ensures if off + i + n1 <= MAXFILE * BSIZE then i + n1 <= Fitting(off, len) else i == Fitting(off, len)
  {
    assert CHUNK == 1536;
    ChunkQuotient(MAXFILE * BSIZE - off, i / 1536);
    ChunkQuotient(MAXFILE * BSIZE - off, i / 1536 + 1);
  }

  /** bmap finds no block: the write is short of room from here on. */
  lemma ShortHere(s: State, n: Inum, o: nat, len: nat)
    requires |FreeBlocks(s)| < Wanted(s, n, o / BSIZE) && len > 0 && o / BSIZE < MAXFILE
    ensures Slack(s, n, o, len) < 0
  {
    WantedIs(s, n, o / BSIZE);
    assert LastBlock(o, 1) == o / BSIZE + 1;
    SlackFalls(s, n, o, 1, len);
  }

  /** Writei has stored tot bytes: what holds of contents, log and room. */
  ghost predicate Storing(s: State, t: State, n: Inum, off: nat, tot: nat, src: seq<Byte>, log0: set<nat>,
      log: set<nat>, y: Tally, start: nat) {
    && Stored(s, t, n, off, tot, src, log0, log, y)
    && Covers(s, t, start, log) && Carries(s, t, n, off, tot)
    && (off + |src| <= s.inode[n].size ==> t.inode == s.inode)
  }

  lemma StoringNothing(s: State, n: Inum, off: nat, src: seq<Byte>, log: set<nat>, start: nat)
    requires Inv(s) && n in s.inode
    ensures Storing(s, s, n, off, 0, src, log, log, Tally({}, {}, {}, 0, 0, 0), start)
  {
    hide Inv, Stored, Covers, Carries;
    StoredNothing(s, n, off, src, log);
    CoversNothing(s, start, log);
    CarriesNothing(s, n, off);
  }

  lemma StoringAll(s: State, t: State, n: Inum, off: nat, src: seq<Byte>, log0: set<nat>, log: set<nat>, y: Tally,
                   start: nat)
    requires Storing(s, t, n, off, |src|, src, log0, log, y, start)
    ensures n in s.inode && n in t.inode && Wrote(s, t, n, off, src) && t.inode[n].size == s.inode[n].size
    ensures Progress(off, |src|, |src|, y.rounds)
    ensures Tallied(log, log0, off, s.inode[n].indirect, t.inode[n].indirect, y)
    ensures Covers(s, t, start, log) && Carries(s, t, n, off, |src|)
    ensures off + |src| <= s.inode[n].size ==> t.inode == s.inode
  {
    hide Inv, Covers, Carries, Wrote, Progress, Tallied, Stored;
    StoredAll(s, t, n, off, src, log0, log, y);
  }

  lemma StoringShort(s: State, t: State, n: Inum, off: nat, tot: nat, src: seq<Byte>, log0: set<nat>, log: set<nat>,
                     y: Tally, start: nat)
    requires Storing(s, t, n, off, tot, src, log0, log, y, start) && tot < |src| && off + |src| <= MAXFILE * BSIZE
    requires |FreeBlocks(t)| < Wanted(t, n, (off + tot) / BSIZE)
    ensures Slack(s, n, off, |src|) < 0
  {
    hide Stored, Covers, Carries, Slack, FreeBlocks, Wanted;
    BlockInRange(off + tot);
    ShortHere(t, n, off + tot, |src| - tot);
    TooLittle(s, t, n, off, tot, |src| - tot, |src|);
  }

  lemma StoringMore(s: State, t: State, u: State, n: Inum, off: nat, tot: nat, src: seq<Byte>, log0: set<nat>,
                    log: set<nat>, log2: set<nat>, y: Tally, addr: nat, maps: set<nat>, start: nat)
    requires Storing(s, t, n, off, tot, src, log0, log, y, start)
    requires FilesOk(s) && n in s.inode && off <= s.inode[n].size && tot < |src|
    requires var m := Piece(off + tot, |src| - tot);
             0 < m && tot + m <= |src| && Fits(off + tot, m)
             && Inv(u) && n in t.inode && n in u.inode && Wrote(t, u, n, off + tot, src[tot..tot + m])
    requires StepLogs(t, u, n, (off + tot) / BSIZE, log, log2, addr, maps) && addr != 0
    requires log <= log2 && Covers(t, u, start, log2) && Provided(t, u, n, (off + tot) / BSIZE)
    requires Val(t, FileSlot(n, (off + tot) / BSIZE)) != 0 ==> u.inode == t.inode
    ensures Storing(s, u, n, off, tot + Piece(off + tot, |src| - tot), src, log0, log2,
                    NextTally(t, u, n, off + tot, y, addr, maps), start)
  {
    hide Inv, Wrote, Stored, Covers, Carries, FilesOk, Piece, StepLogs, NextTally, Val, FileSlot, Provided, Fits;
    BlockThere(s, t, n, off, tot, src, log0, log, y);
    StoredMore(s, t, u, n, off, tot, src, log0, log, log2, y, addr, maps);
    CoversTrans(s, t, u, start, log, log2);
    StepCarries(t, u, n, off + tot, Piece(off + tot, |src| - tot));
    CarriesOn(s, t, u, n, off, tot, Piece(off + tot, |src| - tot));
  }

  /** Filewrite has stored i bytes: what holds of the contents and of the room. */
  ghost predicate Chunked(s: State, t: State, n: Inum, off: nat, src: seq<Byte>, i: nat) {
    && n in s.inode && n in t.inode && i <= |src| && t.inode.Keys == s.inode.Keys && Carries(s, t, n, off, i)
    && (forall m :: m in t.inode && m != n ==> Contents(t, m) == Contents(s, m))
    && (i == 0 ==> t == s)
    && (i > 0 ==> off <= s.inode[n].size && Contents(t, n) == Splice(Contents(s, n), off, src[..i]))
  }

  lemma ChunkedNothing(s: State, n: Inum, off: nat, src: seq<Byte>)
    requires n in s.inode
    ensures Chunked(s, s, n, off, src, 0)
  {
    hide Carries, Contents, Splice;
    CarriesNothing(s, n, off);
  }

  lemma ChunkedIs(s: State, t: State, n: Inum, off: nat, src: seq<Byte>, i: nat)
    requires Chunked(s, t, n, off, src, i)
    ensures n in t.inode && i <= |src| && t.inode.Keys == s.inode.Keys
    ensures forall m :: m in t.inode && m != n ==> Contents(t, m) == Contents(s, m)
    ensures i == 0 ==> t == s
    ensures i > 0 ==> off <= |Contents(s, n)| && Contents(t, n) == Splice(Contents(s, n), off, src[..i])
    ensures Slack(s, n, off, i) >= 0
  {
    hide Carries, Slack, Splice;
    Enough(s, t, n, off, i);
  }

  lemma ChunkedShort(s: State, t: State, n: Inum, off: nat, src: seq<Byte>, i: nat, n1: nat)
    requires Chunked(s, t, n, off, src, i) && Slack(t, n, off + i, n1) < 0 && i + n1 <= Fitting(off, |src|)
    ensures Slack(s, n, off, Fitting(off, |src|)) < 0
  {
    hide Carries, Slack, Contents, Splice, Fitting;
    TooLittle(s, t, n, off, i, n1, Fitting(off, |src|));
  }

  lemma ChunkedMore(s: State, t: State, u: State, n: Inum, off: nat, src: seq<Byte>, i: nat, n1: nat)
    requires Chunked(s, t, n, off, src, i) && i + n1 <= |src| && 0 < n1
    requires n in t.inode && n in u.inode && u.inode.Keys == t.inode.Keys && Carries(t, u, n, off + i, n1)
    requires forall m :: m in u.inode && m != n ==> Contents(u, m) == Contents(t, m)
    requires off + i <= |Contents(t, n)| && Contents(u, n) == Splice(Contents(t, n), off + i, src[i..i + n1])
    ensures Chunked(s, u, n, off, src, i + n1)
    ensures off <= s.inode[n].size && off + i + n1 <= u.inode[n].size
  {
    hide Carries, Contents, Splice;
    ContentsSize(t, n);
    ContentsSize(s, n);
    WroteChunk(s, t, u, n, off, src, i, n1);
    CarriesOn(s, t, u, n, off, i, n1);
  }

  class Fs {
    const first: nat
    const bmapstart: nat
    const inodestart: nat
    var bitmap: seq<bool>
    var bytes: map<nat, Bytes>
    var words: map<nat, Words>
    var inode: map<Inum, Inode>
    ghost var owner: map<nat, Slot>
    /** Block numbers passed to log_write in the running operation. */
    ghost var logged: set<nat>

    ghost function S(): State
      reads this
    {
      State(bitmap, first, bytes, words, inode, owner)
    }

    /** A disk as mkfs lays it out, before any file: the blocks behind the meta-data are free, the inodes empty. */
    constructor (blocks: nat, meta: nat, bmap: nat, inodes: nat, inums: set<Inum>)
      requires 0 < meta <= blocks
      ensures Inv(S()) && FilesOk(S()) && inode.Keys == inums && first == meta && |bitmap| == blocks
      ensures bmapstart == bmap && inodestart == inodes && logged == {}
    {
      first, bmapstart, inodestart := meta, bmap, inodes;
      bitmap := seq(blocks, b => b < meta);
      bytes, words := ZeroedBytes(blocks), ZeroedWords(blocks);
      inode := map n | n in inums :: Inode(0, seq(NDIRECT, _ => 0), 0);
      owner, logged := map[], {};
      new;
      ghost var s := S();
      forall x ensures SlotOk(s, x) { }
      forall b ensures BlockOk(s, b) { }
      forall n ensures InodeOk(s, n) { }
    }

    /**
      `balloc`: the lowest free block, marked in use, cleared and logged together with
      its bitmap block; 0 stands for the "out of blocks" panic.
     */
    method Balloc() returns (b: nat)
      requires Inv(S())
      modifies `bitmap, `bytes, `words, `logged
      ensures |bitmap| == |old(bitmap)|
      ensures b == 0 ==> bitmap == old(bitmap) && bytes == old(bytes) && words == old(words) && logged == old(logged)
      ensures b == 0 ==> forall i :: 0 <= i < |bitmap| ==> bitmap[i]
      ensures b != 0 ==> IsData(old(S()), b) && !old(bitmap)[b] && (forall i :: 0 <= i < b ==> old(bitmap)[i])
                         && bitmap == old(bitmap)[b := true]
                         && bytes == old(bytes)[b := ZeroBytes()] && words == old(words)[b := ZeroWords()]
                         && logged == old(logged) + {bmapstart + b / BPB, b}
    {
      var lo := 0;
      while lo < |bitmap|
        invariant 0 <= lo && lo % BPB == 0 && (forall i :: 0 <= i < lo && i < |bitmap| ==> bitmap[i])
        invariant bitmap == old(bitmap) && bytes == old(bytes) && words == old(words) && logged == old(logged)
      {
        var bi := 0;
        while bi < BPB && lo + bi < |bitmap|
          invariant 0 <= bi <= BPB && (forall i :: 0 <= i < lo + bi && i < |bitmap| ==> bitmap[i])
          invariant bitmap == old(bitmap) && bytes == old(bytes) && words == old(words) && logged == old(logged)
        {
          if !bitmap[lo + bi] {
            b := lo + bi;
            bitmap := bitmap[b := true];
            bytes := bytes[b := ZeroBytes()];
            words := words[b := ZeroWords()];
            assert b / BPB == lo / BPB;
            logged := logged + {bmapstart + lo / BPB};
            logged := logged + {b};
            return;
          }
          bi := bi + 1;
        }
        lo := lo + BPB;
      }
      b := 0;
    }

    /** `addrs[i] = balloc()` or `a[j] = balloc()`: a new block for the empty slot x; 0 when there is none. */
    method Grow(x: Slot) returns (b: nat)
      requires Inv(S()) && SlotExists(S(), x) && Val(S(), x) == 0
      modifies `bitmap, `bytes, `words, `inode, `owner, `logged
      ensures Inv(S()) && Kept(old(S()), S())
      ensures b == 0 ==> S() == old(S()) && logged == old(logged) && forall i :: 0 <= i < |bitmap| ==> bitmap[i]
      ensures b != 0 ==>
                && b < |old(bitmap)| && S() == Attach(old(S()), x, b) && Val(S(), x) == b
                && !old(bitmap)[b] && IsData(S(), b)
      ensures b != 0 ==> (forall y :: y != x ==> Val(S(), y) == Val(old(S()), y))
      ensures b != 0 ==> logged == old(logged) + {bmapstart + b / BPB, b}
      ensures |FreeBlocks(old(S()))| == if b == 0 then 0 else |FreeBlocks(S())| + 1
    {
      hide FreeBlocks;
      ghost var s := S();
      b := Balloc();
      if b == 0 {
        NoneFree(s);
        KeptRefl(s);
        return;
      }
      AttachTakes(s, x, b);
      AttachOk(s, x, b);
      AttachKept(s, x, b);
      hide Inv, Kept;
      SlotSurvives(s, x, b);
      owner := owner[b := x];
      var ip := inode[x.inum];
      match x {
        case Direct(n, i) => inode := inode[n := ip.(direct := ip.direct[i := b])];
        case Indirect(n) => inode := inode[n := ip.(indirect := b)];
        case Entry(n, j) => words := words[ip.indirect := words[ip.indirect][j := b]];
      }
      assert S() == Attach(s, x, b);
    }

    /** bmap beyond the direct blocks. */
    method BmapIndirect(n: Inum, bn: nat) returns (addr: nat, ghost maps: set<nat>)
      requires Inv(S()) && n in inode && NDIRECT <= bn < MAXFILE
      modifies `bitmap, `bytes, `words, `inode, `owner, `logged
      ensures Inv(S()) && Kept(old(S()), S())
      ensures addr == Val(S(), FileSlot(n, bn)) || addr == 0
      ensures addr != 0 ==> addr in bytes
      ensures addr != 0 && Val(old(S()), FileSlot(n, bn)) == 0 ==> bytes[addr] == ZeroBytes()
      ensures Val(old(S()), FileSlot(n, bn)) != 0 ==>
                addr != 0 && S() == old(S()) && logged == old(logged) && maps == {}
      ensures addr == 0 ==> forall i :: 0 <= i < |bitmap| ==> bitmap[i]
      ensures n in inode && (inode[n].indirect == old(inode)[n].indirect || old(inode)[n].indirect == 0)
      ensures addr != 0 ==> inode[n].indirect != 0
      ensures logged <= old(logged) + maps + {addr} + {inode[n].indirect}
      ensures |maps| <= Count(Val(old(S()), FileSlot(n, bn)) == 0) + Count(old(inode)[n].indirect == 0)
      ensures old(logged) <= logged && (addr != 0 ==> Covers(old(S()), S(), bmapstart, logged))
      ensures if addr == 0 then |FreeBlocks(old(S()))| < Wanted(old(S()), n, bn) else Provided(old(S()), S(), n, bn)
    {
      hide Inv, Kept, Covers, FreeBlocks, Provided, Wanted;
      ghost var s := S();
      KeptRefl(s);
      CoversNothing(s, bmapstart, logged);
      InodeFacts(s, n);
      maps := {};
      addr := inode[n].indirect;
      if addr == 0 {
        addr := Grow(Indirect(n));
        if addr == 0 {
          ShortFar(s, s, n, bn);
          return;
        }
        maps := {bmapstart + addr / BPB};
        AttachCovers(s, Indirect(n), addr, bmapstart, logged);
      }
      ghost var t, log := S(), logged;
      SlotFacts(t, Indirect(n));
      InodeFacts(t, n);
      var a := words[addr];
      addr := a[bn - NDIRECT];
      if addr == 0 {
        addr := Grow(Entry(n, bn - NDIRECT));
        if addr != 0 {
          maps := maps + {bmapstart + addr / BPB};
          AttachFresh(t, Entry(n, bn - NDIRECT), addr);
          logged := logged + {inode[n].indirect};
          AttachCovers(t, Entry(n, bn - NDIRECT), addr, bmapstart, logged);
          CoversTrans(s, t, S(), bmapstart, log, logged);
        } else {
          ShortFar(s, t, n, bn);
        }
        KeptTrans(s, t, S());
      }
      SlotFacts(S(), FileSlot(n, bn));
      if addr != 0 { ProvidedFar(s, t, S(), n, bn); }
    }

    /**
      `bmap`: the number of block bn of file n, allocated (with the indirect block if
      need be) when it was not there.  0 stands for a panic: bn out of range or no
      free block.  maps collects the bitmap blocks logged.
     */
    method Bmap(n: Inum, bn: nat) returns (addr: nat, ghost maps: set<nat>)
      requires Inv(S()) && n in inode
      modifies `bitmap, `bytes, `words, `inode, `owner, `logged
      ensures Inv(S()) && Kept(old(S()), S())
      ensures bn >= MAXFILE ==> addr == 0 && S() == old(S())
      ensures addr == Val(S(), FileSlot(n, bn)) || addr == 0
      ensures addr != 0 ==> addr in bytes
      ensures addr != 0 && Val(old(S()), FileSlot(n, bn)) == 0 ==> bytes[addr] == ZeroBytes()
      ensures bn < MAXFILE && Val(old(S()), FileSlot(n, bn)) != 0 ==>
                addr != 0 && S() == old(S()) && logged == old(logged) && maps == {}
      ensures addr == 0 && bn < MAXFILE ==> forall i :: 0 <= i < |bitmap| ==> bitmap[i]
      ensures n in inode && StepLogs(old(S()), S(), n, bn, old(logged), logged, addr, maps)
      ensures old(logged) <= logged && (addr != 0 ==> Covers(old(S()), S(), bmapstart, logged))
      ensures bn < MAXFILE ==>
                if addr == 0 then |FreeBlocks(old(S()))| < Wanted(old(S()), n, bn) else Provided(old(S()), S(), n, bn)
    {
      hide Inv, Kept, Covers, FreeBlocks, Provided;
      ghost var s := S();
      KeptRefl(s);
      CoversNothing(s, bmapstart, logged);
      InodeFacts(s, n);
      maps := {};
      if bn < NDIRECT {
        addr := inode[n].direct[bn];
        if addr == 0 {
          addr := Grow(Direct(n, bn));
          if addr != 0 {
            maps := {bmapstart + addr / BPB};
            AttachFresh(s, Direct(n, bn), addr);
            AttachCovers(s, Direct(n, bn), addr, bmapstart, logged);
          }
        }
        SlotFacts(S(), FileSlot(n, bn));
        if addr != 0 { ProvidedNear(s, S(), n, bn); }
        return;
      }
      if bn - NDIRECT < NINDIRECT {
        addr, maps := BmapIndirect(n, bn);
        return;
      }
      addr := 0;
    }

    /** One round of writei: bmap, memmove, log_write. */
    method WriteStep(n: Inum, o: nat, part: seq<Byte>) returns (addr: nat, ghost maps: set<nat>)
      requires Inv(S()) && n in inode && Fits(o, |part|)
      modifies `bitmap, `bytes, `words, `inode, `owner, `logged
      ensures Inv(S()) && n in inode
      ensures addr != 0 ==> Wrote(old(S()), S(), n, o, part)
      ensures addr == 0 ==> forall i :: 0 <= i < |bitmap| ==> bitmap[i]
      ensures addr != 0 ==> StepLogs(old(S()), S(), n, o / BSIZE, old(logged), logged, addr, maps)
      ensures old(logged) <= logged && (addr != 0 ==> addr in logged && Covers(old(S()), S(), bmapstart, logged))
      ensures Val(old(S()), FileSlot(n, o / BSIZE)) != 0 ==> inode == old(inode)
      ensures if addr == 0 then |FreeBlocks(old(S()))| < Wanted(old(S()), n, o / BSIZE)
              else Provided(old(S()), S(), n, o / BSIZE)
    {
      hide Inv, Kept, Wrote, Covers, Val, Patch, StepLogs, FreeBlocks, Wanted, Provided;
      ghost var s := S();
      addr, maps := Bmap(n, o / BSIZE);
      if addr == 0 {
        return;
      }
      ghost var t, log := S(), logged;
      bytes := bytes[addr := Patch(bytes[addr], o % BSIZE, part)];
      logged := logged + {addr};
      Patched(s, t, S(), n, o, part, addr, bmapstart, log, logged);
      PatchLogs(s, t, S(), n, o / BSIZE, old(logged), log, logged, addr, maps);
      ProvidedPatched(s, t, S(), n, o / BSIZE);
    }

    /**
      `readi` of a file that is not a device: exactly the part of the requested range
      that lies in the file; nothing is allocated or changed.
     */
    method Readi(n: Inum, off: nat, cnt: nat) returns (r: int, dst: seq<Byte>)
      requires Inv(S()) && FilesOk(S()) && n in inode && off < UINT && cnt < UINT
      modifies `bitmap, `bytes, `words, `inode, `owner, `logged
      ensures S() == old(S()) && logged == old(logged)
      ensures r == -1 <==> off > inode[n].size || (off + cnt) % UINT < off
      ensures r != -1 ==> r == (if off + cnt > inode[n].size then inode[n].size - off else cnt)
      ensures r != -1 ==> dst == Contents(S(), n)[off..off + r]
    {
      dst := [];
      if off > inode[n].size || (off + cnt) % UINT < off {
        return -1, dst;
      }
      var total := if off + cnt > inode[n].size then inode[n].size - off else cnt;
      hide Inv, Kept, FilesOk, Contents;
      ContentsSize(S(), n);
      var tot := 0;
      while tot < total
        invariant 0 <= tot <= total && S() == old(S()) && logged == old(logged)
        invariant dst == Contents(S(), n)[off..off + tot]
      {
        var part := ReadPiece(n, off + tot, total - tot);
        dst := dst + part;
        tot := tot + |part|;
      }
      r := total;
    }

    /** One turn of readi's loop: the part of the range that lies in the block of offset o. */
    method ReadPiece(n: Inum, o: nat, left: nat) returns (part: seq<Byte>)
      requires Inv(S()) && FilesOk(S()) && n in inode && left > 0 && o + left <= inode[n].size
      modifies `bitmap, `bytes, `words, `inode, `owner, `logged
      ensures S() == old(S()) && logged == old(logged)
      ensures 0 < |part| <= left && o + |part| <= |Contents(S(), n)| && part == Contents(S(), n)[o..o + |part|]
    {
      assert NoHoles(S(), n, inode[n].size);
      ContentsSize(S(), n);
      hide Inv, Kept, Val, FileSlot, Piece, Contents;
      PieceFits(o, left);
      var m := Piece(o, left);
      var addr, _ := Bmap(n, o / BSIZE);
      ReadBlock(S(), n, o, m);
      part := bytes[addr][o % BSIZE..o % BSIZE + m];
    }

    /** The loop of writei: store src at off, block by block. */
    method WriteBlocks(n: Inum, off: nat, src: seq<Byte>) returns (panicked: bool, ghost y: Tally)
      requires Inv(S()) && FilesOk(S()) && n in inode && off <= inode[n].size && off + |src| <= MAXFILE * BSIZE
      modifies `bitmap, `bytes, `words, `inode, `owner, `logged
      ensures Inv(S()) && n in inode && old(logged) <= logged
      ensures panicked ==> (forall i :: 0 <= i < |bitmap| ==> bitmap[i]) && Slack(old(S()), n, off, |src|) < 0
      ensures !panicked ==> Wrote(old(S()), S(), n, off, src) && inode[n].size == old(inode)[n].size
      ensures !panicked ==> Progress(off, |src|, |src|, y.rounds)
      ensures !panicked ==> Tallied(logged, old(logged), off, old(inode)[n].indirect, inode[n].indirect, y)
      ensures !panicked ==> Covers(old(S()), S(), bmapstart, logged) && Carries(old(S()), S(), n, off, |src|)
      ensures !panicked && off + |src| <= old(inode)[n].size ==> inode == old(inode)
    {
      hide Inv, Wrote, FilesOk, Storing, Covers, Carries, Slack, Tallied, Progress;
      ghost var s, log0 := S(), logged;
      StoringNothing(s, n, off, src, log0, bmapstart);
      y := Tally({}, {}, {}, 0, 0, 0);
      var tot := 0;
      while tot < |src|
        invariant 0 <= tot <= |src| && Inv(S()) && n in inode && log0 <= logged
        invariant Storing(s, S(), n, off, tot, src, log0, logged, y, bmapstart)
      {
        var m: nat;
        panicked, m, y := WriteRound(n, off, tot, src, s, log0, y);
        if panicked {
          return;
        }
        tot := tot + m;
      }
      StoringAll(s, S(), n, off, src, log0, logged, y, bmapstart);
      panicked := false;
    }

    /** One turn of that loop. */
    method WriteRound(n: Inum, off: nat, tot: nat, src: seq<Byte>, ghost s: State, ghost log0: set<nat>, ghost y: Tally)
      returns (panicked: bool, m: nat, ghost y2: Tally)
      requires Inv(S()) && n in inode && tot < |src| && off + |src| <= MAXFILE * BSIZE
      requires FilesOk(s) && n in s.inode && off <= s.inode[n].size
      requires Storing(s, S(), n, off, tot, src, log0, logged, y, bmapstart)
      modifies `bitmap, `bytes, `words, `inode, `owner, `logged
      ensures Inv(S()) && n in inode && old(logged) <= logged
      ensures panicked ==> (forall i :: 0 <= i < |bitmap| ==> bitmap[i]) && Slack(s, n, off, |src|) < 0
      ensures !panicked ==>
                0 < m && tot + m <= |src| && Storing(s, S(), n, off, tot + m, src, log0, logged, y2, bmapstart)
    {
      hide Inv, Wrote, Piece, Fits, Storing, StepLogs, NextTally, FilesOk, Covers, Val, FileSlot;
      hide Provided, Slack, Wanted, FreeBlocks;
      ghost var t, log := S(), logged;
      m := Piece(off + tot, |src| - tot);
      PieceFits(off + tot, |src| - tot);
      var addr, maps := WriteStep(n, off + tot, src[tot..tot + m]);
      if addr == 0 {
        StoringShort(s, t, n, off, tot, src, log0, log, y, bmapstart);
        return true, m, y;
      }
      StoringMore(s, t, S(), n, off, tot, src, log0, log, logged, y, addr, maps, bmapstart);
      return false, m, NextTally(t, S(), n, off + tot, y, addr, maps);
    }

    /**
      `writei` to a file that is not a device: bytes off.. become src, the file grows
      if they reach past its end, no other file changes.  panicked means the disk
      filled up.  A chunk of at most CHUNK bytes logs at most MAXOPBLOCKS blocks.
     */
    method Writei(n: Inum, off: nat, src: seq<Byte>) returns (r: int, panicked: bool)
      requires Inv(S()) && FilesOk(S()) && n in inode && off < UINT && |src| < UINT
      modifies `bitmap, `bytes, `words, `inode, `owner, `logged
      ensures Inv(S()) && (!panicked ==> FilesOk(S())) && n in inode
      ensures r == -1 <==> off > old(inode)[n].size || (off + |src|) % UINT < off || off + |src| > MAXFILE * BSIZE
      ensures r == -1 ==> !panicked && S() == old(S()) && logged == old(logged)
      ensures panicked ==> forall i :: 0 <= i < |bitmap| ==> bitmap[i]
      ensures r != -1 ==> (panicked <==> Slack(old(S()), n, off, |src|) < 0)
      ensures r != -1 && !panicked ==> Carries(old(S()), S(), n, off, |src|)
      ensures r != -1 && !panicked ==>
                r == |src| && off <= |Contents(old(S()), n)|
                  && Contents(S(), n) == Splice(Contents(old(S()), n), off, src)
      ensures r != -1 && !panicked ==>
                inode.Keys == old(inode).Keys && forall m :: m in inode && m != n ==>
                    Contents(S(), m) == Contents(old(S()), m)
      ensures !panicked && |src| <= CHUNK ==> |logged| <= |old(logged)| + LogSpace.MAXOPBLOCKS
      ensures old(logged) <= logged && (!panicked ==> Covers(old(S()), S(), bmapstart, logged))
      ensures !panicked && inode[n] != old(inode)[n] ==> inodestart + n / IPB in logged
    {
      hide Inv, Kept, Wrote, Val, Progress, Tallied, Contents, Splice, FilesOk, Covers, Carries, Slack;
      CoversNothing(S(), bmapstart, logged);
      if off > inode[n].size || (off + |src|) % UINT < off {
        return -1, false;
      }
      if off + |src| > MAXFILE * BSIZE {
        return -1, false;
      }
      ghost var s := S();
      ContentsSize(s, n);
      ghost var y;
      panicked, y := WriteBlocks(n, off, src);
      r := |src|;
      if panicked {
        return;
      }
      Enough(s, S(), n, off, |src|);
      WroteContents(s, S(), n, off, src);
      if |src| <= CHUNK {
        ChunkBound(logged, old(logged), off, |src|, s.inode[n].indirect, inode[n].indirect, y, inodestart + n / IPB);
      }
      if |src| > 0 && off + |src| > inode[n].size {
        ResizeOk(S(), n, off + |src|);
        ghost var t, log := S(), logged;
        inode := inode[n := inode[n].(size := off + |src|)];
        logged := logged + {inodestart + n / IPB};
        InodeCovers(t, S(), bmapstart, logged);
        CoversTrans(s, t, S(), bmapstart, log, logged);
        SameSlots(t, S());
        CarriesSame(s, t, S(), n, off, |src|);
      }
    }

    /** `bfree`; true stands for the "freeing free block" panic. */
    method Bfree(b: nat) returns (panicked: bool)
      requires b < |bitmap|
      modifies `bitmap, `logged
      ensures panicked <==> !old(bitmap)[b]
      ensures panicked ==> bitmap == old(bitmap)
      ensures !panicked ==> bitmap == old(bitmap)[b := false] && logged == old(logged) + {bmapstart + b / BPB}
    {
      if !bitmap[b] {
        return true;
      }
      bitmap := bitmap[b := false];
      logged := logged + {bmapstart + b / BPB};
      panicked := false;
    }

    /** The block of a direct or indirect pointer is freed and the pointer cleared. */
    method Drop(x: Slot) returns (panicked: bool)
      requires Inv(S()) && SlotExists(S(), x) && Val(S(), x) != 0 && !x.Entry?
      requires x.Indirect? ==> forall j :: 0 <= j < NINDIRECT ==> Val(S(), Entry(x.inum, j)) == 0
      modifies `bitmap, `inode, `owner, `logged
      ensures !panicked && Val(old(S()), x) < |old(bitmap)| && S() == Detach(old(S()), x) && Inv(S())
      ensures Val(old(S()), x) in old(owner) && logged == old(logged) + {bmapstart + Val(old(S()), x) / BPB}
      ensures forall y :: Val(S(), y) == if y == x then 0 else Val(old(S()), y)
    {
      ghost var s := S();
      DetachOk(s, x);
      SlotFacts(s, x);
      var ip := inode[x.inum];
      var b := if x.Direct? then ip.direct[x.i] else ip.indirect;
      panicked := Bfree(b);
      owner := owner - {b};
      if x.Direct? {
        inode := inode[x.inum := ip.(direct := ip.direct[x.i := 0])];
      } else {
        inode := inode[x.inum := ip.(indirect := 0)];
      }
      assert S() == Detach(s, x);
    }

    /** The direct part of itrunc. */
    method TruncDirect(n: Inum) returns (panicked: bool)
      requires Inv(S()) && n in inode
      modifies `bitmap, `inode, `owner, `logged
      ensures !panicked && Inv(S()) && |bitmap| == |old(bitmap)| && inode.Keys == old(inode).Keys
      ensures inode[n].indirect == old(inode)[n].indirect
              && (forall m :: m in inode && m != n ==> inode[m] == old(inode)[m])
      ensures forall y :: Val(S(), y) == if y.Direct? && y.inum == n then 0 else Val(old(S()), y)
      ensures owner.Keys <= old(owner).Keys
      ensures logged == old(logged) + MapBlocks(bmapstart, old(owner).Keys - owner.Keys)
    {
      hide Inv, MapBlocks;
      InodeFacts(S(), n);
      NoMapBlocks(bmapstart, owner.Keys);
      panicked := false;
      var i := 0;
      while i < NDIRECT
        invariant 0 <= i <= NDIRECT && !panicked && Inv(S()) && |bitmap| == |old(bitmap)|
                  && inode.Keys == old(inode).Keys
        invariant inode[n].indirect == old(inode)[n].indirect
                  && (forall m :: m in inode && m != n ==> inode[m] == old(inode)[m])
        invariant forall y :: Val(S(), y) == if y.Direct? && y.inum == n && y.i < i then 0 else Val(old(S()), y)
        invariant owner.Keys <= old(owner).Keys
        invariant logged == old(logged) + MapBlocks(bmapstart, old(owner).Keys - owner.Keys)
      {
        InodeFacts(S(), n);
        if inode[n].direct[i] != 0 {
          SlotFacts(S(), Direct(n, i));
          MoreMapBlocks(bmapstart, old(owner).Keys, owner.Keys, inode[n].direct[i]);
          var p := Drop(Direct(n, i));
          panicked := panicked || p;
        }
        i := i + 1;
      }
    }

    /** The indirect part of itrunc: the words are not cleared, the block that holds them is freed. */
    method TruncIndirect(n: Inum) returns (panicked: bool)
      requires Inv(S()) && n in inode && inode[n].indirect != 0
      modifies `bitmap, `inode, `owner, `logged
      ensures !panicked && Inv(S()) && |bitmap| == |old(bitmap)| && inode.Keys == old(inode).Keys && words == old(words)
      ensures inode[n].indirect == 0 && (forall m :: m in inode && m != n ==> inode[m] == old(inode)[m])
      ensures forall y :: Val(S(), y) == if !y.Direct? && y.inum == n then 0 else Val(old(S()), y)
      ensures owner.Keys <= old(owner).Keys
      ensures logged == old(logged) + MapBlocks(bmapstart, old(owner).Keys - owner.Keys)
    {
      hide Inv, Cleared, Val, MapBlocks;
      ghost var s := S();
      NoMapBlocks(bmapstart, owner.Keys);
      var ind := inode[n].indirect;
      IndirectVal(s, n);
      SlotFacts(s, Indirect(n));
      ClearedNone(s, ind);
      var a := words[ind];
      panicked := false;
      var j := 0;
      while j < NINDIRECT
        invariant 0 <= j <= NINDIRECT && !panicked && |bitmap| == |old(bitmap)| && words == old(words)
                  && inode == old(inode)
        invariant Inv(Cleared(S(), ind, j))
        invariant forall y :: Val(Cleared(S(), ind, j), y) == if y.Entry? && y.inum == n && y.j < j
                    then 0 else Val(s, y)
        invariant owner.Keys <= old(owner).Keys
        invariant logged == old(logged) + MapBlocks(bmapstart, old(owner).Keys - owner.Keys)
      {
        ghost var t := S();
        EntryInUse(t, n, j);
        if a[j] != 0 {
          MoreMapBlocks(bmapstart, old(owner).Keys, owner.Keys, a[j]);
          var p := Bfree(a[j]);
          panicked := panicked || p;
          owner := owner - {a[j]};
        }
        ClearedStep(t, S(), n, j);
        j := j + 1;
      }
      ghost var t := S();
      LastDetach(t, n);
      MoreMapBlocks(bmapstart, old(owner).Keys, owner.Keys, ind);
      var p := Bfree(ind);
      panicked := panicked || p;
      owner := owner - {ind};
      inode := inode[n := inode[n].(indirect := 0)];
    }

    /** The two loops of itrunc. */
    method TruncBlocks(n: Inum) returns (panicked: bool)
      requires Inv(S()) && n in inode
      modifies `bitmap, `inode, `owner, `logged
      ensures !panicked && Inv(S()) && |bitmap| == |old(bitmap)| && inode.Keys == old(inode).Keys
      ensures forall m :: m in inode && m != n ==> inode[m] == old(inode)[m]
      ensures forall y :: Val(S(), y) == if y.inum == n then 0 else Val(old(S()), y)
      ensures logged == old(logged) + MapBlocks(bmapstart, old(owner).Keys - owner.Keys)
    {
      hide Inv, Val, MapBlocks;
      panicked := TruncDirect(n);
      ghost var t := S();
      if inode[n].indirect != 0 {
        var p := TruncIndirect(n);
        panicked := panicked || p;
        MapBlocksAdd(bmapstart, old(owner).Keys, t.owner.Keys, owner.Keys);
      } else {
        NoIndirect(t, n);
      }
    }

    /**
      `itrunc`: every block of file n, direct, indirect and the indirect block itself,
      becomes free, no other block does, and the "freeing free block" panic is not
      reached.
     */
    method Itrunc(n: Inum) returns (panicked: bool)
      requires Inv(S()) && n in inode
      modifies `bitmap, `inode, `owner, `logged
      ensures !panicked
      ensures Inv(S()) && |bitmap| == |old(bitmap)| && inode.Keys == old(inode).Keys && bytes == old(bytes)
      ensures inode[n].size == 0 && (forall m :: m in inode && m != n ==> inode[m] == old(inode)[m])
      ensures forall y :: Val(S(), y) == if y.inum == n then 0 else Val(old(S()), y)
      ensures forall b :: first <= b < |bitmap| ==>
                (bitmap[b] <==> old(bitmap)[b] && b in old(owner) && old(owner)[b].inum != n)
      ensures FilesOk(old(S())) ==> FilesOk(S())
      ensures forall m :: m in inode && m != n ==> Contents(S(), m) == Contents(old(S()), m)
      ensures logged == old(logged) + MapBlocks(bmapstart, OwnedBy(old(S()), n)) + {inodestart + n / IPB}
      ensures Covers(old(S()), S(), bmapstart, logged)
    {
      ghost var s := S();
      assert first > 0;
      hide Inv, Val, MapBlocks, OwnedBy, Contents, FilesOk, Covers;
      panicked := TruncBlocks(n);
      ghost var u := S();
      ResizeOk(u, n, 0);
      inode := inode[n := inode[n].(size := 0)];
      logged := logged + {inodestart + n / IPB};
      forall b | first <= b < |bitmap|
        ensures bitmap[b] <==> old(bitmap)[b] && b in old(owner) && old(owner)[b].inum != n
      {
        FreedExactly(s, S(), n, b);
      }
      GivenUp(s, S(), n);
      TruncCovers(s, S(), n, bmapstart, logged);
      TruncatedFiles(s, S(), n);
    }

    /** begin_op, writei of one chunk, end_op. */
    method Transaction(n: Inum, off: nat, src: seq<Byte>) returns (r: int, panicked: bool)
      requires Inv(S()) && FilesOk(S()) && n in inode && off < UINT && 0 < |src| <= CHUNK
      modifies `bitmap, `bytes, `words, `inode, `owner, `logged
      ensures Inv(S()) && (!panicked ==> FilesOk(S())) && n in inode
      ensures r == -1 <==> off > old(inode)[n].size || (off + |src|) % UINT < off || off + |src| > MAXFILE * BSIZE
      ensures r == -1 ==> !panicked && S() == old(S())
      ensures r != -1 ==> (panicked <==> Slack(old(S()), n, off, |src|) < 0)
      ensures r != -1 && !panicked ==>
                && r == |src| && Carries(old(S()), S(), n, off, |src|) && off <= |Contents(old(S()), n)|
                && Contents(S(), n) == Splice(Contents(old(S()), n), off, src)
      ensures !panicked ==>
                inode.Keys == old(inode).Keys && forall m :: m in inode && m != n ==>
                    Contents(S(), m) == Contents(old(S()), m)
      ensures !panicked ==>
                LoggedStep(old(S()), S(), logged, n, bmapstart, inodestart) && |logged| <= LogSpace.MAXOPBLOCKS
    {
      hide Inv, FilesOk, Contents, Splice, Covers, Carries, Slack;
      logged := {};
      r, panicked := Writei(n, off, src);
    }

    /**
      `filewrite` on an inode: the bytes go in chunks, one transaction each, and no
      transaction logs more than MAXOPBLOCKS blocks.  It returns |src| exactly when
      the whole range fits in a file of maximum size; otherwise -1 with the chunks
      that fitted written.
     */
    method FileWrite(n: Inum, off0: nat, src: seq<Byte>)
        returns (r: int, off: nat, panicked: bool, ghost k: nat, ghost txns: seq<set<nat>>, ghost cuts: seq<State>)
      requires Inv(S()) && FilesOk(S()) && n in inode && off0 < UINT && |src| < UINT / 2
      modifies `bitmap, `bytes, `words, `inode, `owner, `logged
      ensures Inv(S()) && n in inode && k <= |src|
      ensures cuts != [] && Committed(cuts, txns, old(S()), cuts[|cuts| - 1], n, bmapstart, inodestart)
      ensures !panicked ==> cuts[|cuts| - 1] == S()
      ensures !panicked ==> FilesOk(S()) && off == off0 + k && r == (if k == |src| then |src| else -1)
      ensures !panicked ==>
                (k == |src| <==> src == [] || (off0 <= old(inode)[n].size && off0 + |src| <= MAXFILE * BSIZE))
      ensures !panicked ==> k == if off0 <= old(inode)[n].size then Fitting(off0, |src|) else 0
      ensures panicked <==> off0 <= old(inode)[n].size && Slack(old(S()), n, off0, Fitting(off0, |src|)) < 0
      ensures !panicked && k > 0 ==>
                off0 <= |Contents(old(S()), n)| && Contents(S(), n) == Splice(Contents(old(S()), n), off0, src[..k])
      ensures !panicked && k == 0 ==> S() == old(S())
      ensures !panicked ==>
                inode.Keys == old(inode).Keys && forall m :: m in inode && m != n ==>
                    Contents(S(), m) == Contents(old(S()), m)
    {
      hide Inv, FilesOk, Contents, Splice, Carries, Slack, Fitting, Committed, LoggedStep, Chunked;
      ghost var s := S();
      SizeBound(s, n);
      ChunkedNothing(s, n, off0, src);
      CommitNothing(s, n, bmapstart, inodestart);
      off, panicked, txns, cuts := off0, false, [], [s];
      var i := 0;
      while i < |src|
        invariant 0 <= i <= |src| && Inv(S()) && FilesOk(S()) && n in inode && off == off0 + i
        invariant i > 0 ==> off0 <= s.inode[n].size && off <= MAXFILE * BSIZE && off <= inode[n].size
        invariant i == 0 ==> S() == s
        invariant Committed(cuts, txns, s, S(), n, bmapstart, inodestart)
        invariant Chunked(s, S(), n, off0, src, i) && (i % CHUNK == 0 || i == |src|)
      {
        CommitsEnd(cuts, txns, s, S(), n, bmapstart, inodestart);
        var n1 := if |src| - i > CHUNK then CHUNK else |src| - i;
        ghost var t := S();
        var wr;
        wr, panicked := Transaction(n, off, src[i..i + n1]);
        if off0 <= s.inode[n].size { FittingIs(off0, |src|, i, n1); }
        if panicked {
          ChunkedShort(s, t, n, off0, src, i, n1);
          return -1, off, true, i, txns, cuts;
        }
        CommitMore(cuts, txns, s, t, S(), logged, n, bmapstart, inodestart);
        txns, cuts := txns + [logged], cuts + [S()];
        if wr < 0 {
          ChunkedIs(s, t, n, off0, src, i);
          return -1, off, false, i, txns, cuts;
        }
        ChunkedMore(s, t, S(), n, off0, src, i, n1);
        off := off + wr;
        i := i + wr;
      }
      k := i;
      ChunkedIs(s, S(), n, off0, src, i);
      FittingAll(s, n, off0, |src|);
      CommitsEnd(cuts, txns, s, S(), n, bmapstart, inodestart);
      r := if i == |src| then |src| else -1;
    }
  }
}
