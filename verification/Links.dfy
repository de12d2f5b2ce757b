/**
  Directories and link counts in xv6: dirlookup, dirlink, create, sys_link and sys_unlink
  on one device.  Names are path elements as skipelem cuts them, at most DIRSIZ long.
 */
module Links {

  import opened Wrappers

  type Inum = nat

  const ROOT: Inum := 1

  /** A directory slot; inum 0 marks it free. */
  datatype Dirent = Dirent(inum: Inum, name: string)

  /** An allocated inode; slots is meaningful for directories only. */
  datatype Inode = Inode(kind: Kind, nlink: nat, slots: seq<Dirent>) {
    const isDir: bool := kind == Directory
  }

  datatype Kind = Plain | Directory | Device

  /** pending counts, for each inode, the sys_link calls between raising nlink and finishing. */
  datatype State = State(inode: map<Inum, Inode>, pending: multiset<Inum>)

  predicate IsDir(s: State, d: Inum) { d in s.inode && s.inode[d].isDir }

  /** A directory that some live directory still leads to. */
  predicate Live(s: State, d: Inum) { IsDir(s, d) && s.inode[d].nlink > 0 }

  predicate Used(s: State, d: Inum, k: nat) { IsDir(s, d) && k < |s.inode[d].slots| && s.inode[d].slots[k].inum != 0 }

  /** Slot k of the live directory d names i, and not as ".". */
  predicate Names(s: State, d: Inum, k: nat, i: Inum) {
    Live(s, d) && k < |s.inode[d].slots| && s.inode[d].slots[k].inum == i && s.inode[d].slots[k].name != "."
  }

  function Refs(s: State, i: Inum): set<(Inum, nat)> {
    set d, k | d in s.inode && 0 <= k < |s.inode[d].slots| && Names(s, d, k, i) :: (d, k)
  }

  /** nlink is the number of entries other than "." in live directories, plus the links being made. */
  predicate LinkOk(s: State, i: Inum) {
    && (i in s.inode ==> i != 0 && s.inode[i].nlink == |Refs(s, i)| + s.pending[i])
    && (i !in s.inode || s.inode[i].isDir ==> s.pending[i] == 0)
  }

  predicate ShapeOk(s: State, d: Inum) {
    IsDir(s, d) ==>
      |s.inode[d].slots| >= 2 && s.inode[d].slots[0] == Dirent(d, ".")
      && s.inode[d].slots[1].name == ".." && s.inode[d].slots[1].inum != 0
  }

  /** An entry proper: it is in a live directory, names an inode, and is the way up for a directory. */
  predicate SlotOk(s: State, d: Inum, k: nat) {
    Used(s, d, k) && k >= 2 ==>
      var e := s.inode[d].slots[k];
      && Live(s, d) && e.inum in s.inode && e.name != "." && e.name != ".."
      && (s.inode[e.inum].isDir ==>
            e.inum != ROOT && |s.inode[e.inum].slots| >= 2 && s.inode[e.inum].slots[1].inum == d)
  }

  predicate ApartOk(s: State, d: Inum, k: nat, l: nat) {
    Used(s, d, k) && Used(s, d, l) && k < l ==>
      && s.inode[d].slots[k].name != s.inode[d].slots[l].name
      && (2 <= k && IsDir(s, s.inode[d].slots[k].inum) ==> s.inode[d].slots[k].inum != s.inode[d].slots[l].inum)
  }

  /** The parent of d has an entry for d. */
  ghost predicate HasEntry(s: State, p: Inum, d: Inum) { exists k: nat :: k >= 2 && Names(s, p, k, d) }

  ghost predicate ParentOk(s: State, d: Inum) {
    Live(s, d) && |s.inode[d].slots| >= 2 ==>
      var p := s.inode[d].slots[1].inum;
      Live(s, p) && (if d == ROOT then p == ROOT else p != d && HasEntry(s, p, d))
  }

  ghost predicate Inv(s: State) {
    && Live(s, ROOT)
    && (forall i: Inum {:trigger LinkOk(s, i)} :: LinkOk(s, i))
    && (forall d: Inum {:trigger ShapeOk(s, d)} :: ShapeOk(s, d))
    && (forall d: Inum, k: nat {:trigger SlotOk(s, d, k)} :: SlotOk(s, d, k))
    && (forall d: Inum, k: nat, l: nat {:trigger ApartOk(s, d, k, l)} :: ApartOk(s, d, k, l))
    && (forall d: Inum {:trigger ParentOk(s, d)} :: ParentOk(s, d))
  }

  // ---------------------------------------------------------------- changes

  /** slots with entry k written, k being the first free slot or the end. */
  function Written(slots: seq<Dirent>, k: nat, e: Dirent): seq<Dirent>
    requires k <= |slots|
  {
    if k < |slots| then slots[k := e] else slots + [e]
  }

  predicate FreeSlot(s: State, d: Inum, k: nat) {
    IsDir(s, d) && 2 <= k <= |s.inode[d].slots| && (k < |s.inode[d].slots| ==> s.inode[d].slots[k].inum == 0)
  }

  function SetSlot(s: State, d: Inum, k: nat, e: Dirent): State
    requires IsDir(s, d) && k <= |s.inode[d].slots|
  {
    s.(inode := s.inode[d := s.inode[d].(slots := Written(s.inode[d].slots, k, e))])
  }

  function SetNlink(s: State, i: Inum, n: nat): State
    requires i in s.inode
  {
    s.(inode := s.inode[i := s.inode[i].(nlink := n)])
  }

  /** create of a file or device. */
  function MadeFile(s: State, d: Inum, k: nat, name: string, i: Inum, kind: Kind): State
    requires IsDir(s, d) && k <= |s.inode[d].slots| && i != d
  {
    SetSlot(s.(inode := s.inode[i := Inode(kind, 1, [])]), d, k, Dirent(i, name))
  }

  function Dots(d: Inum, p: Inum): seq<Dirent> { [Dirent(d, "."), Dirent(p, "..")] }

  /** create of a directory. */
  function MadeDir(s: State, d: Inum, k: nat, name: string, i: Inum): State
    requires IsDir(s, d) && k <= |s.inode[d].slots| && i != d
  {
    var t := s.(inode := s.inode[i := Inode(Directory, 1, Dots(i, d))]);
    SetSlot(SetNlink(t, d, t.inode[d].nlink + 1), d, k, Dirent(i, name))
  }

  function LinkBegun(s: State, i: Inum): State
    requires i in s.inode
  {
    SetNlink(s, i, s.inode[i].nlink + 1).(pending := s.pending + multiset{i})
  }

  function LinkDone(s: State, i: Inum, d: Inum, k: nat, name: string): State
    requires IsDir(s, d) && k <= |s.inode[d].slots|
  {
    SetSlot(s, d, k, Dirent(i, name)).(pending := s.pending - multiset{i})
  }

  function LinkUndone(s: State, i: Inum): State
    requires i in s.inode && s.inode[i].nlink > 0
  {
    SetNlink(s, i, s.inode[i].nlink - 1).(pending := s.pending - multiset{i})
  }

  function UnlinkedFile(s: State, d: Inum, k: nat, i: Inum): State
    requires IsDir(s, d) && k <= |s.inode[d].slots| && i in s.inode && s.inode[i].nlink > 0 && i != d
  {
    SetNlink(SetSlot(s, d, k, Dirent(0, "")), i, s.inode[i].nlink - 1)
  }

  function UnlinkedDir(s: State, d: Inum, k: nat, i: Inum): State
    requires IsDir(s, d) && k <= |s.inode[d].slots| && i in s.inode && s.inode[i].nlink > 0 && i != d
             && s.inode[d].nlink > 0
  {
    SetNlink(UnlinkedFile(s, d, k, i), d, s.inode[d].nlink - 1)
  }

  // ---------------------------------------------------------------- links begun and undone

  /** Changing a file's nlink changes no directory. */
  lemma FileNlink(s: State, t: State, i: Inum)
    requires Inv(s) && i in s.inode && !s.inode[i].isDir
    requires i in t.inode && t.inode == s.inode[i := s.inode[i].(nlink := t.inode[i].nlink)]
    requires t.inode[i].nlink + s.pending[i] == s.inode[i].nlink + t.pending[i]
    requires forall j: Inum :: j != i ==> t.pending[j] == s.pending[j]
    ensures Inv(t)
  {
    assert forall d: Inum :: IsDir(t, d) <==> IsDir(s, d);
    forall d: Inum, k: nat, j: Inum ensures Names(t, d, k, j) <==> Names(s, d, k, j) { }
    forall j: Inum ensures LinkOk(t, j) { assert LinkOk(s, j) && Refs(t, j) == Refs(s, j); }
    forall d: Inum ensures ShapeOk(t, d) { assert ShapeOk(s, d); }
    forall d: Inum, k: nat ensures SlotOk(t, d, k) { assert SlotOk(s, d, k); }
    forall d: Inum, k: nat, l: nat ensures ApartOk(t, d, k, l) { assert ApartOk(s, d, k, l); }
    forall d: Inum ensures ParentOk(t, d) { assert ShapeOk(s, d) && ParentOk(s, d); ParentKept(s, t, d); }
  }

  lemma ParentKept(s: State, t: State, d: Inum)
    requires ParentOk(s, d)
    requires Live(t, d) ==>
               && Live(s, d) && |s.inode[d].slots| >= 2 && |t.inode[d].slots| >= 2
               && t.inode[d].slots[1] == s.inode[d].slots[1]
    requires Live(t, d) ==>
               var p := s.inode[d].slots[1].inum;
               Live(t, p) && forall k: nat :: k >= 2 && Names(s, p, k, d) ==> Names(t, p, k, d)
    ensures ParentOk(t, d)
  {
    if Live(t, d) {
      var p := s.inode[d].slots[1].inum;
      if d != ROOT {
        var k: nat :| k >= 2 && Names(s, p, k, d);
        assert Names(t, p, k, d);
      }
    }
  }

  // ---------------------------------------------------------------- entries made

  ghost predicate Absent(s: State, d: Inum, name: string) {
    IsDir(s, d) && forall l: nat :: Used(s, d, l) ==> s.inode[d].slots[l].name != name
  }

  lemma NamedAllocated(s: State, d: Inum, k: nat, i: Inum)
    requires Inv(s) && Names(s, d, k, i) && i != 0
    ensures i in s.inode
  {
    assert ShapeOk(s, d) && SlotOk(s, d, k) && ParentOk(s, d);
  }

  /** Nothing live names an inode that is not allocated. */
  lemma RefsAllocated(s: State, i: Inum)
    requires Inv(s) && i != 0
    ensures Refs(s, i) != {} ==> i in s.inode
  {
    if Refs(s, i) != {} {
      var r :| r in Refs(s, i);
      NamedAllocated(s, r.0, r.1, i);
    }
  }

  /** A name that is not in use is neither of the dots. */
  lemma AbsentIsProper(s: State, d: Inum, name: string)
    requires Inv(s) && Absent(s, d, name)
    ensures name != "." && name != ".."
  {
    assert ShapeOk(s, d) && LinkOk(s, d);
    assert Used(s, d, 0) && Used(s, d, 1);
  }

  /** sys_link's last step keeps the counts exactly when the directory it writes to is still linked. */
  lemma LinkDoneOk(s: State, i: Inum, d: Inum, k: nat, name: string)
    requires Inv(s) && i in s.inode && !s.inode[i].isDir && s.pending[i] > 0
    requires FreeSlot(s, d, k) && Absent(s, d, name)
    ensures Inv(LinkDone(s, i, d, k, name)) <==> Live(s, d)
    ensures LinkOk(LinkDone(s, i, d, k, name), i) <==> Live(s, d)
  {
    var t := LinkDone(s, i, d, k, name);
    AbsentIsProper(s, d, name);
    assert LinkOk(s, i) && t.pending[i] == s.pending[i] - 1;
    forall e: Inum, l: nat, j: Inum
      ensures j != 0 ==> (Names(t, e, l, j) <==> Names(s, e, l, j) || (Live(s, d) && (e, l, j) == (d, k, i))) { }
    if Live(s, d) {
      LinkedRefs(s, t, i, d, k);
      LinkedInv(s, t, i, d, k, name);
    } else {
      assert Refs(t, i) == Refs(s, i);
      assert !SlotOk(t, d, k);
    }
  }

  lemma LinkedRefs(s: State, t: State, i: Inum, d: Inum, k: nat)
    requires FreeSlot(s, d, k) && Live(s, d) && i != 0
    requires forall e: Inum, l: nat, j: Inum :: j != 0 ==>
               (Names(t, e, l, j) <==> Names(s, e, l, j) || (e, l, j) == (d, k, i))
    ensures |Refs(t, i)| == |Refs(s, i)| + 1
    ensures forall j: Inum :: j != 0 && j != i ==> Refs(t, j) == Refs(s, j)
  {
    assert (d, k) !in Refs(s, i);
    assert Names(t, d, k, i);
    assert Refs(t, i) == Refs(s, i) + {(d, k)};
    forall j: Inum | j != 0 && j != i ensures Refs(t, j) == Refs(s, j) { }
  }

  lemma LinkedInv(s: State, t: State, i: Inum, d: Inum, k: nat, name: string)
    requires Inv(s) && i in s.inode && !s.inode[i].isDir && s.pending[i] > 0 && name != "." && name != ".."
    requires FreeSlot(s, d, k) && Absent(s, d, name) && Live(s, d) && t == LinkDone(s, i, d, k, name)
    requires |Refs(t, i)| == |Refs(s, i)| + 1 && forall j: Inum :: j != 0 && j != i ==> Refs(t, j) == Refs(s, j)
    ensures Inv(t)
  {
    hide Refs;
    forall j: Inum ensures LinkOk(t, j) { assert LinkOk(s, j); }
    forall e: Inum ensures ShapeOk(t, e) { assert ShapeOk(s, e); }
    forall e: Inum, l: nat ensures SlotOk(t, e, l) { assert SlotOk(s, e, l); }
    forall e: Inum, l: nat, m: nat ensures ApartOk(t, e, l, m) { assert ApartOk(s, e, l, m); }
    forall e: Inum ensures ParentOk(t, e) { LinkedParent(s, t, i, d, k, name, e); }
  }

  lemma LinkedParent(s: State, t: State, i: Inum, d: Inum, k: nat, name: string, e: Inum)
    requires Inv(s) && FreeSlot(s, d, k) && t == LinkDone(s, i, d, k, name)
    ensures ParentOk(t, e)
  {
    assert ShapeOk(s, e) && ParentOk(s, e) && LinkOk(s, e);
    ParentKept(s, t, e);
  }

  /** A new file, like a link being made, until its entry is written. */
  function Unnamed(s: State, i: Inum, kind: Kind): State {
    s.(inode := s.inode[i := Inode(kind, 1, [])], pending := s.pending + multiset{i})
  }

  lemma UnnamedOk(s: State, i: Inum, kind: Kind)
    requires kind != Directory && Inv(s) && i !in s.inode && i != 0
    ensures Inv(Unnamed(s, i, kind))
  {
    var t := Unnamed(s, i, kind);
    RefsAllocated(s, i);
    assert forall d: Inum :: IsDir(t, d) <==> IsDir(s, d);
    forall d: Inum, k: nat, j: Inum ensures Names(t, d, k, j) <==> Names(s, d, k, j) { }
    forall j: Inum ensures LinkOk(t, j) { assert LinkOk(s, j) && Refs(t, j) == Refs(s, j); }
    forall d: Inum ensures ShapeOk(t, d) { assert ShapeOk(s, d); }
    forall d: Inum, k: nat ensures SlotOk(t, d, k) { assert SlotOk(s, d, k); }
    forall d: Inum, k: nat, l: nat ensures ApartOk(t, d, k, l) {
      assert ApartOk(s, d, k, l) && SlotOk(s, d, k);
    }
    forall d: Inum ensures ParentOk(t, d) { assert ShapeOk(s, d) && ParentOk(s, d); ParentKept(s, t, d); }
  }

  /** create of a file keeps the counts exactly when the parent is still linked. */
  lemma MadeFileOk(s: State, d: Inum, k: nat, name: string, i: Inum, kind: Kind)
    requires kind != Directory && Inv(s) && i !in s.inode && i != 0 && FreeSlot(s, d, k) && Absent(s, d, name)
    ensures Inv(MadeFile(s, d, k, name, i, kind)) <==> Live(s, d)
    ensures LinkOk(MadeFile(s, d, k, name, i, kind), i) <==> Live(s, d)
  {
    var u := Unnamed(s, i, kind);
    UnnamedOk(s, i, kind);
    forall l: nat ensures Used(u, d, l) <==> Used(s, d, l) { }
    LinkDoneOk(u, i, d, k, name);
    assert u.pending - multiset{i} == s.pending;
    assert LinkDone(u, i, d, k, name) == MadeFile(s, d, k, name, i, kind);
  }

  lemma MadeDirNames(s: State, d: Inum, k: nat, name: string, i: Inum, e: Inum, l: nat, j: Inum)
    requires i !in s.inode && i != 0 && FreeSlot(s, d, k) && Live(s, d) && name != "." && j != 0
    ensures Names(MadeDir(s, d, k, name, i), e, l, j) <==>
              Names(s, e, l, j) || (e, l, j) == (d, k, i) || (e, l, j) == (i, 1, d)
  {
  }

  lemma MadeDirRefs(s: State, d: Inum, k: nat, name: string, i: Inum)
    requires Inv(s) && i !in s.inode && i != 0 && FreeSlot(s, d, k) && Live(s, d) && name != "."
    ensures var t := MadeDir(s, d, k, name, i);
            |Refs(t, i)| == 1 && |Refs(t, d)| == |Refs(s, d)| + 1 && forall j: Inum :: j != 0 && j != i && j != d ==>
                Refs(t, j) == Refs(s, j)
  {
    var t := MadeDir(s, d, k, name, i);
    assert LinkOk(s, d);
    RefsAllocated(s, i);
    forall e: Inum, l: nat, j: Inum | j != 0
      ensures Names(t, e, l, j) <==> Names(s, e, l, j) || (e, l, j) == (d, k, i) || (e, l, j) == (i, 1, d) {
      MadeDirNames(s, d, k, name, i, e, l, j);
    }
    assert Names(t, d, k, i) && Names(t, i, 1, d);
    assert Refs(t, i) == {(d, k)};
    assert (i, 1) !in Refs(s, d);
    assert Refs(t, d) == Refs(s, d) + {(i, 1)};
    forall j: Inum | j != 0 && j != i && j != d ensures Refs(t, j) == Refs(s, j) { }
  }

  lemma MadeDirParent(s: State, d: Inum, k: nat, name: string, i: Inum, e: Inum)
    requires Inv(s) && i !in s.inode && i != 0 && FreeSlot(s, d, k) && Live(s, d) && name != "."
    ensures ParentOk(MadeDir(s, d, k, name, i), e)
  {
    var t := MadeDir(s, d, k, name, i);
    assert ShapeOk(s, e) && ParentOk(s, e) && LinkOk(s, e) && ShapeOk(s, d);
    if e == i {
      assert Names(t, d, k, i);
    } else {
      ParentKept(s, t, e);
    }
  }

  lemma MadeDirInv(s: State, d: Inum, k: nat, name: string, i: Inum)
    requires Inv(s) && i !in s.inode && i != 0 && FreeSlot(s, d, k) && Absent(s, d, name) && Live(s, d)
    ensures Inv(MadeDir(s, d, k, name, i))
  {
    hide Refs;
    var t := MadeDir(s, d, k, name, i);
    AbsentIsProper(s, d, name);
    MadeDirRefs(s, d, k, name, i);
    assert LinkOk(s, d);
    forall j: Inum ensures LinkOk(t, j) { assert LinkOk(s, j); }
    forall e: Inum ensures ShapeOk(t, e) { assert ShapeOk(s, e); }
    forall e: Inum, l: nat ensures SlotOk(t, e, l) { assert SlotOk(s, e, l); }
    forall e: Inum, l: nat, m: nat ensures ApartOk(t, e, l, m) {
      assert ApartOk(s, e, l, m) && SlotOk(s, e, l) && SlotOk(s, e, m);
    }
    forall e: Inum ensures ParentOk(t, e) { MadeDirParent(s, d, k, name, i, e); }
  }

  /** The directory that ".." of d names. */
  function Parent(s: State, d: Inum): Inum
    requires IsDir(s, d) && |s.inode[d].slots| >= 2
  {
    s.inode[d].slots[1].inum
  }

  /** In a removed directory create brings two entries to life: the new one, and its own "..". */
  lemma RevivedNames(s: State, d: Inum, k: nat, name: string, i: Inum, e: Inum, l: nat, j: Inum)
    requires Inv(s) && i !in s.inode && i != 0 && FreeSlot(s, d, k) && !Live(s, d) && name != "." && j != 0
    requires |s.inode[d].slots| >= 2
    ensures Names(MadeDir(s, d, k, name, i), e, l, j) <==>
            Names(s, e, l, j) || (e, l, j) == (d, k, i) || (e, l, j) == (i, 1, d) || (e, l, j) == (d, 1, Parent(s, d))
  {
    assert ShapeOk(s, d) && SlotOk(s, d, l);
  }

  /** From s to t the live entries (d, k) for i, (i, 1) for d and (d, 1) for p appeared. */
  ghost predicate Revived(s: State, t: State, d: Inum, k: nat, i: Inum, p: Inum) {
    forall e: Inum, l: nat, j: Inum :: j != 0 ==>
      (Names(t, e, l, j) <==>
       Names(s, e, l, j) || (e, l, j) == (d, k, i) || (e, l, j) == (i, 1, d) || (e, l, j) == (d, 1, p))
  }

  lemma RevivedOwn(s: State, t: State, d: Inum, k: nat, i: Inum, p: Inum)
    requires Revived(s, t, d, k, i, p) && d != 0 && i != 0 && i != d && k >= 2 && Refs(s, d) == {} && Refs(s, i) == {}
    ensures |Refs(t, d)| == (if p == d then 2 else 1) && |Refs(t, i)| == (if p == i then 2 else 1)
  {
    assert forall e: Inum, l: nat :: Names(s, e, l, d) ==> (e, l) in Refs(s, d);
    assert forall e: Inum, l: nat :: Names(s, e, l, i) ==> (e, l) in Refs(s, i);
    assert Names(t, i, 1, d) && Names(t, d, k, i);
    assert p != 0 ==> Names(t, d, 1, p);
    assert Refs(t, d) == if p == d then {(i, 1), (d, 1)} else {(i, 1)};
    assert Refs(t, i) == if p == i then {(d, k), (d, 1)} else {(d, k)};
  }

  lemma RevivedOther(s: State, t: State, d: Inum, k: nat, i: Inum, p: Inum, j: Inum)
    requires Revived(s, t, d, k, i, p) && !Live(s, d) && j != 0 && j != d && j != i
    ensures |Refs(t, j)| == |Refs(s, j)| + if j == p then 1 else 0
  {
    if j == p {
      assert (d, 1) !in Refs(s, p);
      assert Names(t, d, 1, p);
      assert Refs(t, p) == Refs(s, p) + {(d, 1)};
    } else {
      assert Refs(t, j) == Refs(s, j);
    }
  }

  /** Counts survive create of a directory in a linked parent, or in one whose own parent is gone from the disk. */
  predicate DirCounts(s: State, d: Inum, i: Inum)
    requires IsDir(s, d) && |s.inode[d].slots| >= 2
  {
    Live(s, d) || (Parent(s, d) !in s.inode && Parent(s, d) != i)
  }

  lemma RevivedCounts(s: State, d: Inum, k: nat, name: string, i: Inum)
    requires Inv(s) && i !in s.inode && i != 0 && FreeSlot(s, d, k) && !Live(s, d) && name != "."
    requires |s.inode[d].slots| >= 2
    ensures (forall j: Inum :: LinkOk(MadeDir(s, d, k, name, i), j)) <==> DirCounts(s, d, i)
  {
    var t, p := MadeDir(s, d, k, name, i), Parent(s, d);
    assert ShapeOk(s, d) && LinkOk(s, d) && LinkOk(s, i) && LinkOk(s, p);
    assert Refs(s, d) == {};
    RefsAllocated(s, i);
    forall e: Inum, l: nat, j: Inum | j != 0
      ensures Names(t, e, l, j) <==>
              Names(s, e, l, j) || (e, l, j) == (d, k, i) || (e, l, j) == (i, 1, d) || (e, l, j) == (d, 1, p) {
      RevivedNames(s, d, k, name, i, e, l, j);
    }
    RevivedOwn(s, t, d, k, i, p);
    hide Refs;
    forall j: Inum | j != d && j != i ensures LinkOk(t, j) <==> j !in s.inode || j != p {
      assert LinkOk(s, j);
      if j != 0 { RevivedOther(s, t, d, k, i, p, j); }
    }
    if DirCounts(s, d, i) {
      forall j: Inum ensures LinkOk(t, j) { }
    } else {
      assert !LinkOk(t, p);
    }
  }

  /**
    create of a directory.  The counts together with the shape of the tree survive exactly
    when the parent is still linked; the counts alone also when the parent was removed,
    its own parent has been freed, and the new directory does not reuse that number.
   */
  lemma MadeDirOk(s: State, d: Inum, k: nat, name: string, i: Inum)
    requires Inv(s) && i !in s.inode && i != 0 && FreeSlot(s, d, k) && Absent(s, d, name)
    ensures Inv(MadeDir(s, d, k, name, i)) <==> Live(s, d)
    ensures |s.inode[d].slots| >= 2
    ensures (forall j: Inum :: LinkOk(MadeDir(s, d, k, name, i), j)) <==> DirCounts(s, d, i)
  {
    assert ShapeOk(s, d);
    AbsentIsProper(s, d, name);
    if Live(s, d) {
      MadeDirInv(s, d, k, name, i);
    } else {
      Unreachable(s, d, k, name, i);
      RevivedCounts(s, d, k, name, i);
    }
  }

  lemma Unreachable(s: State, d: Inum, k: nat, name: string, i: Inum)
    requires Inv(s) && i !in s.inode && i != 0 && FreeSlot(s, d, k) && !Live(s, d)
    ensures !ParentOk(MadeDir(s, d, k, name, i), d)
  {
    var t := MadeDir(s, d, k, name, i);
    assert ShapeOk(s, d) && LinkOk(s, d);
    assert Refs(s, d) == {};
    var p := s.inode[d].slots[1].inum;
    forall l: nat | l >= 2 ensures !Names(t, p, l, d) {
      assert SlotOk(s, p, l);
      assert !Names(s, p, l, d) by { assert Names(s, p, l, d) ==> (p, l) in Refs(s, d); }
    }
  }

  // ---------------------------------------------------------------- entries removed

  const NoEntry: Dirent := Dirent(0, "")

  /** An entry of a file cleared, before the file's nlink is lowered. */
  function CutEntry(s: State, d: Inum, k: nat, i: Inum): State
    requires IsDir(s, d) && k <= |s.inode[d].slots|
  {
    SetSlot(s, d, k, NoEntry).(pending := s.pending + multiset{i})
  }

  lemma CutRefs(s: State, t: State, i: Inum, d: Inum, k: nat)
    requires Names(s, d, k, i) && i != 0
    requires forall e: Inum, l: nat, j: Inum :: j != 0 ==>
               (Names(t, e, l, j) <==> Names(s, e, l, j) && (e, l) != (d, k))
    ensures |Refs(t, i)| == |Refs(s, i)| - 1
    ensures forall j: Inum :: j != 0 && j != i ==> Refs(t, j) == Refs(s, j)
  {
    assert (d, k) in Refs(s, i);
    assert Refs(t, i) == Refs(s, i) - {(d, k)};
    forall j: Inum | j != 0 && j != i ensures Refs(t, j) == Refs(s, j) { }
  }

  lemma CutEntryOk(s: State, d: Inum, k: nat, i: Inum)
    requires Inv(s) && Names(s, d, k, i) && k >= 2 && i != 0 && i in s.inode && !s.inode[i].isDir
    ensures Inv(CutEntry(s, d, k, i))
  {
    var t := CutEntry(s, d, k, i);
    forall e: Inum, l: nat, j: Inum | j != 0 ensures Names(t, e, l, j) <==> Names(s, e, l, j) && (e, l) != (d, k) { }
    CutRefs(s, t, i, d, k);
    CutEntryRest(s, d, k, i);
    forall j: Inum ensures LinkOk(t, j) { assert LinkOk(s, j); }
  }

  lemma CutEntryRest(s: State, d: Inum, k: nat, i: Inum)
    requires Inv(s) && Names(s, d, k, i) && k >= 2 && i != 0 && i in s.inode && !s.inode[i].isDir
    ensures var t := CutEntry(s, d, k, i);
            && Live(t, ROOT) && (forall e: Inum :: ShapeOk(t, e)) && (forall e: Inum, l: nat :: SlotOk(t, e, l))
            && (forall e: Inum, l: nat, m: nat :: ApartOk(t, e, l, m)) && (forall e: Inum :: ParentOk(t, e))
  {
    hide Refs;
    var t := CutEntry(s, d, k, i);
    forall e: Inum ensures ShapeOk(t, e) { assert ShapeOk(s, e); }
    forall e: Inum, l: nat ensures SlotOk(t, e, l) { assert SlotOk(s, e, l); }
    forall e: Inum, l: nat, m: nat ensures ApartOk(t, e, l, m) { assert ApartOk(s, e, l, m); }
    forall e: Inum ensures ParentOk(t, e) {
      assert ShapeOk(s, e) && ParentOk(s, e) && LinkOk(s, e);
      ParentKept(s, t, e);
    }
  }

  lemma UnlinkedFileOk(s: State, d: Inum, k: nat, i: Inum)
    requires Inv(s) && Names(s, d, k, i) && k >= 2 && i != 0 && i in s.inode && !s.inode[i].isDir
    ensures s.inode[i].nlink > 0 && Inv(UnlinkedFile(s, d, k, i))
  {
    assert LinkOk(s, i) && (d, k) in Refs(s, i);
    var u := CutEntry(s, d, k, i);
    var t := UnlinkedFile(s, d, k, i);
    CutEntryOk(s, d, k, i);
    assert LinkOk(u, i);
    FileNlink(u, t, i);
  }

  ghost predicate Empty(s: State, i: Inum) { forall l: nat :: l >= 2 ==> !Used(s, i, l) }

  /** An empty directory is named by its entry only. */
  lemma OnlyEntry(s: State, d: Inum, k: nat, i: Inum)
    requires Inv(s) && Names(s, d, k, i) && k >= 2 && i != 0 && IsDir(s, i) && Empty(s, i)
    ensures Refs(s, i) == {(d, k)} && s.inode[i].nlink == 1 && i != ROOT && i != d
    ensures |s.inode[i].slots| >= 2 && s.inode[i].slots[1].inum == d
  {
    assert SlotOk(s, d, k) && LinkOk(s, i) && ShapeOk(s, i);
    assert Used(s, d, k);
    assert (d, k) in Refs(s, i);
    forall e: Inum, l: nat | Names(s, e, l, i) ensures (e, l) == (d, k) {
      assert ShapeOk(s, e) && SlotOk(s, e, l) && ParentOk(s, e) && ApartOk(s, d, k, l) && ApartOk(s, d, l, k);
      if l == 1 { NotParent(s, e, i); }
    }
  }

  lemma NotParent(s: State, e: Inum, i: Inum)
    requires Inv(s) && Live(s, e) && i != ROOT && i != 0 && Empty(s, i)
    ensures |s.inode[e].slots| >= 2 && s.inode[e].slots[1].inum != i
  {
    assert ShapeOk(s, e) && ParentOk(s, e) && LinkOk(s, e);
    if s.inode[e].slots[1].inum == i && e != ROOT {
      var l: nat :| l >= 2 && Names(s, i, l, e);
      assert Used(s, i, l);
    }
  }

  /** A directory with a subdirectory has at least two links, so removing one leaves it live. */
  lemma TwoLinks(s: State, d: Inum, i: Inum)
    requires Inv(s) && Live(s, d) && Live(s, i) && i != ROOT && d != i && Empty(s, i) && |s.inode[i].slots| >= 2
             && s.inode[i].slots[1].inum == d
    ensures s.inode[d].nlink >= 2
  {
    assert ShapeOk(s, d) && ParentOk(s, d) && LinkOk(s, d) && ShapeOk(s, i);
    assert (i, 1) in Refs(s, d);
    var w: (Inum, nat) := (ROOT, 1);
    if d != ROOT {
      var p := s.inode[d].slots[1].inum;
      var l: nat :| l >= 2 && Names(s, p, l, d);
      w := (p, l);
    }
    assert w in Refs(s, d) && w != (i, 1);
    assert |{w, (i, 1)}| == 2 && {w, (i, 1)} <= Refs(s, d);
    SubsetSize({w, (i, 1)}, Refs(s, d));
  }

  lemma {:induction false} SubsetSize<T>(a: set<T>, b: set<T>)
    requires a <= b
    ensures |a| <= |b|
  {
    if a != {} {
      var x :| x in a;
      SubsetSize(a - {x}, b - {x});
    }
  }

  lemma UnlinkedDirRefs(s: State, d: Inum, k: nat, i: Inum)
    requires Inv(s) && Names(s, d, k, i) && k >= 2 && i != 0 && IsDir(s, i) && Empty(s, i)
    requires i != d && s.inode[i].nlink == 1 && s.inode[d].nlink >= 2 && i != ROOT && Refs(s, i) == {(d, k)}
    requires |s.inode[i].slots| >= 2 && s.inode[i].slots[1].inum == d
    ensures var t := UnlinkedDir(s, d, k, i);
            && Refs(t, i) == {} && |Refs(t, d)| == |Refs(s, d)| - 1
            && forall j: Inum :: j != 0 && j != i && j != d ==> Refs(t, j) == Refs(s, j)
  {
    var t := UnlinkedDir(s, d, k, i);
    assert ShapeOk(s, i) && LinkOk(s, d);
    forall e: Inum, l: nat, j: Inum | j != 0
      ensures Names(t, e, l, j) <==> Names(s, e, l, j) && (e, l) != (d, k) && (e, l) != (i, 1) {
      if e == i && l >= 2 { assert !Used(s, i, l); }
    }
    assert (i, 1) in Refs(s, d);
    forall e: Inum, l: nat ensures !Names(t, e, l, i) { assert Names(s, e, l, i) ==> (e, l) in Refs(s, i); }
    assert Refs(t, d) == Refs(s, d) - {(i, 1)};
    forall j: Inum | j != 0 && j != i && j != d ensures Refs(t, j) == Refs(s, j) { }
  }

  lemma UnlinkedDirParent(s: State, d: Inum, k: nat, i: Inum, e: Inum)
    requires Inv(s) && Names(s, d, k, i) && k >= 2 && i != 0 && IsDir(s, i) && Empty(s, i)
    requires i != d && s.inode[i].nlink == 1 && s.inode[d].nlink >= 2 && i != ROOT
    ensures ParentOk(UnlinkedDir(s, d, k, i), e)
  {
    var t := UnlinkedDir(s, d, k, i);
    assert ShapeOk(s, e) && ParentOk(s, e) && LinkOk(s, e);
    if Live(t, e) {
      NotParent(s, e, i);
      ParentKept(s, t, e);
    }
  }

  /** sys_unlink of an empty directory. */
  lemma UnlinkedDirOk(s: State, d: Inum, k: nat, i: Inum)
    requires Inv(s) && Names(s, d, k, i) && k >= 2 && i != 0 && IsDir(s, i) && Empty(s, i)
    ensures s.inode[i].nlink == 1 && i != d && s.inode[d].nlink >= 2 && Inv(UnlinkedDir(s, d, k, i))
  {
    OnlyEntry(s, d, k, i);
    assert ShapeOk(s, i);
    TwoLinks(s, d, i);
    UnlinkedDirRefs(s, d, k, i);
    UnlinkedDirRest(s, d, k, i);
    var t := UnlinkedDir(s, d, k, i);
    forall j: Inum ensures LinkOk(t, j) { assert LinkOk(s, j); }
  }

  lemma UnlinkedDirRest(s: State, d: Inum, k: nat, i: Inum)
    requires Inv(s) && Names(s, d, k, i) && k >= 2 && i != 0 && IsDir(s, i) && Empty(s, i)
    requires i != d && s.inode[i].nlink == 1 && s.inode[d].nlink >= 2 && i != ROOT
    ensures var t := UnlinkedDir(s, d, k, i);
            && Live(t, ROOT) && (forall e: Inum :: ShapeOk(t, e)) && (forall e: Inum, l: nat :: SlotOk(t, e, l))
            && (forall e: Inum, l: nat, m: nat :: ApartOk(t, e, l, m)) && (forall e: Inum :: ParentOk(t, e))
  {
    hide Refs;
    var t := UnlinkedDir(s, d, k, i);
    forall e: Inum ensures ShapeOk(t, e) { assert ShapeOk(s, e); }
    forall e: Inum, l: nat ensures SlotOk(t, e, l) {
      assert SlotOk(s, e, l);
      if e == i && l >= 2 { assert !Used(s, i, l); }
    }
    forall e: Inum, l: nat, m: nat ensures ApartOk(t, e, l, m) { assert ApartOk(s, e, l, m); }
    forall e: Inum ensures ParentOk(t, e) { UnlinkedDirParent(s, d, k, i, e); }
  }

  /** iput of the last reference: an inode without links is freed, and nothing pointed at it. */
  lemma FreedOk(s: State, i: Inum)
    requires Inv(s) && i in s.inode && s.inode[i].nlink == 0
    ensures Inv(s.(inode := s.inode - {i}))
  {
    var t := s.(inode := s.inode - {i});
    assert LinkOk(s, i) && Refs(s, i) == {};
    forall e: Inum, l: nat, j: Inum ensures Names(t, e, l, j) <==> Names(s, e, l, j) { }
    forall e: Inum, l: nat ensures SlotOk(t, e, l) {
      assert SlotOk(s, e, l);
      assert Names(s, e, l, i) ==> (e, l) in Refs(s, i);
    }
    forall j: Inum ensures LinkOk(t, j) { assert LinkOk(s, j) && Refs(t, j) == Refs(s, j); }
    forall e: Inum ensures ShapeOk(t, e) { assert ShapeOk(s, e); }
    forall e: Inum, l: nat, m: nat ensures ApartOk(t, e, l, m) { assert ApartOk(s, e, l, m); }
    forall e: Inum ensures ParentOk(t, e) {
      assert ShapeOk(s, e) && ParentOk(s, e);
      if Live(t, e) { ParentKept(s, t, e); }
    }
  }

  // ---------------------------------------------------------------- runs

  datatype Step =
    | MakeFile(d: Inum, k: nat, name: string, i: Inum, kind: Kind)
    | MakeDir(d: Inum, k: nat, name: string, i: Inum)
    | BeginLink(i: Inum)
    | EndLink(i: Inum, d: Inum, k: nat, name: string)
    | UndoLink(i: Inum)
    | UnlinkFile(d: Inum, k: nat, i: Inum)
    | UnlinkDir(d: Inum, k: nat, i: Inum)
    | Free(i: Inum)

  ghost predicate CanAdd(s: State, d: Inum, k: nat, name: string) { FreeSlot(s, d, k) && Absent(s, d, name) }

  predicate CanCut(s: State, d: Inum, k: nat, i: Inum) {
    Used(s, d, k) && k >= 2 && s.inode[d].slots[k].inum == i && i in s.inode && s.inode[i].nlink > 0 && i != d
  }

  ghost predicate Enabled(s: State, step: Step) {
    match step
    case MakeFile(d, k, name, i, kind) => kind != Directory && CanAdd(s, d, k, name) && i !in s.inode && i != 0
    case MakeDir(d, k, name, i) => CanAdd(s, d, k, name) && i !in s.inode && i != 0
    case BeginLink(i) => i in s.inode && !s.inode[i].isDir
    case EndLink(i, d, k, name) => CanAdd(s, d, k, name) && i in s.inode && !s.inode[i].isDir && s.pending[i] > 0
    case UndoLink(i) => i in s.inode && !s.inode[i].isDir && s.pending[i] > 0 && s.inode[i].nlink > 0
    case UnlinkFile(d, k, i) => CanCut(s, d, k, i) && !s.inode[i].isDir
    case UnlinkDir(d, k, i) => CanCut(s, d, k, i) && s.inode[i].isDir && Empty(s, i) && s.inode[d].nlink > 0
    case Free(i) => i in s.inode && s.inode[i].nlink == 0
  }

  ghost function Do(s: State, step: Step): State
    requires Enabled(s, step)
  {
    match step
    case MakeFile(d, k, name, i, kind) => MadeFile(s, d, k, name, i, kind)
    case MakeDir(d, k, name, i) => MadeDir(s, d, k, name, i)
    case BeginLink(i) => LinkBegun(s, i)
    case EndLink(i, d, k, name) => LinkDone(s, i, d, k, name)
    case UndoLink(i) => LinkUndone(s, i)
    case UnlinkFile(d, k, i) => UnlinkedFile(s, d, k, i)
    case UnlinkDir(d, k, i) => UnlinkedDir(s, d, k, i)
    case Free(i) => s.(inode := s.inode - {i})
  }

  // ---------------------------------------------------------------- what the names lead to

  /** Name nm in directory d leads to inode i. */
  ghost predicate Finds(s: State, d: Inum, nm: string, i: Inum) {
    exists k: nat :: Used(s, d, k) && s.inode[d].slots[k] == Dirent(i, nm)
  }

  predicate Adds(step: Step) { step.MakeFile? || step.MakeDir? || step.EndLink? }

  predicate Cuts(step: Step) { step.UnlinkFile? || step.UnlinkDir? }

  /** The slots of a directory that was there before, after a step. */
  lemma SlotsAfter(s: State, step: Step, e: Inum)
    requires Enabled(s, step) && e in s.inode && (Adds(step) || Cuts(step))
    ensures var t := Do(s, step);
            && e in t.inode && t.inode[e].kind == s.inode[e].kind
            && t.inode[e].slots ==
                 if e != step.d then s.inode[e].slots
                 else Written(s.inode[e].slots, step.k, if Adds(step) then Dirent(step.i, step.name) else Dirent(0, ""))
  {
  }

  /** create and link make the one name lead to the inode and leave every other name of every directory alone. */
  lemma NameAdded(s: State, step: Step, e: Inum, nm: string, j: Inum)
    requires Enabled(s, step) && Adds(step) && step.i != 0 && e in s.inode
    ensures Finds(Do(s, step), e, nm, j) <==> if (e, nm) == (step.d, step.name) then j == step.i else Finds(s, e, nm, j)
  {
    var t := Do(s, step);
    SlotsAfter(s, step, e);
    hide Do, Enabled;
    if e == step.d {
      assert Used(t, e, step.k) && t.inode[e].slots[step.k] == Dirent(step.i, step.name);
    }
    forall k: nat | k < |s.inode[e].slots| && (e != step.d || k != step.k) ensures Used(t, e, k) <==> Used(s, e, k) { }
  }

  /** A directory made has its two dots and nothing else. */
  lemma DotsMade(s: State, step: Step, nm: string, j: Inum)
    requires Enabled(s, step) && step.MakeDir?
    ensures Finds(Do(s, step), step.i, nm, j) <==> (nm == "." && j == step.i) || (nm == ".." && j == step.d && j != 0)
  {
    var t := Do(s, step);
    assert t.inode[step.i].slots == Dots(step.i, step.d);
    hide Do;
    if nm == "." && j == step.i { assert Used(t, step.i, 0) && t.inode[step.i].slots[0] == Dirent(j, nm); }
    if nm == ".." && j == step.d && j != 0 { assert Used(t, step.i, 1) && t.inode[step.i].slots[1] == Dirent(j, nm); }
  }

  /** unlink takes the one name away and lowers the count of what it led to. */
  lemma NameCut(s: State, step: Step, e: Inum, nm: string, j: Inum)
    requires Inv(s) && Enabled(s, step) && Cuts(step) && e in s.inode
    ensures Do(s, step).inode[step.i].nlink == s.inode[step.i].nlink - 1
    ensures Finds(Do(s, step), e, nm, j) <==>
              Finds(s, e, nm, j) && (e, nm) != (step.d, s.inode[step.d].slots[step.k].name)
  {
    var t := Do(s, step);
    SlotsAfter(s, step, e);
    var l := step.k;
    forall k: nat | e == step.d && Used(s, e, k) && k != l
      ensures s.inode[e].slots[k].name != s.inode[e].slots[l].name
    {
      assert ApartOk(s, e, k, l) && ApartOk(s, e, l, k);
    }
    hide Do, Enabled, Inv;
    forall k: nat | k < |s.inode[e].slots| && (e != step.d || k != l) ensures Used(t, e, k) <==> Used(s, e, k) { }
    assert e == step.d ==> !Used(t, e, l);
  }

  /** The undo of a link takes back exactly what its start did. */
  lemma LinkTakenBack(s: State, i: Inum)
    requires i in s.inode && !s.inode[i].isDir
    ensures Enabled(s, BeginLink(i))
    ensures var t := Do(s, BeginLink(i));
            && t.inode[i].nlink == s.inode[i].nlink + 1 && t.pending[i] == s.pending[i] + 1
            && Enabled(t, UndoLink(i)) && Do(t, UndoLink(i)) == s
  {
    var t := Do(s, BeginLink(i));
    assert Do(t, UndoLink(i)).inode == s.inode;
  }


  /** The step writes no entry into a directory that has been removed. */
  predicate ParentLinked(s: State, step: Step) {
    step.MakeFile? || step.MakeDir? || step.EndLink? ==> Live(s, step.d)
  }

  /** A step keeps link counts and tree shape exactly when the directory it adds to is still linked. */
  lemma StepInv(s: State, step: Step)
    requires Inv(s) && Enabled(s, step)
    ensures Inv(Do(s, step)) <==> ParentLinked(s, step)
  {
    hide Inv;
    match step
    case MakeFile(d, k, name, i, kind) => MadeFileOk(s, d, k, name, i, kind);
    case MakeDir(d, k, name, i) => MadeDirOk(s, d, k, name, i);
    case BeginLink(i) => FileNlink(s, Do(s, step), i);
    case EndLink(i, d, k, name) => LinkDoneOk(s, i, d, k, name);
    case UndoLink(i) => FileNlink(s, Do(s, step), i);
    case UnlinkFile(d, k, i) => EntryNames(s, d, k); UnlinkedFileOk(s, d, k, i);
    case UnlinkDir(d, k, i) => EntryNames(s, d, k); UnlinkedDirOk(s, d, k, i);
    case Free(i) => FreedOk(s, i);
  }

  /** The step leaves every link count right, whatever it does to the shape of the tree. */
  predicate KeepsCounts(s: State, step: Step) {
    match step
    case MakeFile(d, _, _, _, _) => Live(s, d)
    case MakeDir(d, _, _, i) => IsDir(s, d) && |s.inode[d].slots| >= 2 && DirCounts(s, d, i)
    case EndLink(_, d, _, _) => Live(s, d)
    case _ => true
  }

  lemma StepCounts(s: State, step: Step)
    requires Inv(s) && Enabled(s, step)
    ensures (forall j: Inum :: LinkOk(Do(s, step), j)) <==> KeepsCounts(s, step)
  {
    StepInv(s, step);
    hide LinkOk;
    match step
    case MakeFile(d, k, name, i, kind) =>
      MadeFileOk(s, d, k, name, i, kind);
      assert LinkOk(Do(s, step), i) <==> Live(s, d);
    case MakeDir(d, k, name, i) => MadeDirOk(s, d, k, name, i);
    case EndLink(i, d, k, name) =>
      LinkDoneOk(s, i, d, k, name);
      assert LinkOk(Do(s, step), i) <==> Live(s, d);
    case _ =>
  }

  lemma EntryNames(s: State, d: Inum, k: nat)
    requires Inv(s) && Used(s, d, k) && k >= 2
    ensures Names(s, d, k, s.inode[d].slots[k].inum)
  {
    assert SlotOk(s, d, k);
  }

  ghost predicate Reaches(s: State, steps: seq<Step>, t: State)
    decreases |steps|
  {
    if |steps| == 0 then s == t
    else Enabled(s, steps[0]) && ParentLinked(s, steps[0]) && Reaches(Do(s, steps[0]), steps[1..], t)
  }

  lemma {:induction false} RunInv(s: State, steps: seq<Step>, t: State)
    requires Inv(s) && Reaches(s, steps, t)
    ensures Inv(t)
    decreases |steps|
  {
    if |steps| > 0 {
      StepInv(s, steps[0]);
      RunInv(Do(s, steps[0]), steps[1..], t);
    }
  }

  /** The root directory as mkfs leaves it. */
  function Root(): State { State(map[ROOT := Inode(Directory, 1, Dots(ROOT, ROOT))], multiset{}) }

  lemma RootInv()
    ensures Inv(Root())
  {
    var s := Root();
    forall d: Inum, k: nat, j: Inum ensures j != 0 ==> (Names(s, d, k, j) <==> (d, k, j) == (ROOT, 1, ROOT)) { }
    assert Names(s, ROOT, 1, ROOT);
    assert Refs(s, ROOT) == {(ROOT, 1)};
    forall i: Inum ensures LinkOk(s, i) { }
    forall d: Inum ensures ShapeOk(s, d) && ParentOk(s, d) { }
    forall d: Inum, k: nat ensures SlotOk(s, d, k) { }
    forall d: Inum, k: nat, l: nat ensures ApartOk(s, d, k, l) { }
  }

  /** From mkfs on, with every link call finished, nlink counts the entries that lead to an inode. */
  lemma LinkCounts(steps: seq<Step>, t: State, i: Inum)
    requires Reaches(Root(), steps, t) && i in t.inode
    ensures t.inode[i].nlink == |Refs(t, i)| + t.pending[i]
    ensures t.pending == multiset{} ==> t.inode[i].nlink == |Refs(t, i)|
  {
    RootInv();
    RunInv(Root(), steps, t);
    assert LinkOk(t, i);
  }

  // ---------------------------------------------------------------- removed directories

  /** mkdir /a, mkdir /a/b, rmdir /a/b while someone is in it: directory 5 is removed and still there. */
  function Removed(): State {
    State(map[ROOT := Inode(Directory, 2, Dots(ROOT, ROOT) + [Dirent(4, "a")]),
              4 := Inode(Directory, 1, Dots(4, ROOT) + [NoEntry]), 5 := Inode(Directory, 0, Dots(5, 4))], multiset{})
  }

  const RemovedSteps: seq<Step> := [MakeDir(ROOT, 2, "a", 4), MakeDir(4, 2, "b", 5), UnlinkDir(4, 2, 5)]

  lemma RemovedReached()
    ensures Reaches(Root(), RemovedSteps, Removed()) && Inv(Removed())
  {
    var s1 := Do(Root(), RemovedSteps[0]);
    assert s1.inode == map[ROOT := Inode(Directory, 2, Dots(ROOT, ROOT) + [Dirent(4, "a")]),
      4 := Inode(Directory, 1, Dots(4, ROOT))];
    var s2 := Do(s1, RemovedSteps[1]);
    assert s2.inode[5] == Inode(Directory, 1, Dots(5, 4));
    assert s2.inode[4] == Inode(Directory, 2, Dots(4, ROOT) + [Dirent(5, "b")]);
    var s3 := Do(s2, RemovedSteps[2]);
    assert s3.inode[4].slots == Dots(4, ROOT) + [NoEntry];
    assert s3.inode == Removed().inode;
    Three(Root(), RemovedSteps, s1, s2, s3);
    RootInv();
    RunInv(Root(), RemovedSteps, Removed());
  }

  lemma Three(s: State, steps: seq<Step>, s1: State, s2: State, s3: State)
    requires |steps| == 3 && Enabled(s, steps[0]) && ParentLinked(s, steps[0]) && s1 == Do(s, steps[0])
    requires Enabled(s1, steps[1]) && ParentLinked(s1, steps[1]) && s2 == Do(s1, steps[1])
    requires Enabled(s2, steps[2]) && ParentLinked(s2, steps[2]) && s3 == Do(s2, steps[2])
    ensures Reaches(s, steps, s3)
  {
    hide Enabled, Do, ParentLinked;
    assert steps[1..][0] == steps[1] && steps[1..][1..][0] == steps[2] && steps[1..][1..][1..] == [];
    assert Reaches(s3, steps[1..][1..][1..], s3);
    assert Reaches(s2, steps[1..][1..], s3);
    assert Reaches(s1, steps[1..], s3);
  }

  /** A file made there has nlink 1 and no entry that counts. */
  lemma LostFile()
    ensures Reaches(Root(), RemovedSteps, Removed()) && Enabled(Removed(), MakeFile(5, 2, "x", 6, Plain))
    ensures !LinkOk(Do(Removed(), MakeFile(5, 2, "x", 6, Plain)), 6)
  {
    RemovedReached();
    assert Absent(Removed(), 5, "x");
    MadeFileOk(Removed(), 5, 2, "x", 6, Plain);
  }

  /** The same after rmdir /a and the release of inode 4. */
  function Orphaned(): State {
    State(map[ROOT := Inode(Directory, 1, Dots(ROOT, ROOT) + [NoEntry]), 5 := Inode(Directory, 0, Dots(5, 4))],
      multiset{})
  }

  lemma OrphanedReached()
    ensures Reaches(Removed(), [UnlinkDir(ROOT, 2, 4), Free(4)], Orphaned()) && Inv(Orphaned())
  {
    RemovedReached();
    var steps := [UnlinkDir(ROOT, 2, 4), Free(4)];
    var s1 := Do(Removed(), steps[0]);
    assert s1.inode[4].nlink == 0 && s1.inode[ROOT] == Orphaned().inode[ROOT];
    var s2 := Do(s1, steps[1]);
    assert s2.inode == Orphaned().inode;
    assert steps[1..][1..] == [] && Reaches(s2, steps[1..][1..], s2);
    assert Reaches(s1, steps[1..], s2);
    RunInv(Removed(), steps, Orphaned());
  }

  /** Now mkdir in the removed directory keeps every count. */
  lemma RevivedDirectory()
    ensures Enabled(Orphaned(), MakeDir(5, 2, "x", 6))
    ensures forall j: Inum :: LinkOk(Do(Orphaned(), MakeDir(5, 2, "x", 6)), j)
  {
    OrphanedReached();
    assert Absent(Orphaned(), 5, "x");
    hide LinkOk, Inv;
    StepCounts(Orphaned(), MakeDir(5, 2, "x", 6));
  }

  /** Unless the new directory is given the number of the freed parent. */
  lemma ReusedNumber()
    ensures Enabled(Orphaned(), MakeDir(5, 2, "x", 4))
    ensures !forall j: Inum :: LinkOk(Do(Orphaned(), MakeDir(5, 2, "x", 4)), j)
  {
    OrphanedReached();
    assert Absent(Orphaned(), 5, "x");
    hide LinkOk, Inv;
    StepCounts(Orphaned(), MakeDir(5, 2, "x", 4));
  }

  // ---------------------------------------------------------------- the code

  class Fs {
    var inode: map<Inum, Inode>
    ghost var pending: multiset<Inum>

    ghost function Now(): State
      reads this
    {
      State(inode, pending)
    }

    /** The file system mkfs makes: a root directory that is its own parent. */
    constructor ()
      ensures Now() == Root() && Inv(Now())
    {
      inode := map[ROOT := Inode(Directory, 1, Dots(ROOT, ROOT))];
      pending := multiset{};
      new;
      RootInv();
    }

    /** dirlookup: the slot of the entry called name. */
    method DirLookup(d: Inum, name: string) returns (r: Option<nat>)
      requires IsDir(Now(), d)
      ensures r.None? <==> Absent(Now(), d, name)
      ensures r.Some? ==> Used(Now(), d, r.value) && inode[d].slots[r.value].name == name
    {
      var k: nat := 0;
      while k < |inode[d].slots|
        invariant 0 <= k <= |inode[d].slots|
        invariant forall l: nat :: l < k && Used(Now(), d, l) ==> inode[d].slots[l].name != name
      {
        if inode[d].slots[k].inum != 0 && inode[d].slots[k].name == name {
          assert Used(Now(), d, k);
          return Some(k);
        }
        k := k + 1;
      }
      r := None;
    }

    /** dirlink: writes the entry to the first free slot or the end, unless the name is taken. */
    method DirLink(d: Inum, name: string, i: Inum) returns (ok: bool, k: nat)
      requires IsDir(Now(), d)
      modifies this`inode
      ensures ok <==> old(Absent(Now(), d, name))
      ensures !ok ==> Now() == old(Now())
      ensures ok ==> k <= |old(inode)[d].slots| && Now() == SetSlot(old(Now()), d, k, Dirent(i, name))
      ensures ok ==> (k < |old(inode)[d].slots| ==> old(inode)[d].slots[k].inum == 0)
      ensures ok ==> forall l: nat :: l < k ==> old(inode)[d].slots[l].inum != 0
    {
      k := 0;
      var taken := DirLookup(d, name);
      if taken.Some? {
        return false, 0;
      }
      while k < |inode[d].slots| && inode[d].slots[k].inum != 0
        invariant 0 <= k <= |inode[d].slots|
        invariant forall l: nat :: l < k ==> inode[d].slots[l].inum != 0
      {
        k := k + 1;
      }
      inode := inode[d := inode[d].(slots := Written(inode[d].slots, k, Dirent(i, name)))];
      ok := true;
    }

    /** isdirempty. */
    method IsDirEmpty(i: Inum) returns (r: bool)
      requires IsDir(Now(), i)
      ensures r <==> Empty(Now(), i)
    {
      var k: nat := 2;
      while k < |inode[i].slots|
        invariant 2 <= k && forall l: nat :: 2 <= l < k ==> !Used(Now(), i, l)
      {
        if inode[i].slots[k].inum != 0 {
          assert Used(Now(), i, k);
          return false;
        }
        k := k + 1;
      }
      r := true;
    }

    /**
      create: a new inode `i`, ialloc's answer, under a free name; when the name is taken,
      the plain file that has it if a plain file is wanted, and otherwise nothing.
     */
    method Create(d: Inum, name: string, kind: Kind, i: Inum) returns (r: Option<Inum>, ghost step: Step)
      requires Inv(Now()) && IsDir(Now(), d) && i !in inode && i != 0
      modifies this`inode
      ensures old(Absent(Now(), d, name)) ==>
                && r == Some(i) && Enabled(old(Now()), step) && Now() == Do(old(Now()), step)
                && (if kind == Directory then step.MakeDir? && step == MakeDir(d, step.k, name, i)
                    else step.MakeFile? && step == MakeFile(d, step.k, name, i, kind))
      ensures !old(Absent(Now(), d, name)) ==> Now() == old(Now())
      ensures forall l: nat :: Used(old(Now()), d, l) && old(inode)[d].slots[l].name == name ==>
                var j := old(inode)[d].slots[l].inum;
                r == if kind == Plain && j in inode && inode[j].kind == Plain then Some(j) else None
      ensures Live(old(Now()), d) ==> Inv(Now())
    {
      ghost var was := Now();
      NameTwice(was, d, name);
      hide Inv;
      step := Free(i);
      var there := DirLookup(d, name);
      if there.Some? {
        var j := inode[d].slots[there.value].inum;
        return if kind == Plain && j in inode && inode[j].kind == Plain then Some(j) else None, step;
      }
      step := Make(d, name, kind, i);
      r := Some(i);
    }

    /** The dots of the empty directory i; the "create dots" panic is not reached. */
    method LinkDots(i: Inum, d: Inum) returns (ok: bool)
      requires IsDir(Now(), i) && inode[i].slots == [] && i != 0
      modifies this`inode
      ensures ok && inode == old(inode)[i := old(inode)[i].(slots := Dots(i, d))]
    {
      var ok0, k0 := DirLink(i, ".", i);
      assert inode[i].slots == [Dirent(i, ".")];
      var ok1, k1 := DirLink(i, "..", d);
      assert inode[i].slots == Dots(i, d);
      ok := ok0 && ok1;
    }

    /** The part of create that makes the inode and its entries. */
    method Make(d: Inum, name: string, kind: Kind, i: Inum) returns (ghost step: Step)
      requires Inv(Now()) && IsDir(Now(), d) && i !in inode && i != 0 && Absent(Now(), d, name)
      modifies this`inode
      ensures if kind == Directory then step.MakeDir? && step == MakeDir(d, step.k, name, i)
              else step.MakeFile? && step == MakeFile(d, step.k, name, i, kind)
      ensures Enabled(old(Now()), step) && Now() == Do(old(Now()), step)
      ensures Live(old(Now()), d) ==> Inv(Now())
    {
      hide Inv;
      ghost var was := Now();
      inode := inode[i := Inode(kind, 1, [])];
      if kind == Directory {
        inode := inode[d := inode[d].(nlink := inode[d].nlink + 1)];
        var ok := LinkDots(i, d);
      }
      forall l: nat ensures Used(Now(), d, l) <==> Used(was, d, l) { }
      var done, k := DirLink(d, name, i);
      FirstFree(was, d, k);
      step := if kind == Directory then MakeDir(d, k, name, i) else MakeFile(d, k, name, i, kind);
      assert Now() == Do(was, step);
      StepInv(was, step);
    }

    /** sys_link up to raising nlink. */
    method LinkStart(i: Inum) returns (ok: bool)
      requires Inv(Now()) && i in inode
      modifies this
      ensures ok <==> !old(inode)[i].isDir
      ensures ok ==> Enabled(old(Now()), BeginLink(i)) && Now() == Do(old(Now()), BeginLink(i))
      ensures !ok ==> Now() == old(Now())
      ensures Inv(Now())
    {
      if inode[i].isDir {
        return false;
      }
      StepInv(Now(), BeginLink(i));
      inode := inode[i := inode[i].(nlink := inode[i].nlink + 1)];
      pending := pending + multiset{i};
      ok := true;
    }

    /** The rest of sys_link: the new entry, or the undo when the parent is missing or has the name. */
    method LinkEnd(i: Inum, dp: Option<Inum>, name: string) returns (ok: bool)
      requires Inv(Now()) && i in inode && !inode[i].isDir && pending[i] > 0
      requires dp.Some? ==> IsDir(Now(), dp.value)
      modifies this
      ensures ok <==> dp.Some? && old(Absent(Now(), dp.value, name))
      ensures ok ==> exists k: nat ::
                && Enabled(old(Now()), EndLink(i, dp.value, k, name))
                && Now() == Do(old(Now()), EndLink(i, dp.value, k, name))
      ensures !ok ==> Enabled(old(Now()), UndoLink(i)) && Now() == Do(old(Now()), UndoLink(i))
      ensures (ok ==> Live(old(Now()), dp.value)) ==> Inv(Now())
    {
      ghost var was := Now();
      assert LinkOk(was, i);
      hide Inv;
      ok := false;
      if dp.Some? {
        var k: nat;
        ok, k := DirLink(dp.value, name, i);
        if ok {
          FirstFree(was, dp.value, k);
          StepInv(was, EndLink(i, dp.value, k, name));
          pending := pending - multiset{i};
          assert Now() == Do(was, EndLink(i, dp.value, k, name));
          return;
        }
      }
      StepInv(was, UndoLink(i));
      inode := inode[i := inode[i].(nlink := inode[i].nlink - 1)];
      pending := pending - multiset{i};
    }

    /** sys_unlink in the directory d. */
    method Unlink(d: Inum, name: string) returns (ok: bool, ghost step: Step)
      requires Inv(Now()) && IsDir(Now(), d)
      modifies this`inode
      ensures ok ==>
                && (step.UnlinkFile? || step.UnlinkDir?) && step.d == d
                && Enabled(old(Now()), step) && Now() == Do(old(Now()), step)
      ensures ok ==> old(inode)[d].slots[step.k].name == name
      ensures !ok ==> Now() == old(Now())
      ensures ok <==> exists k: nat :: k >= 2 && Used(old(Now()), d, k) && old(inode)[d].slots[k].name == name
                                       && (IsDir(old(Now()), old(inode)[d].slots[k].inum) ==>
                                           Empty(old(Now()), old(inode)[d].slots[k].inum))
      ensures Inv(Now())
    {
      ghost var was := Now();
      step := Free(0);
      NameTwice(was, d, name);
      if name == "." || name == ".." {
        return false, step;
      }
      var at := DirLookup(d, name);
      if at.None? {
        return false, step;
      }
      var k := at.value;
      var i := inode[d].slots[k].inum;
      Cuttable(was, d, k);
      hide Inv;
      if inode[i].isDir {
        var empty := IsDirEmpty(i);
        if !empty {
          return false, step;
        }
        step := UnlinkDir(d, k, i);
        StepInv(was, step);
        inode := inode[d := inode[d].(slots := Written(inode[d].slots, k, NoEntry))];
        inode := inode[d := inode[d].(nlink := inode[d].nlink - 1)];
        inode := inode[i := inode[i].(nlink := inode[i].nlink - 1)];
        assert Now().inode == Do(was, step).inode;
        return true, step;
      }
      step := UnlinkFile(d, k, i);
      StepInv(was, step);
      inode := inode[d := inode[d].(slots := Written(inode[d].slots, k, NoEntry))];
      inode := inode[i := inode[i].(nlink := inode[i].nlink - 1)];
      ok := true;
    }
  }

  /** The dots are in use, so a new entry goes beyond them. */
  lemma FirstFree(s: State, d: Inum, k: nat)
    requires Inv(s) && IsDir(s, d) && k <= |s.inode[d].slots|
             && (k < |s.inode[d].slots| ==> s.inode[d].slots[k].inum == 0)
    ensures FreeSlot(s, d, k)
  {
    assert ShapeOk(s, d) && LinkOk(s, d);
  }

  /** The panic "unlink: nlink < 1" is unreachable. */
  lemma Cuttable(s: State, d: Inum, k: nat)
    requires Inv(s) && Used(s, d, k) && s.inode[d].slots[k].name != "." && s.inode[d].slots[k].name != ".."
    ensures CanCut(s, d, k, s.inode[d].slots[k].inum) && s.inode[d].nlink > 0
  {
    var i := s.inode[d].slots[k].inum;
    assert ShapeOk(s, d) && SlotOk(s, d, k) && LinkOk(s, i) && LinkOk(s, d) && ParentOk(s, d);
    assert (d, k) in Refs(s, i);
    assert ParentOk(s, i) && ShapeOk(s, i);
  }

  lemma NameTwice(s: State, d: Inum, name: string)
    requires Inv(s) && IsDir(s, d)
    ensures forall k: nat, l: nat ::
              Used(s, d, k) && Used(s, d, l) && s.inode[d].slots[k].name == s.inode[d].slots[l].name == name ==> k == l
    ensures forall k: nat :: k >= 2 && Used(s, d, k) ==>
              s.inode[d].slots[k].name != "." && s.inode[d].slots[k].name != ".."
  {
    forall k: nat, l: nat |
      Used(s, d, k) && Used(s, d, l) && s.inode[d].slots[k].name == s.inode[d].slots[l].name == name
      ensures k == l
    {
      assert ApartOk(s, d, k, l) && ApartOk(s, d, l, k);
    }
    forall k: nat | k >= 2 && Used(s, d, k)
      ensures s.inode[d].slots[k].name != "." && s.inode[d].slots[k].name != ".."
    {
      assert SlotOk(s, d, k);
    }
  }
}
