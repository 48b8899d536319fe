/**
 * `lstopo_populate_userdata` and `lstopo_destroy_userdata`: before drawing,
 * lstopo pushes one private record onto the `userdata` chain of every
 * object of the topology, and pops it again afterwards, leaving whatever
 * chain was there before.
 */
module LstopoUserdata {

  /**
   * An object's `userdata` pointer: NULL, or one lstopo record
   * (`struct lstopo_obj_userdata`) whose `common.next` is the chain it hides.
   */
  datatype Userdata = Null | Record(pciCollapsed: int, next: Userdata)

  /** What populate does to one object's chain: a fresh record with `pci_collapsed` 0 on top. */
  function Push(u: Userdata): Userdata
  {
    Record(0, u)
  }

  /** What destroy does to one object's chain: drop the top record, if any. */
  function Pop(u: Userdata): Userdata
  {
    if u.Record? then u.next else Null
  }

  /** Popping undoes pushing, whatever the chain below; pushing a popped chain does not restore it. */
  lemma PopUndoesPush(u: Userdata)
    ensures Pop(Push(u)) == u
    ensures Push(Pop(Null)) != Null
  {
  }

  /**
   * A topology object. Its children are the normal, memory, I/O and Misc
   * children, concatenated in the order both traversals visit them.
   */
  class TopoObj {
    const children: seq<TopoObj>
    var userdata: Userdata
    /** This object and every object below it. */
    ghost const repr: set<TopoObj>
    ghost const height: nat

    /** The objects below form a tree: each subtree lies in `repr`, below `this`, disjoint from its siblings. */
    ghost predicate Valid()
      decreases height
    {
      && this in repr
      && (forall x :: x in repr ==> x == this || exists c :: c in children && x in c.repr)
      && (forall i :: 0 <= i < |children| ==>
            && children[i].repr <= repr
            && this !in children[i].repr
            && children[i].height < height)
      && (forall i, j :: 0 <= i < j < |children| ==> children[i].repr !! children[j].repr)
      && (forall i :: 0 <= i < |children| ==> children[i].Valid())
    }

    /** `hwloc_alloc_setup_object` for lstopo's purposes: an object with the given children and no userdata. */
    constructor (kids: seq<TopoObj>)
      requires forall i :: 0 <= i < |kids| ==> kids[i].Valid()
      requires forall i, j :: 0 <= i < j < |kids| ==> kids[i].repr !! kids[j].repr
      ensures Valid() && children == kids && userdata == Null
      ensures repr == {this} + set i, x | 0 <= i < |kids| && x in kids[i].repr :: x
    {
      children := kids;
      userdata := Null;
      repr := {this} + set i, x | 0 <= i < |kids| && x in kids[i].repr :: x;
      height := 1 + MaxHeight(kids);
      new;
      forall x | x in repr
        ensures x == this || exists c :: c in children && x in c.repr
      {
        if x != this {
          var i :| 0 <= i < |kids| && x in kids[i].repr;
          assert kids[i] in children;
        }
      }
    }
  }

  /** The greatest height among `kids`, 0 for none. */
  ghost function MaxHeight(kids: seq<TopoObj>): (m: nat)
    ensures forall i :: 0 <= i < |kids| ==> kids[i].height <= m
  {
    if kids == [] then 0
    else
      var rest := MaxHeight(kids[1..]);
      assert forall i :: 1 <= i < |kids| ==> kids[i] == kids[1..][i - 1];
      if kids[0].height > rest then kids[0].height else rest
  }

  /** Once child `i` is visited, the children still to visit lie outside everything visited. */
  lemma SiblingsStayApart(o: TopoObj, i: nat, done: set<TopoObj>)
    requires o.Valid() && i < |o.children|
    requires forall k :: i <= k < |o.children| ==> o.children[k].repr !! done
    ensures o.children[i].Valid() && o.children[i].repr <= o.repr && o.children[i].repr !! done
    ensures forall k :: i + 1 <= k < |o.children| ==> o.children[k].repr !! done + o.children[i].repr
  {
  }

  /** Once child `i` is visited, every child up to it lies in what was visited. */
  lemma VisitedCovers(cs: seq<TopoObj>, i: nat, done: set<TopoObj>)
    requires i < |cs|
    requires forall k :: 0 <= k < i ==> cs[k].repr <= done
    ensures forall k :: 0 <= k < i + 1 ==> cs[k].repr <= done + cs[i].repr
  {
    forall k | 0 <= k < i + 1
      ensures cs[k].repr <= done + cs[i].repr
    {
      if k < i {
        assert cs[k].repr <= done;
      }
    }
  }

  /** After every child is visited, the whole subtree is. */
  lemma SubtreeCovered(o: TopoObj, done: set<TopoObj>)
    requires o.Valid() && o in done
    requires forall k :: 0 <= k < |o.children| ==> o.children[k].repr <= done
    ensures o.repr <= done
  {
  }

  /** `lstopo_populate_userdata`: one record pushed onto every object of the subtree of `o`. */
  method Populate(o: TopoObj)
    requires o.Valid()
    modifies o.repr
    ensures forall x :: x in o.repr ==> x.userdata == Push(old(x.userdata))
    decreases o.height
  {
    o.userdata := Push(o.userdata);
    ghost var done := {o};
    var i := 0;
    while i < |o.children|
      invariant 0 <= i <= |o.children|
      invariant o in done && done <= o.repr
      invariant forall k :: 0 <= k < i ==> o.children[k].repr <= done
      invariant forall k :: i <= k < |o.children| ==> o.children[k].repr !! done
      invariant forall x :: x in done ==> x.userdata == Push(old(x.userdata))
      invariant forall x :: x in o.repr && x !in done ==> x.userdata == old(x.userdata)
    {
      var c := o.children[i];
      SiblingsStayApart(o, i, done);
      VisitedCovers(o.children, i, done);
      Populate(c);
      done := done + c.repr;
      i := i + 1;
    }
    SubtreeCovered(o, done);
  }

  /** `lstopo_destroy_userdata`: the top record popped from every object of the subtree of `o` that has one. */
  method Destroy(o: TopoObj)
    requires o.Valid()
    modifies o.repr
    ensures forall x :: x in o.repr ==> x.userdata == Pop(old(x.userdata))
    decreases o.height
  {
    o.userdata := Pop(o.userdata);
    ghost var done := {o};
    var i := 0;
    while i < |o.children|
      invariant 0 <= i <= |o.children|
      invariant o in done && done <= o.repr
      invariant forall k :: 0 <= k < i ==> o.children[k].repr <= done
      invariant forall k :: i <= k < |o.children| ==> o.children[k].repr !! done
      invariant forall x :: x in done ==> x.userdata == Pop(old(x.userdata))
      invariant forall x :: x in o.repr && x !in done ==> x.userdata == old(x.userdata)
    {
      var c := o.children[i];
      SiblingsStayApart(o, i, done);
      VisitedCovers(o.children, i, done);
      Destroy(c);
      done := done + c.repr;
      i := i + 1;
    }
    SubtreeCovered(o, done);
  }

  /**
   * Drawing between the two passes: populate, then destroy, leaves every
   * object's userdata chain exactly as it was.
   */
  method PopulateThenDestroy(o: TopoObj)
    requires o.Valid()
    modifies o.repr
    ensures forall x :: x in o.repr ==> x.userdata == old(x.userdata)
  {
    Populate(o);
    Destroy(o);
  }
}
