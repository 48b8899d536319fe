/**
 * The growable object registry of the Level Zero backend
 * (`struct hwloc_osdev_array`): an array of object handles grown by 40
 * slots whenever it is full, appended to in discovery order and searched
 * linearly when the bandwidth matrix is built.
 */
module LevelZeroRegistry {

  /** A stable integer identity carried by every object (it replaces pointer identity). */
  type Handle = nat

  /** The number of slots added each time the registry is full. */
  const GrowthStep: nat := 40

  /** The least index of `x` in `s`, or -1 when `x` does not occur in `s`. */
  function IndexOf(s: seq<Handle>, x: Handle): (r: int)
    ensures -1 <= r < |s|
    ensures r >= 0 ==> s[r] == x && forall k :: 0 <= k < r ==> s[k] != x
    ensures r == -1 <==> x !in s
  {
    if |s| == 0 then -1
    else if s[0] == x then 0
    else var r := IndexOf(s[1..], x); if r < 0 then -1 else r + 1
  }

  /** On a registry of consecutive handles, the index of a handle is its offset. */
  lemma {:induction false} IndexOfConsecutive(s: seq<Handle>, base: nat, h: Handle)
    requires forall k :: 0 <= k < |s| ==> s[k] == base + k
    ensures IndexOf(s, h) == if base <= h < base + |s| then h - base else -1
    decreases |s|
  {
    if |s| > 0 && s[0] != h {
      IndexOfConsecutive(s[1..], base + 1, h);
    }
  }

  class OsdevArray {
    /** The allocated slots; `nr_allocated` is `objs.Length`. */
    var objs: array<Handle>
    /** The number of slots in use. */
    var nr: nat

    ghost predicate Valid()
      reads this
    {
      nr <= objs.Length
    }

    /** The registered handles, in registration order. */
    function Contents(): (s: seq<Handle>)
      reads this, objs
      requires Valid()
      ensures |s| == nr
    {
      objs[..nr]
    }

    /** `hwloc__levelzero_osdev_array_init`: empty, nothing allocated. */
    constructor ()
      ensures Valid() && Contents() == [] && objs.Length == 0 && fresh(objs)
    {
      objs := new Handle[0];
      nr := 0;
    }

    /**
     * `hwloc__levelzero_osdev_array_add`. When the registry is full it is
     * reallocated with 40 more slots; `reallocOk` is whether that
     * reallocation succeeds. On failure nothing changes and -1 is returned.
     */
    method Add(x: Handle, reallocOk: bool) returns (r: int)
      requires Valid()
      modifies this, objs
      ensures Valid()
      ensures old(nr) < old(objs.Length) ==>
        r == 0 && objs == old(objs) && Contents() == old(Contents()) + [x]
      ensures old(nr) == old(objs.Length) && reallocOk ==>
        r == 0 && fresh(objs) && objs.Length == old(objs.Length) + GrowthStep
        && Contents() == old(Contents()) + [x]
      ensures old(nr) == old(objs.Length) && !reallocOk ==>
        r == -1 && objs == old(objs) && nr == old(nr) && unchanged(objs)
    {
      if nr == objs.Length {
        if !reallocOk {
          return -1;
        }
        var src := objs;
        var tmp := new Handle[src.Length + GrowthStep];
        var k := 0;
        while k < src.Length
          modifies tmp
          invariant 0 <= k <= src.Length
          invariant forall m :: 0 <= m < k ==> tmp[m] == src[m]
        {
          tmp[k] := src[k];
          k := k + 1;
        }
        objs := tmp;
      }
      objs[nr] := x;
      nr := nr + 1;
      r := 0;
    }

    /**
     * `hwloc__levelzero_osdev_array_find`: the least index holding `x`,
     * or -1 when `x` was never registered.
     */
    method Find(x: Handle) returns (r: int)
      requires Valid()
      ensures -1 <= r < nr
      ensures r >= 0 ==> objs[r] == x && forall k :: 0 <= k < r ==> objs[k] != x
      ensures r == -1 ==> forall k :: 0 <= k < nr ==> objs[k] != x
      ensures r == IndexOf(Contents(), x)
    {
      var i := 0;
      while i < nr
        invariant 0 <= i <= nr
        invariant forall k :: 0 <= k < i ==> objs[k] != x
      {
        if objs[i] == x {
          IndexOfIsLeast(Contents(), x, i);
          return i;
        }
        i := i + 1;
      }
      r := -1;
    }
  }

  /** Any least position of `x` is the one `IndexOf` finds. */
  lemma IndexOfIsLeast(s: seq<Handle>, x: Handle, i: nat)
    requires i < |s| && s[i] == x && forall k :: 0 <= k < i ==> s[k] != x
    ensures IndexOf(s, x) == i
  {
  }
}
