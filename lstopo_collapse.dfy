/**
 * `lstopo_add_collapse_attributes`: runs of identical PCI devices that are
 * siblings are drawn as one box. The PCI devices are visited in
 * depth-first order; the first device of a run records the run's length
 * in its `pci_collapsed` slot and every other device of the run records -1
 * (hidden); devices outside any run keep 0.
 */
module LstopoCollapse {

  /** What the pass reads of one PCI device. */
  datatype PciDev = PciDev(
    parent: nat,                          // identity of the parent object
    vendor: nat, device: nat, subvendor: nat, subdevice: nat,
    ioArity: nat, miscArity: nat)

  /** A device with no I/O and no Misc children may be folded into a run. */
  predicate Collapsible(d: PciDev)
  {
    d.ioArity == 0 && d.miscArity == 0
  }

  /** What two devices must share to be drawn as one: the parent and the four PCI identifiers. */
  datatype Key = Key(parent: nat, vendor: nat, device: nat, subvendor: nat, subdevice: nat)

  function KeyOf(d: PciDev): Key
  {
    Key(d.parent, d.vendor, d.device, d.subvendor, d.subdevice)
  }

  /** Device `p` continues the run of device `p - 1`: both collapsible, same parent and identifiers. */
  predicate Joins(devs: seq<PciDev>, p: nat)
    requires p < |devs|
  {
    p > 0 && Collapsible(devs[p - 1]) && Collapsible(devs[p]) && KeyOf(devs[p - 1]) == KeyOf(devs[p])
  }

  /** The number of devices from `p` on that belong to the run containing `p`. */
  function RunFrom(devs: seq<PciDev>, p: nat): (n: nat)
    requires p < |devs|
    ensures n >= 1
    decreases |devs| - p
  {
    if p + 1 < |devs| && Joins(devs, p + 1) then 1 + RunFrom(devs, p + 1) else 1
  }

  /**
   * The intended `pci_collapsed` value of device `p`: -1 inside a run,
   * the run's length at the head of a run of two or more, 0 otherwise.
   */
  function Mark(devs: seq<PciDev>, p: nat): int
    requires p < |devs|
  {
    if !Collapsible(devs[p]) then 0
    else if Joins(devs, p) then -1
    else if RunFrom(devs, p) > 1 then RunFrom(devs, p)
    else 0
  }

  /** A run ends exactly where the next device fails to join it. */
  lemma {:induction false} RunEnds(devs: seq<PciDev>, c: nat, p: nat)
    requires c < p <= |devs|
    requires forall k :: c < k < p ==> Joins(devs, k)
    requires p == |devs| || !Joins(devs, p)
    ensures RunFrom(devs, c) == p - c
    decreases p - c
  {
    if c + 1 < p {
      RunEnds(devs, c + 1, p);
    }
  }

  /** A run reaches at least every device joined to it. */
  lemma {:induction false} RunCovers(devs: seq<PciDev>, c: nat, q: nat)
    requires c < q < |devs|
    requires forall k :: c < k <= q ==> Joins(devs, k)
    ensures RunFrom(devs, c) > q - c
    decreases q - c
  {
    if c + 1 < q {
      RunCovers(devs, c + 1, q);
    }
  }

  /** The devices a run spans all join it, and the device after it does not. */
  lemma {:induction false} RunExtent(devs: seq<PciDev>, c: nat)
    requires c < |devs|
    ensures c + RunFrom(devs, c) <= |devs|
    ensures forall k :: c < k < c + RunFrom(devs, c) ==> Joins(devs, k)
    ensures c + RunFrom(devs, c) < |devs| ==> !Joins(devs, c + RunFrom(devs, c))
    decreases |devs| - c
  {
    if c + 1 < |devs| && Joins(devs, c + 1) {
      RunExtent(devs, c + 1);
    }
  }

  /**
   * The head of a collapsed run: a count `n` is never 1, and the `n - 1`
   * devices after the head are hidden, identical to it, and the run stops
   * there.
   */
  lemma CollapsedRun(devs: seq<PciDev>, c: nat)
    requires c < |devs|
    ensures Mark(devs, c) >= -1 && Mark(devs, c) != 1
    ensures Mark(devs, c) >= 2 ==>
      && c + Mark(devs, c) <= |devs|
      && (forall k :: c < k < c + Mark(devs, c) ==> Mark(devs, k) == -1 && KeyOf(devs[k]) == KeyOf(devs[c]))
      && (c + Mark(devs, c) < |devs| ==> Mark(devs, c + Mark(devs, c)) != -1)
  {
    RunExtent(devs, c);
    var n := RunFrom(devs, c);
    if Mark(devs, c) >= 2 {
      forall k | c < k < c + n
        ensures Mark(devs, k) == -1 && KeyOf(devs[k]) == KeyOf(devs[c])
      {
        assert Joins(devs, k);
        SameKeyAlongRun(devs, c, k);
      }
    }
  }

  /** Joined devices share the key of the device they follow, all the way back. */
  lemma {:induction false} SameKeyAlongRun(devs: seq<PciDev>, c: nat, k: nat)
    requires c <= k < |devs|
    requires forall m :: c < m <= k ==> Joins(devs, m)
    ensures KeyOf(devs[k]) == KeyOf(devs[c])
    decreases k - c
  {
    if c < k {
      assert Joins(devs, k);
      SameKeyAlongRun(devs, c, k - 1);
    }
  }

  /**
   * Every hidden device belongs to a run whose head comes earlier, carries
   * a count of two or more, and reaches past it; in particular the device
   * before a hidden one is collapsible and identical to it.
   */
  lemma {:induction false} HeadOf(devs: seq<PciDev>, q: nat) returns (c: nat)
    requires q < |devs| && Mark(devs, q) == -1
    ensures c < q && Mark(devs, c) >= 2 && q < c + Mark(devs, c)
    ensures forall k :: c < k <= q ==> Joins(devs, k)
    decreases q
  {
    if Joins(devs, q - 1) {
      c := HeadOf(devs, q - 1);
    } else {
      c := q - 1;
    }
    RunCovers(devs, c, q);
  }

  /**
   * The corrected pass over the `pci_collapsed` slots `marks`, one per PCI
   * device in depth-first order: any device that does not join the current
   * run ends it, and only a collapsible device starts a new one.
   */
  method AddCollapseAttributes(devs: seq<PciDev>, marks: array<int>)
    requires marks.Length == |devs|
    requires forall q :: 0 <= q < |devs| ==> marks[q] == 0
    modifies marks
    ensures forall q :: 0 <= q < |devs| ==> marks[q] == Mark(devs, q)
  {
    var collapser := -1;
    var collapsed := 0;
    var p := 0;
    while p < |devs|
      invariant 0 <= p <= |devs|
      invariant collapser == -1 <==> p == 0 || !Collapsible(devs[p - 1])
      invariant collapser == -1 ==> collapsed == 0
      invariant collapser != -1 ==>
        && 0 <= collapser < p && collapsed == p - collapser
        && Collapsible(devs[collapser]) && !Joins(devs, collapser)
        && (forall k :: collapser < k < p ==> Joins(devs, k))
        && KeyOf(devs[p - 1]) == KeyOf(devs[collapser])
        && marks[collapser] == 0
      invariant forall q :: 0 <= q < p && q != collapser ==> marks[q] == Mark(devs, q)
      invariant forall q :: p <= q < |devs| ==> marks[q] == 0
    {
      var d := devs[p];
      if collapser != -1 && Collapsible(d) && KeyOf(d) == KeyOf(devs[collapser]) {
        // collapse another one
        marks[p] := -1;
        collapsed := collapsed + 1;
      } else {
        if collapser != -1 {
          // end this run
          RunEnds(devs, collapser, p);
          if collapsed > 1 {
            marks[collapser] := collapsed;
          }
        }
        if Collapsible(d) {
          collapser, collapsed := p, 1;
        } else {
          collapser, collapsed := -1, 0;
        }
      }
      p := p + 1;
    }
    if collapser != -1 {
      RunEnds(devs, collapser, p);
      if collapsed > 1 {
        marks[collapser] := collapsed;
      }
    }
  }

  /**
   * Three identical childless siblings followed by a fourth with another
   * device id: the first carries 3, the next two are hidden, and the
   * fourth is left alone and does not extend the run.
   */
  lemma RunOfThree()
    ensures var a := PciDev(1, 0x8086, 0x56c0, 0x8086, 0x4905, 0, 0);
            var d := PciDev(1, 0x8086, 0x56c1, 0x8086, 0x4905, 0, 0);
            var devs := [a, a, a, d];
            Mark(devs, 0) == 3 && Mark(devs, 1) == -1 && Mark(devs, 2) == -1 && Mark(devs, 3) == 0
  {
    var a := PciDev(1, 0x8086, 0x56c0, 0x8086, 0x4905, 0, 0);
    var d := PciDev(1, 0x8086, 0x56c1, 0x8086, 0x4905, 0, 0);
    var devs := [a, a, a, d];
    assert !Joins(devs, 3) && RunFrom(devs, 3) == 1;
    assert RunFrom(devs, 2) == 1 && RunFrom(devs, 1) == 2 && RunFrom(devs, 0) == 3;
  }

  // ---------------------------------------------------------------------
  // The pass as written
  // ---------------------------------------------------------------------

  /** The state of the source's loop: the collapser's index (-1 for none), the count, and the slots. */
  datatype ScanState = ScanState(collapser: int, collapsed: nat, marks: seq<int>)

  predicate WellFormed(devs: seq<PciDev>, s: ScanState)
  {
    -1 <= s.collapser < |devs| && |s.marks| == |devs| && (s.collapser == -1 ==> s.collapsed == 0)
  }

  /**
   * One iteration of the loop as written: a device that does not match
   * ends the run only when the run already holds two or more devices, so
   * after a run of one the previous collapser stays current across a
   * non-collapsible device.
   */
  function AsWrittenStep(devs: seq<PciDev>, s: ScanState, p: nat): (r: ScanState)
    requires p < |devs| && WellFormed(devs, s)
    ensures WellFormed(devs, r)
  {
    var d := devs[p];
    if s.collapser != -1 && Collapsible(d) && KeyOf(d) == KeyOf(devs[s.collapser]) then
      ScanState(s.collapser, s.collapsed + 1, s.marks[p := -1])
    else
      var ended := if s.collapser != -1 && s.collapsed > 1
                   then ScanState(-1, 0, s.marks[s.collapser := s.collapsed])
                   else s;
      if Collapsible(d) then ScanState(p, 1, ended.marks) else ended
  }

  /** The loop state after the first `n` devices. */
  function AsWrittenScan(devs: seq<PciDev>, n: nat): (r: ScanState)
    requires n <= |devs|
    ensures WellFormed(devs, r)
  {
    if n == 0 then ScanState(-1, 0, seq(|devs|, _ => 0))
    else AsWrittenStep(devs, AsWrittenScan(devs, n - 1), n - 1)
  }

  /** The slots the pass as written leaves: the loop, then the final flush. */
  function AsWrittenMarks(devs: seq<PciDev>): (r: seq<int>)
    ensures |r| == |devs|
  {
    var s := AsWrittenScan(devs, |devs|);
    if s.collapsed > 1 then s.marks[s.collapser := s.collapsed] else s.marks
  }

  /**
   * Two identical sibling devices separated by a different device that
   * has I/O children: as written, the first is drawn as "2 x" and the
   * third is hidden, although the two are not adjacent; the intended
   * marks leave all three drawn.
   */
  lemma AsWrittenMisgroups()
    ensures var a := PciDev(1, 0x8086, 0x56c0, 0x8086, 0x4905, 0, 0);
            var x := PciDev(1, 0x15b3, 0x101b, 0x15b3, 0x0006, 1, 0);
            var devs := [a, x, a];
            && AsWrittenMarks(devs) == [2, 0, -1]
            && Mark(devs, 0) == 0 && Mark(devs, 1) == 0 && Mark(devs, 2) == 0
  {
    var a := PciDev(1, 0x8086, 0x56c0, 0x8086, 0x4905, 0, 0);
    var x := PciDev(1, 0x15b3, 0x101b, 0x15b3, 0x0006, 1, 0);
    var devs := [a, x, a];
    var s0 := AsWrittenScan(devs, 0);
    assert s0 == ScanState(-1, 0, [0, 0, 0]);
    var s1 := AsWrittenScan(devs, 1);
    assert s1 == ScanState(0, 1, [0, 0, 0]);
    var s2 := AsWrittenScan(devs, 2);
    assert s2 == ScanState(0, 1, [0, 0, 0]);
    var s3 := AsWrittenScan(devs, 3);
    assert s3 == ScanState(0, 2, [0, 0, -1]);
    assert !Joins(devs, 2);
  }
}
