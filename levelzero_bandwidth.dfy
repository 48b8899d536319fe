/**
 * The XeLink bandwidth matrix of the Level Zero backend
 * (`hwloc__levelzero_ports_connect`): every ordered pair of collected
 * ports whose remote identifier matches, whose first port is healthy and
 * whose second port is an XeLink port adds the first port's receive rate,
 * in units of 2^20 bit/s (which the source labels MB/s), to the unsigned
 * 64-bit cell of the two owners, wrapping modulo 2^64; the diagonal is then forced to 1000000 of those units and the
 * matrix is offered to the distances subsystem.
 */
module LevelZeroBandwidth {
  import opened LevelZeroRegistry
  import opened LevelZeroPorts

  /** The value forced on the diagonal: local is faster than remote (labelled 1 TB/s in the source). */
  const LocalBandwidth: nat := 1000000

  /**
   * `bitRate >> 20`: bit/s to units of 2^20 bit/s, the unit the source
   * labels MB/s. The rate is signed, so the shift is arithmetic: division
   * by `RateShift` rounding down, which is what `/` does here for a
   * positive divisor (an unknown rate, -1, gives -1).
   */
  const RateShift: nat := 0x10_0000

  /** The cells are `hwloc_uint64_t`: every sum is kept modulo 2^64. */
  const CellModulus: nat := 0x1_0000_0000_0000_0000

  /** The value of one cell. */
  type UInt64 = x: int | 0 <= x < 0x1_0000_0000_0000_0000

  /** Port `i` sees port `j` at the other end of a healthy XeLink link. */
  predicate Linked(ports: seq<Port>, i: nat, j: nat)
    requires i < |ports| && j < |ports|
  {
    && i != j
    && ports[i].state.status == Healthy
    && ports[i].state.remotePortId == ports[j].props.portId
    && ports[j].props.model == "XeLink"
  }

  /** The pair `(i, j)` is counted: linked, and both owners are registered. */
  predicate Counted(ports: seq<Port>, objs: seq<Handle>, i: nat, j: nat)
    requires i < |ports| && j < |ports|
  {
    Linked(ports, i, j) && IndexOf(objs, ports[i].osdev) >= 0 && IndexOf(objs, ports[j].osdev) >= 0
  }

  /** Every port's rate is known: none is negative. */
  predicate KnownRates(ports: seq<Port>)
  {
    forall k :: 0 <= k < |ports| ==> ports[k].state.rxBitRate >= 0
  }

  /** What the pair `(i, j)` adds to cell `[a][b]`, before wrapping. */
  function Contribution(ports: seq<Port>, objs: seq<Handle>, i: nat, j: nat, a: int, b: int): (c: int)
    requires i < |ports| && j < |ports|
    ensures KnownRates(ports) ==> c >= 0
    ensures ports[i].state.rxBitRate < 0 ==> c <= 0
  {
    if Counted(ports, objs, i, j)
       && IndexOf(objs, ports[i].osdev) == a && IndexOf(objs, ports[j].osdev) == b
    then ports[i].state.rxBitRate / RateShift
    else 0
  }

  /** The contributions of the pairs `(i, j)`, `j < jEnd`, to cell `[a][b]`, before wrapping. */
  function RowSum(ports: seq<Port>, objs: seq<Handle>, i: nat, jEnd: nat, a: int, b: int): (r: int)
    requires i < |ports| && jEnd <= |ports|
    ensures KnownRates(ports) ==> r >= 0
  {
    if jEnd == 0 then 0
    else RowSum(ports, objs, i, jEnd - 1, a, b) + Contribution(ports, objs, i, jEnd - 1, a, b)
  }

  /** The contributions of the pairs `(i, j)`, `i < iEnd`, to cell `[a][b]`, before wrapping. */
  function Bandwidth(ports: seq<Port>, objs: seq<Handle>, iEnd: nat, a: int, b: int): (w: int)
    requires iEnd <= |ports|
    ensures KnownRates(ports) ==> w >= 0
  {
    if iEnd == 0 then 0
    else Bandwidth(ports, objs, iEnd - 1, a, b) + RowSum(ports, objs, iEnd - 1, |ports|, a, b)
  }

  /** Cell `[a][b]` starting at `x` after the pairs `(i, j)`, `j < jEnd`, each addition wrapping as in the source. */
  function RowAcc(x: UInt64, ports: seq<Port>, objs: seq<Handle>, i: nat, jEnd: nat, a: int, b: int): UInt64
    requires i < |ports| && jEnd <= |ports|
  {
    if jEnd == 0 then x
    else (RowAcc(x, ports, objs, i, jEnd - 1, a, b) + Contribution(ports, objs, i, jEnd - 1, a, b)) % CellModulus
  }

  /** Cell `[a][b]` of the zeroed matrix after the rows `i < iEnd`, each addition wrapping as in the source. */
  function MatAcc(ports: seq<Port>, objs: seq<Handle>, iEnd: nat, a: int, b: int): UInt64
    requires iEnd <= |ports|
  {
    if iEnd == 0 then 0
    else RowAcc(MatAcc(ports, objs, iEnd - 1, a, b), ports, objs, iEnd - 1, |ports|, a, b)
  }

  /** The number of counted pairs `(i, j)`, `j < jEnd` (the source's `gotbw`). */
  function RowCount(ports: seq<Port>, objs: seq<Handle>, i: nat, jEnd: nat): nat
    requires i < |ports| && jEnd <= |ports|
  {
    if jEnd == 0 then 0
    else RowCount(ports, objs, i, jEnd - 1) + (if Counted(ports, objs, i, jEnd - 1) then 1 else 0)
  }

  /** The number of counted pairs `(i, j)`, `i < iEnd`. */
  function PairCount(ports: seq<Port>, objs: seq<Handle>, iEnd: nat): nat
    requires iEnd <= |ports|
  {
    if iEnd == 0 then 0
    else PairCount(ports, objs, iEnd - 1) + RowCount(ports, objs, iEnd - 1, |ports|)
  }

  /** The value of cell `[a][b]` of the committed matrix. */
  function Cell(ports: seq<Port>, objs: seq<Handle>, a: int, b: int): nat
  {
    if a == b then LocalBandwidth else Bandwidth(ports, objs, |ports|, a, b) % CellModulus
  }

  /** `m` is the row-major `n`×`n` matrix of the registry `objs`, `n == |objs|`. */
  ghost predicate IsMatrix(m: seq<UInt64>, ports: seq<Port>, objs: seq<Handle>)
  {
    var n := |objs|;
    |m| == n * n
    && forall a, b :: 0 <= a < n && 0 <= b < n ==> m[Slot(n, a, b)] == Cell(ports, objs, a, b)
  }

  /** The row-major position `a * n + b` of cell `[a][b]` of an `n`×`n` matrix. */
  function Slot(n: nat, a: nat, b: nat): (k: nat)
    requires a < n && b < n
    ensures k < n * n
  {
    SlotBound(n, a, b);
    a * n + b
  }

  lemma MulMonotone(x: nat, y: nat, n: nat)
    requires x <= y
    ensures x * n <= y * n
  {
    if n > 0 {
      MulMonotone(x, y, n - 1);
      assert x * n == x * (n - 1) + x;
      assert y * n == y * (n - 1) + y;
    }
  }

  /** Row `a` of the matrix lies in `[a * n, (a + 1) * n)`, inside `n * n`. */
  lemma SlotBound(n: nat, a: nat, b: nat)
    requires a < n && b < n
    ensures a * n + b < (a + 1) * n <= n * n
  {
    assert (a + 1) * n == a * n + n;
    MulMonotone(a + 1, n, n);
  }

  /** Different cells occupy different positions. */
  lemma SlotInjective(n: nat, a: nat, b: nat, a': nat, b': nat)
    requires a < n && b < n && a' < n && b' < n
    ensures Slot(n, a, b) == Slot(n, a', b') ==> a == a' && b == b'
  {
    SlotBound(n, a, b);
    SlotBound(n, a', b');
    if a < a' {
      MulMonotone(a + 1, a', n);
    } else if a' < a {
      MulMonotone(a' + 1, a, n);
    }
  }

  /** Adding to a wrapped value wraps like adding to the whole value. */
  lemma WrapAdd(x: int, c: int)
    ensures (x % CellModulus + c) % CellModulus == (x + c) % CellModulus
  {
    var q := x / CellModulus;
    assert x == q * CellModulus + x % CellModulus;
    WrapShift(x % CellModulus + c, q);
  }

  /** Whole multiples of 2^64 vanish from a wrapped sum. */
  lemma {:induction false} WrapShift(y: int, q: int)
    ensures (y + q * CellModulus) % CellModulus == y % CellModulus
    decreases if q < 0 then -q else q
  {
    if q > 0 {
      WrapShift(y, q - 1);
      assert y + q * CellModulus == (y + (q - 1) * CellModulus) + CellModulus;
    } else if q < 0 {
      WrapShift(y, q + 1);
      assert y + q * CellModulus == (y + (q + 1) * CellModulus) - CellModulus;
    }
  }

  /** Wrapping at every addition gives the whole sum wrapped once. */
  lemma {:induction false} RowAccSum(x: UInt64, ports: seq<Port>, objs: seq<Handle>, i: nat, jEnd: nat, a: int, b: int)
    requires i < |ports| && jEnd <= |ports|
    ensures RowAcc(x, ports, objs, i, jEnd, a, b) == (x + RowSum(ports, objs, i, jEnd, a, b)) % CellModulus
    decreases jEnd
  {
    if jEnd == 0 {
      KeepsCell(x);
    } else {
      var r, c := RowSum(ports, objs, i, jEnd - 1, a, b), Contribution(ports, objs, i, jEnd - 1, a, b);
      RowAccSum(x, ports, objs, i, jEnd - 1, a, b);
      assert RowAcc(x, ports, objs, i, jEnd, a, b) == ((x + r) % CellModulus + c) % CellModulus;
      WrapAdd(x + r, c);
      assert RowSum(ports, objs, i, jEnd, a, b) == r + c;
    }
  }

  /** The accumulated matrix cell is the reference bandwidth modulo 2^64. */
  lemma {:induction false} MatAccSum(ports: seq<Port>, objs: seq<Handle>, iEnd: nat, a: int, b: int)
    requires iEnd <= |ports|
    ensures MatAcc(ports, objs, iEnd, a, b) == Bandwidth(ports, objs, iEnd, a, b) % CellModulus
    decreases iEnd
  {
    if iEnd > 0 {
      MatAccSum(ports, objs, iEnd - 1, a, b);
      RowAccSum(MatAcc(ports, objs, iEnd - 1, a, b), ports, objs, iEnd - 1, |ports|, a, b);
      WrapAdd(Bandwidth(ports, objs, iEnd - 1, a, b), RowSum(ports, objs, iEnd - 1, |ports|, a, b));
    }
  }

  /** A row that adds nothing leaves a cell as it was. */
  lemma {:induction false} UnhealthyAcc(x: UInt64, ports: seq<Port>, objs: seq<Handle>, i: nat, jEnd: nat, a: int, b: int)
    requires i < |ports| && jEnd <= |ports| && ports[i].state.status != Healthy
    ensures RowAcc(x, ports, objs, i, jEnd, a, b) == x
    decreases jEnd
  {
    if jEnd > 0 {
      UnhealthyAcc(x, ports, objs, i, jEnd - 1, a, b);
      KeepsCell(x);
    }
  }

  /** A port that is not healthy contributes nothing, whatever it matches. */
  lemma {:induction false} UnhealthyRow(ports: seq<Port>, objs: seq<Handle>, i: nat, jEnd: nat, a: int, b: int)
    requires i < |ports| && jEnd <= |ports| && ports[i].state.status != Healthy
    ensures RowSum(ports, objs, i, jEnd, a, b) == 0 && RowCount(ports, objs, i, jEnd) == 0
    decreases jEnd
  {
    if jEnd > 0 {
      UnhealthyRow(ports, objs, i, jEnd - 1, a, b);
    }
  }

  /** No pair is counted in a row exactly when its count is zero. */
  lemma {:induction false} RowCountZero(ports: seq<Port>, objs: seq<Handle>, i: nat, jEnd: nat)
    requires i < |ports| && jEnd <= |ports|
    ensures RowCount(ports, objs, i, jEnd) == 0 <==> forall j :: 0 <= j < jEnd ==> !Counted(ports, objs, i, j)
    decreases jEnd
  {
    if jEnd > 0 {
      RowCountZero(ports, objs, i, jEnd - 1);
    }
  }

  /** "No match means no matrix": the count is zero exactly when no pair is counted. */
  lemma {:induction false} PairCountZero(ports: seq<Port>, objs: seq<Handle>, iEnd: nat)
    requires iEnd <= |ports|
    ensures PairCount(ports, objs, iEnd) == 0 <==>
      forall i, j :: 0 <= i < iEnd && 0 <= j < |ports| ==> !Counted(ports, objs, i, j)
    decreases iEnd
  {
    if iEnd > 0 {
      PairCountZero(ports, objs, iEnd - 1);
      RowCountZero(ports, objs, iEnd - 1, |ports|);
    }
  }

  /** A row contributes to `[a][b]` only through a counted pair whose owners sit at `a` and `b`. */
  lemma {:induction false} RowSumHasLink(ports: seq<Port>, objs: seq<Handle>, i: nat, jEnd: nat, a: int, b: int)
    requires i < |ports| && jEnd <= |ports| && RowSum(ports, objs, i, jEnd, a, b) != 0
    ensures exists j :: 0 <= j < jEnd && Counted(ports, objs, i, j) &&
                        IndexOf(objs, ports[i].osdev) == a && IndexOf(objs, ports[j].osdev) == b
    decreases jEnd
  {
    if RowSum(ports, objs, i, jEnd - 1, a, b) != 0 {
      RowSumHasLink(ports, objs, i, jEnd - 1, a, b);
    } else {
      assert Contribution(ports, objs, i, jEnd - 1, a, b) != 0;
    }
  }

  /** A nonzero bandwidth between two objects comes from a counted pair of their ports. */
  lemma {:induction false} BandwidthHasLink(ports: seq<Port>, objs: seq<Handle>, iEnd: nat, a: int, b: int)
    requires iEnd <= |ports| && Bandwidth(ports, objs, iEnd, a, b) != 0
    ensures exists i, j :: 0 <= i < iEnd && 0 <= j < |ports| && Counted(ports, objs, i, j) &&
                           IndexOf(objs, ports[i].osdev) == a && IndexOf(objs, ports[j].osdev) == b
    decreases iEnd
  {
    if Bandwidth(ports, objs, iEnd - 1, a, b) != 0 {
      BandwidthHasLink(ports, objs, iEnd - 1, a, b);
    } else {
      RowSumHasLink(ports, objs, iEnd - 1, |ports|, a, b);
    }
  }

  /**
   * Each counted pair's contribution is part of the sum: parallel links
   * add up. With an unknown (negative) rate elsewhere in the row, the sum
   * can fall below one pair's share (see `UnknownRateWraps`).
   */
  lemma {:induction false} RowSumIncludes(ports: seq<Port>, objs: seq<Handle>, i: nat, jEnd: nat, j: nat, a: int, b: int)
    requires i < |ports| && j < jEnd <= |ports| && KnownRates(ports)
    ensures RowSum(ports, objs, i, jEnd, a, b) >= Contribution(ports, objs, i, j, a, b)
    decreases jEnd
  {
    if j < jEnd - 1 {
      RowSumIncludes(ports, objs, i, jEnd - 1, j, a, b);
    }
  }

  lemma {:induction false} BandwidthIncludes(ports: seq<Port>, objs: seq<Handle>, iEnd: nat, i: nat, j: nat)
    requires i < iEnd <= |ports| && j < |ports| && Counted(ports, objs, i, j) && KnownRates(ports)
    ensures Bandwidth(ports, objs, iEnd, IndexOf(objs, ports[i].osdev), IndexOf(objs, ports[j].osdev))
      >= ports[i].state.rxBitRate / RateShift
    decreases iEnd
  {
    var a, b := IndexOf(objs, ports[i].osdev), IndexOf(objs, ports[j].osdev);
    if i < iEnd - 1 {
      BandwidthIncludes(ports, objs, iEnd - 1, i, j);
    } else {
      RowSumIncludes(ports, objs, i, |ports|, j, a, b);
    }
  }

  /**
   * Two devices (handles 10 and 11) joined by two parallel XeLink links;
   * the first device receives 200 Gbit/s on one and 100 Gbit/s on the
   * other. The last port's remote identifier matches no port.
   */
  function TwoLinkPorts(): seq<Port>
  {
    var idA0, idA1, idB0, idB1 := FabricPortId(1, 0, 0), FabricPortId(1, 0, 1), FabricPortId(2, 0, 0), FabricPortId(2, 0, 1);
    [ Port(10, PortProps("XeLink", false, 0, idA0), PortState(Healthy, idB0, 200_000_000_000)),
      Port(10, PortProps("XeLink", false, 0, idA1), PortState(Healthy, idB1, 100_000_000_000)),
      Port(11, PortProps("XeLink", false, 0, idB0), PortState(Healthy, idA0, 200_000_000_000)),
      Port(11, PortProps("XeLink", false, 0, idB1), PortState(Healthy, FabricPortId(9, 9, 9), 100_000_000_000)) ]
  }

  /** In the two-device example, exactly three (port, remote port) pairs are linked. */
  lemma TwoLinkPortsCounted()
    ensures forall i, j :: 0 <= i < 4 && 0 <= j < 4 ==>
      (Counted(TwoLinkPorts(), [10, 11], i, j) <==> (i, j) in {(0, 2), (1, 3), (2, 0)})
  {
    var ports, objs := TwoLinkPorts(), [10, 11];
    forall i, j | 0 <= i < 4 && 0 <= j < 4
      ensures Counted(ports, objs, i, j) <==> (i, j) in {(0, 2), (1, 3), (2, 0)}
    {
    }
  }

  /** The rows of the first device's ports, into the cells between the two devices. */
  lemma TwoLinkRowsOfFirst()
    ensures RowSum(TwoLinkPorts(), [10, 11], 0, 4, 0, 1) == 190734 && RowSum(TwoLinkPorts(), [10, 11], 0, 4, 1, 0) == 0
    ensures RowSum(TwoLinkPorts(), [10, 11], 1, 4, 0, 1) == 95367 && RowSum(TwoLinkPorts(), [10, 11], 1, 4, 1, 0) == 0
  {
    assert IndexOf([10, 11], 10) == 0 && IndexOf([10, 11], 11) == 1;
    TwoLinkPortsCounted();
  }

  /** The rows of the second device's ports, into the cells between the two devices. */
  lemma TwoLinkRowsOfSecond()
    ensures RowSum(TwoLinkPorts(), [10, 11], 2, 4, 0, 1) == 0 && RowSum(TwoLinkPorts(), [10, 11], 2, 4, 1, 0) == 190734
    ensures RowSum(TwoLinkPorts(), [10, 11], 3, 4, 0, 1) == 0 && RowSum(TwoLinkPorts(), [10, 11], 3, 4, 1, 0) == 0
  {
    assert IndexOf([10, 11], 10) == 0 && IndexOf([10, 11], 11) == 1;
    TwoLinkPortsCounted();
  }

  /**
   * Parallel links between the same two objects add up (in units of 2^20 bit/s), a port
   * matching no remote port adds nothing, and the diagonal is the local value.
   */
  lemma ParallelLinksAdd()
    ensures Cell(TwoLinkPorts(), [10, 11], 0, 1) == 190734 + 95367
    ensures Cell(TwoLinkPorts(), [10, 11], 1, 0) == 190734
    ensures Cell(TwoLinkPorts(), [10, 11], 0, 0) == LocalBandwidth
  {
    TwoLinkBandwidths();
  }

  /** The sums over all rows of the two-device example, before wrapping. */
  lemma TwoLinkBandwidths()
    ensures Bandwidth(TwoLinkPorts(), [10, 11], 4, 0, 1) == 190734 + 95367
    ensures Bandwidth(TwoLinkPorts(), [10, 11], 4, 1, 0) == 190734
  {
    TwoLinkRowsOfFirst();
    TwoLinkRowsOfSecond();
  }

  /**
   * A healthy port whose receive rate is unknown (-1) linked to the
   * XeLink port of another device; that second port is disabled.
   */
  function UnknownRatePorts(): seq<Port>
  {
    var idA, idB := FabricPortId(1, 0, 0), FabricPortId(2, 0, 0);
    [ Port(10, PortProps("XeLink", false, 0, idA), PortState(Healthy, idB, -1)),
      Port(11, PortProps("XeLink", false, 0, idB), PortState(Disabled, idA, 0)) ]
  }

  /**
   * An unknown rate is shifted to -1 and added into the unsigned cell,
   * which wraps to 2^64 - 1: the link is reported as the widest possible.
   */
  lemma UnknownRateWraps()
    ensures Bandwidth(UnknownRatePorts(), [10, 11], 2, 0, 1) == -1
    ensures Cell(UnknownRatePorts(), [10, 11], 0, 1) == 0xFFFF_FFFF_FFFF_FFFF
    ensures Cell(UnknownRatePorts(), [10, 11], 1, 0) == 0
  {
    var ports, objs := UnknownRatePorts(), [10, 11];
    assert IndexOf(objs, 10) == 0 && IndexOf(objs, 11) == 1;
    assert Counted(ports, objs, 0, 1);
    assert RowSum(ports, objs, 0, 2, 0, 1) == -1;
    UnhealthyRow(ports, objs, 1, 2, 0, 1);
    UnhealthyRow(ports, objs, 1, 2, 1, 0);
  }

  /**
   * `hwloc__levelzero_ports_connect`. `callocOk` is whether the matrix
   * allocation succeeds; `accept` is whether the distances subsystem
   * accepts it (creation, value transfer and commit, taken as one opaque
   * step that takes ownership of the arrays). `bws` is the matrix offered
   * to it, `null` when none is offered.
   */
  method PortsConnect(oarray: OsdevArray, hports: PortTable, callocOk: bool, accept: bool)
    returns (ret: int, bws: array?<UInt64>)
    requires oarray.Valid() && hports.Valid()
    ensures var ports, objs := hports.Contents(), oarray.Contents();
      && (|ports| == 0 ==> ret == 0 && bws == null)
      && (|ports| > 0 && !callocOk ==> ret == -1 && bws == null)
      && (|ports| > 0 && callocOk && PairCount(ports, objs, |ports|) == 0 ==> ret == 0 && bws == null)
      && (|ports| > 0 && callocOk && PairCount(ports, objs, |ports|) > 0 ==>
            bws != null && fresh(bws) && IsMatrix(bws[..], ports, objs) && ret == (if accept then 0 else -1))
  {
    ghost var ports, objs := hports.Contents(), oarray.Contents();
    if hports.nr == 0 {
      return 0, null;
    }
    if !callocOk {
      return -1, null;
    }
    var n := oarray.nr;
    var m := new UInt64[n * n](_ => 0);
    var gotbw := ConnectRows(oarray, hports, m);
    if gotbw == 0 {
      PairCountZero(ports, objs, |ports|);
      return 0, null;
    }
    forall a, b | 0 <= a < n && 0 <= b < n
      ensures m[Slot(n, a, b)] == Bandwidth(ports, objs, |ports|, a, b) % CellModulus
    {
      MatAccSum(ports, objs, |ports|, a, b);
    }
    ForceDiagonal(m, n, ports, objs);
    bws := m;
    ret := if accept then 0 else -1;
  }

  /** The outer loop over the ports, on a zeroed matrix: returns `gotbw`. */
  method ConnectRows(oarray: OsdevArray, hports: PortTable, m: array<UInt64>) returns (gotbw: nat)
    requires oarray.Valid() && hports.Valid()
    requires m.Length == oarray.nr * oarray.nr && forall k :: 0 <= k < m.Length ==> m[k] == 0
    modifies m
    ensures var ports, objs, n := hports.Contents(), oarray.Contents(), oarray.nr;
      && gotbw == PairCount(ports, objs, |ports|)
      && forall a, b :: 0 <= a < n && 0 <= b < n ==> m[Slot(n, a, b)] == MatAcc(ports, objs, |ports|, a, b)
  {
    ghost var ports, objs := hports.Contents(), oarray.Contents();
    var n := oarray.nr;
    gotbw := 0;
    var i := 0;
    while i < hports.nr
      invariant 0 <= i <= hports.nr
      invariant forall a, b :: 0 <= a < n && 0 <= b < n ==> m[Slot(n, a, b)] == MatAcc(ports, objs, i, a, b)
      invariant gotbw == PairCount(ports, objs, i)
    {
      if hports.ports[i].state.status == Healthy {
        var found := ConnectRow(oarray, hports, m, i);
        gotbw := gotbw + found;
      } else {
        forall a, b | 0 <= a < n && 0 <= b < n
          ensures m[Slot(n, a, b)] == MatAcc(ports, objs, i + 1, a, b)
        {
          UnhealthyAcc(m[Slot(n, a, b)], ports, objs, i, |ports|, a, b);
        }
        UnhealthyRow(ports, objs, i, |ports|, 0, 0);
      }
      i := i + 1;
    }
  }

  /**
   * The inner loop for a healthy port `i`: adds row `i`'s contributions,
   * wrapping as it goes, and returns how many pairs counted.
   */
  method ConnectRow(oarray: OsdevArray, hports: PortTable, m: array<UInt64>, i: nat) returns (found: nat)
    requires oarray.Valid() && hports.Valid() && i < hports.nr
    requires hports.ports[i].state.status == Healthy
    requires m.Length == oarray.nr * oarray.nr
    modifies m
    ensures var ports, objs, n := hports.Contents(), oarray.Contents(), oarray.nr;
      && found == RowCount(ports, objs, i, |ports|)
      && forall a, b :: 0 <= a < n && 0 <= b < n ==>
           m[Slot(n, a, b)] == RowAcc(old(m[Slot(n, a, b)]), ports, objs, i, |ports|, a, b)
  {
    ghost var ports, objs := hports.Contents(), oarray.Contents();
    var n := oarray.nr;
    found := 0;
    var j := 0;
    while j < hports.nr
      invariant 0 <= j <= hports.nr
      invariant found == RowCount(ports, objs, i, j)
      invariant forall a, b :: 0 <= a < n && 0 <= b < n ==>
        m[Slot(n, a, b)] == RowAcc(old(m[Slot(n, a, b)]), ports, objs, i, j, a, b)
    {
      var counted := ConnectPair(oarray, hports, m, i, j);
      if counted {
        found := found + 1;
      }
      j := j + 1;
    }
  }

  /**
   * The tests of one pair `(i, j)` (the `continue`s of the inner loop):
   * whether it is counted, and then the registry indexes of the two owners.
   */
  method MatchPair(oarray: OsdevArray, hports: PortTable, i: nat, j: nat) returns (counted: bool, iindex: int, jindex: int)
    requires oarray.Valid() && hports.Valid() && i < hports.nr && j < hports.nr
    requires hports.ports[i].state.status == Healthy
    ensures var ports, objs := hports.Contents(), oarray.Contents();
      && counted == Counted(ports, objs, i, j)
      && (counted ==> 0 <= iindex < oarray.nr && 0 <= jindex < oarray.nr
                      && iindex == IndexOf(objs, ports[i].osdev) && jindex == IndexOf(objs, ports[j].osdev))
  {
    counted, iindex, jindex := false, -1, -1;
    if i != j && hports.ports[i].state.remotePortId == hports.ports[j].props.portId {
      if hports.ports[j].props.model == "XeLink" {
        iindex := oarray.Find(hports.ports[i].osdev);
        jindex := oarray.Find(hports.ports[j].osdev);
        counted := iindex >= 0 && jindex >= 0;
      }
    }
  }

  /** One pair `(i, j)` of the inner loop, for a healthy port `i`. */
  method ConnectPair(oarray: OsdevArray, hports: PortTable, m: array<UInt64>, i: nat, j: nat) returns (counted: bool)
    requires oarray.Valid() && hports.Valid() && i < hports.nr && j < hports.nr
    requires hports.ports[i].state.status == Healthy
    requires m.Length == oarray.nr * oarray.nr
    modifies m
    ensures var ports, objs, n := hports.Contents(), oarray.Contents(), oarray.nr;
      && counted == Counted(ports, objs, i, j)
      && forall a, b :: 0 <= a < n && 0 <= b < n ==>
           m[Slot(n, a, b)] == (old(m[Slot(n, a, b)]) + Contribution(ports, objs, i, j, a, b)) % CellModulus
  {
    ghost var ports, objs := hports.Contents(), oarray.Contents();
    var n := oarray.nr;
    var iindex, jindex;
    counted, iindex, jindex := MatchPair(oarray, hports, i, j);
    if counted {
      var k := Slot(n, iindex, jindex);
      m[k] := (m[k] + hports.ports[i].state.rxBitRate / RateShift) % CellModulus;
    }
    forall a, b | 0 <= a < n && 0 <= b < n
      ensures m[Slot(n, a, b)] == (old(m[Slot(n, a, b)]) + Contribution(ports, objs, i, j, a, b)) % CellModulus
    {
      if !counted || (a, b) != (iindex, jindex) {
        if counted {
          SlotInjective(n, a, b, iindex, jindex);
        }
        KeepsCell(old(m[Slot(n, a, b)]));
      }
    }
  }

  /** A cell's value wraps to itself. */
  lemma KeepsCell(x: UInt64)
    ensures (x + 0) % CellModulus == x
  {
  }

  /** The final loop: every diagonal cell becomes `LocalBandwidth`. */
  method ForceDiagonal(m: array<UInt64>, n: nat, ghost ports: seq<Port>, ghost objs: seq<Handle>)
    requires n == |objs| && m.Length == n * n
    requires forall a, b :: 0 <= a < n && 0 <= b < n ==> m[Slot(n, a, b)] == Bandwidth(ports, objs, |ports|, a, b) % CellModulus
    modifies m
    ensures IsMatrix(m[..], ports, objs)
  {
    var d := 0;
    while d < n
      invariant 0 <= d <= n
      invariant forall a, b :: 0 <= a < n && 0 <= b < n ==>
        m[Slot(n, a, b)] == if a == b && a < d then LocalBandwidth else Bandwidth(ports, objs, |ports|, a, b) % CellModulus
    {
      m[Slot(n, d, d)] := LocalBandwidth;
      forall a, b | 0 <= a < n && 0 <= b < n
        ensures m[Slot(n, a, b)] == if a == b && a < d + 1 then LocalBandwidth else Bandwidth(ports, objs, |ports|, a, b) % CellModulus
      {
        SlotInjective(n, a, b, d, d);
      }
      d := d + 1;
    }
  }
}
