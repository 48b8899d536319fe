/**
 * The small decisions of lstopo's core: which PCI objects make domains
 * worth printing (`lstopo_check_pci_domains`), where the output goes
 * (`open_output`), and the default settings (`lstopo_init`).
 */
module LstopoCore {
  import opened Wrappers

  // ---------------------------------------------------------------------
  // lstopo_check_pci_domains
  // ---------------------------------------------------------------------

  /** A PCI bridge as the check sees it: whether its upstream side is PCI, and its PCI domain. */
  datatype Bridge = Bridge(upstreamPci: bool, domain: nat)

  /** The length of the leading run of bridges whose upstream side is PCI: the scan stops at the first other one. */
  function LeadingPciBridges(bridges: seq<Bridge>): (n: nat)
    ensures n <= |bridges|
    ensures forall j :: 0 <= j < n ==> bridges[j].upstreamPci
    ensures n < |bridges| ==> !bridges[n].upstreamPci
  {
    if bridges == [] || !bridges[0].upstreamPci then 0 else 1 + LeadingPciBridges(bridges[1..])
  }

  /** The device scan: 1 at the first device with a nonzero domain, 0 after the last one. */
  function ScanDevices(domains: seq<nat>): (r: int)
    ensures r == 1 <==> exists i :: 0 <= i < |domains| && domains[i] != 0
    ensures r == 0 || r == 1
  {
    if domains == [] then 0
    else if domains[0] != 0 then 1
    else
      var r := ScanDevices(domains[1..]);
      assert forall i :: 1 <= i < |domains| ==> domains[i] == domains[1..][i - 1];
      r
  }

  /** The bridge scan: stops with 0 at the first bridge whose upstream side is not PCI. */
  function ScanBridges(bridges: seq<Bridge>): int
  {
    if bridges == [] then 0
    else if !bridges[0].upstreamPci then 0
    else if bridges[0].domain != 0 then 1
    else ScanBridges(bridges[1..])
  }

  /**
   * `lstopo_check_pci_domains`: `devices` are the domains of the PCI
   * devices and `bridges` the bridges, each in depth-first order.
   */
  function CheckPciDomains(devices: seq<nat>, bridges: seq<Bridge>): int
  {
    if ScanDevices(devices) == 1 then 1 else ScanBridges(bridges)
  }

  /** The bridge scan finds a domain exactly within the leading run of PCI-upstream bridges. */
  lemma {:induction false} ScanBridgesFinds(bridges: seq<Bridge>)
    ensures ScanBridges(bridges) == 1 <==>
      exists j :: 0 <= j < LeadingPciBridges(bridges) && bridges[j].domain != 0
    ensures ScanBridges(bridges) == 0 || ScanBridges(bridges) == 1
    decreases |bridges|
  {
    if bridges != [] && bridges[0].upstreamPci {
      ScanBridgesFinds(bridges[1..]);
      var n := LeadingPciBridges(bridges);
      assert forall j :: 1 <= j < n ==> bridges[j] == bridges[1..][j - 1];
      if ScanBridges(bridges) == 1 && bridges[0].domain == 0 {
        var j' :| 0 <= j' < LeadingPciBridges(bridges[1..]) && bridges[1..][j'].domain != 0;
        assert bridges[j' + 1].domain != 0;
      }
    }
  }

  /**
   * Domains are needed (1) exactly when some PCI device has a nonzero
   * domain, or some bridge before the first non-PCI-upstream bridge does;
   * otherwise the result is 0.
   */
  lemma CheckPciDomainsIff(devices: seq<nat>, bridges: seq<Bridge>)
    ensures CheckPciDomains(devices, bridges) == 1 <==>
      || (exists i :: 0 <= i < |devices| && devices[i] != 0)
      || (exists j :: 0 <= j < LeadingPciBridges(bridges) && bridges[j].domain != 0)
    ensures CheckPciDomains(devices, bridges) == 0 || CheckPciDomains(devices, bridges) == 1
  {
    ScanBridgesFinds(bridges);
  }

  /**
   * A bridge whose upstream side is not PCI (a host bridge) ends the
   * bridge scan: no bridge after it is looked at, whatever its domain.
   */
  lemma HostBridgeEndsScan(devices: seq<nat>, host: Bridge, rest: seq<Bridge>)
    requires !host.upstreamPci && forall i :: 0 <= i < |devices| ==> devices[i] == 0
    ensures CheckPciDomains(devices, [host] + rest) == 0
  {
  }

  // ---------------------------------------------------------------------
  // open_output
  // ---------------------------------------------------------------------

  /** Where `open_output` sends the output. */
  datatype OutputChoice =
    | Stdout                        // the standard output stream
    | Refused                       // NULL with errno EEXIST: the file exists and may not be overwritten
    | OpenForWriting(path: string)  // `fopen(path, "w")`, which may itself fail

  /** `strrchr(s, c)` as an index: the last position of `c` in `s`, or -1. */
  function LastIndexOf(s: string, c: char): (r: int)
    ensures -1 <= r < |s|
    ensures r >= 0 ==> s[r] == c && forall k :: r < k < |s| ==> s[k] != c
    ensures r == -1 ==> c !in s
  {
    if s == [] then -1
    else if s[|s| - 1] == c then |s| - 1
    else LastIndexOf(s[..|s| - 1], c)
  }

  /**
   * `open_output`. `filename` is `None` for a NULL name; `fileExists` is
   * whether `stat` on the name succeeds.
   */
  function OpenOutput(filename: Option<string>, overwrite: bool, fileExists: bool): OutputChoice
  {
    if filename.None? || filename.value == "-" then Stdout
    else
      var name := filename.value;
      if |name| > 0 && name[0] == '-' && LastIndexOf(name, '.') == 1 then Stdout
      else if fileExists && !overwrite then Refused
      else OpenForWriting(name)
  }

  /** Names of the form `-.<ext>` (a dash, a dot, then no further dot) mean the standard output with a format. */
  predicate DashWithExtension(name: string)
  {
    |name| >= 2 && name[0] == '-' && name[1] == '.' && '.' !in name[2..]
  }

  /**
   * The standard output is chosen for a NULL name, for "-" and for
   * "-.<ext>" names, and nothing else; an existing file is refused
   * exactly when overwriting is off; every other name is opened as given.
   */
  lemma OpenOutputCases(filename: Option<string>, overwrite: bool, fileExists: bool)
    ensures OpenOutput(filename, overwrite, fileExists) == Stdout <==>
      filename.None? || filename.value == "-" || DashWithExtension(filename.value)
    ensures OpenOutput(filename, overwrite, fileExists) == Refused <==>
      filename.Some? && filename.value != "-" && !DashWithExtension(filename.value) && fileExists && !overwrite
    ensures OpenOutput(filename, overwrite, fileExists).OpenForWriting? ==>
      filename.Some? && OpenOutput(filename, overwrite, fileExists).path == filename.value
  {
    if filename.Some? {
      var name := filename.value;
      var last := LastIndexOf(name, '.');
      if |name| >= 2 && name[1] == '.' {
        assert last == 1 <==> '.' !in name[2..] by {
          if '.' in name[2..] {
            var k :| 2 <= k < |name| && name[k] == '.';
            assert name[2..][k - 2] == '.';
          }
          if last != 1 {
            assert last > 1;
            assert name[2..][last - 2] == '.';
          }
        }
      }
    }
  }

  /** Concrete cases: "-", "-.svg" and a NULL name go to stdout; "-.x.svg" and "out.fig" do not. */
  lemma OpenOutputExamples()
    ensures OpenOutput(Some("-.svg"), false, true) == Stdout
    ensures OpenOutput(Some("-.x.svg"), false, false) == OpenForWriting("-.x.svg")
    ensures OpenOutput(Some("out.fig"), false, true) == Refused
    ensures OpenOutput(Some("out.fig"), true, true) == OpenForWriting("out.fig")
  {
    OpenOutputCases(Some("-.svg"), false, true);
    OpenOutputCases(Some("-.x.svg"), false, false);
    assert "-.x.svg"[2..][1] == '.';
    OpenOutputCases(Some("out.fig"), false, true);
    OpenOutputCases(Some("out.fig"), true, true);
  }

  // ---------------------------------------------------------------------
  // lstopo_init
  // ---------------------------------------------------------------------

  /** The object types, in the order of `hwloc_obj_type_t`. */
  datatype ObjType =
    | Machine | Package | Core | PU
    | L1Cache | L2Cache | L3Cache | L4Cache | L5Cache | L1ICache | L2ICache | L3ICache
    | Group | NumaNode | BridgeObj | PciDevice | OsDevice | Misc | MemCache | Die

  /** `HWLOC_OBJ_TYPE_MAX`: the number of object types. */
  const TypeMax: nat := 20

  /** The numeric value of a type. */
  function TypeIndex(t: ObjType): (i: nat)
    ensures i < TypeMax
  {
    match t
    case Machine => 0 case Package => 1 case Core => 2 case PU => 3
    case L1Cache => 4 case L2Cache => 5 case L3Cache => 6 case L4Cache => 7 case L5Cache => 8
    case L1ICache => 9 case L2ICache => 10 case L3ICache => 11
    case Group => 12 case NumaNode => 13 case BridgeObj => 14 case PciDevice => 15
    case OsDevice => 16 case Misc => 17 case MemCache => 18 case Die => 19
  }

  /** The data and instruction caches of every level. */
  predicate IsCache(t: ObjType)
  {
    t.L1Cache? || t.L2Cache? || t.L3Cache? || t.L4Cache? || t.L5Cache? || t.L1ICache? || t.L2ICache? || t.L3ICache?
  }

  datatype Orient = OrientNone | Horiz | Vert | Rect

  datatype VerboseMode = Summary | VerboseDefault | Verbose

  /** The orientation `lstopo_init` leaves for the type numbered `i`. */
  function DefaultOrient(i: nat): Orient
  {
    if i == TypeIndex(PU) then Horiz
    else if TypeIndex(L1Cache) <= i <= TypeIndex(L3ICache) then Horiz
    else if i == TypeIndex(NumaNode) then Horiz
    else OrientNone
  }

  /**
   * Exactly the PUs, the NUMA nodes and the caches of every level (L4
   * and L5 included: they sit between L3 and L1i in the type order) are
   * laid out horizontally by default; every other type is left free.
   */
  lemma HorizontalTypes(t: ObjType)
    ensures DefaultOrient(TypeIndex(t)) == Horiz <==> t == PU || t == NumaNode || IsCache(t)
    ensures DefaultOrient(TypeIndex(t)) != Horiz ==> DefaultOrient(TypeIndex(t)) == OrientNone
  {
  }

  /** The `force_orient` array as `lstopo_init` fills it: every type free, then PUs, caches and NUMA nodes horizontal. */
  method DefaultOrients() returns (a: array<Orient>)
    ensures fresh(a) && a.Length == TypeMax
    ensures forall i :: 0 <= i < TypeMax ==> a[i] == DefaultOrient(i)
  {
    a := new Orient[TypeMax];
    var i := 0;
    while i < TypeMax
      invariant 0 <= i <= TypeMax
      invariant forall k :: 0 <= k < i ==> a[k] == OrientNone
    {
      a[i] := OrientNone;
      i := i + 1;
    }
    a[TypeIndex(PU)] := Horiz;
    i := TypeIndex(L1Cache);
    while i <= TypeIndex(L3ICache)
      invariant TypeIndex(L1Cache) <= i <= TypeIndex(L3ICache) + 1
      invariant forall k :: 0 <= k < TypeMax ==>
        a[k] == if k == TypeIndex(PU) || TypeIndex(L1Cache) <= k < i then Horiz else OrientNone
    {
      a[i] := Horiz;
      i := i + 1;
    }
    a[TypeIndex(NumaNode)] := Horiz;
  }

  /** One of the `show_indexes`, `show_attrs` and `show_text` arrays: on for every type. */
  method AllSet() returns (a: array<bool>)
    ensures fresh(a) && a.Length == TypeMax
    ensures forall i :: 0 <= i < TypeMax ==> a[i]
  {
    a := new bool[TypeMax];
    var i := 0;
    while i < TypeMax
      invariant 0 <= i <= TypeMax
      invariant forall k :: 0 <= k < i ==> a[k]
    {
      a[i] := true;
      i := i + 1;
    }
  }

  /** The settings of an lstopo run (`struct lstopo_output`). */
  class LstopoOutput {
    var overwrite: bool
    var logical: int
    var verboseMode: VerboseMode
    var ignorePus: bool
    var ignoreNumanodes: bool
    var collapse: bool
    var pidNumber: int
    var pid: int
    var needPciDomain: bool
    var exportSyntheticFlags: nat
    var exportXmlFlags: nat
    var legend: bool
    var legendAppend: seq<string>
    var showDistancesOnly: bool
    var showOnly: Option<ObjType>
    var showCpuset: bool
    var showTaskset: bool
    var noHalfLines: bool
    var plainChildrenOrder: bool
    var fontsize: nat
    var gridsize: nat
    const forceOrient: array<Orient>
    const showIndexes: array<bool>
    const showAttrs: array<bool>
    const showText: array<bool>

    /** `lstopo_init`. */
    constructor ()
      ensures !overwrite && logical == -1 && verboseMode == VerboseDefault
      ensures !ignorePus && !ignoreNumanodes && collapse
      ensures pidNumber == -1 && pid == 0 && !needPciDomain
      ensures exportSyntheticFlags == 0 && exportXmlFlags == 0
      ensures legend && legendAppend == [] && !showDistancesOnly && showOnly == None
      ensures !showCpuset && !showTaskset && !noHalfLines && !plainChildrenOrder
      ensures fontsize == 10 && gridsize == 10
      ensures fresh(forceOrient) && fresh(showIndexes) && fresh(showAttrs) && fresh(showText)
      ensures forceOrient.Length == TypeMax && showIndexes.Length == TypeMax
      ensures showAttrs.Length == TypeMax && showText.Length == TypeMax
      ensures forall i :: 0 <= i < TypeMax ==> forceOrient[i] == DefaultOrient(i)
      ensures forall i :: 0 <= i < TypeMax ==> showIndexes[i] && showAttrs[i] && showText[i]
    {
      overwrite := false;
      logical := -1;
      verboseMode := VerboseDefault;
      ignorePus, ignoreNumanodes := false, false;
      collapse := true;
      pidNumber, pid := -1, 0;
      needPciDomain := false;
      exportSyntheticFlags, exportXmlFlags := 0, 0;
      legend := true;
      legendAppend := [];
      showDistancesOnly := false;
      showOnly := None;
      showCpuset, showTaskset := false, false;
      noHalfLines, plainChildrenOrder := false, false;
      fontsize, gridsize := 10, 10;
      var orient := DefaultOrients();
      var indexes := AllSet();
      var attrs := AllSet();
      var text := AllSet();
      forceOrient, showIndexes, showAttrs, showText := orient, indexes, attrs, text;
    }
  }
}
