/**
 * The OS-device objects the Level Zero backend creates, and the info
 * pairs it attaches to them: backend and driver indexes, the vendor
 * strings that are not the "Unknown" sentinel
 * (`hwloc_levelzero_discover`), and the command-queue groups
 * (`hwloc__levelzero_cqprops_get`).
 */
module LevelZeroDevice {
  import opened Wrappers
  import opened Format
  import opened LevelZeroRegistry

  /** Where an object was inserted in the topology. */
  datatype ParentLink =
    | Unattached
    | UnderRoot                      // the topology root
    | UnderPci(pciObject: Handle)    // the PCI object found by bus id
    | UnderDevice(device: Handle)    // a sub-device below its device

  datatype OsDevKind = KindUnset | Coprocessor

  /** An OS-device object: its handle, descriptive fields and info list. */
  class OsDev {
    const handle: Handle
    /** The name, subtype and OS-device type are set once, right after allocation. */
    const name: string
    const subtype: string
    const kind: OsDevKind
    var infos: seq<Info>
    var parent: ParentLink

    /** `hwloc_alloc_setup_object` followed by the name, subtype and type assignments: a new unlinked object. */
    constructor (h: Handle, name: string, subtype: string, kind: OsDevKind)
      ensures handle == h && this.name == name && this.subtype == subtype && this.kind == kind
      ensures infos == [] && parent == Unattached
    {
      handle := h;
      this.name := name;
      this.subtype := subtype;
      this.kind := kind;
      infos := [];
      parent := Unattached;
    }

    /** `hwloc_obj_add_info`: appends, never overwrites. */
    method AddInfo(key: string, value: string)
      modifies this
      ensures infos == old(infos) + [Info(key, value)]
      ensures parent == old(parent)
    {
      infos := infos + [Info(key, value)];
    }
  }

  /** The sentinel the vendor library reports for strings it does not know. */
  const Unknown: string := "Unknown"

  /** The strings of `zes_device_properties_t` the backend uses. */
  datatype DeviceProps = DeviceProps(
    vendorName: string, modelName: string, brandName: string,
    serialNumber: string, boardNumber: string)

  /** `[Info(key, value)]` unless `gate` is the "Unknown" sentinel. */
  function IfKnown(gate: string, key: string, value: string): seq<Info>
  {
    if gate != Unknown then [Info(key, value)] else []
  }

  /**
   * The info pairs a device receives before its collectors run: the
   * backend name, the driver index `i`, the device index `j` within the
   * driver, then the vendor strings. The model string is gated on the
   * VENDOR string, not on itself.
   */
  function DeviceHeaderInfos(i: nat, j: nat, p: DeviceProps): seq<Info>
  {
    [ Info("Backend", "LevelZero"),
      Info("LevelZeroDriverIndex", Decimal(i)),
      Info("LevelZeroDriverDeviceIndex", Decimal(j)) ]
    + IfKnown(p.vendorName, "LevelZeroVendor", p.vendorName)
    + IfKnown(p.vendorName, "LevelZeroModel", p.modelName)
    + IfKnown(p.brandName, "LevelZeroBrand", p.brandName)
    + IfKnown(p.serialNumber, "LevelZeroSerialNumber", p.serialNumber)
    + IfKnown(p.boardNumber, "LevelZeroBoardNumber", p.boardNumber)
  }

  /** The four string properties that are recorded only when they are not "Unknown". */
  predicate SentinelFiltered(key: string)
  {
    key in {"LevelZeroVendor", "LevelZeroBrand", "LevelZeroSerialNumber", "LevelZeroBoardNumber"}
  }

  /** The "Unknown" sentinel is never recorded for vendor, brand, serial or board. */
  lemma HeaderFiltersUnknown(i: nat, j: nat, p: DeviceProps)
    ensures forall x :: x in DeviceHeaderInfos(i, j, p) && SentinelFiltered(x.key) ==> x.value != Unknown
  {
    var head := [Info("Backend", "LevelZero"), Info("LevelZeroDriverIndex", Decimal(i)),
                 Info("LevelZeroDriverDeviceIndex", Decimal(j))];
    assert forall x :: x in head ==> !SentinelFiltered(x.key);
    assert forall x :: x in IfKnown(p.vendorName, "LevelZeroModel", p.modelName) ==> !SentinelFiltered(x.key);
  }

  /** Each of vendor, brand, serial and board is recorded exactly when it is known. */
  lemma HeaderRecordsKnown(i: nat, j: nat, p: DeviceProps)
    ensures Info("LevelZeroVendor", p.vendorName) in DeviceHeaderInfos(i, j, p) <==> p.vendorName != Unknown
    ensures Info("LevelZeroBrand", p.brandName) in DeviceHeaderInfos(i, j, p) <==> p.brandName != Unknown
    ensures Info("LevelZeroSerialNumber", p.serialNumber) in DeviceHeaderInfos(i, j, p) <==> p.serialNumber != Unknown
    ensures Info("LevelZeroBoardNumber", p.boardNumber) in DeviceHeaderInfos(i, j, p) <==> p.boardNumber != Unknown
  {
    HeaderFiltersUnknown(i, j, p);
  }

  /**
   * The model string is recorded exactly when the vendor string is known,
   * whatever the model string itself is (even "Unknown").
   */
  lemma ModelGatedOnVendor(i: nat, j: nat, p: DeviceProps)
    ensures (exists x :: x in DeviceHeaderInfos(i, j, p) && x.key == "LevelZeroModel") <==> p.vendorName != Unknown
    ensures p.vendorName != Unknown ==> Info("LevelZeroModel", p.modelName) in DeviceHeaderInfos(i, j, p)
  {
    var h := DeviceHeaderInfos(i, j, p);
    if p.vendorName != Unknown {
      assert Info("LevelZeroModel", p.modelName) in h;
    }
  }

  /** One command-queue group (`ze_command_queue_group_properties_t`). */
  datatype CqGroup = CqGroup(numQueues: nat, flags: nat)

  /** The info pair of group `k`: `LevelZeroCQGroup<k>` = `<numQueues>*0x<flags>`. */
  function CqGroupInfo(k: nat, g: CqGroup): Info
  {
    Info("LevelZeroCQGroup" + Decimal(k), Decimal(g.numQueues) + "*0x" + Hex(g.flags))
  }

  /** The info pairs one successful query of `groups` adds: the count, then one pair per group. */
  function CqInfos(groups: seq<CqGroup>): (r: seq<Info>)
    ensures |r| == |groups| + 1
  {
    [Info("LevelZeroCQGroups", Decimal(|groups|))] + seq(|groups|, k requires 0 <= k < |groups| => CqGroupInfo(k, groups[k]))
  }

  /** Each group has its own key, and none is the count's key: one entry per group. */
  lemma CqGroupKeysDistinct(k1: nat, k2: nat, g1: CqGroup, g2: CqGroup)
    ensures CqGroupInfo(k1, g1).key != "LevelZeroCQGroups"
    ensures k1 != k2 ==> CqGroupInfo(k1, g1).key != CqGroupInfo(k2, g2).key
  {
    var p := "LevelZeroCQGroup";
    var key1, key2 := CqGroupInfo(k1, g1).key, CqGroupInfo(k2, g2).key;
    assert key1[|p|] == Decimal(k1)[0];
    assert IsDigit(key1[|p|]);
    if key1 == key2 {
      assert Decimal(k1) == key1[|p|..] == key2[|p|..] == Decimal(k2);
      DecimalInjective(k1, k2);
    }
  }

  /**
   * `hwloc__levelzero_cqprops_get`. `groups` is what the second query
   * returned; `None` covers a failed or empty first query, a failed
   * allocation and a failed second query, none of which adds anything.
   */
  method CqPropsGet(osdev: OsDev, groups: Option<seq<CqGroup>>)
    modifies osdev
    ensures groups.None? ==> osdev.infos == old(osdev.infos)
    ensures groups.Some? ==> osdev.infos == old(osdev.infos) + CqInfos(groups.value)
    ensures osdev.parent == old(osdev.parent)
  {
    if groups.None? {
      return;
    }
    var gs := groups.value;
    ghost var before := osdev.infos;
    osdev.AddInfo("LevelZeroCQGroups", Decimal(|gs|));
    CqInfosCount(before, gs);
    var k := 0;
    while k < |gs|
      invariant 0 <= k <= |gs|
      invariant osdev.infos == before + CqInfos(gs)[..k + 1]
      invariant osdev.parent == old(osdev.parent)
    {
      var info := CqGroupInfo(k, gs[k]);
      osdev.AddInfo(info.key, info.value);
      CqInfosStep(before, gs, k);
      k := k + 1;
    }
    assert CqInfos(gs)[..|gs| + 1] == CqInfos(gs);
  }

  /** The count entry alone is the first entry of `CqInfos`. */
  lemma CqInfosCount(before: seq<Info>, gs: seq<CqGroup>)
    ensures before + [Info("LevelZeroCQGroups", Decimal(|gs|))] == before + CqInfos(gs)[..1]
  {
    assert CqInfos(gs)[..1] == [Info("LevelZeroCQGroups", Decimal(|gs|))];
  }

  /** Group `k`'s entry follows the entries before it in `CqInfos`. */
  lemma CqInfosStep(before: seq<Info>, gs: seq<CqGroup>, k: nat)
    requires k < |gs|
    ensures before + CqInfos(gs)[..k + 1] + [CqGroupInfo(k, gs[k])] == before + CqInfos(gs)[..k + 2]
  {
    assert CqInfos(gs)[..k + 2] == CqInfos(gs)[..k + 1] + [CqGroupInfo(k, gs[k])];
  }

  /** `ze<zeidx>`, in a 13-byte buffer. */
  function DeviceName(zeidx: nat): string
  {
    Truncate("ze" + Decimal(zeidx), 13)
  }

  /** `ze<zeidx>.<k>`, in the same 13-byte buffer (longer names are cut to 12 characters). */
  function SubdeviceName(zeidx: nat, k: nat): string
  {
    Truncate("ze" + Decimal(zeidx) + "." + Decimal(k), 13)
  }

  /** `zeidx` is a 32-bit counter: its names are never cut, and distinct indexes name distinct devices. */
  lemma DeviceNamesDistinct(z1: nat, z2: nat)
    requires z1 < 0x1_0000_0000 && z2 < 0x1_0000_0000
    ensures DeviceName(z1) == "ze" + Decimal(z1)
    ensures z1 != z2 ==> DeviceName(z1) != DeviceName(z2)
  {
    DecimalLength(z1, 10, Pow10(10));
    DecimalLength(z2, 10, Pow10(10));
    if DeviceName(z1) == DeviceName(z2) {
      assert Decimal(z1) == DeviceName(z1)[2..] == DeviceName(z2)[2..] == Decimal(z2);
      DecimalInjective(z1, z2);
    }
  }

  /** A device name and a sub-device name never coincide: only the latter holds a '.'. */
  lemma DeviceAndSubdeviceNamesDiffer(z1: nat, z2: nat, k: nat)
    requires z1 < 0x1_0000_0000
    ensures '.' !in DeviceName(z1)
    ensures |Decimal(z2)| <= 9 ==> '.' in SubdeviceName(z2, k)
  {
    DeviceNamesDistinct(z1, z1);
    assert forall c :: c in Decimal(z1) ==> IsDigit(c);
    var full := "ze" + Decimal(z2) + "." + Decimal(k);
    if |Decimal(z2)| <= 9 {
      assert full[2 + |Decimal(z2)|] == '.';
      assert SubdeviceName(z2, k)[2 + |Decimal(z2)|] == '.';
    }
  }
}
