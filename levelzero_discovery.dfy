/**
 * The discovery loop of the Level Zero backend
 * (`hwloc_levelzero_discover`): for every driver and every device whose
 * properties can be read, an OS device named `ze<zeidx>` and its
 * sub-devices `ze<zeidx>.<k>` are created, described, inserted and
 * registered (each device followed by its sub-devices); ports are
 * collected across all devices, and the bandwidth matrix is built once
 * at the end.
 */
module LevelZeroDiscovery {
  import opened Wrappers
  import opened Format
  import opened LevelZeroRegistry
  import opened LevelZeroPorts
  import opened LevelZeroBandwidth
  import opened LevelZeroDevice
  import opened LevelZeroMemory

  /** What the vendor library reports for one sub-device: its queue groups. */
  datatype SubdeviceInput = SubdeviceInput(cq: Option<seq<CqGroup>>)

  /**
   * What the vendor library reports for one device. `props` is `None`
   * when `zesDeviceGetProperties` fails; `subdevices` has one entry per
   * sub-device the `zeDeviceGetSubDevices` query hands back (that query
   * writes its own count over the declared one, and no sub-device is
   * asked for when none is declared); `subBuffersOk` is whether the two sub-device
   * arrays could be allocated; `portsGrowOk` is whether the port table
   * can be extended when this device's ports do not fit, and
   * `portHandlesOk` whether the buffer of port handles is allocated;
   * `pciParent` is the PCI object found from the device's bus id (`None`
   * when the PCI query fails or nothing matches).
   */
  datatype DeviceInput = DeviceInput(
    props: Option<DeviceProps>,
    cq: Option<seq<CqGroup>>,
    subdevices: seq<SubdeviceInput>,
    subBuffersOk: bool,
    memory: Option<seq<Option<MemProps>>>,
    ports: Option<seq<PortQuery>>,
    portsGrowOk: bool,
    portHandlesOk: bool,
    pciParent: Option<Handle>)

  /** A device together with its driver index and its index within that driver. */
  datatype Located = Located(driver: nat, index: nat, input: DeviceInput)

  /** The number of sub-devices actually created: 0 when the arrays could not be allocated. */
  function NrSubs(d: DeviceInput): nat
  {
    if d.subBuffersOk then |d.subdevices| else 0
  }

  function OptCqInfos(groups: Option<seq<CqGroup>>): seq<Info>
  {
    if groups.Some? then CqInfos(groups.value) else []
  }

  function MemList(d: DeviceInput): seq<Option<MemProps>>
  {
    if d.memory.Some? then d.memory.value else []
  }

  /** `n` consecutive handles starting at `base`. */
  function Handles(base: Handle, n: nat): (r: seq<Handle>)
    ensures |r| == n
  {
    if n == 0 then [] else Handles(base, n - 1) + [base + n - 1]
  }

  /** Consecutive runs of handles join into one run. */
  lemma {:induction false} HandlesConcat(base: Handle, m: nat, n: nat)
    ensures Handles(base, m) + Handles(base + m, n) == Handles(base, m + n)
    decreases n
  {
    if n > 0 {
      HandlesConcat(base, m, n - 1);
      assert Handles(base, m) + Handles(base + m, n) == (Handles(base, m) + Handles(base + m, n - 1)) + [base + m + n - 1];
    } else {
      assert Handles(base, m) + [] == Handles(base, m);
    }
  }

  /** Device `d` has ports that do not fit in the `slots - used` free slots of the port table. */
  predicate MustGrow(d: DeviceInput, used: nat, slots: nat)
  {
    d.ports.Some? && d.ports.value != [] && slots - used < |d.ports.value|
  }

  /**
   * The ports device `d` contributes when its object has handle `h` (its
   * sub-devices follow it) and `used` of the table's `slots` slots are
   * taken: none when it reports no port, when a needed extension fails,
   * or when the buffer of port handles cannot be allocated.
   */
  function PortsOf(d: DeviceInput, h: Handle, used: nat, slots: nat): seq<Port>
  {
    if d.ports.Some? && d.ports.value != [] && (!MustGrow(d, used, slots) || d.portsGrowOk) && d.portHandlesOk
    then Accepted(h, Handles(h + 1, NrSubs(d)), d.ports.value)
    else []
  }

  /** The port table's slot count after device `d`: extended by eight slots per port when it had to grow and could. */
  function SlotsAfter(d: DeviceInput, used: nat, slots: nat): nat
  {
    if MustGrow(d, used, slots) && d.portsGrowOk then slots + 8 * |d.ports.value| else slots
  }

  /** Where the device object of `d` is inserted: below its PCI device when one was found, else below the root. */
  function DeviceParent(d: DeviceInput): ParentLink
  {
    if d.pciParent.Some? then UnderPci(d.pciParent.value) else UnderRoot
  }

  /** All info pairs of the device object of `l`: header, queue groups, then the memory totals. */
  function DeviceInfos(l: Located): seq<Info>
    requires Ok(l)
  {
    DeviceHeaderInfos(l.driver, l.index, l.input.props.value) + OptCqInfos(l.input.cq) + RootMemInfos(MemList(l.input))
  }

  /** All info pairs of sub-device `k` of `d`: backend, queue groups, then its own memory modules. */
  function SubdeviceInfos(d: DeviceInput, k: nat): seq<Info>
    requires k < |d.subdevices|
  {
    [Info("Backend", "LevelZero")] + OptCqInfos(d.subdevices[k].cq) + SubMemInfos(MemList(d), NrSubs(d), k)
  }

  /** Which object a registry slot holds: the device object of `l`, or sub-device `k` of `d` below the device `device`. */
  datatype View =
    | DeviceView(l: Located)
    | SubdeviceView(d: DeviceInput, device: Handle, k: nat)

  /** The info pairs and the parent an object described by `v` holds once discovery is done with it. */
  ghost predicate Holds(o: OsDev, v: View)
    reads o
  {
    match v
    case DeviceView(l) => Ok(l) && o.infos == DeviceInfos(l) && o.parent == DeviceParent(l.input)
    case SubdeviceView(d, device, k) =>
      k < |d.subdevices| && o.infos == SubdeviceInfos(d, k) && o.parent == UnderDevice(device)
  }

  /** The views of the first `n` sub-devices of `d`, inserted below the device with handle `device`. */
  function SubViews(d: DeviceInput, device: Handle, n: nat): (r: seq<View>)
    ensures |r| == n && forall k :: 0 <= k < n ==> r[k] == SubdeviceView(d, device, k)
  {
    if n == 0 then [] else SubViews(d, device, n - 1) + [SubdeviceView(d, device, n - 1)]
  }

  /** The devices of driver `i`, or none when its device list could not be obtained. */
  function Locate(i: nat, devs: Option<seq<DeviceInput>>): (r: seq<Located>)
    ensures devs.None? ==> r == []
    ensures devs.Some? ==> |r| == |devs.value| && forall j :: 0 <= j < |r| ==> r[j] == Located(i, j, devs.value[j])
  {
    if devs.None? then [] else seq(|devs.value|, j requires 0 <= j < |devs.value| => Located(i, j, devs.value[j]))
  }

  /** All devices of all drivers, in enumeration order. */
  function Flatten(drivers: seq<Option<seq<DeviceInput>>>): seq<Located>
  {
    if drivers == [] then []
    else Flatten(drivers[..|drivers| - 1]) + Locate(|drivers| - 1, drivers[|drivers| - 1])
  }

  predicate Ok(l: Located) { l.input.props.Some? }

  /** The views of the objects device `l` creates when its object gets handle `h`: itself, then its sub-devices. */
  function ViewsOf(l: Located, h: Handle): seq<View>
  {
    if Ok(l) then [DeviceView(l)] + SubViews(l.input, h, NrSubs(l.input)) else []
  }

  /** The names of the first `n` sub-devices of device `z`. */
  function SubNames(z: nat, n: nat): (r: seq<string>)
    ensures |r| == n && forall k :: 0 <= k < n ==> r[k] == SubdeviceName(z, k)
  {
    if n == 0 then [] else SubNames(z, n - 1) + [SubdeviceName(z, n - 1)]
  }

  /** The names device `l` registers when it is the one numbered `z`: itself, then its sub-devices. */
  function NamesOf(l: Located, z: nat): seq<string>
  {
    if Ok(l) then [DeviceName(z)] + SubNames(z, NrSubs(l.input)) else []
  }

  /**
   * The state of the discovery loop: `zeidx`, the names and the views of
   * the registered objects in registry order, the port table and its
   * number of allocated slots.
   */
  datatype Outcome = Outcome(zeidx: nat, names: seq<string>, views: seq<View>, ports: seq<Port>, slots: nat)

  /** The loop state after one more device `l`, objects being numbered from `base`. */
  function Next(o: Outcome, l: Located, base: Handle): Outcome
  {
    var h := base + |o.names|;
    if Ok(l) then
      Outcome(o.zeidx + 1,
              o.names + NamesOf(l, o.zeidx),
              o.views + ViewsOf(l, h),
              o.ports + PortsOf(l.input, h, |o.ports|, o.slots),
              SlotsAfter(l.input, |o.ports|, o.slots))
    else o
  }

  /** A device whose properties were read adds its names, views and ports, and may extend the table. */
  lemma NextCreates(o: Outcome, l: Located, base: Handle, h: Handle)
    requires Ok(l) && h == base + |o.names|
    ensures Next(o, l, base).zeidx == o.zeidx + 1
    ensures Next(o, l, base).names == o.names + NamesOf(l, o.zeidx)
    ensures Next(o, l, base).views == o.views + ViewsOf(l, h)
    ensures Next(o, l, base).ports == o.ports + PortsOf(l.input, h, |o.ports|, o.slots)
    ensures Next(o, l, base).slots == SlotsAfter(l.input, |o.ports|, o.slots)
  {
  }

  /** The loop state after the devices `ls`; there is one view per registered name. */
  function Expected(ls: seq<Located>, base: Handle): (o: Outcome)
    ensures |o.views| == |o.names|
  {
    if ls == [] then Outcome(0, [], [], [], 0)
    else Next(Expected(ls[..|ls| - 1], base), ls[|ls| - 1], base)
  }

  /** The loop state advances by one device at a time. */
  lemma {:induction false} ExpectedStep(before: seq<Located>, l: Located, base: Handle)
    ensures Expected(before + [l], base) == Next(Expected(before, base), l, base)
  {
    var s := before + [l];
    assert s[..|s| - 1] == before;
  }

  /**
   * A device whose properties cannot be read is invisible: it changes
   * neither the numbering, nor the names, nor the ports of the devices
   * after it.
   */
  lemma {:induction false} SkippedDeviceIsInvisible(a: seq<Located>, l: Located, b: seq<Located>, base: Handle)
    requires !Ok(l)
    ensures Expected(a + [l] + b, base) == Expected(a + b, base)
    decreases |b|
  {
    if b == [] {
      assert a + [l] + b == a + [l];
      assert a + b == a;
      ExpectedStep(a, l, base);
    } else {
      var b' := b[..|b| - 1];
      var last := b[|b| - 1];
      assert a + [l] + b == (a + [l] + b') + [last];
      assert a + b == (a + b') + [last];
      ExpectedStep(a + [l] + b', last, base);
      ExpectedStep(a + b', last, base);
      SkippedDeviceIsInvisible(a, l, b', base);
    }
  }

  /**
   * Every device that is created is named `ze<z>`, `z` being the number
   * of created devices before it, and sits in the registry right after
   * the objects of those devices, with all its info pairs and below its
   * PCI device or the root.
   */
  lemma {:induction false} DeviceNameAtItsPlace(ls: seq<Located>, p: nat, base: Handle)
    requires p < |ls| && Ok(ls[p])
    ensures |Expected(ls[..p], base).names| < |Expected(ls, base).names|
    ensures Expected(ls, base).names[|Expected(ls[..p], base).names|] == DeviceName(Expected(ls[..p], base).zeidx)
    ensures Expected(ls, base).views[|Expected(ls[..p], base).names|] == DeviceView(ls[p])
    decreases |ls|
  {
    if p < |ls| - 1 {
      var prefix := ls[..|ls| - 1];
      assert prefix[..p] == ls[..p];
      DeviceNameAtItsPlace(prefix, p, base);
    } else {
      assert ls[..p] == ls[..|ls| - 1];
    }
  }

  /** What sub-device `k` of device `zeidx` holds once created, before memory and insertion. */
  ghost predicate FreshSubdevice(o: OsDev, zeidx: nat, k: nat, h: Handle, cq: Option<seq<CqGroup>>)
    reads o
  {
    && o.handle == h && o.name == SubdeviceName(zeidx, k) && o.subtype == "LevelZero" && o.kind == Coprocessor
    && o.infos == [Info("Backend", "LevelZero")] + OptCqInfos(cq)
    && o.parent == Unattached
  }

  /** One iteration of the sub-device loop: a new object named `ze<zeidx>.<k>` with its queue groups. */
  method NewSubdevice(zeidx: nat, k: nat, h: Handle, cq: Option<seq<CqGroup>>) returns (sub: OsDev)
    ensures fresh(sub) && FreshSubdevice(sub, zeidx, k, h, cq)
  {
    sub := new OsDev(h, SubdeviceName(zeidx, k), "LevelZero", Coprocessor);
    sub.AddInfo("Backend", "LevelZero");
    CqPropsGet(sub, cq);
  }

  /** Creates the `|subInputs|` sub-devices of device `zeidx`, with handles `next + 1 ...`. */
  method CreateSubdevices(zeidx: nat, next: Handle, subInputs: seq<SubdeviceInput>) returns (subs: seq<OsDev>)
    ensures |subs| == |subInputs|
    ensures forall k :: 0 <= k < |subs| ==>
      fresh(subs[k]) && FreshSubdevice(subs[k], zeidx, k, next + 1 + k, subInputs[k].cq)
    ensures forall a, b :: 0 <= a < b < |subs| ==> subs[a] != subs[b]
  {
    subs := [];
    var k := 0;
    while k < |subInputs|
      invariant 0 <= k <= |subInputs| && |subs| == k
      invariant forall m :: 0 <= m < k ==>
        fresh(subs[m]) && FreshSubdevice(subs[m], zeidx, m, next + 1 + m, subInputs[m].cq)
      invariant forall a, b :: 0 <= a < b < k ==> subs[a] != subs[b]
    {
      var sub := NewSubdevice(zeidx, k, next + 1 + k, subInputs[k].cq);
      subs := subs + [sub];
      k := k + 1;
    }
  }

  /** A new device object: name, type, the header attributes and the queue-group attributes. */
  method DescribeDevice(i: nat, j: nat, prop: DeviceProps, cq: Option<seq<CqGroup>>, zeidx: nat, next: Handle)
    returns (osdev: OsDev)
    ensures fresh(osdev) && osdev.handle == next && osdev.parent == Unattached
    ensures osdev.name == DeviceName(zeidx) && osdev.subtype == "LevelZero" && osdev.kind == Coprocessor
    ensures osdev.infos == DeviceHeaderInfos(i, j, prop) + OptCqInfos(cq)
  {
    osdev := new OsDev(next, DeviceName(zeidx), "LevelZero", Coprocessor);
    AddHeaderInfos(osdev, i, j, prop);
    CqPropsGet(osdev, cq);
  }

  /** The backend, driver-index and device-index attributes of a new device, then the vendor strings that are known. */
  method AddHeaderInfos(osdev: OsDev, i: nat, j: nat, prop: DeviceProps)
    requires osdev.infos == []
    modifies osdev
    ensures osdev.infos == DeviceHeaderInfos(i, j, prop)
    ensures osdev.parent == old(osdev.parent)
  {
    osdev.AddInfo("Backend", "LevelZero");
    osdev.AddInfo("LevelZeroDriverIndex", Decimal(i));
    osdev.AddInfo("LevelZeroDriverDeviceIndex", Decimal(j));
    AddIfKnown(osdev, prop.vendorName, "LevelZeroVendor", prop.vendorName);
    AddIfKnown(osdev, prop.vendorName, "LevelZeroModel", prop.modelName);
    AddIfKnown(osdev, prop.brandName, "LevelZeroBrand", prop.brandName);
    AddIfKnown(osdev, prop.serialNumber, "LevelZeroSerialNumber", prop.serialNumber);
    AddIfKnown(osdev, prop.boardNumber, "LevelZeroBoardNumber", prop.boardNumber);
  }

  /** `if (strcmp(gate, "Unknown")) hwloc_obj_add_info(osdev, key, value)`. */
  method AddIfKnown(osdev: OsDev, gate: string, key: string, value: string)
    modifies osdev
    ensures osdev.infos == old(osdev.infos) + IfKnown(gate, key, value)
    ensures osdev.parent == old(osdev.parent)
  {
    if gate != Unknown {
      osdev.AddInfo(key, value);
    }
  }

  /** Inserts the device under `parent` and its sub-devices under it, registering each in that order. */
  method InsertAndRegister(registry: OsdevArray, osdev: OsDev, subs: seq<OsDev>, parent: ParentLink)
    requires registry.Valid() && osdev !in subs
    requires forall k :: 0 <= k < |subs| ==> subs[k].handle == osdev.handle + 1 + k
    modifies registry, registry.objs, osdev, subs
    ensures registry.Valid() && (registry.objs == old(registry.objs) || fresh(registry.objs))
    ensures registry.Contents() == old(registry.Contents()) + Handles(osdev.handle, 1 + |subs|)
    ensures osdev.parent == parent
    ensures forall k :: 0 <= k < |subs| ==> subs[k].parent == UnderDevice(osdev.handle)
    ensures osdev.infos == old(osdev.infos)
    ensures forall k :: 0 <= k < |subs| ==> subs[k].infos == old(subs[k].infos)
  {
    ghost var before := registry.Contents();
    osdev.parent := parent;
    Register(registry, osdev.handle);
    InsertSubdevices(registry, osdev.handle, subs);
    DeviceThenSubdevices(before, osdev.handle, |subs|);
  }

  /** Registering a device and then its `n` sub-devices registers the run of `1 + n` handles from the device's. */
  lemma DeviceThenSubdevices(before: seq<Handle>, h: Handle, n: nat)
    ensures before + [h] + Handles(h + 1, n) == before + Handles(h, 1 + n)
  {
    HandlesConcat(h, 1, n);
    assert Handles(h, 1) == [h];
  }

  /** The sub-device part of the insertion: each below `device`, registered right after it. */
  method InsertSubdevices(registry: OsdevArray, device: Handle, subs: seq<OsDev>)
    requires registry.Valid()
    requires forall k :: 0 <= k < |subs| ==> subs[k].handle == device + 1 + k
    modifies registry, registry.objs, subs
    ensures registry.Valid() && (registry.objs == old(registry.objs) || fresh(registry.objs))
    ensures registry.Contents() == old(registry.Contents()) + Handles(device + 1, |subs|)
    ensures forall k :: 0 <= k < |subs| ==> subs[k].parent == UnderDevice(device)
    ensures forall k :: 0 <= k < |subs| ==> subs[k].infos == old(subs[k].infos)
  {
    var k := 0;
    while k < |subs|
      invariant 0 <= k <= |subs|
      invariant registry.Valid() && (registry.objs == old(registry.objs) || fresh(registry.objs))
      invariant registry.Contents() == old(registry.Contents()) + Handles(device + 1, k)
      invariant forall m :: 0 <= m < k ==> subs[m].parent == UnderDevice(device)
      invariant forall m :: 0 <= m < |subs| ==> subs[m].infos == old(subs[m].infos)
    {
      InsertSubdevice(registry, device, subs[k]);
      assert Handles(device + 1, k + 1) == Handles(device + 1, k) + [subs[k].handle];
      k := k + 1;
    }
  }

  /** `hwloc__levelzero_osdev_array_add` as discovery calls it: growing succeeds and the result is not looked at. */
  method Register(registry: OsdevArray, h: Handle)
    requires registry.Valid()
    modifies registry, registry.objs
    ensures registry.Valid() && (registry.objs == old(registry.objs) || fresh(registry.objs))
    ensures registry.Contents() == old(registry.Contents()) + [h]
  {
    var _ := registry.Add(h, true);
  }

  /** Inserts one sub-device below the device `device` and registers it. */
  method InsertSubdevice(registry: OsdevArray, device: Handle, sub: OsDev)
    requires registry.Valid()
    modifies registry, registry.objs, sub
    ensures registry.Valid() && (registry.objs == old(registry.objs) || fresh(registry.objs))
    ensures registry.Contents() == old(registry.Contents()) + [sub.handle]
    ensures sub.parent == UnderDevice(device) && sub.infos == old(sub.infos)
  {
    sub.parent := UnderDevice(device);
    Register(registry, sub.handle);
  }

  /** The device object of `d`, numbered `zeidx`, with handle `h`, with all its info pairs. */
  ghost predicate DeviceBuilt(o: OsDev, i: nat, j: nat, d: DeviceInput, zeidx: nat, h: Handle)
    requires d.props.Some?
    reads o
  {
    && o.handle == h && o.name == DeviceName(zeidx) && o.subtype == "LevelZero" && o.kind == Coprocessor
    && o.infos == DeviceInfos(Located(i, j, d))
  }

  /** The device object of `d` once inserted: below its PCI device when one was found, else below the root. */
  ghost predicate DeviceDone(o: OsDev, i: nat, j: nat, d: DeviceInput, zeidx: nat, h: Handle)
    requires d.props.Some?
    reads o
  {
    && DeviceBuilt(o, i, j, d, zeidx, h)
    && o.parent == DeviceParent(d)
  }

  /** Sub-device `k` of `d` (device numbered `zeidx`, handle `device`), with all its info pairs. */
  ghost predicate SubdeviceBuilt(o: OsDev, d: DeviceInput, zeidx: nat, k: nat, device: Handle)
    requires k < |d.subdevices|
    reads o
  {
    && o.handle == device + 1 + k && o.name == SubdeviceName(zeidx, k) && o.subtype == "LevelZero" && o.kind == Coprocessor
    && o.infos == SubdeviceInfos(d, k)
  }

  /** Sub-device `k` of `d` once inserted below the device. */
  ghost predicate SubdeviceDone(o: OsDev, d: DeviceInput, zeidx: nat, k: nat, device: Handle)
    requires k < |d.subdevices|
    reads o
  {
    SubdeviceBuilt(o, d, zeidx, k, device) && o.parent == UnderDevice(device)
  }

  /**
   * The body of the device loop for a device whose properties were read:
   * the device (handle `next`) and its sub-devices are created and
   * described, their memory and ports collected, and they are inserted
   * and registered, device first.
   */
  method DiscoverDevice(i: nat, j: nat, d: DeviceInput, zeidx: nat, next: Handle,
                        registry: OsdevArray, hports: PortTable) returns (osdev: OsDev, subs: seq<OsDev>)
    requires d.props.Some?
    requires registry.Valid() && hports.Valid()
    modifies registry, registry.objs, hports, hports.ports
    ensures registry.Valid() && hports.Valid()
    ensures registry.objs == old(registry.objs) || fresh(registry.objs)
    ensures hports.ports == old(hports.ports) || fresh(hports.ports)
    ensures fresh(osdev) && DeviceDone(osdev, i, j, d, zeidx, next)
    ensures |subs| == NrSubs(d)
    ensures forall k :: 0 <= k < |subs| ==> fresh(subs[k]) && SubdeviceDone(subs[k], d, zeidx, k, next)
    ensures osdev.handle == next && osdev.name == DeviceName(zeidx)
    ensures forall k :: 0 <= k < |subs| ==> subs[k].handle == next + 1 + k && subs[k].name == SubdeviceName(zeidx, k)
    ensures registry.Contents() == old(registry.Contents()) + Handles(next, 1 + |subs|)
    ensures hports.Contents() == old(hports.Contents()) + PortsOf(d, next, old(hports.nr), old(hports.ports.Length))
    ensures hports.ports.Length == SlotsAfter(d, old(hports.nr), old(hports.ports.Length))
  {
    osdev, subs := BuildDevice(i, j, d, zeidx, next);
    CollectPorts(hports, d, next);
    InsertAndRegister(registry, osdev, subs, DeviceParent(d));
  }

  /** `hwloc__levelzero_ports_get` for device `d`, whose object has handle `next` and whose sub-devices follow it. */
  method CollectPorts(hports: PortTable, d: DeviceInput, next: Handle)
    requires hports.Valid()
    modifies hports, hports.ports
    ensures hports.Valid() && (hports.ports == old(hports.ports) || fresh(hports.ports))
    ensures hports.Contents() == old(hports.Contents()) + PortsOf(d, next, old(hports.nr), old(hports.ports.Length))
    ensures hports.ports.Length == SlotsAfter(d, old(hports.nr), old(hports.ports.Length))
  {
    hports.PortsGet(next, Handles(next + 1, NrSubs(d)), d.ports, d.portsGrowOk, d.portHandlesOk);
  }

  /** The objects of one device before insertion: described, sub-devices created, memory collected. */
  method BuildDevice(i: nat, j: nat, d: DeviceInput, zeidx: nat, next: Handle) returns (osdev: OsDev, subs: seq<OsDev>)
    requires d.props.Some?
    ensures fresh(osdev) && DeviceBuilt(osdev, i, j, d, zeidx, next) && osdev !in subs
    ensures |subs| == NrSubs(d)
    ensures forall k :: 0 <= k < |subs| ==> fresh(subs[k]) && SubdeviceBuilt(subs[k], d, zeidx, k, next)
  {
    osdev := DescribeDevice(i, j, d.props.value, d.cq, zeidx, next);
    subs := [];
    if |d.subdevices| > 0 && d.subBuffersOk {
      subs := CreateSubdevices(zeidx, next, d.subdevices);
    }
    MemoryGet(osdev, subs, d.memory);
  }

  /** The names of the objects `cs`, in order. */
  function ObjNames(cs: seq<OsDev>): (r: seq<string>)
    ensures |r| == |cs|
  {
    if cs == [] then [] else ObjNames(cs[..|cs| - 1]) + [cs[|cs| - 1].name]
  }

  lemma {:induction false} ObjNamesAt(cs: seq<OsDev>)
    ensures forall p :: 0 <= p < |cs| ==> ObjNames(cs)[p] == cs[p].name
    decreases |cs|
  {
    if cs != [] {
      ObjNamesAt(cs[..|cs| - 1]);
    }
  }

  /** The handles of the objects `cs`, in order. */
  function ObjHandles(cs: seq<OsDev>): (r: seq<Handle>)
    ensures |r| == |cs|
  {
    if cs == [] then [] else ObjHandles(cs[..|cs| - 1]) + [cs[|cs| - 1].handle]
  }

  lemma {:induction false} ObjHandlesAt(cs: seq<OsDev>)
    ensures forall p :: 0 <= p < |cs| ==> ObjHandles(cs)[p] == cs[p].handle
    decreases |cs|
  {
    if cs != [] {
      ObjHandlesAt(cs[..|cs| - 1]);
    }
  }

  /** The objects created so far, the registered handles and the port table (contents and slots) agree with the loop state `o`. */
  ghost predicate Agrees(o: Outcome, zeidx: nat, firstHandle: Handle,
                         registered: seq<Handle>, ports: seq<Port>, slots: nat, created: seq<OsDev>)
  {
    && zeidx == o.zeidx
    && ObjNames(created) == o.names
    && ObjHandles(created) == Handles(firstHandle, |created|)
    && registered == Handles(firstHandle, |created|)
    && ports == o.ports
    && slots == o.slots
  }

  /** The objects `cs` hold the info pairs and parents `views` describe, one for one. */
  ghost predicate Shows(cs: seq<OsDev>, views: seq<View>)
    reads cs
  {
    |cs| == |views| && forall p :: 0 <= p < |cs| ==> Holds(cs[p], views[p])
  }

  lemma ShowsAppend(a: seq<OsDev>, va: seq<View>, b: seq<OsDev>, vb: seq<View>)
    requires Shows(a, va) && Shows(b, vb)
    ensures Shows(a + b, va + vb)
  {
    forall p | 0 <= p < |a + b|
      ensures Holds((a + b)[p], (va + vb)[p])
    {
      if p >= |a| {
        assert (a + b)[p] == b[p - |a|] && (va + vb)[p] == vb[p - |a|];
      }
    }
  }

  /** The objects created so far, the registry and the port table agree with the loop state `o`. */
  ghost predicate Reached(o: Outcome, zeidx: nat, firstHandle: Handle,
                          registry: OsdevArray, hports: PortTable, created: seq<OsDev>)
    reads registry, registry.objs, hports, hports.ports, created
  {
    && registry.Valid() && hports.Valid()
    && Agrees(o, zeidx, firstHandle, registry.Contents(), hports.Contents(), hports.ports.Length, created)
    && Shows(created, o.views)
  }

  /** One iteration of the device loop: device `l`, the loop state being `o` before it. */
  method DiscoverOne(l: Located, ghost o: Outcome, zeidx0: nat, firstHandle: Handle,
                     registry: OsdevArray, hports: PortTable, created0: seq<OsDev>)
    returns (zeidx: nat, created: seq<OsDev>)
    requires Reached(o, zeidx0, firstHandle, registry, hports, created0)
    modifies registry, registry.objs, hports, hports.ports
    ensures Reached(Next(o, l, firstHandle), zeidx, firstHandle, registry, hports, created)
    ensures registry.objs == old(registry.objs) || fresh(registry.objs)
    ensures hports.ports == old(hports.ports) || fresh(hports.ports)
  {
    if l.input.props.None? {
      return zeidx0, created0;
    }
    var next := firstHandle + |created0|;
    ghost var registered, ports, slots := registry.Contents(), hports.Contents(), hports.ports.Length;
    assert zeidx0 == o.zeidx && ObjNames(created0) == o.names && ports == o.ports && slots == o.slots;
    assert ObjHandles(created0) == Handles(firstHandle, |created0|) && registered == Handles(firstHandle, |created0|);
    var objs := CreateOne(l, zeidx0, next, registry, hports);
    created := created0 + objs;
    zeidx := zeidx0 + 1;
    StepReached(o, l, zeidx0, firstHandle, next, registry, hports, registered, ports, slots, created0, objs);
  }

  /** The registry, the port table and the created objects follow the loop state across one created device. */
  lemma StepReached(o: Outcome, l: Located, zeidx0: nat, firstHandle: Handle,
                    next: Handle, registry: OsdevArray, hports: PortTable,
                    registered: seq<Handle>, ports: seq<Port>, slots: nat, created0: seq<OsDev>, objs: seq<OsDev>)
    requires Ok(l) && next == firstHandle + |created0| && registry.Valid() && hports.Valid()
    requires zeidx0 == o.zeidx && ObjNames(created0) == o.names && ports == o.ports && slots == o.slots
    requires ObjHandles(created0) == Handles(firstHandle, |created0|) && registered == Handles(firstHandle, |created0|)
    requires Shows(created0, o.views)
    requires ObjNames(objs) == NamesOf(l, zeidx0) && ObjHandles(objs) == Handles(next, |objs|)
    requires registry.Contents() == registered + Handles(next, |objs|)
    requires hports.Contents() == ports + PortsOf(l.input, next, |ports|, slots)
    requires hports.ports.Length == SlotsAfter(l.input, |ports|, slots)
    requires Shows(objs, ViewsOf(l, next))
    ensures Reached(Next(o, l, firstHandle), zeidx0 + 1, firstHandle, registry, hports, created0 + objs)
  {
    StepAgrees(o, l, zeidx0, firstHandle, next, registered, ports, slots, created0, objs);
    StepShows(o, l, firstHandle, next, created0, objs);
  }

  /** The created objects keep showing the loop state's views across one created device. */
  lemma StepShows(o: Outcome, l: Located, firstHandle: Handle, next: Handle, created0: seq<OsDev>, objs: seq<OsDev>)
    requires Ok(l) && |o.names| == |created0| && next == firstHandle + |created0|
    requires Shows(created0, o.views) && Shows(objs, ViewsOf(l, next))
    ensures Shows(created0 + objs, Next(o, l, firstHandle).views)
  {
    NextCreates(o, l, firstHandle, next);
    ShowsAppend(created0, o.views, objs, ViewsOf(l, next));
  }

  /** The created objects, registry and port table follow the loop state across one created device. */
  lemma StepAgrees(o: Outcome, l: Located, zeidx: nat, firstHandle: Handle, next: Handle,
                   registered: seq<Handle>, ports: seq<Port>, slots: nat, created0: seq<OsDev>, objs: seq<OsDev>)
    requires Ok(l) && next == firstHandle + |created0| && zeidx == o.zeidx && ObjNames(created0) == o.names
    requires ObjHandles(created0) == Handles(firstHandle, |created0|) && registered == Handles(firstHandle, |created0|)
    requires ports == o.ports && slots == o.slots
    requires ObjNames(objs) == NamesOf(l, zeidx) && ObjHandles(objs) == Handles(next, |objs|)
    ensures Agrees(Next(o, l, firstHandle), zeidx + 1, firstHandle,
                   registered + Handles(next, |objs|),
                   ports + PortsOf(l.input, next, |ports|, slots),
                   SlotsAfter(l.input, |ports|, slots), created0 + objs)
  {
    StepNames(o, l, firstHandle, next, created0, objs);
    StepHandles(firstHandle, next, registered, created0, objs);
    StepPorts(o, l, firstHandle, next, ports, slots);
  }

  /** One created device extends the names of the loop state by its own. */
  lemma StepNames(o: Outcome, l: Located, firstHandle: Handle, next: Handle, created0: seq<OsDev>, objs: seq<OsDev>)
    requires Ok(l) && next == firstHandle + |created0| && ObjNames(created0) == o.names
    requires ObjNames(objs) == NamesOf(l, o.zeidx)
    ensures Next(o, l, firstHandle).zeidx == o.zeidx + 1
    ensures ObjNames(created0 + objs) == Next(o, l, firstHandle).names
  {
    NextCreates(o, l, firstHandle, next);
    ObjNamesAppend(created0, objs);
  }

  /** One created device extends the handles, created and registered, by the next consecutive ones. */
  lemma StepHandles(firstHandle: Handle, next: Handle, registered: seq<Handle>, created0: seq<OsDev>, objs: seq<OsDev>)
    requires next == firstHandle + |created0|
    requires ObjHandles(created0) == Handles(firstHandle, |created0|) && registered == Handles(firstHandle, |created0|)
    requires ObjHandles(objs) == Handles(next, |objs|)
    ensures ObjHandles(created0 + objs) == Handles(firstHandle, |created0 + objs|)
    ensures registered + Handles(next, |objs|) == Handles(firstHandle, |created0 + objs|)
  {
    ObjHandlesAppend(created0, objs);
    HandlesConcat(firstHandle, |created0|, |objs|);
    assert |created0 + objs| == |created0| + |objs|;
  }

  /** One created device extends the collected ports and the slot count as `Next` does. */
  lemma StepPorts(o: Outcome, l: Located, firstHandle: Handle, next: Handle, ports: seq<Port>, slots: nat)
    requires Ok(l) && next == firstHandle + |o.names| && ports == o.ports && slots == o.slots
    ensures ports + PortsOf(l.input, next, |ports|, slots) == Next(o, l, firstHandle).ports
    ensures SlotsAfter(l.input, |ports|, slots) == Next(o, l, firstHandle).slots
  {
    NextCreates(o, l, firstHandle, next);
  }

  /** A device whose properties were read, seen through its names, handles, registry entries and ports. */
  method CreateOne(l: Located, zeidx: nat, next: Handle, registry: OsdevArray, hports: PortTable)
    returns (objs: seq<OsDev>)
    requires Ok(l) && registry.Valid() && hports.Valid()
    modifies registry, registry.objs, hports, hports.ports
    ensures registry.Valid() && hports.Valid()
    ensures registry.objs == old(registry.objs) || fresh(registry.objs)
    ensures hports.ports == old(hports.ports) || fresh(hports.ports)
    ensures ObjNames(objs) == NamesOf(l, zeidx)
    ensures ObjHandles(objs) == Handles(next, |objs|)
    ensures registry.Contents() == old(registry.Contents()) + Handles(next, |objs|)
    ensures hports.Contents() == old(hports.Contents()) + PortsOf(l.input, next, old(hports.nr), old(hports.ports.Length))
    ensures hports.ports.Length == SlotsAfter(l.input, old(hports.nr), old(hports.ports.Length))
    ensures Shows(objs, ViewsOf(l, next))
  {
    var osdev, subs := DiscoverDevice(l.driver, l.index, l.input, zeidx, next, registry, hports);
    objs := [osdev] + subs;
    DeviceObjects(osdev, subs, l, zeidx, next);
    DeviceViews(osdev, subs, l, zeidx, next);
  }

  /** A device object followed by its sub-device objects carries the names and handles of `NamesOf`. */
  lemma DeviceObjects(osdev: OsDev, subs: seq<OsDev>, l: Located, zeidx: nat, next: Handle)
    requires Ok(l) && |subs| == NrSubs(l.input)
    requires osdev.handle == next && osdev.name == DeviceName(zeidx)
    requires forall k :: 0 <= k < |subs| ==> subs[k].handle == next + 1 + k && subs[k].name == SubdeviceName(zeidx, k)
    ensures ObjNames([osdev] + subs) == NamesOf(l, zeidx)
    ensures ObjHandles([osdev] + subs) == Handles(next, 1 + |subs|)
  {
    var objs := [osdev] + subs;
    ObjNamesAt(objs);
    assert ObjNames(objs) == NamesOf(l, zeidx);
    ConsecutiveHandles(objs, next);
  }

  /** The device object and its sub-device objects hold the views of `ViewsOf`. */
  lemma DeviceViews(osdev: OsDev, subs: seq<OsDev>, l: Located, zeidx: nat, next: Handle)
    requires Ok(l) && |subs| == NrSubs(l.input)
    requires DeviceDone(osdev, l.driver, l.index, l.input, zeidx, next)
    requires forall k :: 0 <= k < |subs| ==> SubdeviceDone(subs[k], l.input, zeidx, k, next)
    ensures Shows([osdev] + subs, ViewsOf(l, next))
  {
    assert l == Located(l.driver, l.index, l.input);
    var sv := SubViews(l.input, next, NrSubs(l.input));
    assert ViewsOf(l, next) == [DeviceView(l)] + sv;
    ShowsAppend([osdev], [DeviceView(l)], subs, sv);
  }

  /** Objects numbered consecutively from `base` have the handles `base, base + 1, ...`. */
  lemma {:induction false} ConsecutiveHandles(cs: seq<OsDev>, base: Handle)
    requires forall p :: 0 <= p < |cs| ==> cs[p].handle == base + p
    ensures ObjHandles(cs) == Handles(base, |cs|)
    decreases |cs|
  {
    if cs != [] {
      ConsecutiveHandles(cs[..|cs| - 1], base);
    }
  }

  lemma {:induction false} ObjNamesAppend(a: seq<OsDev>, b: seq<OsDev>)
    ensures ObjNames(a + b) == ObjNames(a) + ObjNames(b)
    decreases |b|
  {
    if b == [] {
      assert a + b == a;
    } else {
      assert (a + b)[..|a + b| - 1] == a + b[..|b| - 1];
      ObjNamesAppend(a, b[..|b| - 1]);
    }
  }

  lemma {:induction false} ObjHandlesAppend(a: seq<OsDev>, b: seq<OsDev>)
    ensures ObjHandles(a + b) == ObjHandles(a) + ObjHandles(b)
    decreases |b|
  {
    if b == [] {
      assert a + b == a;
    } else {
      assert (a + b)[..|a + b| - 1] == a + b[..|b| - 1];
      ObjHandlesAppend(a, b[..|b| - 1]);
    }
  }

  /** The device loop of one driver whose device list `devs` could be obtained. */
  method DiscoverDriver(i: nat, devs: seq<DeviceInput>, ghost done: seq<Located>, zeidx0: nat, firstHandle: Handle,
                        registry: OsdevArray, hports: PortTable, created0: seq<OsDev>)
    returns (zeidx: nat, created: seq<OsDev>)
    requires Reached(Expected(done, firstHandle), zeidx0, firstHandle, registry, hports, created0)
    modifies registry, registry.objs, hports, hports.ports
    ensures Reached(Expected(done + Locate(i, Some(devs)), firstHandle), zeidx, firstHandle, registry, hports, created)
    ensures registry.objs == old(registry.objs) || fresh(registry.objs)
    ensures hports.ports == old(hports.ports) || fresh(hports.ports)
  {
    zeidx, created := zeidx0, created0;
    var all := Locate(i, Some(devs));
    var j := 0;
    PrefixEnds(done, all);
    while j < |devs|
      invariant 0 <= j <= |devs|
      invariant Reached(Expected(done + all[..j], firstHandle), zeidx, firstHandle, registry, hports, created)
      invariant registry.objs == old(registry.objs) || fresh(registry.objs)
      invariant hports.ports == old(hports.ports) || fresh(hports.ports)
    {
      zeidx, created := DeviceStep(done, all, j, zeidx, firstHandle, registry, hports, created);
      j := j + 1;
    }
  }

  /** One iteration of the device loop: device `all[j]`, after `done` and the devices before it. */
  method DeviceStep(ghost done: seq<Located>, all: seq<Located>, j: nat, zeidx0: nat, firstHandle: Handle,
                    registry: OsdevArray, hports: PortTable, created0: seq<OsDev>)
    returns (zeidx: nat, created: seq<OsDev>)
    requires j < |all|
    requires Reached(Expected(done + all[..j], firstHandle), zeidx0, firstHandle, registry, hports, created0)
    modifies registry, registry.objs, hports, hports.ports
    ensures Reached(Expected(done + all[..j + 1], firstHandle), zeidx, firstHandle, registry, hports, created)
    ensures registry.objs == old(registry.objs) || fresh(registry.objs)
    ensures hports.ports == old(hports.ports) || fresh(hports.ports)
  {
    zeidx, created := DiscoverOne(all[j], Expected(done + all[..j], firstHandle), zeidx0, firstHandle, registry, hports, created0);
    PrefixStep(done, all, j);
    ExpectedStep(done + all[..j], all[j], firstHandle);
  }

  /** The empty prefix adds nothing, and the full prefix is the whole sequence. */
  lemma PrefixEnds(done: seq<Located>, all: seq<Located>)
    ensures done + all[..0] == done
    ensures done + all[..|all|] == done + all
  {
    assert all[..0] == [] && all[..|all|] == all;
  }

  /** A prefix one longer is the prefix followed by the next element. */
  lemma PrefixStep(done: seq<Located>, all: seq<Located>, j: nat)
    requires j < |all|
    ensures done + all[..j + 1] == (done + all[..j]) + [all[j]]
  {
    assert all[..j + 1] == all[..j] + [all[j]];
  }

  /** The devices seen after one more driver. */
  lemma FlattenStep(ds: seq<Option<seq<DeviceInput>>>, i: nat)
    requires i < |ds|
    ensures Flatten(ds[..i + 1]) == Flatten(ds[..i]) + Locate(i, ds[i])
  {
    assert ds[..i + 1][..i] == ds[..i];
  }

  /**
   * `hwloc_levelzero_discover`. `keepNone` is the OS-device type filter
   * being KEEP_NONE; `drivers` is the driver list (`None` when
   * initialisation or driver enumeration fails or finds nothing), each
   * driver holding its device list (`None` when that enumeration fails);
   * objects are numbered from `firstHandle` in creation order;
   * `callocOk` is whether the bandwidth matrix can be allocated. The
   * result is the objects created, in registry order, and the bandwidth
   * matrix handed to the distance code, if any.
   */
  method Discover(keepNone: bool, drivers: Option<seq<Option<seq<DeviceInput>>>>, firstHandle: Handle, callocOk: bool)
    returns (created: seq<OsDev>, bws: array?<UInt64>)
    ensures keepNone || drivers.None? ==> created == [] && bws == null
    ensures !keepNone && drivers.Some? ==>
      var ls := Flatten(drivers.value);
      var names := Expected(ls, firstHandle).names;
      var ports := Expected(ls, firstHandle).ports;
      var views := Expected(ls, firstHandle).views;
      var objs := Handles(firstHandle, |names|);
      && |created| == |names|
      && (forall p :: 0 <= p < |created| ==> created[p].handle == firstHandle + p && created[p].name == names[p])
      && (forall p :: 0 <= p < |created| ==> Holds(created[p], views[p]))
      && (bws == null <==> |ports| == 0 || !callocOk || PairCount(ports, objs, |ports|) == 0)
      && (bws != null ==> fresh(bws) && IsMatrix(bws[..], ports, objs))
  {
    if keepNone || drivers.None? {
      return [], null;
    }
    var registry, hports;
    registry, hports, created := DiscoverDrivers(drivers.value, firstHandle);
    HandlesAt(firstHandle, |created|);
    ObjNamesAt(created);
    ObjHandlesAt(created);
    var _, m := PortsConnect(registry, hports, callocOk, true);
    bws := m;
  }

  /** The driver loop of `hwloc_levelzero_discover`, from an empty registry and an empty port table. */
  method DiscoverDrivers(ds: seq<Option<seq<DeviceInput>>>, firstHandle: Handle)
    returns (registry: OsdevArray, hports: PortTable, created: seq<OsDev>)
    ensures Reached(Expected(Flatten(ds), firstHandle), Expected(Flatten(ds), firstHandle).zeidx,
                    firstHandle, registry, hports, created)
  {
    registry := new OsdevArray();
    hports := new PortTable();
    var zeidx := 0;
    created := [];
    var i := 0;
    ghost var seen: seq<Located> := [];
    while i < |ds|
      invariant 0 <= i <= |ds|
      invariant seen == Flatten(ds[..i])
      invariant fresh(registry) && fresh(registry.objs) && fresh(hports) && fresh(hports.ports)
      invariant Reached(Expected(seen, firstHandle), zeidx, firstHandle, registry, hports, created)
    {
      FlattenStep(ds, i);
      zeidx, created := DriverStep(i, ds[i], seen, zeidx, firstHandle, registry, hports, created);
      seen := seen + Locate(i, ds[i]);
      i := i + 1;
    }
    assert ds[..|ds|] == ds;
  }

  /** One iteration of the driver loop: driver `i`, whose device list is `d` when it could be obtained. */
  method DriverStep(i: nat, d: Option<seq<DeviceInput>>, ghost seen: seq<Located>, zeidx0: nat, firstHandle: Handle,
                    registry: OsdevArray, hports: PortTable, created0: seq<OsDev>)
    returns (zeidx: nat, created: seq<OsDev>)
    requires Reached(Expected(seen, firstHandle), zeidx0, firstHandle, registry, hports, created0)
    modifies registry, registry.objs, hports, hports.ports
    ensures Reached(Expected(seen + Locate(i, d), firstHandle), zeidx, firstHandle, registry, hports, created)
    ensures registry.objs == old(registry.objs) || fresh(registry.objs)
    ensures hports.ports == old(hports.ports) || fresh(hports.ports)
  {
    if d.Some? {
      zeidx, created := DiscoverDriver(i, d.value, seen, zeidx0, firstHandle, registry, hports, created0);
    } else {
      assert seen + Locate(i, d) == seen;
      zeidx, created := zeidx0, created0;
    }
  }

  /** Handle `p` of `Handles(base, n)` is `base + p`. */
  lemma {:induction false} HandlesAt(base: Handle, n: nat)
    ensures forall p :: 0 <= p < n ==> Handles(base, n)[p] == base + p
  {
    if n > 0 {
      HandlesAt(base, n - 1);
    }
  }
}
