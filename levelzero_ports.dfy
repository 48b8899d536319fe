/**
 * Fabric-port collection of the Level Zero backend
 * (`struct hwloc_levelzero_ports`, `hwloc__levelzero_ports_get`): one
 * table shared by every device of a discovery pass, filled with the
 * ports whose properties could be read and whose owner object is known.
 */
module LevelZeroPorts {
  import opened Wrappers
  import opened LevelZeroRegistry

  /** The three components identifying a fabric port. */
  datatype FabricPortId = FabricPortId(fabricId: nat, attachId: nat, portNumber: nat)

  datatype PortStatus = StatusUnknown | Healthy | Degraded | Failed | Disabled

  /** Static properties of a port (`zes_fabric_port_properties_t`). */
  datatype PortProps = PortProps(model: string, onSubdevice: bool, subdeviceId: nat, portId: FabricPortId)

  /** A signed 64-bit integer (`int64_t`). */
  type Int64 = x: int | -0x8000_0000_0000_0000 <= x < 0x8000_0000_0000_0000

  /**
   * Dynamic state of a port (`zes_fabric_port_state_t`); `rxBitRate` is
   * `rxSpeed.bitRate`, a signed 64-bit rate in bit/s where -1 means unknown.
   */
  datatype PortState = PortState(status: PortStatus, remotePortId: FabricPortId, rxBitRate: Int64)

  /** One table entry: the owning object, its properties and its state. */
  datatype Port = Port(osdev: Handle, props: PortProps, state: PortState)

  /**
   * What the vendor library reports for one port: the properties query
   * may fail (`None`); the state is whatever the state query left, used
   * even when that query reported an error.
   */
  datatype PortQuery = PortQuery(props: Option<PortProps>, state: PortState)

  /** A port is kept when its properties were read and its sub-device, if any, exists. */
  predicate Admitted(q: PortQuery, nrSubs: nat)
  {
    q.props.Some? && (q.props.value.onSubdevice ==> q.props.value.subdeviceId < nrSubs)
  }

  /** The object a kept port belongs to: its sub-device, or the root device. */
  function Owner(p: PortProps, root: Handle, subs: seq<Handle>): Handle
    requires p.onSubdevice ==> p.subdeviceId < |subs|
  {
    if p.onSubdevice then subs[p.subdeviceId] else root
  }

  /** The table entries the ports `qs` of one device produce, in port order. */
  function Accepted(root: Handle, subs: seq<Handle>, qs: seq<PortQuery>): (r: seq<Port>)
    ensures |r| <= |qs|
    decreases |qs|
  {
    if qs == [] then []
    else
      var q := qs[|qs| - 1];
      Accepted(root, subs, qs[..|qs| - 1])
      + (if Admitted(q, |subs|) then [Port(Owner(q.props.value, root, subs), q.props.value, q.state)] else [])
  }

  /**
   * Every kept port belongs to the object its properties name: its
   * sub-device when it is on one (which then exists), the root device otherwise.
   */
  lemma {:induction false} AcceptedOwners(root: Handle, subs: seq<Handle>, qs: seq<PortQuery>)
    ensures forall k :: 0 <= k < |Accepted(root, subs, qs)| ==>
      var p := Accepted(root, subs, qs)[k];
      && (p.props.onSubdevice ==> p.props.subdeviceId < |subs| && p.osdev == subs[p.props.subdeviceId])
      && (!p.props.onSubdevice ==> p.osdev == root)
    decreases |qs|
  {
    if qs != [] {
      AcceptedOwners(root, subs, qs[..|qs| - 1]);
    }
  }

  /** The number of ports of `qs` that are kept. */
  function CountAdmitted(qs: seq<PortQuery>, nrSubs: nat): nat
  {
    if qs == [] then 0
    else CountAdmitted(qs[..|qs| - 1], nrSubs) + (if Admitted(qs[|qs| - 1], nrSubs) then 1 else 0)
  }

  /** The table grows by exactly the number of admitted ports. */
  lemma {:induction false} AcceptedLength(root: Handle, subs: seq<Handle>, qs: seq<PortQuery>)
    ensures |Accepted(root, subs, qs)| == CountAdmitted(qs, |subs|)
    decreases |qs|
  {
    if qs != [] {
      AcceptedLength(root, subs, qs[..|qs| - 1]);
    }
  }

  /** Ports are judged one at a time: collecting two lists is collecting each in turn. */
  lemma {:induction false} AcceptedAppend(root: Handle, subs: seq<Handle>, a: seq<PortQuery>, b: seq<PortQuery>)
    ensures Accepted(root, subs, a + b) == Accepted(root, subs, a) + Accepted(root, subs, b)
    decreases |b|
  {
    if b != [] {
      var b' := b[..|b| - 1];
      assert (a + b)[..|a + b| - 1] == a + b';
      AcceptedAppend(root, subs, a, b');
    } else {
      assert a + b == a;
    }
  }

  /** Every admitted port is in the table, with its own properties and state. */
  lemma {:induction false} AdmittedIsAccepted(root: Handle, subs: seq<Handle>, qs: seq<PortQuery>, k: nat)
    requires k < |qs| && Admitted(qs[k], |subs|)
    ensures Port(Owner(qs[k].props.value, root, subs), qs[k].props.value, qs[k].state) in Accepted(root, subs, qs)
    decreases |qs|
  {
    if k < |qs| - 1 {
      AdmittedIsAccepted(root, subs, qs[..|qs| - 1], k);
    }
  }

  class PortTable {
    /** The allocated slots; `nr_allocated` is `ports.Length`. */
    var ports: array<Port>
    /** The number of slots in use. */
    var nr: nat

    ghost predicate Valid()
      reads this
    {
      nr <= ports.Length
    }

    /** The collected ports, in collection order. */
    function Contents(): (s: seq<Port>)
      reads this, ports
      requires Valid()
      ensures |s| == nr
    {
      ports[..nr]
    }

    /** `hwloc__levelzero_ports_init`: empty, nothing allocated. */
    constructor ()
      ensures Valid() && Contents() == [] && ports.Length == 0 && fresh(ports)
    {
      ports := new Port[0];
      nr := 0;
    }

    /**
     * `hwloc__levelzero_ports_get` for one device. `enumerated` is the
     * port list (`None` when the enumeration fails or finds no port);
     * `reallocOk` is whether the table extension succeeds when one is
     * needed; `handlesOk` is whether the port-handle buffer is allocated.
     */
    method PortsGet(root: Handle, subs: seq<Handle>, enumerated: Option<seq<PortQuery>>,
                    reallocOk: bool, handlesOk: bool)
      requires Valid()
      modifies this, ports
      ensures Valid()
      ensures enumerated.None? || enumerated.value == [] ==>
        ports == old(ports) && Contents() == old(Contents())
      ensures enumerated.Some? && enumerated.value != [] ==>
        var nrNew := |enumerated.value|;
        var mustGrow := old(ports.Length) - old(nr) < nrNew;
        && (mustGrow && reallocOk ==> fresh(ports) && ports.Length == old(ports.Length) + 8 * nrNew)
        && (!mustGrow || !reallocOk ==> ports == old(ports))
        && Contents() == old(Contents())
             + (if (!mustGrow || reallocOk) && handlesOk then Accepted(root, subs, enumerated.value) else [])
    {
      if enumerated.None? || enumerated.value == [] {
        return;
      }
      var qs := enumerated.value;
      var nrNew := |qs|;
      if ports.Length - nr < nrNew {
        if !reallocOk {
          return;
        }
        Grow(8 * nrNew);
      }
      if !handlesOk {
        return;
      }
      Fill(root, subs, qs);
    }

    /** `realloc` of the table to `extra` more slots, keeping the slots in use. */
    method Grow(extra: nat)
      requires Valid()
      modifies this
      ensures Valid() && fresh(ports) && ports.Length == old(ports.Length) + extra
      ensures nr == old(nr) && Contents() == old(Contents())
    {
      var src := ports;
      var tmp := new Port[src.Length + extra];
      var k := 0;
      while k < src.Length
        modifies tmp
        invariant 0 <= k <= src.Length
        invariant forall m :: 0 <= m < k ==> tmp[m] == src[m]
      {
        tmp[k] := src[k];
        k := k + 1;
      }
      ports := tmp;
      assert Contents() == old(Contents());
    }

    /** The loop of `hwloc__levelzero_ports_get`: one slot per admitted port, filled by index. */
    method Fill(root: Handle, subs: seq<Handle>, qs: seq<PortQuery>)
      requires Valid() && nr + |qs| <= ports.Length
      modifies this, ports
      ensures Valid() && ports == old(ports)
      ensures Contents() == old(Contents()) + Accepted(root, subs, qs)
    {
      var i := 0;
      while i < |qs|
        invariant 0 <= i <= |qs|
        invariant ports == old(ports)
        invariant nr + (|qs| - i) <= ports.Length
        invariant Contents() == old(Contents()) + Accepted(root, subs, qs[..i])
      {
        var q := qs[i];
        assert qs[..i + 1][..i] == qs[..i];
        if q.props.Some? {
          var p := q.props.value;
          if !p.onSubdevice || p.subdeviceId < |subs| {
            ports[nr] := Port(Owner(p, root, subs), p, q.state);
            nr := nr + 1;
          }
        }
        i := i + 1;
      }
      assert qs[..|qs|] == qs;
    }
  }
}
