/**
 * Memory-module aggregation of the Level Zero backend
 * (`hwloc__levelzero_memory_get`): each module is classified HBM, DRAM
 * or other; a sub-device receives one size entry per module of its own
 * immediately, while the root device receives the HBM and DRAM totals
 * once, after the loop, and only when they are nonzero. Modules of an
 * unknown sub-device are not attached anywhere but still count toward
 * the totals.
 */
module LevelZeroMemory {
  import opened Wrappers
  import opened Format
  import opened LevelZeroDevice

  /** `zes_mem_type_t`: HBM, the eight DDR/LPDDR kinds, and everything else. */
  datatype MemType = Hbm | Ddr | Ddr3 | Ddr4 | Ddr5 | Lpddr | Lpddr3 | Lpddr4 | Lpddr5 | OtherMem(code: nat)

  /** `zes_mem_properties_t`: the memory kind, the owner and the size in bytes. */
  datatype MemProps = MemProps(memType: MemType, onSubdevice: bool, subdeviceId: nat, physicalSize: nat)

  /** The family name used in info keys: "HBM", "DRAM", or none. */
  function Family(t: MemType): (f: Option<string>)
    ensures f == Some("HBM") <==> t == Hbm
    ensures f == Some("DRAM") <==> t in {Ddr, Ddr3, Ddr4, Ddr5, Lpddr, Lpddr3, Lpddr4, Lpddr5}
    ensures f.Some? ==> f.value in {"HBM", "DRAM"}
  {
    match t
    case Hbm => Some("HBM")
    case Ddr | Ddr3 | Ddr4 | Ddr5 | Lpddr | Lpddr3 | Lpddr4 | Lpddr5 => Some("DRAM")
    case OtherMem(_) => None
  }

  /** `physicalSize >> 10`. */
  function Kb(p: MemProps): nat { p.physicalSize / 1024 }

  /**
   * The sub-device a module's entry goes to: its `subdeviceId` when that is
   * a known sub-device, -1 for root-level modules and unknown sub-devices.
   */
  function OwnerIndex(p: MemProps, nrSubs: nat): int
  {
    if p.onSubdevice && p.subdeviceId < nrSubs then p.subdeviceId else -1
  }

  /** The kB of family `fam` over the modules whose properties were read. */
  function TotalKb(mods: seq<Option<MemProps>>, fam: string): nat
  {
    if mods == [] then 0
    else
      var m := mods[|mods| - 1];
      TotalKb(mods[..|mods| - 1], fam) + (if m.Some? && Family(m.value.memType) == Some(fam) then Kb(m.value) else 0)
  }

  /** The kB of family `fam` over the modules whose entry goes to `owner` (see `OwnerIndex`). */
  function OwnedKb(mods: seq<Option<MemProps>>, nrSubs: nat, fam: string, owner: int): nat
  {
    if mods == [] then 0
    else
      var m := mods[|mods| - 1];
      OwnedKb(mods[..|mods| - 1], nrSubs, fam, owner)
      + (if m.Some? && Family(m.value.memType) == Some(fam) && OwnerIndex(m.value, nrSubs) == owner
         then Kb(m.value) else 0)
  }

  /** The entry module `m` gives sub-device `k`, if any. */
  function ModuleEntry(m: Option<MemProps>, nrSubs: nat, k: nat): seq<Info>
  {
    if m.Some? && OwnerIndex(m.value, nrSubs) == k && Family(m.value.memType).Some? && m.value.physicalSize != 0
    then [Info("LevelZero" + Family(m.value.memType).value + "Size", Decimal(Kb(m.value)))]
    else []
  }

  /** The entries sub-device `k` receives, one per module of its own with a known family and a nonzero size. */
  function SubMemInfos(mods: seq<Option<MemProps>>, nrSubs: nat, k: nat): seq<Info>
  {
    if mods == [] then []
    else SubMemInfos(mods[..|mods| - 1], nrSubs, k) + ModuleEntry(mods[|mods| - 1], nrSubs, k)
  }

  /** The entries the root device receives after the loop. */
  function RootMemInfos(mods: seq<Option<MemProps>>): (r: seq<Info>)
    ensures |r| <= 2
    ensures (exists x :: x in r && x.key == "LevelZeroHBMSize") <==> TotalKb(mods, "HBM") > 0
    ensures (exists x :: x in r && x.key == "LevelZeroDRAMSize") <==> TotalKb(mods, "DRAM") > 0
    ensures forall x :: x in r ==> x.key in {"LevelZeroHBMSize", "LevelZeroDRAMSize"} && x.value != "0"
  {
    var hbm, dram := TotalKb(mods, "HBM"), TotalKb(mods, "DRAM");
    DecimalRoundTrip(hbm);
    DecimalRoundTrip(dram);
    (if hbm != 0 then [Info("LevelZeroHBMSize", Decimal(hbm))] else [])
    + (if dram != 0 then [Info("LevelZeroDRAMSize", Decimal(dram))] else [])
  }

  /** Σ_{k < K} `OwnedKb(mods, nrSubs, fam, k)`. */
  function SubsKb(mods: seq<Option<MemProps>>, nrSubs: nat, fam: string, count: nat): nat
  {
    if count == 0 then 0 else SubsKb(mods, nrSubs, fam, count - 1) + OwnedKb(mods, nrSubs, fam, count - 1)
  }

  lemma {:induction false} SubsKbEmpty(mods: seq<Option<MemProps>>, nrSubs: nat, fam: string, count: nat)
    requires mods == []
    ensures SubsKb(mods, nrSubs, fam, count) == 0
    decreases count
  {
    if count > 0 {
      SubsKbEmpty(mods, nrSubs, fam, count - 1);
    }
  }

  lemma {:induction false} SubsKbStep(mods: seq<Option<MemProps>>, nrSubs: nat, fam: string, count: nat)
    requires mods != []
    ensures var m, rest := mods[|mods| - 1], mods[..|mods| - 1];
      SubsKb(mods, nrSubs, fam, count) == SubsKb(rest, nrSubs, fam, count)
        + (if m.Some? && Family(m.value.memType) == Some(fam) && 0 <= OwnerIndex(m.value, nrSubs) < count
           then Kb(m.value) else 0)
    decreases count
  {
    if count > 0 {
      SubsKbStep(mods, nrSubs, fam, count - 1);
    }
  }

  /**
   * The root total of a family is the sum of what each sub-device holds
   * plus the root-level modules and the modules of unknown sub-devices:
   * every module counts exactly once.
   */
  lemma {:induction false} TotalIsSumOfOwners(mods: seq<Option<MemProps>>, nrSubs: nat, fam: string)
    ensures TotalKb(mods, fam) == SubsKb(mods, nrSubs, fam, nrSubs) + OwnedKb(mods, nrSubs, fam, -1)
    decreases |mods|
  {
    if mods != [] {
      var rest, m := mods[..|mods| - 1], mods[|mods| - 1];
      TotalIsSumOfOwners(rest, nrSubs, fam);
      SubsKbStep(mods, nrSubs, fam, nrSubs);
      var hit := m.Some? && Family(m.value.memType) == Some(fam);
      assert TotalKb(mods, fam) == TotalKb(rest, fam) + (if hit then Kb(m.value) else 0);
      assert OwnedKb(mods, nrSubs, fam, -1) == OwnedKb(rest, nrSubs, fam, -1)
        + (if hit && OwnerIndex(m.value, nrSubs) == -1 then Kb(m.value) else 0);
      if m.Some? {
        var o := OwnerIndex(m.value, nrSubs);
        assert o == -1 || 0 <= o < nrSubs;
      }
    } else {
      SubsKbEmpty(mods, nrSubs, fam, nrSubs);
    }
  }

  /** The sizes written into entry values of family `fam`, read back as numbers and added. */
  function InfoKbSum(infos: seq<Info>, fam: string): nat
  {
    if infos == [] then 0
    else
      var x := infos[|infos| - 1];
      InfoKbSum(infos[..|infos| - 1], fam)
      + (if x.key == "LevelZero" + fam + "Size" && AllDigits(x.value) then DecimalValue(x.value) else 0)
  }

  lemma {:induction false} InfoKbSumAppend(a: seq<Info>, b: seq<Info>, fam: string)
    ensures InfoKbSum(a + b, fam) == InfoKbSum(a, fam) + InfoKbSum(b, fam)
    decreases |b|
  {
    if b == [] {
      assert a + b == a;
    } else {
      assert (a + b)[..|a + b| - 1] == a + b[..|b| - 1];
      InfoKbSumAppend(a, b[..|b| - 1], fam);
    }
  }

  /** The entry of one module, read back, is that module's kB when it belongs to `k` and family `fam`. */
  lemma ModuleEntryKb(m: Option<MemProps>, nrSubs: nat, k: nat, fam: string)
    requires fam in {"HBM", "DRAM"}
    ensures InfoKbSum(ModuleEntry(m, nrSubs, k), fam)
      == if m.Some? && Family(m.value.memType) == Some(fam) && OwnerIndex(m.value, nrSubs) == k then Kb(m.value) else 0
  {
    var e := ModuleEntry(m, nrSubs, k);
    if e != [] {
      var p := m.value;
      var f := Family(p.memType).value;
      DecimalRoundTrip(Kb(p));
      assert e[..0] == [];
      assert e[0].key == "LevelZero" + fam + "Size" <==> f == fam by {
        if f != fam {
          assert e[0].key[9] != ("LevelZero" + fam + "Size")[9];
        }
      }
    }
  }

  /** A sub-device's entries of one family add up to that sub-device's share of the family total. */
  lemma {:induction false} SubInfosAddUp(mods: seq<Option<MemProps>>, nrSubs: nat, k: nat, fam: string)
    requires fam in {"HBM", "DRAM"}
    ensures InfoKbSum(SubMemInfos(mods, nrSubs, k), fam) == OwnedKb(mods, nrSubs, fam, k)
    decreases |mods|
  {
    if mods != [] {
      var rest, m := mods[..|mods| - 1], mods[|mods| - 1];
      SubInfosAddUp(rest, nrSubs, k, fam);
      InfoKbSumAppend(SubMemInfos(rest, nrSubs, k), ModuleEntry(m, nrSubs, k), fam);
      ModuleEntryKb(m, nrSubs, k, fam);
    }
  }

  /**
   * `hwloc__levelzero_memory_get`. `modules` holds one entry per memory
   * module (`None` when its properties could not be read); `None` for the
   * whole list covers a failed or empty enumeration and a failed
   * allocation, none of which adds anything.
   */
  method MemoryGet(root: OsDev, subs: seq<OsDev>, modules: Option<seq<Option<MemProps>>>)
    requires root !in subs
    requires forall a, b :: 0 <= a < b < |subs| ==> subs[a] != subs[b]
    modifies root, subs
    ensures root.infos == old(root.infos) + RootMemInfos(if modules.Some? then modules.value else [])
    ensures forall k :: 0 <= k < |subs| ==>
      subs[k].infos == old(subs[k].infos) + SubMemInfos(if modules.Some? then modules.value else [], |subs|, k)
    ensures root.parent == old(root.parent)
    ensures forall k :: 0 <= k < |subs| ==>
      subs[k].parent == old(subs[k].parent)
  {
    var mods := if modules.Some? then modules.value else [];
    var totalHbmKb, totalDramKb := CollectModules(subs, mods);
    if totalHbmKb != 0 {
      root.AddInfo("LevelZeroHBMSize", Decimal(totalHbmKb));
    }
    if totalDramKb != 0 {
      root.AddInfo("LevelZeroDRAMSize", Decimal(totalDramKb));
    }
  }

  /** The module loop: each module's entry goes to its sub-device at once, while the family totals accumulate. */
  method CollectModules(subs: seq<OsDev>, mods: seq<Option<MemProps>>) returns (totalHbmKb: nat, totalDramKb: nat)
    requires forall a, b :: 0 <= a < b < |subs| ==> subs[a] != subs[b]
    modifies subs
    ensures totalHbmKb == TotalKb(mods, "HBM") && totalDramKb == TotalKb(mods, "DRAM")
    ensures forall k :: 0 <= k < |subs| ==>
      subs[k].infos == old(subs[k].infos) + SubMemInfos(mods, |subs|, k)
      && subs[k].parent == old(subs[k].parent)
  {
    totalHbmKb, totalDramKb := 0, 0;
    var m := 0;
    while m < |mods|
      invariant 0 <= m <= |mods|
      invariant totalHbmKb == TotalKb(mods[..m], "HBM") && totalDramKb == TotalKb(mods[..m], "DRAM")
      invariant forall k :: 0 <= k < |subs| ==>
        subs[k].infos == old(subs[k].infos) + SubMemInfos(mods[..m], |subs|, k)
        && subs[k].parent == old(subs[k].parent)
    {
      ModuleStep(mods, m, |subs|);
      if mods[m].Some? {
        var p := mods[m].value;
        var fam := Family(p.memType);
        if fam == Some("HBM") {
          totalHbmKb := totalHbmKb + p.physicalSize / 1024;
        } else if fam == Some("DRAM") {
          totalDramKb := totalDramKb + p.physicalSize / 1024;
        }
      }
      AttachModule(subs, mods[m]);
      m := m + 1;
    }
    assert mods[..m] == mods;
  }

  /** Folding one more module into the totals and the per-sub-device entries appends its own share. */
  lemma ModuleStep(mods: seq<Option<MemProps>>, m: nat, nrSubs: nat)
    requires m < |mods|
    ensures forall fam :: TotalKb(mods[..m + 1], fam) == TotalKb(mods[..m], fam)
             + (if mods[m].Some? && Family(mods[m].value.memType) == Some(fam) then Kb(mods[m].value) else 0)
    ensures forall k :: SubMemInfos(mods[..m + 1], nrSubs, k) == SubMemInfos(mods[..m], nrSubs, k) + ModuleEntry(mods[m], nrSubs, k)
    ensures forall before: seq<Info>, k :: before + SubMemInfos(mods[..m], nrSubs, k) + ModuleEntry(mods[m], nrSubs, k)
             == before + SubMemInfos(mods[..m + 1], nrSubs, k)
  {
    assert mods[..m + 1][..m] == mods[..m];
  }

  /** The per-module step: the module's entry, if any, goes to its own sub-device and nowhere else. */
  method AttachModule(subs: seq<OsDev>, m: Option<MemProps>)
    requires forall a, b :: 0 <= a < b < |subs| ==> subs[a] != subs[b]
    modifies subs
    ensures forall k :: 0 <= k < |subs| ==>
      subs[k].infos == old(subs[k].infos) + ModuleEntry(m, |subs|, k)
      && subs[k].parent == old(subs[k].parent)
  {
    if m.Some? {
      var p := m.value;
      var owner := OwnerIndex(p, |subs|);
      var fam := Family(p.memType);
      if owner >= 0 && fam.Some? && p.physicalSize != 0 {
        subs[owner].AddInfo("LevelZero" + fam.value + "Size", Decimal(p.physicalSize / 1024));
      }
    }
  }

  /**
   * Two sub-devices with `size` bytes of HBM each (8 GiB in the design's
   * example): each receives its own entry, and the root receives a single
   * HBM entry holding twice that, and no DRAM entry.
   */
  lemma TwoSubdevicesOfHbm(size: nat)
    requires size >= 1024
    ensures var mods := [Some(MemProps(Hbm, true, 0, size)), Some(MemProps(Hbm, true, 1, size))];
      && RootMemInfos(mods) == [Info("LevelZeroHBMSize", Decimal(2 * (size / 1024)))]
      && SubMemInfos(mods, 2, 0) == [Info("LevelZeroHBMSize", Decimal(size / 1024))]
      && SubMemInfos(mods, 2, 1) == [Info("LevelZeroHBMSize", Decimal(size / 1024))]
  {
    var mods := [Some(MemProps(Hbm, true, 0, size)), Some(MemProps(Hbm, true, 1, size))];
    var first := mods[..1];
    assert first == [mods[0]] && first[..0] == [];
    assert Family(Hbm) == Some("HBM");
    assert TotalKb(first, "HBM") == size / 1024 && TotalKb(first, "DRAM") == 0;
    assert TotalKb(mods, "HBM") == 2 * (size / 1024) && TotalKb(mods, "DRAM") == 0;
    assert ModuleEntry(mods[0], 2, 1) == [] && ModuleEntry(mods[1], 2, 0) == [];
    assert "LevelZero" + "HBM" + "Size" == "LevelZeroHBMSize";
    assert ModuleEntry(mods[0], 2, 0) == [Info("LevelZeroHBMSize", Decimal(size / 1024))];
    assert SubMemInfos(first, 2, 0) == ModuleEntry(mods[0], 2, 0);
    assert SubMemInfos(mods, 2, 0) == SubMemInfos(first, 2, 0) + [];
    assert SubMemInfos(first, 2, 1) == [];
  }
}
