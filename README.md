# hwloc: the Level Zero backend and the lstopo core, modelled in Dafny

This project models three pieces of hwloc.

The Level Zero discovery backend (`hwloc/topology-levelzero.c`):
- It enumerates the GPU drivers and devices of the oneAPI Level Zero library.
- It creates one OS-device object `ze<N>` per device and `ze<N>.<k>` per sub-device.
- It attaches info pairs to those objects: backend, driver and device indexes, vendor strings other than "Unknown", command-queue groups, and HBM/DRAM memory sizes.
- It inserts each object below its PCI device (or the root), and each sub-device below its device.
- It registers the objects in a growable array, collects the fabric ports of all devices into one table, and finally builds the XeLink bandwidth matrix between the registered objects.

The core helpers of lstopo (`utils/lstopo/lstopo-core.c`):
- the default settings (`lstopo_init`);
- the choice of output stream (`open_output`);
- the per-object private records pushed onto and popped off each object's `userdata` chain;
- the check whether PCI domains must be printed;
- the pass that annotates runs of identical PCI devices for collapsed display.

The XFig back-end of lstopo (`utils/lstopo/lstopo-fig.c`): colour-number allocation and the integer geometry of boxes, lines and text.

How the model is built:
- Objects whose fields the C code updates in place are Dafny classes:
  - the registry (`OsdevArray`);
  - the port table (`PortTable`);
  - the OS devices (`OsDev`);
  - topology objects carrying `userdata` (`TopoObj`);
  - the fig output state (`FigOutput`);
  - the lstopo settings (`LstopoOutput`).
- Their loops are methods proved against pure specification functions:
  - `Accepted` for the ports;
  - `RowAcc`/`MatAcc` for the matrix as the loops fill it, wrapping each addition modulo 2^64, and `Bandwidth`/`Cell` for the plain sums they equal modulo 2^64;
  - `TotalKb`/`SubMemInfos` for memory;
  - `Expected` for the whole discovery loop;
  - `Mark` for the collapse annotations;
  - `Push`/`Pop` for the userdata chains.
- What the vendor library returns is given as input data. So are the PCI parent found by bus id, whether an allocation succeeds, and whether a file exists. Object identity is an integer handle.

## Model

| member | source | states |
|---|---|---|
| Format.Decimal | hwloc/topology-levelzero.c:159 | `%llu` prints at least one decimal digit and no leading zero |
| Format.DecimalRoundTrip | hwloc/topology-levelzero.c:157-176 | a printed size reads back as the same number of kB |
| Format.DecimalInjective | hwloc/topology-levelzero.c:470 | different numbers print as different strings |
| Format.DecimalLength | hwloc/topology-levelzero.c:470 | a number below 10^k prints in at most k digits, which is what keeps `ze<N>` inside its buffer |
| Format.Hex | hwloc/topology-levelzero.c:87 | `%lx` prints at least one lower-case hexadecimal digit, with no leading zero |
| Format.HexRoundTrip | hwloc/topology-levelzero.c:87 | the printed flags read back as the same number |
| Format.Truncate | hwloc/topology-levelzero.c:512 | `snprintf` into a buffer keeps a prefix of at most size-1 characters, all of it when it fits |
| LevelZeroRegistry.OsdevArray.constructor | hwloc/topology-levelzero.c:22-28 | a new registry is empty with nothing allocated |
| LevelZeroRegistry.OsdevArray.Add | hwloc/topology-levelzero.c:30-45 | with a free slot the object is appended; when full the array grows by exactly 40 slots and the object is appended; if that growth fails, -1 is returned and nothing changes |
| LevelZeroRegistry.OsdevArray.Find | hwloc/topology-levelzero.c:53-62 | returns the least index holding the object, or -1 exactly when it is not registered |
| LevelZeroRegistry.IndexOf | hwloc/topology-levelzero.c:53-62 | the reference search: least index of the handle, -1 exactly when absent |
| LevelZeroRegistry.IndexOfConsecutive | hwloc/topology-levelzero.c:553-559 | on a registry of consecutive handles, an object's index is its offset from the first handle |
| LevelZeroRegistry.IndexOfIsLeast | hwloc/topology-levelzero.c:58-61 | the first position holding the handle is the one the search returns |
| LevelZeroDevice.OsDev.constructor | hwloc/topology-levelzero.c:469-474 | a new OS device has its name, subtype and kind, no infos and no parent |
| LevelZeroDevice.OsDev.AddInfo | hwloc/topology-levelzero.c:475-480 | an info pair is appended, never overwriting an earlier one |
| LevelZeroDevice.HeaderFiltersUnknown | hwloc/topology-levelzero.c:482-499 | the "Unknown" sentinel is never recorded as vendor, brand, serial or board |
| LevelZeroDevice.HeaderRecordsKnown | hwloc/topology-levelzero.c:489-499 | each of vendor, brand, serial and board is recorded if and only if it is not "Unknown" |
| LevelZeroDevice.ModelGatedOnVendor | hwloc/topology-levelzero.c:489-493 | the model string is recorded exactly when the VENDOR string is known, whatever the model string is |
| LevelZeroDevice.CqInfos | hwloc/topology-levelzero.c:82-89 | a successful query adds the group count plus one pair per group |
| LevelZeroDevice.CqGroupKeysDistinct | hwloc/topology-levelzero.c:84-89 | each group's key `LevelZeroCQGroup<k>` is distinct from every other group's and from the count key |
| LevelZeroDevice.CqPropsGet | hwloc/topology-levelzero.c:64-93 | a failed/empty query or allocation adds nothing; otherwise the count then `<k>` = `<numQueues>*0x<flags>` for each group, in order |
| LevelZeroDevice.DeviceNamesDistinct | hwloc/topology-levelzero.c:469-471 | `ze<zeidx>` fits the 13-byte buffer for every 32-bit index, and distinct indexes give distinct names |
| LevelZeroDevice.DeviceAndSubdeviceNamesDiffer | hwloc/topology-levelzero.c:510-513 | a device name has no '.', a sub-device name (when not cut) has one, so they never coincide |
| LevelZeroMemory.Family | hwloc/topology-levelzero.c:133-151 | HBM maps to "HBM", exactly the eight DDR/LPDDR kinds map to "DRAM", all else to none |
| LevelZeroMemory.RootMemInfos | hwloc/topology-levelzero.c:168-178 | the root gets at most two entries, an HBM (resp. DRAM) entry exactly when that total is nonzero, never a "0" value |
| LevelZeroMemory.TotalIsSumOfOwners | hwloc/topology-levelzero.c:115-151 | a family total is the sum of each sub-device's share plus root-level and unknown-sub-device modules: every module counted once |
| LevelZeroMemory.SubInfosAddUp | hwloc/topology-levelzero.c:153-161 | a sub-device's size entries, read back as numbers, add up to that sub-device's share of the family |
| LevelZeroMemory.ModuleEntryKb | hwloc/topology-levelzero.c:153-160 | one module's entry, read back, is its size in kB when it belongs to that sub-device and family, else nothing |
| LevelZeroMemory.TwoSubdevicesOfHbm | hwloc/topology-levelzero.c:156-173 | two sub-devices with equal HBM each get their own entry and the root one HBM entry of twice that, no DRAM |
| LevelZeroMemory.MemoryGet | hwloc/topology-levelzero.c:95-179 | each sub-device receives exactly its own module entries and the root exactly the nonzero totals, after the loop; parents untouched |
| LevelZeroMemory.CollectModules | hwloc/topology-levelzero.c:113-164 | the loop returns the HBM and DRAM totals over all readable modules and attaches each sub-device's entries |
| LevelZeroMemory.AttachModule | hwloc/topology-levelzero.c:118-161 | one module's entry goes to its own known sub-device and to no other object |
| LevelZeroPorts.Accepted | hwloc/topology-levelzero.c:236-254 | never more table entries than reported ports |
| LevelZeroPorts.AcceptedOwners | hwloc/topology-levelzero.c:245-252 | every kept port belongs to its sub-device (which exists) when on one, to the root device otherwise |
| LevelZeroPorts.AcceptedLength | hwloc/topology-levelzero.c:236-254 | the table grows by exactly the number of admitted ports |
| LevelZeroPorts.AcceptedAppend | hwloc/topology-levelzero.c:236-254 | ports are judged one at a time: collecting two lists is collecting each in turn |
| LevelZeroPorts.AdmittedIsAccepted | hwloc/topology-levelzero.c:237-253 | every port whose properties were read and whose sub-device exists is in the table with its own properties and state |
| LevelZeroPorts.PortTable.constructor | hwloc/topology-levelzero.c:191-199 | a new port table is empty with nothing allocated |
| LevelZeroPorts.PortTable.PortsGet | hwloc/topology-levelzero.c:201-257 | nothing changes on failed/empty enumeration; grows by 8x the port count when short of room; on failed growth or handle allocation nothing is added; otherwise appends exactly the accepted ports |
| LevelZeroPorts.PortTable.Grow | hwloc/topology-levelzero.c:216-229 | reallocation keeps the ports in use and adds the requested slots |
| LevelZeroPorts.PortTable.Fill | hwloc/topology-levelzero.c:236-254 | the fill loop appends exactly the accepted ports, in order |
| LevelZeroBandwidth.Slot | hwloc/topology-levelzero.c:334 | the row-major position of a cell lies inside the n×n matrix |
| LevelZeroBandwidth.SlotInjective | hwloc/topology-levelzero.c:334 | distinct cells occupy distinct positions |
| LevelZeroBandwidth.UnhealthyRow | hwloc/topology-levelzero.c:307-308 | a port that is not healthy contributes nothing and counts no pair |
| LevelZeroBandwidth.RowCountZero | hwloc/topology-levelzero.c:309-337 | a row's count is zero exactly when no pair of it is counted |
| LevelZeroBandwidth.PairCountZero | hwloc/topology-levelzero.c:341-344 | `gotbw` is zero exactly when no pair is linked with both owners registered |
| LevelZeroBandwidth.RowSumHasLink | hwloc/topology-levelzero.c:307-337 | a nonzero (possibly negative) row contribution to a cell comes from a counted pair whose owners sit at that cell |
| LevelZeroBandwidth.BandwidthHasLink | hwloc/topology-levelzero.c:307-340 | a nonzero bandwidth sum between two objects comes from a counted pair of their ports |
| LevelZeroBandwidth.RowSumIncludes | hwloc/topology-levelzero.c:334 | when every rate is known, each pair's contribution is part of its row's sum |
| LevelZeroBandwidth.BandwidthIncludes | hwloc/topology-levelzero.c:330-336 | when every rate is known, every counted pair adds at least its receive rate in units of 2^20 bit/s (labelled MB/s in the source) to the sum for its owners' cell |
| LevelZeroBandwidth.TwoLinkPortsCounted | hwloc/topology-levelzero.c:308-333 | in a two-device example exactly the three matching healthy XeLink pairs are counted |
| LevelZeroBandwidth.ParallelLinksAdd | hwloc/topology-levelzero.c:334-350 | parallel links add up in units of 2^20 bit/s (labelled MB/s in the source), an unmatched port adds nothing, the diagonal is 1000000 |
| LevelZeroBandwidth.TwoLinkBandwidths | hwloc/topology-levelzero.c:305-339 | in the two-device example the sums are 190734 + 95367 one way and 190734 the other |
| LevelZeroBandwidth.UnknownRateWraps | hwloc/topology-levelzero.c:334 | a healthy link whose receive rate is unknown (-1) shifts to -1, and the unsigned cell wraps to 2^64 - 1; the reverse cell stays 0 |
| LevelZeroBandwidth.RowAccSum | hwloc/topology-levelzero.c:309-338 | wrapping each addition of a row gives the cell's start plus the row's sum, wrapped once |
| LevelZeroBandwidth.MatAccSum | hwloc/topology-levelzero.c:305-339 | the cell the loops accumulate from zero is the reference bandwidth modulo 2^64 |
| LevelZeroBandwidth.UnhealthyAcc | hwloc/topology-levelzero.c:307 | a port that is not healthy leaves every cell as it was |
| LevelZeroBandwidth.WrapAdd | hwloc/topology-levelzero.c:334 | adding to a wrapped cell wraps like adding to the whole sum |
| LevelZeroBandwidth.PortsConnect | hwloc/topology-levelzero.c:291-353 | for any rates, unknown ones included: no ports gives 0 and no matrix; a failed calloc gives -1; no counted pair gives 0 and no matrix; otherwise a fresh matrix whose every off-diagonal cell is the reference bandwidth modulo 2^64 and whose diagonal is 1000000 |
| LevelZeroBandwidth.ConnectRows | hwloc/topology-levelzero.c:305-339 | the outer loop over a zeroed matrix leaves every cell at its accumulated value and returns the number of counted pairs |
| LevelZeroBandwidth.ConnectRow | hwloc/topology-levelzero.c:309-338 | the inner loop adds row i's contributions to every cell, wrapping as the source does, and returns its count of counted pairs |
| LevelZeroBandwidth.ConnectPair | hwloc/topology-levelzero.c:310-336 | one pair adds its shifted rate, modulo 2^64, to exactly the cell of its owners when counted, and reports whether it was |
| LevelZeroBandwidth.MatchPair | hwloc/topology-levelzero.c:310-333 | a pair is counted exactly when it passes the link, XeLink and registry tests, and then the indexes are its owners' |
| LevelZeroBandwidth.ForceDiagonal | hwloc/topology-levelzero.c:346-350 | afterwards the array is the full matrix: diagonal 1000000, other cells unchanged |
| LevelZeroDiscovery.Locate | hwloc/topology-levelzero.c:426-452 | a driver whose device list cannot be obtained contributes no device; otherwise its devices, in order, with their indexes |
| LevelZeroDiscovery.SubNames | hwloc/topology-levelzero.c:510-513 | sub-device k of device z is named `ze<z>.<k>` |
| LevelZeroDiscovery.SkippedDeviceIsInvisible | hwloc/topology-levelzero.c:459-467 | a device whose properties cannot be read changes neither numbering, names nor ports of the devices after it |
| LevelZeroDiscovery.DeviceNameAtItsPlace | hwloc/topology-levelzero.c:452-563 | every created device is named `ze<z>`, z being the number of devices created before it, sits in the registry right after their objects, and is described there by its own device view |
| LevelZeroDiscovery.NewSubdevice | hwloc/topology-levelzero.c:510-519 | a new sub-device object with its name, handle, backend info and queue groups |
| LevelZeroDiscovery.CreateSubdevices | hwloc/topology-levelzero.c:503-530 | one fresh, distinct sub-device object per declared sub-device, with consecutive handles |
| LevelZeroDiscovery.DescribeDevice | hwloc/topology-levelzero.c:469-501 | a new device object: `ze<zeidx>`, coprocessor, header infos then queue-group infos |
| LevelZeroDiscovery.AddHeaderInfos | hwloc/topology-levelzero.c:475-499 | the header infos, in the source's order |
| LevelZeroDiscovery.AddIfKnown | hwloc/topology-levelzero.c:489-499 | a pair is added only when its gate string is not "Unknown" |
| LevelZeroDiscovery.InsertAndRegister | hwloc/topology-levelzero.c:552-561 | the device goes below its parent, each sub-device below the device, and the registry gains the device then its sub-devices |
| LevelZeroDiscovery.InsertSubdevices | hwloc/topology-levelzero.c:554-561 | every sub-device is inserted below the device and registered, in order |
| LevelZeroDiscovery.Register | hwloc/topology-levelzero.c:553 | registration appends the handle |
| LevelZeroDiscovery.InsertSubdevice | hwloc/topology-levelzero.c:556-559 | one sub-device inserted below the device and registered |
| LevelZeroDiscovery.DiscoverDevice | hwloc/topology-levelzero.c:452-563 | a readable device yields a fresh object with all its infos below its PCI parent (or root), its sub-devices with theirs below it, the registry extended by their handles; the port table gains their accepted ports only when the port enumeration, any needed growth and the handle allocation all succeed, and grows by 8x the port count exactly when it was short of room and growth succeeded |
| LevelZeroDiscovery.CollectPorts | hwloc/topology-levelzero.c:201-257 | one device's ports are appended, or nothing when enumeration, growth or the handle allocation fails; the slot count is the one `SlotsAfter` gives |
| LevelZeroDiscovery.BuildDevice | hwloc/topology-levelzero.c:469-532 | the device and sub-device objects with header, queue-group and memory infos, before insertion |
| LevelZeroDiscovery.DiscoverOne | hwloc/topology-levelzero.c:453-562 | one iteration moves the registry, port table, created objects and zeidx to the next state of the reference loop |
| LevelZeroDiscovery.NextCreates | hwloc/topology-levelzero.c:469-562 | a readable device advances the reference loop by one index, its own names, views and accepted ports, and the new slot count |
| LevelZeroDiscovery.StepReached | hwloc/topology-levelzero.c:469-562 | after one created device the registry, port table and objects agree with the next reference state, infos and parents included |
| LevelZeroDiscovery.StepAgrees | hwloc/topology-levelzero.c:469-562 | a created device advances names, handles, registry, ports and slots by its own objects |
| LevelZeroDiscovery.StepNames | hwloc/topology-levelzero.c:469-513 | a created device's names follow those of the devices before it |
| LevelZeroDiscovery.StepHandles | hwloc/topology-levelzero.c:553-559 | a created device's handles, created and registered, continue the consecutive run |
| LevelZeroDiscovery.StepPorts | hwloc/topology-levelzero.c:534 | the port table and slot count follow the reference loop across one device |
| LevelZeroDiscovery.StepShows | hwloc/topology-levelzero.c:469-562 | objects already created keep their infos and parents, and the new ones hold their own |
| LevelZeroDiscovery.CreateOne | hwloc/topology-levelzero.c:469-562 | a readable device's objects carry its names, consecutive handles, infos and parents, and are registered and their ports collected |
| LevelZeroDiscovery.DeviceObjects | hwloc/topology-levelzero.c:469-513 | a device followed by its sub-devices carries the reference names and consecutive handles |
| LevelZeroDiscovery.DeviceViews | hwloc/topology-levelzero.c:469-559 | a device object holds its header, queue-group and root memory infos and its PCI (or root) parent; sub-device k holds its own infos and the device as parent |
| LevelZeroDiscovery.DeviceStep | hwloc/topology-levelzero.c:453-562 | one pass of the device loop moves the reference state past the next device |
| LevelZeroDiscovery.DiscoverDriver | hwloc/topology-levelzero.c:452-563 | the device loop of one driver reaches the reference state after its devices |
| LevelZeroDiscovery.HandlesConcat | hwloc/topology-levelzero.c:553-559 | the handles of one device's objects followed by the next device's are one consecutive run |
| LevelZeroDiscovery.DriverStep | hwloc/topology-levelzero.c:431-563 | one pass of the driver loop moves the reference state past that driver's devices, or leaves it alone when the driver's devices cannot be listed |
| LevelZeroDiscovery.DiscoverDrivers | hwloc/topology-levelzero.c:425-566 | the driver loop, from an empty registry and table, reaches the reference state after all devices of all drivers |
| LevelZeroDiscovery.Discover | hwloc/topology-levelzero.c:361-575 | with KEEP_NONE or no driver nothing is created; otherwise object p has handle first+p, the p-th reference name, and the infos and parent of the p-th reference view; a matrix is offered exactly when some ports exist, calloc succeeds and a pair is counted, holding the reference bandwidths |
| LstopoFig.FigOutput.constructor | utils/lstopo/lstopo-fig.c:21-23 | an export starts with the counter at the value the process has reached (32 before the first export) and nothing written |
| LstopoFig.FigOutput.DeclareColor | utils/lstopo/lstopo-fig.c:25-43 | the colour's number, the new counter and the records written are those of one declaration from the old counter |
| LstopoFig.DeclareCases | utils/lstopo/lstopo-fig.c:29-41 | white is 7, black 0, both without consuming a number or writing; any other colour takes the counter, which moves on by one, and is defined by exactly one record |
| LstopoFig.DeclaredIndexesDistinct | utils/lstopo/lstopo-fig.c:23-39 | over any sequence of declarations the counter never goes back and every non-white non-black colour gets its own number ≥ 32 |
| LstopoFig.CDiv | utils/lstopo/lstopo-fig.c:91 | C division truncates toward zero: q*b ≤ a < (q+1)*b for a ≥ 0, and (q-1)*b < a ≤ q*b for a < 0 |
| LstopoFig.StrLen | utils/lstopo/lstopo-fig.c:85 | `strlen` of the UTF-8 encoding: between one and four bytes per character |
| LstopoFig.StrLenAscii | utils/lstopo/lstopo-fig.c:85 | the byte length equals the character count exactly when every character is ASCII |
| LstopoFig.NonAsciiLabelLength | utils/lstopo/lstopo-fig.c:85-92 | a label "éx" at size 10 has length 3 bytes × height 160 |
| LstopoFig.FigOutput.Box | utils/lstopo/lstopo-fig.c:45-64 | appends the box record (none for a zero side); the colour counter is unchanged |
| LstopoFig.FigOutput.Line | utils/lstopo/lstopo-fig.c:66-79 | appends the line record; the colour counter is unchanged |
| LstopoFig.FigOutput.Text | utils/lstopo/lstopo-fig.c:81-93 | appends the text record, whose length counts the label's bytes; the colour counter is unchanged |
| LstopoFig.BoxIsClosedRectangle | utils/lstopo/lstopo-fig.c:50-62 | a zero side writes nothing; otherwise one closed 5-point polyline, which without wrap goes round the scaled rectangle with axis-parallel edges |
| LstopoFig.ScaleWraps | utils/lstopo/lstopo-fig.c:53-56 | scaling by 20 is exact below 2^32/20 and wraps modulo 2^32 above |
| LstopoFig.LineHasTwoPoints | utils/lstopo/lstopo-fig.c:71-77 | a line is exactly its two scaled end points in the given colour and depth |
| LstopoFig.TextGeometry | utils/lstopo/lstopo-fig.c:85-92 | font size is 16/10 of the size truncated toward zero; height is 10 times it; length is height times the label's bytes (its characters when ASCII); baseline one height below the scaled y |
| LstopoFig.TextSizeTruncatesTowardZero | utils/lstopo/lstopo-fig.c:91 | sizes -1, 10 and 7 give font sizes -1, 16 and 11 |
| LstopoCore.LeadingPciBridges | utils/lstopo/lstopo-core.c:138-146 | the bridges before the first non-PCI-upstream one |
| LstopoCore.ScanDevices | utils/lstopo/lstopo-core.c:127-133 | the device scan returns 1 exactly when some PCI device has a nonzero domain |
| LstopoCore.ScanBridgesFinds | utils/lstopo/lstopo-core.c:138-146 | the bridge scan returns 1 exactly when a bridge before the first non-PCI-upstream one has a nonzero domain |
| LstopoCore.CheckPciDomainsIff | utils/lstopo/lstopo-core.c:123-149 | the result is 0 or 1, and 1 exactly when a device, or a leading PCI-upstream bridge, has a nonzero domain |
| LstopoCore.HostBridgeEndsScan | utils/lstopo/lstopo-core.c:141-143 | a bridge with a non-PCI upstream ends the bridge scan whatever follows |
| LstopoCore.LastIndexOf | utils/lstopo/lstopo-core.c:71 | `strrchr`: the last position of the character, -1 when absent |
| LstopoCore.OpenOutputCases | utils/lstopo/lstopo-core.c:61-79 | stdout exactly for NULL, "-" and "-.<ext>" names; refused (EEXIST) exactly for other existing names without overwrite; otherwise the named file is opened |
| LstopoCore.OpenOutputExamples | utils/lstopo/lstopo-core.c:68-76 | "-.svg" is stdout, "-.x.svg" is a file, an existing "out.fig" is refused unless overwriting |
| LstopoCore.TypeIndex | utils/lstopo/lstopo-core.c:48-53 | every object type numbers below HWLOC_OBJ_TYPE_MAX |
| LstopoCore.HorizontalTypes | utils/lstopo/lstopo-core.c:48-53 | exactly PUs, NUMA nodes and caches of all levels are horizontal by default; all others are free |
| LstopoCore.DefaultOrients | utils/lstopo/lstopo-core.c:48-53 | the force_orient array holds the default orientation of every type |
| LstopoCore.AllSet | utils/lstopo/lstopo-core.c:54-58 | the show_indexes/show_attrs/show_text arrays are on for every type |
| LstopoCore.LstopoOutput.constructor | utils/lstopo/lstopo-core.c:9-59 | every setting gets its documented default |
| LstopoCollapse.RunEnds | utils/lstopo/lstopo-core.c:171-182 | a run ends exactly where the next device fails to join it |
| LstopoCollapse.RunCovers | utils/lstopo/lstopo-core.c:160-170 | a run reaches every device joined to it |
| LstopoCollapse.RunExtent | utils/lstopo/lstopo-core.c:160-182 | the devices a run spans all join it and the one after it does not |
| LstopoCollapse.SameKeyAlongRun | utils/lstopo/lstopo-core.c:160-165 | all devices of a run share parent and PCI identifiers |
| LstopoCollapse.CollapsedRun | utils/lstopo/lstopo-core.c:151-186 | a mark is never 1; a count n is followed by n-1 hidden identical devices and then by a device that is not hidden |
| LstopoCollapse.HeadOf | utils/lstopo/lstopo-core.c:160-170 | every hidden device has an earlier run head with count ≥ 2 reaching past it, all devices between joining the run |
| LstopoCollapse.RunOfThree | utils/lstopo/lstopo-core.c:151-186 | three identical childless siblings then a different one: 3, -1, -1, 0 |
| LstopoCollapse.AddCollapseAttributes | utils/lstopo/lstopo-core.c:151-186 | (corrected) every device's pci_collapsed slot ends with its reference mark |
| LstopoCollapse.AsWrittenStep | utils/lstopo/lstopo-core.c:157-180 | one iteration of the loop as written keeps the state well formed |
| LstopoCollapse.AsWrittenScan | utils/lstopo/lstopo-core.c:157-180 | the loop as written keeps the state well formed |
| LstopoCollapse.AsWrittenMarks | utils/lstopo/lstopo-core.c:181-185 | the pass as written leaves one slot per device |
| LstopoCollapse.AsWrittenMisgroups | utils/lstopo/lstopo-core.c:160-180 | as written, [A, X with I/O children, A] gives 2, 0, -1 where the intended marks are 0, 0, 0 |
| LstopoUserdata.Populate | utils/lstopo/lstopo-core.c:81-100 | every object of the subtree gets one new record (pci_collapsed 0) on top of its old chain |
| LstopoUserdata.Destroy | utils/lstopo/lstopo-core.c:102-121 | every object of the subtree loses its top record, if it has one |
| LstopoUserdata.PopulateThenDestroy | utils/lstopo/lstopo-core.c:81-121 | populate then destroy leaves every userdata chain as it was |

## Left out

- Environment handling in `hwloc_levelzero_discover`: `ZES_ENABLE_SYSMAN`, the warnings on stderr and the `assert` on the discovery phase are not modelled. Initialisation and driver-enumeration failures are one `None` input.
- Vendor library calls are inputs. Several failure paths with the same effect (failed first enumeration, zero count, failed allocation, failed second enumeration) are one `None`.
- The result of `zeDeviceGetSubDevices` is ignored by the source and is not modelled.
- The PCI link-speed update (`linkspeed`, lines 544-547) is floating point and is not modelled.
- The distances subsystem (`hwloc__levelzero_ports_add_xelink_bandwidth`) is one boolean input: "accepts the matrix". Its ownership transfer of the arrays is not modelled.
- `printf` of each found link is I/O and is not modelled.
- `free` (`hwloc__levelzero_osdev_array_free`, `hwloc__levelzero_ports_destroy`, the temporary buffers) is not modelled: memory is managed by Dafny.
- LevelZeroDiscovery.Register: the registry's reallocation is taken as succeeding during discovery. A failure only skips the registration, and `Add` models that path on its own.
- LevelZeroDiscovery.Discover: the created objects are stated fresh per device (`DiscoverDevice`), not for the whole result.
- LevelZeroDiscovery.Discover: the return value of `hwloc__levelzero_ports_connect` is not returned, because the source ignores it and always returns 0.
- `gotbw` and the memory totals are unbounded naturals, and so are the 32-bit `nr` and `zeidx`. Their wrap-around is not modelled: each counts devices, ports or kilobytes of memory, and stays far below it. The matrix cells do wrap modulo 2^64, as in the source.
- LevelZeroBandwidth.RowSumIncludes and LevelZeroBandwidth.BandwidthIncludes: stated only when every rate is known. An unknown rate (-1) subtracts one unit from the sum (see `UnknownRateWraps`).
- The signed right shift of a negative rate is taken to be arithmetic (rounding down), as on the compilers hwloc supports; C leaves it implementation-defined.
- Port slots beyond `nr` that the source writes before skipping a port are not modelled: they are never read.
- LstopoFig.TextRecord: the signed `int` products `size * 16`, `size * 10` and `len * size * 10` are unbounded. Their C overflow is undefined behaviour and is not modelled.
- LstopoFig.FigOutput.constructor: `fig_color_index` is one file-scope static shared by every fig export of the process. The model keeps it as a field of each `FigOutput`, and the caller hands the value one export ends with to the next export's constructor; that hand-over is not enforced by the model.
- LstopoFig.FigOutput.DeclareColor: the signed counter `fig_color_index` is unbounded. Its overflow after 2^31 declarations is not modelled.
- LstopoFig.StrLen: labels are taken to be UTF-8 encoded; `strlen` of another multi-byte encoding is not modelled.
- The text formatting of records (`fprintf`) is not modelled: records are a datatype. `fig_draw` and `output_fig` are drawing-loop and file I/O and are not modelled.
- `open_output` takes the outcome of `stat` as an input. `fopen` may still fail; that is left to the caller.
- LstopoCore.LstopoOutput.constructor: the pointer fields `methods`, `backend_data` and `drawing_callback` (all NULL) are not modelled. `legend_append_nr` is the length of the empty `legendAppend` list.
- hwloc.h and lstopo.h are not part of this model. The object-type numbering follows the hwloc 2.x `hwloc_obj_type_t` order; the verbose-mode and orientation values are named, not numbered.
- `lstopo_populate_userdata` does not check `malloc`. The model allocates the record by value, so that failure is not modelled, and neither is the `common.buffer` field.
- The PCI-device and bridge traversals (`hwloc_get_next_pcidev`, `hwloc_get_next_bridge`) are given as sequences in depth-first order. A parent's identity is an integer.
- `lstopo_prepare` and the rest of lstopo-core.c after line 186 are not part of this model.

## Findings

The collapse pass (utils/lstopo/lstopo-core.c:151-186, whose only description is a one-line comment at line 156) is evidently meant to merge only adjacent, childless, identical sibling PCI devices: any device that differs, or has children, should end the current run. The code does not always do that, as the row below shows. The model keeps the code as written in `AsWrittenMarks` and uses the intended behaviour in `AddCollapseAttributes`.

| source | as written | input that shows it | evidently intended | confidence | as-written member | corrected member |
|---|---|---|---|---|---|---|
| utils/lstopo/lstopo-core.c:160-180 | a device that does not match the current collapser ends the run only when the run already holds two or more devices; after a run of one, a device with I/O or Misc children leaves the previous device as collapser | sibling PCI devices A, X, A in depth-first order, X being another device whose children are OS devices: the first A gets 2 and the second A gets -1 although they are not adjacent | any device that does not join the run ends it; only adjacent identical childless siblings are merged, so all three stay 0 | medium, not executed | LstopoCollapse.AsWrittenMisgroups | LstopoCollapse.AddCollapseAttributes |
