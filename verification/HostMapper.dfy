/** From a NICo machine and its SKU to the content of a BareMetalHost,
    including the 64-bit arithmetic of its memory and disk sizes. */
module HostMapper {
  import opened Options
  import opened SkuCache

  // ---------- 64-bit arithmetic ----------

  const TWO_63: int := 0x8000_0000_0000_0000
  const TWO_64: int := 0x1_0000_0000_0000_0000
  const MAX_UINT32: int := 0xFFFF_FFFF

  function Wrap(n: int): (r: int)
    ensures -0x8000_0000_0000_0000 <= r < 0x8000_0000_0000_0000
    ensures (n - r) % 0x1_0000_0000_0000_0000 == 0
    ensures -0x8000_0000_0000_0000 <= n < 0x8000_0000_0000_0000 ==> r == n
  {
    (n + TWO_63) % TWO_64 - TWO_63
  }

  /** Division truncating toward zero. */
  function TruncDiv(n: int, d: int): (r: int)
    requires d > 0
    ensures n >= 0 ==> r * d <= n < r * d + d
    ensures n < 0 ==> r * d - d < n <= r * d
  {
    if n >= 0 then n / d else -(-n / d)
  }

  // ---------- memory ----------

  const BYTES_PER_MB := 1_000_000
  const BYTES_PER_MIB := 1_048_576

  /** The largest capacity in MB whose byte count fits an int64. */
  const MAX_TOTAL_MB := 9_223_372_036_854

  predicate Complete(mem: Memory) {
    mem.capacityMb.Some? && mem.count.Some?
  }

  /** Both numbers are uint32 in the API. */
  predicate IsUint32(value: Option<int>) {
    value.Some? ==> 0 <= value.value <= MAX_UINT32
  }

  function TotalMb(mem: Memory): int {
    if Complete(mem) then mem.capacityMb.value * mem.count.value else 0
  }

  /** MiB of one entry as the code computes it, every step in int64. */
  function EntryMebibytes(mem: Memory): int {
    if Complete(mem) then TruncDiv(Wrap(Wrap(TotalMb(mem)) * BYTES_PER_MB), BYTES_PER_MIB) else 0
  }

  function RamMebibytes(memory: seq<Memory>): int {
    if memory == [] then 0
    else Wrap(RamMebibytes(memory[..|memory| - 1]) + EntryMebibytes(memory[|memory| - 1]))
  }

  function CompleteEntries(memory: seq<Memory>): nat {
    if memory == [] then 0
    else CompleteEntries(memory[..|memory| - 1]) + if Complete(memory[|memory| - 1]) then 1 else 0
  }

  /** The memory in bytes, without any rounding or overflow. */
  function ExactBytes(memory: seq<Memory>): int {
    if memory == [] then 0 else ExactBytes(memory[..|memory| - 1]) + TotalMb(memory[|memory| - 1]) * BYTES_PER_MB
  }

  method SumMemory(memory: seq<Memory>) returns (mebibytes: int)
    ensures mebibytes == RamMebibytes(memory)
  {
    mebibytes := 0;
    for i := 0 to |memory|
      invariant mebibytes == RamMebibytes(memory[..i])
      invariant -TWO_63 <= mebibytes < TWO_63
    {
      assert memory[..i + 1][..i] == memory[..i];
      var mem := memory[i];
      if mem.capacityMb.Some? && mem.count.Some? {
        var totalMb := Wrap(mem.capacityMb.value * mem.count.value);
        mebibytes := Wrap(mebibytes + TruncDiv(Wrap(totalMb * BYTES_PER_MB), BYTES_PER_MIB));
      }
    }
    assert memory[..|memory|] == memory;
  }

  /** The byte count of one entry is computed without overflow exactly up to the limit. */
  lemma EntryOverflow(mem: Memory)
    requires Complete(mem) && IsUint32(mem.capacityMb) && IsUint32(mem.count)
    ensures Wrap(Wrap(TotalMb(mem)) * BYTES_PER_MB) == TotalMb(mem) * BYTES_PER_MB <==> TotalMb(mem) <= MAX_TOTAL_MB
  {
    assert TotalMb(mem) >= 0 by {
      ProductNonNegative(mem.capacityMb.value, mem.count.value);
    }
  }

  lemma ProductNonNegative(a: int, b: int)
    requires a >= 0 && b >= 0
    ensures a * b >= 0
  {
  }

  ghost predicate Bounded(memory: seq<Memory>) {
    forall i :: 0 <= i < |memory| && Complete(memory[i]) ==> 0 <= TotalMb(memory[i]) <= MAX_TOTAL_MB
  }

  /** The MiB of one entry: the floor of capacity times count, from MB; nothing
      for an entry that lacks one of the two. */
  lemma EntryFloor(mem: Memory)
    requires mem.capacityMb.Some? && mem.count.Some?
    requires 0 <= mem.capacityMb.value * mem.count.value <= 9_223_372_036_854
    ensures 0 <= EntryMebibytes(mem) < 0x800_0000_0000
    ensures EntryMebibytes(mem) * 1_048_576 <= mem.capacityMb.value * mem.count.value * 1_000_000
            < (EntryMebibytes(mem) + 1) * 1_048_576
  {
  }

  lemma IncompleteEntry(mem: Memory)
    requires mem.capacityMb.None? || mem.count.None?
    ensures EntryMebibytes(mem) == 0
  {
  }

  /** The MiB total is the sum of per-entry floors, computed without overflow:
      it is at most the exact total and less than one MiB per entry below it. */
  lemma {:induction false} MemoryBound(memory: seq<Memory>)
    requires Bounded(memory) && CompleteEntries(memory) < 0x10_0000
    ensures var k, ram := CompleteEntries(memory), RamMebibytes(memory);
            && 0 <= ram <= k * 0x800_0000_0000
            && ram * 1_048_576 <= ExactBytes(memory)
            && (k > 0 ==> ExactBytes(memory) < (ram + k) * 1_048_576)
            && (k == 0 ==> ExactBytes(memory) == 0 && ram == 0)
    ensures memory != [] ==>
              RamMebibytes(memory)
              == RamMebibytes(memory[..|memory| - 1]) + EntryMebibytes(memory[|memory| - 1])
    ensures memory != [] ==>
              var init, last := memory[..|memory| - 1], memory[|memory| - 1];
              if last.capacityMb.Some? && last.count.Some? then
                && ExactBytes(memory) == ExactBytes(init) + last.capacityMb.value * last.count.value * 1_000_000
                && CompleteEntries(memory) == CompleteEntries(init) + 1
              else ExactBytes(memory) == ExactBytes(init) && CompleteEntries(memory) == CompleteEntries(init)
  {
    if memory != [] {
      var init, last := memory[..|memory| - 1], memory[|memory| - 1];
      MemoryBound(init);
      if Complete(last) {
        EntryFloor(last);
      }
    }
  }

  // ---------- disks ----------

  datatype Disk = Disk(sizeBytes: int, vendor: string, model: string)

  function DiskOf(storage: Storage): Disk {
    Disk(if storage.capacityMb.Some? then Wrap(storage.capacityMb.value * BYTES_PER_MB) else 0,
         OrEmpty(storage.vendor), OrEmpty(storage.model))
  }

  /** No uint32 capacity overflows the byte size of a disk. */
  lemma DiskNeverOverflows(storage: Storage)
    requires storage.capacityMb.Some? && IsUint32(storage.capacityMb)
    ensures DiskOf(storage).sizeBytes == storage.capacityMb.value * 1_000_000
  {
  }

  // ---------- hardware details ----------

  datatype Nic = Nic(mac: Option<string>, device: Option<string>)

  datatype Dmi = Dmi(biosVersion: Option<string>, biosDate: Option<string>)

  datatype Metadata = Metadata(bmcIp: Option<string>, nics: seq<Nic>, dmi: Option<Dmi>)

  datatype MachineState = Ready | InUse | OtherState(name: string)

  datatype NicoMachine = NicoMachine(
    id: Option<string>,
    siteId: Option<string>,
    status: Option<MachineState>,
    vendor: Option<string>,
    productName: Option<string>,
    serialNumber: Option<string>,
    controllerMachineType: Option<string>,
    metadata: Option<Metadata>)

  datatype HostNic = HostNic(mac: string, name: string)

  datatype HardwareDetails = HardwareDetails(
    manufacturer: string,
    productName: string,
    serialNumber: string,
    biosVersion: string,
    biosDate: string,
    cpuArch: string,
    cpuModel: string,
    cpuCount: int,
    ramMebibytes: int,
    nics: seq<HostNic>,
    storage: seq<Disk>)

  /** The last CPU entry that names a model, and the last that gives a count. */
  function CpuModel(cpus: seq<Cpu>): string {
    if cpus == [] then ""
    else if cpus[|cpus| - 1].model.Some? then cpus[|cpus| - 1].model.value
    else CpuModel(cpus[..|cpus| - 1])
  }

  function CpuCount(cpus: seq<Cpu>): int {
    if cpus == [] then 0
    else if cpus[|cpus| - 1].count.Some? then cpus[|cpus| - 1].count.value
    else CpuCount(cpus[..|cpus| - 1])
  }

  function HostNics(nics: seq<Nic>): (r: seq<HostNic>)
    ensures |r| == |nics|
    ensures forall i :: 0 <= i < |nics| ==> r[i] == HostNic(OrEmpty(nics[i].mac), OrEmpty(nics[i].device))
  {
    seq(|nics|, i requires 0 <= i < |nics| => HostNic(OrEmpty(nics[i].mac), OrEmpty(nics[i].device)))
  }

  function Disks(storage: seq<Storage>): (r: seq<Disk>)
    ensures |r| == |storage|
    ensures forall i :: 0 <= i < |storage| ==> r[i] == DiskOf(storage[i])
  {
    seq(|storage|, i requires 0 <= i < |storage| => DiskOf(storage[i]))
  }

  const NO_COMPONENTS := Components([], [], [])

  const NO_METADATA := Metadata(None, [], None)

  function ComponentsOf(sku: Option<Sku>): Components {
    if sku.Some? && sku.value.components.Some? then sku.value.components.value else NO_COMPONENTS
  }

  function MetadataOf(m: NicoMachine): Metadata {
    if m.metadata.Some? then m.metadata.value else NO_METADATA
  }

  function Details(m: NicoMachine, sku: Option<Sku>): HardwareDetails {
    var parts, meta := ComponentsOf(sku), MetadataOf(m);
    var dmi := if meta.dmi.Some? then meta.dmi.value else Dmi(None, None);
    HardwareDetails(
      OrEmpty(m.vendor), OrEmpty(m.productName), OrEmpty(m.serialNumber),
      OrEmpty(dmi.biosVersion), OrEmpty(dmi.biosDate),
      OrEmpty(m.controllerMachineType), CpuModel(parts.cpus), CpuCount(parts.cpus),
      RamMebibytes(parts.memory), HostNics(meta.nics), Disks(parts.storage))
  }

  /** The last entry that names a model, and the last that gives a count, by position. */
  lemma {:induction false} CpusByPosition(cpus: seq<Cpu>, k: nat)
    requires k < |cpus|
    ensures cpus[k].model.Some? && (forall j :: k < j < |cpus| ==> cpus[j].model.None?) ==>
              CpuModel(cpus) == cpus[k].model.value
    ensures cpus[k].count.Some? && (forall j :: k < j < |cpus| ==> cpus[j].count.None?) ==>
              CpuCount(cpus) == cpus[k].count.value
    ensures (forall j :: 0 <= j < |cpus| ==> cpus[j].model.None?) ==> CpuModel(cpus) == ""
    ensures (forall j :: 0 <= j < |cpus| ==> cpus[j].count.None?) ==> CpuCount(cpus) == 0
  {
    var n := |cpus| - 1;
    if n > 0 {
      CpusByPosition(cpus[..n], if k < n then k else 0);
    }
  }

  /** The details, field by field. */
  lemma DetailFields(m: NicoMachine, sku: Option<Sku>)
    ensures var hd := Details(m, sku);
            && hd.manufacturer == (match m.vendor case None => "" case Some(v) => v)
            && hd.productName == (match m.productName case None => "" case Some(v) => v)
            && hd.serialNumber == (match m.serialNumber case None => "" case Some(v) => v)
            && hd.cpuArch == (match m.controllerMachineType case None => "" case Some(v) => v)
    ensures var hd := Details(m, sku);
            match m.metadata
            case None => hd.biosVersion == "" && hd.biosDate == "" && hd.nics == []
            case Some(meta) =>
              && (meta.dmi.Some? && meta.dmi.value.biosVersion.Some? ==>
                    hd.biosVersion == meta.dmi.value.biosVersion.value)
              && (meta.dmi.Some? && meta.dmi.value.biosDate.Some? ==> hd.biosDate == meta.dmi.value.biosDate.value)
              && |hd.nics| == |meta.nics|
              && forall i :: 0 <= i < |meta.nics| ==>
                   && hd.nics[i].mac == (match meta.nics[i].mac case None => "" case Some(v) => v)
                   && hd.nics[i].name == (match meta.nics[i].device case None => "" case Some(v) => v)
    ensures var hd := Details(m, sku);
            if sku.None? || sku.value.components.None? then
              hd.cpuModel == "" && hd.cpuCount == 0 && hd.ramMebibytes == 0 && hd.storage == []
            else
              var parts := sku.value.components.value;
              && hd.cpuModel == CpuModel(parts.cpus) && hd.cpuCount == CpuCount(parts.cpus)
              && hd.ramMebibytes == RamMebibytes(parts.memory)
              && |hd.storage| == |parts.storage|
              && forall i :: 0 <= i < |parts.storage| ==>
                   && hd.storage[i].vendor == (match parts.storage[i].vendor case None => "" case Some(v) => v)
                   && hd.storage[i].model == (match parts.storage[i].model case None => "" case Some(v) => v)
                   && (parts.storage[i].capacityMb.None? ==> hd.storage[i].sizeBytes == 0)
  {
  }

  method ReadCpus(cpus: seq<Cpu>) returns (model: string, count: int)
    ensures model == CpuModel(cpus) && count == CpuCount(cpus)
  {
    model, count := "", 0;
    for i := 0 to |cpus|
      invariant model == CpuModel(cpus[..i]) && count == CpuCount(cpus[..i])
    {
      assert cpus[..i + 1][..i] == cpus[..i];
      if cpus[i].model.Some? {
        model := cpus[i].model.value;
      }
      if cpus[i].count.Some? {
        count := cpus[i].count.value;
      }
    }
    assert cpus[..|cpus|] == cpus;
  }

  method BuildHardwareDetails(m: NicoMachine, sku: Option<Sku>) returns (hd: HardwareDetails)
    ensures hd == Details(m, sku)
  {
    hd := HardwareDetails(OrEmpty(m.vendor), OrEmpty(m.productName), OrEmpty(m.serialNumber), "", "",
                          OrEmpty(m.controllerMachineType), "", 0, 0, [], []);
    if m.metadata.Some? {
      var meta := m.metadata.value;
      if meta.dmi.Some? {
        hd := hd.(biosVersion := OrEmpty(meta.dmi.value.biosVersion), biosDate := OrEmpty(meta.dmi.value.biosDate));
      }
      var nics := [];
      for i := 0 to |meta.nics|
        invariant nics == HostNics(meta.nics)[..i]
      {
        nics := nics + [HostNic(OrEmpty(meta.nics[i].mac), OrEmpty(meta.nics[i].device))];
      }
      hd := hd.(nics := nics);
    }
    if sku.Some? && sku.value.components.Some? {
      var parts := sku.value.components.value;
      var model, count := ReadCpus(parts.cpus);
      var mebibytes := SumMemory(parts.memory);
      var disks := [];
      for i := 0 to |parts.storage|
        invariant disks == Disks(parts.storage)[..i]
      {
        disks := disks + [DiskOf(parts.storage[i])];
      }
      hd := hd.(cpuModel := model, cpuCount := count, ramMebibytes := mebibytes, storage := disks);
    }
  }
}
