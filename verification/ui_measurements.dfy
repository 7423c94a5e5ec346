/**
 * The dashboard's state: one slot per kind of measurement, each holding the
 * latest snapshot of that kind, and the dispatch that files a received
 * snapshot into its slot.
 */
module UiMeasurements {
  import opened Wrappers
  import opened SysStatsCpu
  import opened SysStatsMemory
  import opened SysStatsDisk
  import opened SysStatsSocket
  import opened NvidiaGpu

  /** The five slots. */
  datatype SlotKind = CpuSlot | MemorySlot | DiskSlot | SocketSlot | GpuSlot

  /**
   * A message from a poller: a snapshot of one of the five kinds, or of some
   * other kind of `Measurements` that the dashboard has no slot for.
   */
  datatype Measurement =
    | Cpu(cpu: CpuMeasurements)
    | Memory(memory: MemoryMeasurments)
    | Disk(disk: DiskStatMeasurements)
    | Socket(socket: SocketStatMeasurements)
    | Gpu(gpu: NvidiaGpuMeasurements)
    | Other

  /** The contents of the five slots, as a value. */
  datatype Slots = Slots(
    cpu: CpuMeasurements,
    memory: MemoryMeasurments,
    disk: DiskStatMeasurements,
    socket: SocketStatMeasurements,
    gpu: NvidiaGpuMeasurements)

  /** `UIMeasurements::default()`: every slot at its kind's default. */
  const DefaultSlots := Slots(
    DefaultCpuMeasurements,
    DefaultMemoryMeasurments,
    DefaultDiskStatMeasurements,
    DefaultSocketStatMeasurements,
    DefaultNvidiaGpuMeasurements)

  /** The slot a snapshot belongs in, if any. */
  function KindOf(m: Measurement): Option<SlotKind> {
    match m
    case Cpu(_) => Some(CpuSlot)
    case Memory(_) => Some(MemorySlot)
    case Disk(_) => Some(DiskSlot)
    case Socket(_) => Some(SocketSlot)
    case Gpu(_) => Some(GpuSlot)
    case Other => None
  }

  /** What slot `k` holds, as a snapshot of its kind. */
  function SlotValue(s: Slots, k: SlotKind): (m: Measurement)
    ensures KindOf(m) == Some(k)
  {
    match k
    case CpuSlot => Cpu(s.cpu)
    case MemorySlot => Memory(s.memory)
    case DiskSlot => Disk(s.disk)
    case SocketSlot => Socket(s.socket)
    case GpuSlot => Gpu(s.gpu)
  }

  /**
   * The downcast chain: a snapshot replaces, whole, the slot of its kind;
   * the other slots keep their contents, and a snapshot of no known kind
   * changes nothing.
   */
  function Apply(s: Slots, m: Measurement): Slots {
    match m
    case Cpu(c) => s.(cpu := c)
    case Memory(mem) => s.(memory := mem)
    case Disk(d) => s.(disk := d)
    case Socket(so) => s.(socket := so)
    case Gpu(g) => s.(gpu := g)
    case Other => s
  }

  /** What `Apply` does to each slot. */
  lemma ApplySlots(s: Slots, m: Measurement)
    ensures forall k :: SlotValue(Apply(s, m), k) == if KindOf(m) == Some(k) then m else SlotValue(s, k)
    ensures m.Other? ==> Apply(s, m) == s
  {
  }

  /** The slots after dispatching `ms`, first to last. */
  function ApplyAll(s: Slots, ms: seq<Measurement>): Slots
    decreases |ms|
  {
    if ms == [] then s else Apply(ApplyAll(s, ms[..|ms| - 1]), ms[|ms| - 1])
  }

  /** The last snapshot of kind `k` in `ms`, if any. */
  function LastOfKind(ms: seq<Measurement>, k: SlotKind): (r: Option<Measurement>)
    ensures r.Some? ==> KindOf(r.value) == Some(k) && r.value in ms
    ensures r.None? <==> forall i :: 0 <= i < |ms| ==> KindOf(ms[i]) != Some(k)
    decreases |ms|
  {
    if ms == [] then None
    else if KindOf(ms[|ms| - 1]) == Some(k) then Some(ms[|ms| - 1])
    else
      var r := LastOfKind(ms[..|ms| - 1], k);
      assert forall i :: 0 <= i < |ms| - 1 ==> ms[..|ms| - 1][i] == ms[i];
      r
  }

  /** The snapshot `LastOfKind` returns is the last of its kind: none after it has kind `k`. */
  lemma {:induction false} LastOfKindIsLast(ms: seq<Measurement>, k: SlotKind)
    ensures LastOfKind(ms, k).Some? ==>
      exists j :: 0 <= j < |ms| && ms[j] == LastOfKind(ms, k).value &&
        forall i :: j < i < |ms| ==> KindOf(ms[i]) != Some(k)
    decreases |ms|
  {
    if ms == [] {
      return;
    }
    var n := |ms| - 1;
    if KindOf(ms[n]) == Some(k) {
      assert ms[n] == LastOfKind(ms, k).value;
      return;
    }
    var init := ms[..n];
    LastOfKindIsLast(init, k);
    if LastOfKind(init, k).Some? {
      var j :| 0 <= j < |init| && init[j] == LastOfKind(init, k).value &&
        forall i :: j < i < |init| ==> KindOf(init[i]) != Some(k);
      assert ms[j] == init[j];
      forall i | j < i < |ms|
        ensures KindOf(ms[i]) != Some(k)
      {
        if i < n {
          assert ms[i] == init[i];
        }
      }
    }
  }

  /**
   * Last write wins: after a run of dispatches each slot holds the last
   * snapshot of its kind, or what it held before when none arrived.
   */
  lemma {:induction false} LastWriteWins(s: Slots, ms: seq<Measurement>)
    ensures forall k ::
      SlotValue(ApplyAll(s, ms), k) == (match LastOfKind(ms, k) case None => SlotValue(s, k) case Some(m) => m)
    decreases |ms|
  {
    if ms != [] {
      LastWriteWins(s, ms[..|ms| - 1]);
      ApplySlots(ApplyAll(s, ms[..|ms| - 1]), ms[|ms| - 1]);
    }
  }

  /** `UIMeasurements`: the five slots, updated in place by the dispatch. */
  class UIMeasurements {
    var uiCpuData: CpuMeasurements
    var uiMemoryData: MemoryMeasurments
    var uiDiskData: DiskStatMeasurements
    var uiSocketData: SocketStatMeasurements
    var uiNvidiaGpuData: NvidiaGpuMeasurements

    /** The slots as a value. */
    function Contents(): Slots
      reads this
    {
      Slots(uiCpuData, uiMemoryData, uiDiskData, uiSocketData, uiNvidiaGpuData)
    }

    /**
     * `UIMeasurements::default()`: no CPU records, memory and socket counts
     * all 0, no disks, and an unnamed GPU with every reading 0.
     */
    constructor ()
      ensures Contents() == DefaultSlots
      ensures uiCpuData.cpuTime == [] && uiDiskData.sdUtilization == []
      ensures uiMemoryData == MemoryMeasurments(0, 0, 0)
      ensures uiSocketData == SocketStatMeasurements(0, 0, 0)
      ensures uiNvidiaGpuData.gpuName == "" && uiNvidiaGpuData.gpuTemp == 0 && uiNvidiaGpuData.powerUsage == 0
      ensures uiNvidiaGpuData.powerCapacity == 0 && uiNvidiaGpuData.memoryUsage == 0
      ensures uiNvidiaGpuData.memoryCapacity == 0 && uiNvidiaGpuData.gpuUtilization == 0
    {
      uiCpuData := DefaultCpuMeasurements;
      uiMemoryData := DefaultMemoryMeasurments;
      uiDiskData := DefaultDiskStatMeasurements;
      uiSocketData := DefaultSocketStatMeasurements;
      uiNvidiaGpuData := DefaultNvidiaGpuMeasurements;
    }

    /** The downcast chain of `draw_ui`: overwrite the slot of the snapshot's kind with it. */
    method Dispatch(m: Measurement)
      modifies this
      ensures Contents() == Apply(old(Contents()), m)
    {
      if m.Cpu? {
        uiCpuData := m.cpu;
      } else if m.Memory? {
        uiMemoryData := m.memory;
      } else if m.Disk? {
        uiDiskData := m.disk;
      } else if m.Socket? {
        uiSocketData := m.socket;
      } else if m.Gpu? {
        uiNvidiaGpuData := m.gpu;
      }
    }
  }
}
