/**
 * The Whisper model table (`WHISPER_MODELS`), the execution device, the
 * memory rule the model-info panel applies, and the device manager.
 * Memory is in whole megabytes.
 */
module Catalog {
  import opened Wrappers

  datatype Device = Cpu | Cuda

  /** One row of the model table: the caption shown in the selector, the native model name, its approximate memory in MB. */
  datatype ModelEntry = ModelEntry(caption: string, name: string, memoryMB: nat)

  const Models: seq<ModelEntry> := [
    ModelEntry("Tiny (schnell, niedrige Genauigkeit)", "tiny", 72),
    ModelEntry("Base (ausgewogen)", "base", 139),
    ModelEntry("Small (gut)", "small", 461),
    ModelEntry("Medium (sehr gut)", "medium", 1420),
    ModelEntry("Turbo (sehr schnell, eventuell ungenau)", "turbo", 1510),
    ModelEntry("Large (beste Qualität)", "large", 2880),
    ModelEntry("Large V2 (beste Qualität, neu)", "large-v2", 2870),
    ModelEntry("Large V3 (beste Qualität, neueste)", "large-v3", 2880)
  ]

  /** The first entry of `entries` with the given caption. */
  function Find(entries: seq<ModelEntry>, caption: string): (r: Option<ModelEntry>)
    ensures r.Some? <==> exists i :: 0 <= i < |entries| && entries[i].caption == caption
    ensures r.Some? ==> r.value in entries && r.value.caption == caption
  {
    if entries == [] then None
    else if entries[0].caption == caption then Some(entries[0])
    else
      var r := Find(entries[1..], caption);
      assert forall i :: 1 <= i < |entries| ==> entries[i] == entries[1..][i - 1];
      r
  }

  /** `WHISPER_MODELS[caption]`, with None where the dictionary raises KeyError. */
  function Lookup(caption: string): (r: Option<ModelEntry>)
    ensures r.Some? <==> exists i :: 0 <= i < |Models| && Models[i].caption == caption
    ensures r.Some? ==> r.value in Models && r.value.caption == caption
  {
    Find(Models, caption)
  }

  /** What the accelerator probe reports: nothing, or a CUDA device with its memory in MB. */
  datatype CudaProbe =
    | NoCuda
    | CudaPresent(deviceName: string, deviceCount: nat, allocatedMB: int, totalMB: int)

  /** Free accelerator memory: total minus what is already allocated. */
  function FreeGpuMB(probe: CudaProbe): int
    requires probe.CudaPresent?
  {
    probe.totalMB - probe.allocatedMB
  }

  /** The device a job runs on: CUDA only when it is both selected and present. */
  function ChooseDevice(gpuSelected: bool, probe: CudaProbe): Device {
    if gpuSelected && probe.CudaPresent? then Cuda else Cpu
  }

  /** The model needs its table memory on the accelerator and twice that on the CPU. */
  function RequiredMB(entry: ModelEntry, device: Device): nat {
    if device == Cuda then entry.memoryMB else 2 * entry.memoryMB
  }

  /** What the model-info panel shows: the path taken, required and available memory, and the verdict. */
  datatype MemoryReport = MemoryReport(device: Device, requiredMB: nat, availableMB: int, sufficient: bool)

  /**
   * The memory check of the model-info panel. On the accelerator path the
   * free accelerator memory must cover the table figure; on every other
   * path the system RAM must cover twice that figure.
   */
  function ModelInfo(entry: ModelEntry, gpuSelected: bool, probe: CudaProbe, systemRamMB: int): (r: MemoryReport)
    ensures r.device == Cuda <==> gpuSelected && probe.CudaPresent?
    ensures r.device == Cuda ==> r.requiredMB == entry.memoryMB && r.availableMB == FreeGpuMB(probe)
    ensures r.device == Cpu ==> r.requiredMB == 2 * entry.memoryMB && r.availableMB == systemRamMB
    ensures r.sufficient <==> r.availableMB >= r.requiredMB
  {
    var device := ChooseDevice(gpuSelected, probe);
    var available := if device == Cuda then FreeGpuMB(probe) else systemRamMB;
    MemoryReport(device, RequiredMB(entry, device), available, available >= RequiredMB(entry, device))
  }

  /** The accelerator memory gate applied before a job starts: refuse when the free memory is below the table figure. */
  predicate GpuMemoryShort(entry: ModelEntry, device: Device, probe: CudaProbe) {
    device == Cuda && probe.CudaPresent? && FreeGpuMB(probe) < entry.memoryMB
  }

  /**
   * The panel and the start gate agree on the accelerator: a start is
   * refused exactly when the panel reports insufficient memory. On the CPU
   * the gate never refuses, even when the panel warns.
   */
  lemma PanelAgreesWithGate(entry: ModelEntry, gpuSelected: bool, probe: CudaProbe, systemRamMB: int)
    ensures var device := ChooseDevice(gpuSelected, probe);
            device == Cuda ==> (GpuMemoryShort(entry, device, probe) <==> !ModelInfo(entry, gpuSelected, probe, systemRamMB).sufficient)
    ensures !GpuMemoryShort(entry, Cpu, probe)
  {
  }

  /** The device manager: the probed accelerator, the core count and the current device. */
  class DeviceManager {
    const cuda: CudaProbe
    const cpuCores: nat
    var currentDevice: Device

    /** The current device is CUDA only when CUDA was detected. */
    ghost predicate Valid()
      reads this
    {
      currentDevice == Cuda ==> cuda.CudaPresent?
    }

    /** Starts on CUDA when it is present and on the CPU otherwise. */
    constructor (cuda: CudaProbe, cpuCores: nat)
      ensures Valid()
      ensures this.cuda == cuda && this.cpuCores == cpuCores
      ensures currentDevice == (if cuda.CudaPresent? then Cuda else Cpu)
    {
      this.cuda := cuda;
      this.cpuCores := cpuCores;
      currentDevice := if cuda.CudaPresent? then Cuda else Cpu;
    }

    /** Switches device; asking for CUDA where none was detected fails and changes nothing. */
    method SetDevice(device: Device) returns (r: Outcome)
      requires Valid()
      modifies this
      ensures Valid()
      ensures device == Cuda && !cuda.CudaPresent? ==> r == Fail("CUDA ist nicht verfügbar") && currentDevice == old(currentDevice)
      ensures !(device == Cuda && !cuda.CudaPresent?) ==> r == Pass && currentDevice == device
    {
      if device == Cuda && !cuda.CudaPresent? {
        return Fail("CUDA ist nicht verfügbar");
      }
      currentDevice := device;
      r := Pass;
    }
  }
}
