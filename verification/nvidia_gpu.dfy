/**
 * The GPU snapshot the dashboard shows in its fifth panel. How it is filled
 * (from `nvidia-smi`) is outside this model; only its shape and its
 * `Default` matter here.
 */
module NvidiaGpu {
  import opened Decimal

  datatype NvidiaGpuMeasurements = NvidiaGpuMeasurements(
    gpuName: string,
    gpuTemp: u64,
    powerUsage: u64,
    powerCapacity: u64,
    memoryUsage: u64,
    memoryCapacity: u64,
    gpuUtilization: u64)

  /** `#[derive(Default)]`: an empty name and every number 0. */
  const DefaultNvidiaGpuMeasurements := NvidiaGpuMeasurements("", 0, 0, 0, 0, 0, 0)
}
