/** How a rendering device picks its execution mode from the requested mode
    and from what the native CPU and GPU modules offer.  Importing the modules
    and building the native device are not modelled: the import outcomes and
    the GPU count are inputs. */
module DeviceSelection {
  import opened Wrappers

  /** The two execution modes a device can run in. */
  datatype Mode = Gpu | Cpu

  /** The two exception types the selection can raise, with their messages. */
  datatype DeviceError = RuntimeError(message: string) | ValueError(message: string)

  const NoFallbackMessage: string := "No GPUs available AND CPU fallback library is not compiled"
  const NoGpuModuleMessage: string := "GPU implementation is not compiled"
  const NoGpusMessage: string := "No GPUs are available"
  const NoCpuModuleMessage: string := "CPU implementation is not compiled"
  const InvalidModeMessage: string := "Invalid mode"

  /** Select the mode for `mode` ("auto", "gpu" or "cpu").  `cpuCompiled`
      says whether the CPU module imported; `gpuModule` is None when the GPU
      module failed to import and otherwise holds the number of devices it
      reports. */
  method SelectMode(mode: string, cpuCompiled: bool, gpuModule: Option<int>)
    returns (r: Result<Mode, DeviceError>)
    // "auto": a GPU when one is available, else the CPU, else an error
    ensures mode == "auto" && gpuModule.Some? && gpuModule.value > 0 ==> r == Success(Gpu)
    ensures mode == "auto" && !(gpuModule.Some? && gpuModule.value > 0) ==>
      r == if cpuCompiled then Success(Cpu) else Failure(RuntimeError(NoFallbackMessage))
    // "gpu": the GPU module must be present and report a device count other than 0
    ensures mode == "gpu" ==>
      r == if gpuModule.None? then Failure(RuntimeError(NoGpuModuleMessage))
           else if gpuModule.value == 0 then Failure(RuntimeError(NoGpusMessage))
           else Success(Gpu)
    // "cpu": the CPU module must be present
    ensures mode == "cpu" ==>
      r == if cpuCompiled then Success(Cpu) else Failure(RuntimeError(NoCpuModuleMessage))
    // anything else
    ensures mode != "auto" && mode != "gpu" && mode != "cpu" ==> r == Failure(ValueError(InvalidModeMessage))
    // a device never runs on a module that is missing, nor on the GPU without devices
    ensures r == Success(Gpu) ==> gpuModule.Some? && gpuModule.value != 0
    ensures r == Success(Cpu) ==> cpuCompiled
    // only an unknown mode string gives a ValueError
    ensures r.Failure? && r.error.ValueError? <==> mode != "auto" && mode != "gpu" && mode != "cpu"
  {
    var numGpus := 0;
    if gpuModule.Some? {
      numGpus := gpuModule.value;
    }

    var selected: Option<Mode> := None;

    if mode == "auto" {
      if numGpus > 0 {
        selected := Some(Gpu);
      } else {
        selected := Some(Cpu);
        if !cpuCompiled {
          return Failure(RuntimeError(NoFallbackMessage));
        }
      }
    }

    if mode == "gpu" {
      if gpuModule.None? {
        return Failure(RuntimeError(NoGpuModuleMessage));
      }
      if numGpus == 0 {
        return Failure(RuntimeError(NoGpusMessage));
      }
      selected := Some(Gpu);
    }

    if mode == "cpu" {
      if !cpuCompiled {
        return Failure(RuntimeError(NoCpuModuleMessage));
      }
      selected := Some(Cpu);
    }

    if selected == Some(Gpu) {
      r := Success(Gpu);
    } else if selected == Some(Cpu) {
      r := Success(Cpu);
    } else {
      r := Failure(ValueError(InvalidModeMessage));
    }
  }
}
