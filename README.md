# Device and precision selection (InvokeAI)

A Dafny model of InvokeAI's device helpers in `invokeai/backend/util/devices.py`.
These helpers decide three things:

- which torch device the models run on (CUDA, then MPS, then CPU, or an explicitly configured device);
- which numeric precision that device uses;
- which torch dtype and which execution context (`torch.autocast` or `nullcontext`) follow from that precision.

A further helper gives a CUDA device without an index the current CUDA index.

Every helper is pure apart from reads of torch and of the global settings, so each is a Dafny
`function`. The settings (`device`, `precision`) and the torch probes are explicit arguments:

- `DeviceSetting` is `AutoDevice` or `Explicit(device)`.
- `Precision` is `Auto | Autocast | Float32 | Float16 | BFloat16`.
- `Runtime` holds `cudaAvailable`, `mpsAvailable`, `currentDevice`, and `gpuName` (the CUDA hardware name at each index).

A device is a record `Device(kind, index)`. `kind` is `Cpu`, `Cuda`, `Mps`, or `Other(name)`, which stands for any other torch
device type. That name may not be "cpu", "cuda" or "mps", so each type has exactly one representation. `index` is an optional `nat`.

Files:

- `strings.dfy` (module `Strings`) holds the substring test behind Python's `in` and ASCII upper-casing.
- `devices.dfy` (module `Devices`) holds the helpers, their reference predicates (`Available`/`Rank`, `HalfCapable`,
  `Indexed`) and the lemmas connecting them.

## Model

| member | source | states |
|---|---|---|
| Devices.ChooseTorchDevice | invokeai/backend/util/devices.py:16-27 | with "auto": an available device type ranked best among all available ones (CUDA, then MPS, then CPU), without an index, and CUDA/MPS/CPU exactly under their availability conditions; an explicit setting is returned as configured |
| Devices.ExplicitDeviceIgnoresProbes | invokeai/backend/util/devices.py:26-27 | an explicit device setting yields that device whatever torch reports |
| Devices.AutoDeviceReadsOnlyAvailability | invokeai/backend/util/devices.py:19-25 | automatic choice depends only on the CUDA and MPS availability probes |
| Devices.GetTorchDeviceName | invokeai/backend/util/devices.py:30-32 | for a chosen CUDA device, its hardware name; for any other chosen device, its type string upper-cased, so "CPU" for every CPU device and "MPS" for every MPS device, explicit or automatic |
| Devices.TypeNameInjective | invokeai/backend/util/devices.py:32 | two device types have the same type string exactly when they are the same type |
| Strings.Upper | invokeai/backend/util/devices.py:32 | `str.upper()` on ASCII: same length, each character upper-cased, no lower-case letter left |
| Strings.UpperChar | invokeai/backend/util/devices.py:32 | a lower-case ASCII letter becomes its capital; any other character is unchanged |
| Strings.UpperIdempotent | invokeai/backend/util/devices.py:32 | upper-casing an upper-cased name changes nothing |
| Strings.Contains | invokeai/backend/util/devices.py:40 | Python's `sub in s` holds exactly when `sub` occurs at some position of `s` |
| Strings.ShiftOccurrence | invokeai/backend/util/devices.py:40 | when `sub` is not a prefix of `s`, it occurs in `s` exactly when it occurs in `s[1..]` |
| Devices.LimitedByName | invokeai/backend/util/devices.py:40 | the two substring tests hold exactly when the name contains an entry of the GTX 1660 / GTX 1650 denylist |
| Devices.ChoosePrecision | invokeai/backend/util/devices.py:35-57 | the result is always float32, float16 or bfloat16; float32 on every non-CUDA, non-MPS device and on denylisted CUDA cards; on MPS and other CUDA devices, float16 for auto/autocast and the configured precision otherwise |
| Devices.ChoosePrecisionHalfIff | invokeai/backend/util/devices.py:38-55 | float16 is chosen exactly on a float16-capable device configured for auto, autocast or float16 |
| Devices.ChoosePrecisionBFloat16Iff | invokeai/backend/util/devices.py:38-55 | bfloat16 is chosen exactly on a float16-capable device configured for bfloat16 |
| Devices.ChoosePrecisionStable | invokeai/backend/util/devices.py:35-57 | configuring the precision that was chosen yields that precision again |
| Devices.AutoAndAutocastAgree | invokeai/backend/util/devices.py:43-52 | "auto" and "autocast" give the same precision on every device |
| Devices.PrecisionIgnoresNameOffCuda | invokeai/backend/util/devices.py:38-57 | the hardware name matters only for CUDA devices |
| Devices.LimitedCardAlwaysFloat32 | invokeai/backend/util/devices.py:38-42 | on a card named "NVIDIA GeForce GTX 1650 Ti", every precision setting gives float32, and `torch_dtype` gives float32 |
| Devices.Gtx1650TiLimited | invokeai/backend/util/devices.py:40 | "NVIDIA GeForce GTX 1650 Ti" is on the denylist |
| Devices.RtxNotLimited | invokeai/backend/util/devices.py:40 | "GeForce RTX 3090" is not on the denylist |
| Devices.DtypeOf | invokeai/backend/util/devices.py:63-69 | half exactly for float16, bfloat16 exactly for bfloat16, float32 for everything else |
| Devices.TorchDtype | invokeai/backend/util/devices.py:60-69 | on the given device, or the device chosen when none is given: half exactly when the device is float16-capable and the setting is auto/autocast/float16; bfloat16 exactly when it is float16-capable and set to bfloat16; float32 otherwise |
| Devices.ChooseAutocast | invokeai/backend/util/devices.py:72-78 | the autocast context exactly for "autocast" and "float16", `nullcontext` otherwise |
| Devices.AutocastMatchesHalfDtype | invokeai/backend/util/devices.py:62-78 | for any precision `choose_precision` returns, autocast is chosen exactly when the dtype is half |
| Devices.NormalizeDevice | invokeai/backend/util/devices.py:81-89 | the type is kept and the result always carries the index its type needs; an already indexed or non-CUDA device is unchanged; a CUDA device without an index gets the current index |
| Devices.NormalizeIdempotent | invokeai/backend/util/devices.py:84-88 | normalising twice equals normalising once, even if the current index changed in between |
| Devices.NormalizeFixedPoints | invokeai/backend/util/devices.py:84-89 | normalisation leaves a device unchanged exactly when it is non-CUDA or already indexed |
| Devices.NormalizeKeepsPrecision | invokeai/backend/util/devices.py:39-88 | normalising a device with the current index never changes its chosen precision |
| Devices.NoGpuExample | invokeai/backend/util/devices.py:19-78 | device "auto", precision "auto", no GPU: the CPU device named "CPU", float32, the float32 dtype, `nullcontext` |
| Devices.CudaAutocastExample | invokeai/backend/util/devices.py:35-78 | device "cuda", precision "autocast" on a "GeForce RTX 3090": float16, the half dtype, the autocast context |

## Left out

- Torch probes (`torch.cuda.is_available`, `torch.backends.mps.is_available`, `torch.cuda.get_device_name`, `torch.cuda.current_device`) are foreign calls. They are fields of `Runtime`. A torch build without an MPS backend (the `hasattr` guard at line 22) is `mpsAvailable == false`.
- Devices.CudaDeviceName assumes that torch names the current CUDA device when a device has no index. That is torch's documented behaviour, not code this model can see.
- The foreign calls are assumed to succeed. `torch.cuda.get_device_name` (lines 32, 39) and `torch.cuda.current_device` (line 88) raise an error when no usable CUDA exists or an index names no device; in the model `gpuName` and `currentDevice` are total and unrelated to `cudaAvailable`. The model therefore describes only runs in which the configured CUDA device exists. Where the program would fail, the model gives a result, for example float16 for an explicit CUDA device when `cudaAvailable` is false.
- The global settings object (`get_config()`) is process-wide state. Its `device` and `precision` values are passed as arguments.
- Parsing device strings (`torch.device("cuda:1")` at lines 27 and 83) is torch library code. Devices arrive already parsed as `Device` records, including the string form that `normalize_device` accepts.
- The real `torch.autocast` and `nullcontext` context managers and the torch dtype objects are reduced to the tags `ContextKind` and `Dtype`. Mixed-precision casting and floating-point numerics are not modelled.
- `torch_dtype` replaces a missing device using `device or choose_torch_device()`. Since a torch device object is always truthy, the model reads this as "the given device, else the chosen one" (`Option.GetOr`).
- Strings.Upper: covers ASCII letters only. Unicode case mapping of `str.upper()` is not modelled. Torch device type names are ASCII.
