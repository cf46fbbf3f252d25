/** Device and precision selection for InvokeAI's model execution
    (invokeai/backend/util/devices.py). Every torch probe and the two
    configuration values the source reads from the global settings object
    are explicit arguments, so each helper is a total function. */
module Devices {
  import Strings

  datatype Option<+T> = None | Some(value: T) {
    function GetOr(default: T): T {
      match this
      case Some(v) => v
      case None => default
    }
  }

  /** A device type string other than the three with their own constructor. */
  type OtherTypeName = s: string | s != "cpu" && s != "cuda" && s != "mps" witness "xpu"

  /** A torch device type. `Other` stands for any type torch accepts besides
      these three (for instance "xpu" or "meta"); its name is the type string. */
  datatype DeviceType = Cpu | Cuda | Mps | Other(name: OtherTypeName)

  /** A parsed torch device: its type and its optional index (`cuda:1`). */
  datatype Device = Device(kind: DeviceType, index: Option<nat>)

  const CPU_DEVICE: Device := Device(Cpu, None)
  const CUDA_DEVICE: Device := Device(Cuda, None)
  const MPS_DEVICE: Device := Device(Mps, None)

  /** The configured `device` setting: "auto" or an explicit device. */
  datatype DeviceSetting = AutoDevice | Explicit(device: Device)

  /** The configured `precision` setting. */
  datatype Precision = Auto | Autocast | Float32 | Float16 | BFloat16

  /** The torch dtypes the model is run in. */
  datatype Dtype = HalfType | BFloat16Type | Float32Type

  /** What `choose_autocast` hands back: `torch.autocast` or `nullcontext`. */
  datatype ContextKind = AutocastContext | NullContext

  /** What the torch runtime reports: whether CUDA and MPS are usable (an
      absent MPS backend counts as unusable), the current CUDA device index,
      and the hardware name of the CUDA device at each index. */
  datatype Runtime = Runtime(cudaAvailable: bool, mpsAvailable: bool,
                             currentDevice: nat, gpuName: nat -> string)

  /** `torch.cuda.get_device_name(device)`: a device without an index names
      the current CUDA device. */
  function CudaDeviceName(rt: Runtime, d: Device): string {
    rt.gpuName(d.index.GetOr(rt.currentDevice))
  }

  // ---------------------------------------------------------------------
  // Device choice

  /** Whether the runtime can run on devices of type `t`; CPU always can. */
  predicate Available(rt: Runtime, t: DeviceType) {
    match t
    case Cpu => true
    case Cuda => rt.cudaAvailable
    case Mps => rt.mpsAvailable
    case Other(_) => false
  }

  /** Preference order of automatic device choice: lower is preferred. */
  function Rank(t: DeviceType): nat {
    match t
    case Cuda => 0
    case Mps => 1
    case Cpu => 2
    case Other(_) => 3
  }

  /** `choose_torch_device`: with "auto", the most preferred available of
      CUDA, MPS and CPU, without an index; otherwise the configured device. */
  function ChooseTorchDevice(setting: DeviceSetting, rt: Runtime): (d: Device)
    ensures setting.AutoDevice? ==>
      d.index.None? && Available(rt, d.kind) &&
      forall t :: Available(rt, t) ==> Rank(d.kind) <= Rank(t)
    ensures setting.AutoDevice? ==>
      (d.kind == Cuda <==> rt.cudaAvailable) &&
      (d.kind == Mps <==> !rt.cudaAvailable && rt.mpsAvailable) &&
      (d.kind == Cpu <==> !rt.cudaAvailable && !rt.mpsAvailable)
    ensures setting.Explicit? ==> d == setting.device
  {
    match setting
    case AutoDevice =>
      if rt.cudaAvailable then CUDA_DEVICE
      else if rt.mpsAvailable then MPS_DEVICE
      else CPU_DEVICE
    case Explicit(device) => device
  }

  /** An explicit device setting is used as given: no probe changes the result. */
  lemma ExplicitDeviceIgnoresProbes(device: Device, rt1: Runtime, rt2: Runtime)
    ensures ChooseTorchDevice(Explicit(device), rt1) == ChooseTorchDevice(Explicit(device), rt2) == device
  {
  }

  /** Automatic choice reads nothing but the two availability probes. */
  lemma AutoDeviceReadsOnlyAvailability(rt1: Runtime, rt2: Runtime)
    requires rt1.cudaAvailable == rt2.cudaAvailable && rt1.mpsAvailable == rt2.mpsAvailable
    ensures ChooseTorchDevice(AutoDevice, rt1) == ChooseTorchDevice(AutoDevice, rt2)
  {
  }

  /** The device type string torch uses. */
  function TypeName(t: DeviceType): string {
    match t
    case Cpu => "cpu"
    case Cuda => "cuda"
    case Mps => "mps"
    case Other(name) => name
  }

  /** Distinct device types have distinct type strings, so a type string
      names one device type. */
  lemma TypeNameInjective(t1: DeviceType, t2: DeviceType)
    ensures TypeName(t1) == TypeName(t2) <==> t1 == t2
  {
  }

  /** `get_torch_device_name`: the hardware name of the chosen CUDA device,
      otherwise the chosen device's type in upper case. */
  function GetTorchDeviceName(setting: DeviceSetting, rt: Runtime): (name: string)
    ensures ChooseTorchDevice(setting, rt).kind == Cuda ==>
      name == CudaDeviceName(rt, ChooseTorchDevice(setting, rt))
    ensures ChooseTorchDevice(setting, rt).kind != Cuda ==>
      name == Strings.Upper(TypeName(ChooseTorchDevice(setting, rt).kind))
    ensures ChooseTorchDevice(setting, rt).kind == Cpu ==> name == "CPU"
    ensures ChooseTorchDevice(setting, rt).kind == Mps ==> name == "MPS"
    ensures setting.AutoDevice? && !rt.cudaAvailable ==>
      name == if rt.mpsAvailable then "MPS" else "CPU"
  {
    var device := ChooseTorchDevice(setting, rt);
    if device.kind == Cuda then CudaDeviceName(rt, device)
    else Strings.Upper(TypeName(device.kind))
  }

  // ---------------------------------------------------------------------
  // Precision choice

  /** The precisions `choose_precision` may return; `auto` and `autocast`
      are inputs only. */
  predicate Concrete(p: Precision) {
    p == Float32 || p == Float16 || p == BFloat16
  }

  /** Precision settings that ask for the device's default. */
  predicate DefersToDevice(p: Precision) {
    p == Auto || p == Autocast
  }

  /** GPUs whose float16 support is limited. */
  const LIMITED_GPUS: seq<string> := ["GeForce GTX 1660", "GeForce GTX 1650"]

  /** A hardware name is on the denylist when it contains one of its entries. */
  predicate IsLimitedGpu(deviceName: string) {
    exists k :: 0 <= k < |LIMITED_GPUS| && Strings.Contains(deviceName, LIMITED_GPUS[k])
  }

  /** The denylist test as the source writes it: two substring tests. */
  function LimitedByName(deviceName: string): (b: bool)
    ensures b <==> IsLimitedGpu(deviceName)
  {
    assert LIMITED_GPUS[0] == "GeForce GTX 1660" && LIMITED_GPUS[1] == "GeForce GTX 1650";
    Strings.Contains(deviceName, "GeForce GTX 1660") || Strings.Contains(deviceName, "GeForce GTX 1650")
  }

  /** A device that runs float16 by default: any MPS device, and a CUDA
      device whose hardware is not on the denylist. */
  predicate HalfCapable(d: Device, rt: Runtime) {
    d.kind == Mps || (d.kind == Cuda && !IsLimitedGpu(CudaDeviceName(rt, d)))
  }

  /** `choose_precision`: float32 on the denylisted CUDA cards and on every
      device that is neither CUDA nor MPS; otherwise float16 when the
      setting defers to the device, and the setting itself when it is explicit. */
  function ChoosePrecision(d: Device, rt: Runtime, precision: Precision): (p: Precision)
    ensures Concrete(p)
    ensures d.kind != Cuda && d.kind != Mps ==> p == Float32
    ensures d.kind == Cuda && IsLimitedGpu(CudaDeviceName(rt, d)) ==> p == Float32
    ensures HalfCapable(d, rt) && DefersToDevice(precision) ==> p == Float16
    ensures HalfCapable(d, rt) && !DefersToDevice(precision) ==> p == precision
  {
    if d.kind == Cuda then
      var deviceName := CudaDeviceName(rt, d);
      if LimitedByName(deviceName) then Float32
      else if precision == Auto || precision == Autocast then Float16
      else precision
    else if d.kind == Mps then
      if precision == Auto || precision == Autocast then Float16
      else precision
    else
      Float32
  }

  /** The result is float16 exactly on a float16-capable device whose
      setting defers to it or asks for float16. */
  lemma ChoosePrecisionHalfIff(d: Device, rt: Runtime, precision: Precision)
    ensures ChoosePrecision(d, rt, precision) == Float16 <==>
      HalfCapable(d, rt) && (DefersToDevice(precision) || precision == Float16)
  {
  }

  /** The result is bfloat16 exactly on a float16-capable device configured for bfloat16. */
  lemma ChoosePrecisionBFloat16Iff(d: Device, rt: Runtime, precision: Precision)
    ensures ChoosePrecision(d, rt, precision) == BFloat16 <==>
      HalfCapable(d, rt) && precision == BFloat16
  {
  }

  /** Feeding the chosen precision back in as the setting chooses it again. */
  lemma ChoosePrecisionStable(d: Device, rt: Runtime, precision: Precision)
    ensures ChoosePrecision(d, rt, ChoosePrecision(d, rt, precision)) == ChoosePrecision(d, rt, precision)
  {
  }

  /** `auto` and `autocast` are the same request to `choose_precision`. */
  lemma AutoAndAutocastAgree(d: Device, rt: Runtime)
    ensures ChoosePrecision(d, rt, Auto) == ChoosePrecision(d, rt, Autocast)
  {
  }

  /** The hardware name is consulted for CUDA devices only. */
  lemma PrecisionIgnoresNameOffCuda(d: Device, rt1: Runtime, rt2: Runtime, precision: Precision)
    requires d.kind != Cuda
    ensures ChoosePrecision(d, rt1, precision) == ChoosePrecision(d, rt2, precision)
  {
  }

  // ---------------------------------------------------------------------
  // Dtype and autocast

  /** The dtype a precision names: float16 is half, bfloat16 is bfloat16,
      and everything else (including `auto` and `autocast`) is float32. */
  function DtypeOf(p: Precision): (t: Dtype)
    ensures t == HalfType <==> p == Float16
    ensures t == BFloat16Type <==> p == BFloat16
  {
    if p == Float16 then HalfType
    else if p == BFloat16 then BFloat16Type
    else Float32Type
  }

  /** `torch_dtype`: the dtype of the precision chosen for the given device,
      or for the device `choose_torch_device` picks when none is given. */
  function TorchDtype(device: Option<Device>, setting: DeviceSetting, rt: Runtime,
                      precision: Precision): (t: Dtype)
    ensures var d := device.GetOr(ChooseTorchDevice(setting, rt));
      (t == HalfType <==> HalfCapable(d, rt) && (DefersToDevice(precision) || precision == Float16)) &&
      (t == BFloat16Type <==> HalfCapable(d, rt) && precision == BFloat16) &&
      (t == Float32Type <==> !HalfCapable(d, rt) || precision == Float32)
  {
    var d := device.GetOr(ChooseTorchDevice(setting, rt));
    ChoosePrecisionHalfIff(d, rt, precision);
    ChoosePrecisionBFloat16Iff(d, rt, precision);
    DtypeOf(ChoosePrecision(d, rt, precision))
  }

  /** `choose_autocast`: the autocast context for `autocast` and `float16`,
      `nullcontext` for every other precision. */
  function ChooseAutocast(precision: Precision): (c: ContextKind)
    ensures c == AutocastContext <==> precision == Autocast || precision == Float16
  {
    if precision == Autocast || precision == Float16 then AutocastContext else NullContext
  }

  /** For a precision `choose_precision` returned, the autocast context is
      chosen exactly when the dtype is half. */
  lemma AutocastMatchesHalfDtype(d: Device, rt: Runtime, precision: Precision)
    ensures var p := ChoosePrecision(d, rt, precision);
      ChooseAutocast(p) == AutocastContext <==> DtypeOf(p) == HalfType
  {
  }

  // ---------------------------------------------------------------------
  // Device normalisation

  /** A device carries every index its type needs: only CUDA uses one. */
  predicate Indexed(d: Device) {
    d.kind != Cuda || d.index.Some?
  }

  /** `normalize_device`: a CUDA device without an index gets the current
      CUDA device index; every other device is returned unchanged. */
  function NormalizeDevice(d: Device, currentDevice: nat): (r: Device)
    ensures r.kind == d.kind
    ensures Indexed(r)
    ensures Indexed(d) ==> r == d
    ensures !Indexed(d) ==> r.index == Some(currentDevice)
  {
    if d.index.None? && d.kind == Cuda then Device(d.kind, Some(currentDevice)) else d
  }

  /** Normalising a normalised device changes nothing, whatever index is current then. */
  lemma NormalizeIdempotent(d: Device, current1: nat, current2: nat)
    ensures NormalizeDevice(NormalizeDevice(d, current1), current2) == NormalizeDevice(d, current1)
  {
  }

  /** The devices normalisation leaves alone are exactly the indexed ones. */
  lemma NormalizeFixedPoints(d: Device, currentDevice: nat)
    ensures NormalizeDevice(d, currentDevice) == d <==> Indexed(d)
  {
  }

  /** Filling in the current index names the same hardware, so the chosen
      precision does not change. */
  lemma NormalizeKeepsPrecision(d: Device, rt: Runtime, precision: Precision)
    ensures ChoosePrecision(NormalizeDevice(d, rt.currentDevice), rt, precision) == ChoosePrecision(d, rt, precision)
  {
  }

  // ---------------------------------------------------------------------
  // Worked examples

  /** With `device = auto`, `precision = auto` and no GPU: CPU, float32, the
      float32 dtype and no autocast. */
  lemma NoGpuExample(rt: Runtime)
    requires !rt.cudaAvailable && !rt.mpsAvailable
    ensures ChooseTorchDevice(AutoDevice, rt) == CPU_DEVICE
    ensures GetTorchDeviceName(AutoDevice, rt) == "CPU"
    ensures ChoosePrecision(ChooseTorchDevice(AutoDevice, rt), rt, Auto) == Float32
    ensures TorchDtype(None, AutoDevice, rt, Auto) == Float32Type
    ensures ChooseAutocast(ChoosePrecision(ChooseTorchDevice(AutoDevice, rt), rt, Auto)) == NullContext
  {
  }

  /** An RTX 3090 is not on the denylist. */
  lemma RtxNotLimited()
    ensures !IsLimitedGpu("GeForce RTX 3090")
  {
    var s := "GeForce RTX 3090";
    forall k | 0 <= k < |LIMITED_GPUS| ensures !Strings.Contains(s, LIMITED_GPUS[k]) {
      var sub := LIMITED_GPUS[k];
      assert |sub| == |s| && s[..|sub|][8] != sub[8];
      assert !Strings.Contains(s[1..], sub);
    }
  }

  /** A vendor-prefixed GTX 1650 Ti is on the denylist. */
  lemma Gtx1650TiLimited()
    ensures IsLimitedGpu("NVIDIA GeForce GTX 1650 Ti")
  {
    var s := "NVIDIA GeForce GTX 1650 Ti";
    assert s[7..23] == LIMITED_GPUS[1];
    assert Strings.OccursAt(s, LIMITED_GPUS[1], 7);
  }

  /** With `device = cuda`, `precision = autocast` on an RTX 3090: float16,
      the half dtype and the autocast context. */
  lemma CudaAutocastExample(rt: Runtime)
    requires rt.gpuName(rt.currentDevice) == "GeForce RTX 3090"
    ensures ChoosePrecision(ChooseTorchDevice(Explicit(CUDA_DEVICE), rt), rt, Autocast) == Float16
    ensures TorchDtype(None, Explicit(CUDA_DEVICE), rt, Autocast) == HalfType
    ensures ChooseAutocast(ChoosePrecision(ChooseTorchDevice(Explicit(CUDA_DEVICE), rt), rt, Autocast)) == AutocastContext
  {
    RtxNotLimited();
  }

  /** Every precision setting gives float32 on a denylisted card. */
  lemma LimitedCardAlwaysFloat32(rt: Runtime, precision: Precision)
    requires rt.gpuName(rt.currentDevice) == "NVIDIA GeForce GTX 1650 Ti"
    ensures ChoosePrecision(CUDA_DEVICE, rt, precision) == Float32
    ensures TorchDtype(Some(CUDA_DEVICE), AutoDevice, rt, precision) == Float32Type
  {
    Gtx1650TiLimited();
  }
}
