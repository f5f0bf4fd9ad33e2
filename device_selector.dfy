/** The device preference of `XeonPhiDeviceSelector::operator()` in helloWorld_SYCL.cpp: a score per
    device, where the SYCL runtime picks the device with the highest score and never one with a
    negative score. */
module DeviceSelector {

  /** `cl::sycl::info::device_type`. */
  datatype SyclDeviceType = Cpu | Gpu | Accelerator | Custom | Automatic | Host | All

  /** What the selector asks of a device: whether it has the `cl_khr_spir` extension, its type, and
      the vendor string of its platform. */
  datatype SyclDevice = SyclDevice(hasSpirExtension: bool, deviceType: SyclDeviceType, platformVendor: string)

  /** `std::string::substr(pos, count)` for `pos <= |s|`: at most `count` characters from `pos`. */
  function Substr(s: string, pos: nat, count: nat): (r: string)
    requires pos <= |s|
    ensures |r| == if pos + count <= |s| then count else |s| - pos
    ensures forall i :: 0 <= i < |r| ==> r[i] == s[pos + i]
  {
    if pos + count <= |s| then s[pos..pos + count] else s[pos..]
  }

  /** The score the selector gives a device. */
  function Score(d: SyclDevice): (score: int)
    ensures score < 0 <==> !d.hasSpirExtension
    ensures score != 0
  {
    if !d.hasSpirExtension then -1
    else if d.deviceType == Accelerator then 100
    else if d.deviceType == Gpu then 90
    else if d.deviceType == Cpu then
      (if Substr(d.platformVendor, 0, 5) == "Intel" then 80 else 70)
    else 1
  }

  /** The vendor test compares the first five characters with "Intel": it holds exactly when the
      vendor starts with "Intel", so a vendor shorter than five characters never passes. */
  lemma IntelVendorIsPrefix(vendor: string)
    ensures Substr(vendor, 0, 5) == "Intel" <==> |vendor| >= 5 && vendor[..5] == "Intel"
  {
    if |vendor| < 5 {
      assert |Substr(vendor, 0, 5)| < 5;
    }
  }

  /** The preference classes, from never used to most wanted. */
  datatype Preference = NeverUsed | OtherType | OtherCpu | IntelCpu | GpuDevice | AcceleratorDevice

  /** The class a device falls in. */
  function PreferenceOf(d: SyclDevice): Preference {
    if !d.hasSpirExtension then NeverUsed
    else match d.deviceType
      case Accelerator => AcceleratorDevice
      case Gpu => GpuDevice
      case Cpu => if |d.platformVendor| >= 5 && d.platformVendor[..5] == "Intel" then IntelCpu else OtherCpu
      case _ => OtherType
  }

  /** Position of a class in the order accelerator > GPU > Intel CPU > other CPU > other type > non-SPIR. */
  function Rank(p: Preference): nat {
    match p
    case NeverUsed => 0
    case OtherType => 1
    case OtherCpu => 2
    case IntelCpu => 3
    case GpuDevice => 4
    case AcceleratorDevice => 5
  }

  /** The scores order devices strictly by their class: a device is preferred to another exactly when
      its class ranks higher, and two devices of one class tie. */
  lemma ScoreOrdersByPreference(a: SyclDevice, b: SyclDevice)
    ensures Score(a) < Score(b) <==> Rank(PreferenceOf(a)) < Rank(PreferenceOf(b))
    ensures Score(a) == Score(b) <==> PreferenceOf(a) == PreferenceOf(b)
  {
    IntelVendorIsPrefix(a.platformVendor);
    IntelVendorIsPrefix(b.platformVendor);
  }

  /** Only a device without `cl_khr_spir` is never used; every SPIR-capable device, whatever its type and
      vendor, scores above zero, and a device without it scores -1. */
  lemma OnlyNonSpirDevicesAreExcluded(d: SyclDevice)
    ensures d.hasSpirExtension <==> Score(d) > 0
    ensures !d.hasSpirExtension ==> Score(d) == -1
  {
  }
}
