// include/kvk.h: the public types of kvk. PhysicalDeviceTypeFlags and its
// operator|, the ArrayReference view of a caller's std::vector, and the
// query, requirement and return structures as datatypes.

module Kvk {
  import opened Wrappers
  import opened Vulkan

  /** uint32_t. */
  type Uint32 = x: nat | x < 0x1_0000_0000

  // ---------------------------------------------------------------------
  // PhysicalDeviceTypeFlags
  // ---------------------------------------------------------------------

  /** The enumerators of PhysicalDeviceTypeFlags. */
  const OtherFlag: bv32 := 1
  const IntegratedGpuFlag: bv32 := 2
  const DiscreteGpuFlag: bv32 := 4
  const VirtualGpuFlag: bv32 := 8
  const CpuFlag: bv32 := 16

  /** The enumerator of PhysicalDeviceTypeFlags that stands for device type t. */
  function TypeFlag(t: PhysicalDeviceType): (flag: bv32)
    ensures flag == 1 << t.Ordinal()
  {
    match t
    case TypeOther => OtherFlag
    case IntegratedGpu => IntegratedGpuFlag
    case DiscreteGpu => DiscreteGpuFlag
    case VirtualGpu => VirtualGpuFlag
    case TypeCpu => CpuFlag
  }

  /** The membership test select_physical_device and create_device apply to
      excluded_device_types: flags & (1 << deviceType) is nonzero. */
  predicate HasType(flags: bv32, t: PhysicalDeviceType)
  {
    flags & (1 << t.Ordinal()) != 0
  }

  /** operator| on PhysicalDeviceTypeFlags. */
  function Union(a: bv32, b: bv32): (r: bv32)
    ensures forall t :: HasType(r, t) <==> HasType(a, t) || HasType(b, t)
  {
    a | b
  }

  /** Each enumerator names exactly its own device type. */
  lemma TypeFlagNamesOneType(t: PhysicalDeviceType, u: PhysicalDeviceType)
    ensures HasType(TypeFlag(t), u) <==> t == u
  {
  }

  lemma UnionCommutative(a: bv32, b: bv32)
    ensures Union(a, b) == Union(b, a)
  {
  }

  lemma UnionAssociative(a: bv32, b: bv32, c: bv32)
    ensures Union(Union(a, b), c) == Union(a, Union(b, c))
  {
  }

  // ---------------------------------------------------------------------
  // ArrayReference
  // ---------------------------------------------------------------------

  /** The caller's std::vector that an ArrayReference refers to. */
  class Vector<T> {
    var elements: seq<T>

    constructor (elements: seq<T>)
      ensures this.elements == elements
    {
      this.elements := elements;
    }
  }

  /** Outcome of operator[]: the element, or the out_of_range exception. */
  datatype Access<T> = InRange(item: T) | ThrowsOutOfRange

  /** ArrayReference<T>: resize, size and bounds-checked indexing of a
      vector owned by the caller. zero is the value-initialised T{} that
      std::vector::resize fills new slots with. */
  class ArrayReference<T> {
    const vector: Vector<T>
    const zero: T

    constructor (vector: Vector<T>, zero: T)
      ensures this.vector == vector && this.zero == zero
    {
      this.vector := vector;
      this.zero := zero;
    }

    /** resize(n): std::vector::resize either succeeds, keeping the first
        min(n, size) elements and value-initialising the rest, or throws and
        leaves the vector as it was; allocationSucceeds says which. */
    method Resize(n: nat, allocationSucceeds: bool) returns (ok: bool)
      modifies vector
      ensures ok == allocationSucceeds
      ensures ok ==> |vector.elements| == n
      ensures ok ==> forall i | 0 <= i < n ::
        vector.elements[i] == if i < |old(vector.elements)| then old(vector.elements)[i] else zero
      ensures !ok ==> vector.elements == old(vector.elements)
    {
      if allocationSucceeds {
        var before := vector.elements;
        if n <= |before| {
          vector.elements := before[..n];
        } else {
          vector.elements := before + seq(n - |before|, _ => zero);
        }
      }
      ok := allocationSucceeds;
    }

    /** size(). */
    function Size(): (n: nat)
      reads this, vector
      ensures n == |vector.elements|
    {
      |vector.elements|
    }

    /** Reading through operator[](i). */
    method Get(i: Uint32) returns (r: Access<T>)
      ensures i < |vector.elements| ==> r == InRange(vector.elements[i])
      ensures i >= |vector.elements| ==> r == ThrowsOutOfRange
    {
      if i >= |vector.elements| {
        r := ThrowsOutOfRange;
      } else {
        r := InRange(vector.elements[i]);
      }
    }

    /** Writing x through operator[](i); false when operator[] throws. */
    method Set(i: Uint32, x: T) returns (ok: bool)
      modifies vector
      ensures ok == (i < |old(vector.elements)|)
      ensures |vector.elements| == |old(vector.elements)|
      ensures ok ==> vector.elements[i] == x
      ensures forall k | 0 <= k < |vector.elements| && k != i :: vector.elements[k] == old(vector.elements)[k]
      ensures !ok ==> vector.elements == old(vector.elements)
    {
      ok := i < |vector.elements|;
      if ok {
        vector.elements := vector.elements[i := x];
      }
    }
  }

  // ---------------------------------------------------------------------
  // Query, requirement and return structures
  // ---------------------------------------------------------------------

  /** InstancePresets; a callback is represented by whether it is set. */
  datatype InstancePresets = InstancePresets(
    recommended: bool,
    enableSurfaces: bool,
    enablePlatformSpecificSurfaces: bool,
    enableValidationLayers: bool,
    enableDebugUtils: bool,
    createEnumeratePortabilityInstance: bool,
    debugMessengerCallbackSet: bool,
    debugReportCallbackSet: bool)

  /** InstanceCreateInfo without vk_pnext. */
  datatype InstanceCreateInfo = InstanceCreateInfo(
    appName: string,
    appVersion: nat,
    vkVersion: nat,
    flags: bv32,
    layers: seq<string>,
    extensions: seq<string>,
    presets: InstancePresets)

  datatype PhysicalDeviceFormatPropertyRequirement =
    PhysicalDeviceFormatPropertyRequirement(format: Format, minimumProperties: FormatProperties)

  datatype PhysicalDeviceImageFormatPropertyRequirement = PhysicalDeviceImageFormatPropertyRequirement(
    format: Format,
    imageType: ImageType,
    tiling: ImageTiling,
    usage: bv32,
    flags: bv32,
    minimumProperties: ImageFormatProperties)
  {
    /** The arguments passed to vkGetPhysicalDeviceImageFormatProperties. */
    function Key(): ImageFormatKey
    {
      ImageFormatKey(format, imageType, tiling, usage, flags)
    }
  }

  /** PhysicalDeviceQueueRequirements; surfaceSupport 0 is a null surface. */
  datatype PhysicalDeviceQueueRequirements = PhysicalDeviceQueueRequirements(
    properties: QueueFamilyProperties,
    surfaceSupport: SurfaceId,
    createFlags: bv32,
    priorities: seq<real>)

  /** PhysicalDeviceQuery; of minimum_memory_properties only the two counts
      are ever read. */
  datatype PhysicalDeviceQuery = PhysicalDeviceQuery(
    minimumVkVersion: nat,
    deviceNameSubstring: Option<string>,
    excludedDeviceTypes: bv32,
    minimumFeatures: Features,
    minimumLimits: Limits,
    requiredExtensions: seq<ExtensionProperties>,
    minimumFormatProperties: seq<PhysicalDeviceFormatPropertyRequirement>,
    minimumImageFormatProperties: seq<PhysicalDeviceImageFormatPropertyRequirement>,
    minimumMemoryTypeCount: nat,
    minimumMemoryHeapCount: nat,
    requiredQueues: seq<PhysicalDeviceQueueRequirements>)

  datatype ManualPhysicalDeviceSelection = ManualPhysicalDeviceSelection(queueCreateInfos: seq<QueueCreateInfo>)

  datatype DevicePresets = DevicePresets(
    recommended: bool,
    enablePortabilitySubset: bool,
    enableSwapchain: bool,
    enableDynamicRendering: bool)

  /** The anonymous union of DeviceCreateInfo. */
  datatype DeviceSelection =
    | ManualSelection(manualSelection: ManualPhysicalDeviceSelection)
    | QuerySelection(physicalDeviceQuery: PhysicalDeviceQuery)

  /** DeviceCreateInfo without vk_pnext. */
  datatype DeviceCreateInfo = DeviceCreateInfo(
    physicalDevice: Handle,
    flags: bv32,
    extensions: seq<string>,
    selection: DeviceSelection,
    presets: DevicePresets)
  {
    /** create_device reads the query member of the union exactly when
        vk_physical_device is null, so that is the member that must be active. */
    predicate ActiveMemberMatches()
    {
      (physicalDevice == NullHandle) == selection.QuerySelection?
    }
  }

  datatype DeviceQueueReturn = DeviceQueueReturn(
    queue: Handle,
    familyIndex: nat,
    requestIndex: nat,
    queueIndex: nat)
}
