// Types the Vulkan driver reports to kvk. Every driver query kvk makes is
// read-only, so a physical device is modelled as the record of everything
// those queries would return, with the parameterised queries (format,
// image-format and surface support) as functions stored in the record.

module Vulkan {
  import opened Wrappers

  /** VkResult codes that kvk produces or passes on; any other code is OtherResult. */
  datatype VkResult =
    | Success
    | Incomplete
    | ErrorOutOfHostMemory
    | ErrorOutOfDeviceMemory
    | ErrorInitializationFailed
    | ErrorFormatNotSupported
    | OtherResult(code: int)

  /** VkDebugUtilsMessageSeverityFlagBitsEXT. */
  datatype Severity = Verbose | Info | Warning | Error

  /** A dispatchable Vulkan handle; NullHandle is VK_NULL_HANDLE. */
  datatype Handle = NullHandle | Live(id: nat)

  /** A VkSurfaceKHR given in a queue requirement; 0 stands for a null surface. */
  type SurfaceId = nat

  /** VkFormat, VkImageType and VkImageTiling are opaque enumerants here. */
  type Format = nat
  type ImageType = nat
  type ImageTiling = nat

  /** VkPhysicalDeviceType; Ordinal is the enumerant's numeric value. */
  datatype PhysicalDeviceType = TypeOther | IntegratedGpu | DiscreteGpu | VirtualGpu | TypeCpu
  {
    function Ordinal(): (n: nat)
      ensures n < 5
    {
      match this
      case TypeOther => 0
      case IntegratedGpu => 1
      case DiscreteGpu => 2
      case VirtualGpu => 3
      case TypeCpu => 4
    }
  }

  /** VkPhysicalDeviceFeatures holds 55 VkBool32 members, robustBufferAccess
      (index 0) through inheritedQueries (index 54), in declaration order. */
  const FeatureCount: nat := 55
  type Features = s: seq<bool> | |s| == FeatureCount witness seq(FeatureCount, _ => false)

  /** The members of VkPhysicalDeviceLimits, array members split per element,
      in declaration order. */
  datatype LimitField =
    | MaxImageDimension1D
    | MaxImageDimension2D
    | MaxImageDimension3D
    | MaxImageDimensionCube
    | MaxImageArrayLayers
    | MaxTexelBufferElements
    | MaxUniformBufferRange
    | MaxStorageBufferRange
    | MaxPushConstantsSize
    | MaxMemoryAllocationCount
    | MaxSamplerAllocationCount
    | BufferImageGranularity
    | SparseAddressSpaceSize
    | MaxBoundDescriptorSets
    | MaxPerStageDescriptorSamplers
    | MaxPerStageDescriptorUniformBuffers
    | MaxPerStageDescriptorStorageBuffers
    | MaxPerStageDescriptorSampledImages
    | MaxPerStageDescriptorStorageImages
    | MaxPerStageDescriptorInputAttachments
    | MaxPerStageResources
    | MaxDescriptorSetSamplers
    | MaxDescriptorSetUniformBuffers
    | MaxDescriptorSetUniformBuffersDynamic
    | MaxDescriptorSetStorageBuffers
    | MaxDescriptorSetStorageBuffersDynamic
    | MaxDescriptorSetSampledImages
    | MaxDescriptorSetStorageImages
    | MaxDescriptorSetInputAttachments
    | MaxVertexInputAttributes
    | MaxVertexInputBindings
    | MaxVertexInputAttributeOffset
    | MaxVertexInputBindingStride
    | MaxVertexOutputComponents
    | MaxTessellationGenerationLevel
    | MaxTessellationPatchSize
    | MaxTessellationControlPerVertexInputComponents
    | MaxTessellationControlPerVertexOutputComponents
    | MaxTessellationControlPerPatchOutputComponents
    | MaxTessellationControlTotalOutputComponents
    | MaxTessellationEvaluationInputComponents
    | MaxTessellationEvaluationOutputComponents
    | MaxGeometryShaderInvocations
    | MaxGeometryInputComponents
    | MaxGeometryOutputComponents
    | MaxGeometryOutputVertices
    | MaxGeometryTotalOutputComponents
    | MaxFragmentInputComponents
    | MaxFragmentOutputAttachments
    | MaxFragmentDualSrcAttachments
    | MaxFragmentCombinedOutputResources
    | MaxComputeSharedMemorySize
    | MaxComputeWorkGroupCount0
    | MaxComputeWorkGroupCount1
    | MaxComputeWorkGroupCount2
    | MaxComputeWorkGroupInvocations
    | MaxComputeWorkGroupSize0
    | MaxComputeWorkGroupSize1
    | MaxComputeWorkGroupSize2
    | SubPixelPrecisionBits
    | SubTexelPrecisionBits
    | MipmapPrecisionBits
    | MaxDrawIndexedIndexValue
    | MaxDrawIndirectCount
    | MaxSamplerLodBias
    | MaxSamplerAnisotropy
    | MaxViewports
    | MaxViewportDimensions0
    | MaxViewportDimensions1
    | ViewportBoundsRange0
    | ViewportBoundsRange1
    | ViewportSubPixelBits
    | MinMemoryMapAlignment
    | MinTexelBufferOffsetAlignment
    | MinUniformBufferOffsetAlignment
    | MinStorageBufferOffsetAlignment
    | MinTexelOffset
    | MaxTexelOffset
    | MinTexelGatherOffset
    | MaxTexelGatherOffset
    | MinInterpolationOffset
    | MaxInterpolationOffset
    | SubPixelInterpolationOffsetBits
    | MaxFramebufferWidth
    | MaxFramebufferHeight
    | MaxFramebufferLayers
    | FramebufferColorSampleCounts
    | FramebufferDepthSampleCounts
    | FramebufferStencilSampleCounts
    | FramebufferNoAttachmentsSampleCounts
    | MaxColorAttachments
    | SampledImageColorSampleCounts
    | SampledImageIntegerSampleCounts
    | SampledImageDepthSampleCounts
    | SampledImageStencilSampleCounts
    | StorageImageSampleCounts
    | MaxSampleMaskWords
    | TimestampComputeAndGraphics
    | TimestampPeriod
    | MaxClipDistances
    | MaxCullDistances
    | MaxCombinedClipAndCullDistances
    | DiscreteQueuePriorities
    | PointSizeRange0
    | PointSizeRange1
    | LineWidthRange0
    | LineWidthRange1
    | PointSizeGranularity
    | LineWidthGranularity
    | StrictLines
    | StandardSampleLocations
    | OptimalBufferCopyOffsetAlignment
    | OptimalBufferCopyRowPitchAlignment
    | NonCoherentAtomSize

  /** A VkPhysicalDeviceLimits value. Integer members embed exactly into the
      reals and floating-point members are treated as non-NaN reals: the only
      operation kvk applies to them is comparison. */
  type Limits = LimitField -> real

  datatype Extent3D = Extent3D(width: nat, height: nat, depth: nat)

  /** VkQueueFamilyProperties. */
  datatype QueueFamilyProperties = QueueFamilyProperties(
    queueFlags: bv32,
    queueCount: nat,
    timestampValidBits: nat,
    minImageTransferGranularity: Extent3D)

  /** VkExtensionProperties. */
  datatype ExtensionProperties = ExtensionProperties(extensionName: string, specVersion: nat)

  /** VkFormatProperties. */
  datatype FormatProperties = FormatProperties(
    linearTilingFeatures: bv32,
    optimalTilingFeatures: bv32,
    bufferFeatures: bv32)

  /** VkImageFormatProperties. */
  datatype ImageFormatProperties = ImageFormatProperties(
    maxExtent: Extent3D,
    maxMipLevels: nat,
    maxArrayLayers: nat,
    sampleCounts: bv32,
    maxResourceSize: nat)

  /** The argument tuple of vkGetPhysicalDeviceImageFormatProperties. */
  datatype ImageFormatKey = ImageFormatKey(
    format: Format,
    imageType: ImageType,
    tiling: ImageTiling,
    usage: bv32,
    flags: bv32)

  /** What vkGetPhysicalDeviceImageFormatProperties returns: a status code and,
      when it is Success, the properties. */
  datatype ImageFormatAnswer = ImageFormatAnswer(result: VkResult, properties: ImageFormatProperties)

  /** Everything kvk queries about one physical device. */
  datatype PhysicalDevice = PhysicalDevice(
    handle: nat,
    deviceName: string,
    deviceType: PhysicalDeviceType,
    apiVersion: nat,
    limits: Limits,
    features: Features,
    extensions: seq<ExtensionProperties>,
    formatProperties: Format -> FormatProperties,
    imageFormatProperties: ImageFormatKey -> ImageFormatAnswer,
    memoryTypeCount: nat,
    memoryHeapCount: nat,
    queueFamilies: seq<QueueFamilyProperties>,
    surfaceSupport: (nat, SurfaceId) -> bool)

  /** The outcome of the two vkEnumeratePhysicalDevices calls: the status of
      the counting call, the status of the listing call, and the devices. */
  datatype Enumeration = Enumeration(countResult: VkResult, listResult: VkResult, devices: seq<PhysicalDevice>)

  /** VkDeviceQueueCreateInfo without sType and pNext. */
  datatype QueueCreateInfo = QueueCreateInfo(
    flags: bv32,
    queueFamilyIndex: nat,
    queueCount: nat,
    priorities: seq<real>)

  /** The fields of VkDeviceCreateInfo that kvk fills in, as passed to
      vkCreateDevice. enabledFeatures is None when pEnabledFeatures points at
      a structure no query has written. */
  datatype DeviceCreateRequest = DeviceCreateRequest(
    physicalDevice: Handle,
    flags: bv32,
    queueCreateInfos: seq<QueueCreateInfo>,
    enabledExtensions: seq<string>,
    enabledFeatures: Option<Features>)

  /** The fields of VkInstanceCreateInfo that kvk fills in. */
  datatype InstanceCreateRequest = InstanceCreateRequest(
    applicationName: string,
    applicationVersion: nat,
    engineName: string,
    engineVersion: nat,
    apiVersion: nat,
    flags: bv32,
    enabledLayers: seq<string>,
    enabledExtensions: seq<string>)
}
