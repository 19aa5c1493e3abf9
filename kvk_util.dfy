// src/kvk_util.inl: the comparison of two VkPhysicalDeviceLimits blocks
// (operator<) as a data-driven table of (field, direction) pairs, and the
// KVK_ERR reporting macro.

module KvkUtil {
  import opened Vulkan

  // ---------------------------------------------------------------------
  // Limits comparison
  // ---------------------------------------------------------------------

  /** The direction in which a device's value must lie relative to the
      query's value for the field to pass. */
  datatype Direction = DeviceAtLeast | DeviceAtMost

  /** The field's comparison in operator<(a, b): true when device a fails
      query b on this field. */
  predicate Violated(entry: (LimitField, Direction), device: Limits, query: Limits)
  {
    match entry.1
    case DeviceAtLeast => device(entry.0) < query(entry.0)
    case DeviceAtMost => device(entry.0) > query(entry.0)
  }

  // The table, one entry per disjunct of operator<, in source order; it is
  // written in chunks so that its entries stay cheap to reason about.
  // kvk_util.inl lines 27-38
  const LimitChunk0: seq<(LimitField, Direction)> := [
    (MaxImageDimension1D, DeviceAtLeast),
    (MaxImageDimension2D, DeviceAtLeast),
    (MaxImageDimension3D, DeviceAtLeast),
    (MaxImageDimensionCube, DeviceAtLeast),
    (MaxImageArrayLayers, DeviceAtLeast),
    (MaxTexelBufferElements, DeviceAtLeast),
    (MaxUniformBufferRange, DeviceAtLeast),
    (MaxStorageBufferRange, DeviceAtLeast),
    (MaxPushConstantsSize, DeviceAtLeast),
    (MaxMemoryAllocationCount, DeviceAtLeast),
    (MaxSamplerAllocationCount, DeviceAtLeast),
    (BufferImageGranularity, DeviceAtLeast)
  ]

  // kvk_util.inl lines 39-50
  const LimitChunk1: seq<(LimitField, Direction)> := [
    (SparseAddressSpaceSize, DeviceAtLeast),
    (MaxBoundDescriptorSets, DeviceAtLeast),
    (MaxPerStageDescriptorSamplers, DeviceAtLeast),
    (MaxPerStageDescriptorUniformBuffers, DeviceAtLeast),
    (MaxPerStageDescriptorStorageBuffers, DeviceAtLeast),
    (MaxPerStageDescriptorSampledImages, DeviceAtLeast),
    (MaxPerStageDescriptorStorageImages, DeviceAtLeast),
    (MaxPerStageDescriptorInputAttachments, DeviceAtLeast),
    (MaxPerStageResources, DeviceAtLeast),
    (MaxDescriptorSetSamplers, DeviceAtLeast),
    (MaxDescriptorSetUniformBuffers, DeviceAtLeast),
    (MaxDescriptorSetUniformBuffersDynamic, DeviceAtLeast)
  ]

  // kvk_util.inl lines 51-62
  const LimitChunk2: seq<(LimitField, Direction)> := [
    (MaxDescriptorSetStorageBuffers, DeviceAtLeast),
    (MaxDescriptorSetStorageBuffersDynamic, DeviceAtLeast),
    (MaxDescriptorSetSampledImages, DeviceAtLeast),
    (MaxDescriptorSetStorageImages, DeviceAtLeast),
    (MaxDescriptorSetInputAttachments, DeviceAtLeast),
    (MaxVertexInputAttributes, DeviceAtLeast),
    (MaxVertexInputBindings, DeviceAtLeast),
    (MaxVertexInputAttributeOffset, DeviceAtLeast),
    (MaxVertexInputBindingStride, DeviceAtLeast),
    (MaxVertexOutputComponents, DeviceAtLeast),
    (MaxTessellationGenerationLevel, DeviceAtLeast),
    (MaxTessellationPatchSize, DeviceAtLeast)
  ]

  // kvk_util.inl lines 63-74
  const LimitChunk3: seq<(LimitField, Direction)> := [
    (MaxTessellationControlPerVertexInputComponents, DeviceAtLeast),
    (MaxTessellationControlPerVertexOutputComponents, DeviceAtLeast),
    (MaxTessellationControlPerPatchOutputComponents, DeviceAtLeast),
    (MaxTessellationControlTotalOutputComponents, DeviceAtLeast),
    (MaxTessellationEvaluationInputComponents, DeviceAtLeast),
    (MaxTessellationEvaluationOutputComponents, DeviceAtLeast),
    (MaxGeometryShaderInvocations, DeviceAtLeast),
    (MaxGeometryInputComponents, DeviceAtLeast),
    (MaxGeometryOutputComponents, DeviceAtLeast),
    (MaxGeometryOutputVertices, DeviceAtLeast),
    (MaxGeometryTotalOutputComponents, DeviceAtLeast),
    (MaxFragmentInputComponents, DeviceAtLeast)
  ]

  // kvk_util.inl lines 75-86
  const LimitChunk4: seq<(LimitField, Direction)> := [
    (MaxFragmentOutputAttachments, DeviceAtLeast),
    (MaxFragmentDualSrcAttachments, DeviceAtLeast),
    (MaxFragmentCombinedOutputResources, DeviceAtLeast),
    (MaxComputeSharedMemorySize, DeviceAtLeast),
    (MaxComputeWorkGroupCount0, DeviceAtLeast),
    (MaxComputeWorkGroupCount1, DeviceAtLeast),
    (MaxComputeWorkGroupCount2, DeviceAtLeast),
    (MaxComputeWorkGroupInvocations, DeviceAtLeast),
    (MaxComputeWorkGroupSize0, DeviceAtLeast),
    (MaxComputeWorkGroupSize1, DeviceAtLeast),
    (MaxComputeWorkGroupSize2, DeviceAtLeast),
    (SubPixelPrecisionBits, DeviceAtLeast)
  ]

  // kvk_util.inl lines 87-98
  const LimitChunk5: seq<(LimitField, Direction)> := [
    (SubTexelPrecisionBits, DeviceAtLeast),
    (MipmapPrecisionBits, DeviceAtLeast),
    (MaxDrawIndexedIndexValue, DeviceAtLeast),
    (MaxDrawIndirectCount, DeviceAtLeast),
    (MaxSamplerLodBias, DeviceAtLeast),
    (MaxSamplerAnisotropy, DeviceAtLeast),
    (MaxViewports, DeviceAtLeast),
    (MaxViewportDimensions0, DeviceAtLeast),
    (MaxViewportDimensions1, DeviceAtLeast),
    (ViewportBoundsRange0, DeviceAtMost),
    (ViewportBoundsRange1, DeviceAtLeast),
    (ViewportSubPixelBits, DeviceAtLeast)
  ]

  // kvk_util.inl lines 99-110
  const LimitChunk6: seq<(LimitField, Direction)> := [
    (MinMemoryMapAlignment, DeviceAtLeast),
    (MinTexelBufferOffsetAlignment, DeviceAtLeast),
    (MinUniformBufferOffsetAlignment, DeviceAtLeast),
    (MinStorageBufferOffsetAlignment, DeviceAtLeast),
    (MinTexelOffset, DeviceAtMost),
    (MaxTexelOffset, DeviceAtLeast),
    (MinTexelGatherOffset, DeviceAtMost),
    (MaxTexelGatherOffset, DeviceAtLeast),
    (MinInterpolationOffset, DeviceAtMost),
    (MaxInterpolationOffset, DeviceAtLeast),
    (SubPixelInterpolationOffsetBits, DeviceAtLeast),
    (MaxFramebufferWidth, DeviceAtLeast)
  ]

  // kvk_util.inl lines 111-122
  const LimitChunk7: seq<(LimitField, Direction)> := [
    (MaxFramebufferHeight, DeviceAtLeast),
    (MaxFramebufferLayers, DeviceAtLeast),
    (FramebufferColorSampleCounts, DeviceAtLeast),
    (FramebufferDepthSampleCounts, DeviceAtLeast),
    (FramebufferStencilSampleCounts, DeviceAtLeast),
    (FramebufferNoAttachmentsSampleCounts, DeviceAtLeast),
    (MaxColorAttachments, DeviceAtLeast),
    (SampledImageColorSampleCounts, DeviceAtLeast),
    (SampledImageIntegerSampleCounts, DeviceAtLeast),
    (SampledImageDepthSampleCounts, DeviceAtLeast),
    (SampledImageStencilSampleCounts, DeviceAtLeast),
    (StorageImageSampleCounts, DeviceAtLeast)
  ]

  // kvk_util.inl lines 123-134
  const LimitChunk8: seq<(LimitField, Direction)> := [
    (MaxSampleMaskWords, DeviceAtLeast),
    (TimestampComputeAndGraphics, DeviceAtLeast),
    (TimestampPeriod, DeviceAtLeast),
    (MaxClipDistances, DeviceAtLeast),
    (MaxCullDistances, DeviceAtLeast),
    (MaxCombinedClipAndCullDistances, DeviceAtLeast),
    (DiscreteQueuePriorities, DeviceAtLeast),
    (PointSizeRange0, DeviceAtLeast),
    (PointSizeRange1, DeviceAtLeast),
    (LineWidthRange0, DeviceAtLeast),
    (LineWidthRange1, DeviceAtLeast),
    (PointSizeGranularity, DeviceAtLeast)
  ]

  // kvk_util.inl lines 135-140
  const LimitChunk9: seq<(LimitField, Direction)> := [
    (LineWidthGranularity, DeviceAtLeast),
    (StrictLines, DeviceAtLeast),
    (StandardSampleLocations, DeviceAtLeast),
    (OptimalBufferCopyOffsetAlignment, DeviceAtLeast),
    (OptimalBufferCopyRowPitchAlignment, DeviceAtLeast),
    (NonCoherentAtomSize, DeviceAtLeast)
  ]

  const LimitTable: seq<(LimitField, Direction)> :=
    LimitChunk0 + LimitChunk1 + LimitChunk2 + LimitChunk3 + LimitChunk4 + LimitChunk5 + LimitChunk6 + LimitChunk7 + LimitChunk8 + LimitChunk9

  /** operator<(a, b): device limits a fall short of query limits b. */
  predicate LimitsLess(a: Limits, b: Limits)
  {
    exists k | 0 <= k < |LimitTable| :: Violated(LimitTable[k], a, b)
  }

  /** The four lower-bound fields, whose device value must not exceed the
      query's value; every other field must be at least the query's value. */
  const LowerBoundFields: set<LimitField> :=
    {ViewportBoundsRange0, MinTexelOffset, MinTexelGatherOffset, MinInterpolationOffset}

  /** Alignment and granularity fields. */
  const AlignmentFields: set<LimitField> :=
    {BufferImageGranularity, MinMemoryMapAlignment, MinTexelBufferOffsetAlignment,
      MinUniformBufferOffsetAlignment, MinStorageBufferOffsetAlignment,
      OptimalBufferCopyOffsetAlignment, OptimalBufferCopyRowPitchAlignment, NonCoherentAtomSize}

  /** Reference definition of each field's direction, independent of the table. */
  function ExpectedDirection(f: LimitField): Direction
  {
    if f in LowerBoundFields then DeviceAtMost else DeviceAtLeast
  }

  /** Device limits d fail query limits q on field f. */
  predicate FieldViolated(f: LimitField, d: Limits, q: Limits)
  {
    Violated((f, ExpectedDirection(f)), d, q)
  }

  lemma Chunk0Directions()
    ensures forall k | 0 <= k < |LimitChunk0| ::
      LimitChunk0[k].1 == ExpectedDirection(LimitChunk0[k].0)
  {
  }

  lemma Chunk1Directions()
    ensures forall k | 0 <= k < |LimitChunk1| ::
      LimitChunk1[k].1 == ExpectedDirection(LimitChunk1[k].0)
  {
  }

  lemma Chunk2Directions()
    ensures forall k | 0 <= k < |LimitChunk2| ::
      LimitChunk2[k].1 == ExpectedDirection(LimitChunk2[k].0)
  {
  }

  lemma Chunk3Directions()
    ensures forall k | 0 <= k < |LimitChunk3| ::
      LimitChunk3[k].1 == ExpectedDirection(LimitChunk3[k].0)
  {
  }

  lemma Chunk4Directions()
    ensures forall k | 0 <= k < |LimitChunk4| ::
      LimitChunk4[k].1 == ExpectedDirection(LimitChunk4[k].0)
  {
  }

  lemma Chunk5Directions()
    ensures forall k | 0 <= k < |LimitChunk5| ::
      LimitChunk5[k].1 == ExpectedDirection(LimitChunk5[k].0)
  {
  }

  lemma Chunk6Directions()
    ensures forall k | 0 <= k < |LimitChunk6| ::
      LimitChunk6[k].1 == ExpectedDirection(LimitChunk6[k].0)
  {
  }

  lemma Chunk7Directions()
    ensures forall k | 0 <= k < |LimitChunk7| ::
      LimitChunk7[k].1 == ExpectedDirection(LimitChunk7[k].0)
  {
  }

  lemma Chunk8Directions()
    ensures forall k | 0 <= k < |LimitChunk8| ::
      LimitChunk8[k].1 == ExpectedDirection(LimitChunk8[k].0)
  {
  }

  lemma Chunk9Directions()
    ensures forall k | 0 <= k < |LimitChunk9| ::
      LimitChunk9[k].1 == ExpectedDirection(LimitChunk9[k].0)
  {
  }

  /** Every entry of the table compares its field in the expected direction. */
  lemma TableDirection(k: nat)
    requires k < |LimitTable|
    ensures LimitTable[k].1 == ExpectedDirection(LimitTable[k].0)
  {
    Chunk0Directions(); Chunk1Directions(); Chunk2Directions(); Chunk3Directions(); Chunk4Directions();
    Chunk5Directions(); Chunk6Directions(); Chunk7Directions(); Chunk8Directions(); Chunk9Directions();
  }

  lemma CoveredByChunk0(f: LimitField)
    requires f in {MaxImageDimension1D, MaxImageDimension2D, MaxImageDimension3D, MaxImageDimensionCube, MaxImageArrayLayers, MaxTexelBufferElements, MaxUniformBufferRange, MaxStorageBufferRange, MaxPushConstantsSize, MaxMemoryAllocationCount, MaxSamplerAllocationCount, BufferImageGranularity}
    ensures exists k | 0 <= k < |LimitTable| :: LimitTable[k].0 == f
  {
    match f
    case MaxImageDimension1D => assert LimitTable[0].0 == f;
    case MaxImageDimension2D => assert LimitTable[1].0 == f;
    case MaxImageDimension3D => assert LimitTable[2].0 == f;
    case MaxImageDimensionCube => assert LimitTable[3].0 == f;
    case MaxImageArrayLayers => assert LimitTable[4].0 == f;
    case MaxTexelBufferElements => assert LimitTable[5].0 == f;
    case MaxUniformBufferRange => assert LimitTable[6].0 == f;
    case MaxStorageBufferRange => assert LimitTable[7].0 == f;
    case MaxPushConstantsSize => assert LimitTable[8].0 == f;
    case MaxMemoryAllocationCount => assert LimitTable[9].0 == f;
    case MaxSamplerAllocationCount => assert LimitTable[10].0 == f;
    case BufferImageGranularity => assert LimitTable[11].0 == f;
  }

  lemma CoveredByChunk1(f: LimitField)
    requires f in {SparseAddressSpaceSize, MaxBoundDescriptorSets, MaxPerStageDescriptorSamplers, MaxPerStageDescriptorUniformBuffers, MaxPerStageDescriptorStorageBuffers, MaxPerStageDescriptorSampledImages, MaxPerStageDescriptorStorageImages, MaxPerStageDescriptorInputAttachments, MaxPerStageResources, MaxDescriptorSetSamplers, MaxDescriptorSetUniformBuffers, MaxDescriptorSetUniformBuffersDynamic}
    ensures exists k | 0 <= k < |LimitTable| :: LimitTable[k].0 == f
  {
    match f
    case SparseAddressSpaceSize => assert LimitTable[12].0 == f;
    case MaxBoundDescriptorSets => assert LimitTable[13].0 == f;
    case MaxPerStageDescriptorSamplers => assert LimitTable[14].0 == f;
    case MaxPerStageDescriptorUniformBuffers => assert LimitTable[15].0 == f;
    case MaxPerStageDescriptorStorageBuffers => assert LimitTable[16].0 == f;
    case MaxPerStageDescriptorSampledImages => assert LimitTable[17].0 == f;
    case MaxPerStageDescriptorStorageImages => assert LimitTable[18].0 == f;
    case MaxPerStageDescriptorInputAttachments => assert LimitTable[19].0 == f;
    case MaxPerStageResources => assert LimitTable[20].0 == f;
    case MaxDescriptorSetSamplers => assert LimitTable[21].0 == f;
    case MaxDescriptorSetUniformBuffers => assert LimitTable[22].0 == f;
    case MaxDescriptorSetUniformBuffersDynamic => assert LimitTable[23].0 == f;
  }

  lemma CoveredByChunk2(f: LimitField)
    requires f in {MaxDescriptorSetStorageBuffers, MaxDescriptorSetStorageBuffersDynamic, MaxDescriptorSetSampledImages, MaxDescriptorSetStorageImages, MaxDescriptorSetInputAttachments, MaxVertexInputAttributes, MaxVertexInputBindings, MaxVertexInputAttributeOffset, MaxVertexInputBindingStride, MaxVertexOutputComponents, MaxTessellationGenerationLevel, MaxTessellationPatchSize}
    ensures exists k | 0 <= k < |LimitTable| :: LimitTable[k].0 == f
  {
    match f
    case MaxDescriptorSetStorageBuffers => assert LimitTable[24].0 == f;
    case MaxDescriptorSetStorageBuffersDynamic => assert LimitTable[25].0 == f;
    case MaxDescriptorSetSampledImages => assert LimitTable[26].0 == f;
    case MaxDescriptorSetStorageImages => assert LimitTable[27].0 == f;
    case MaxDescriptorSetInputAttachments => assert LimitTable[28].0 == f;
    case MaxVertexInputAttributes => assert LimitTable[29].0 == f;
    case MaxVertexInputBindings => assert LimitTable[30].0 == f;
    case MaxVertexInputAttributeOffset => assert LimitTable[31].0 == f;
    case MaxVertexInputBindingStride => assert LimitTable[32].0 == f;
    case MaxVertexOutputComponents => assert LimitTable[33].0 == f;
    case MaxTessellationGenerationLevel => assert LimitTable[34].0 == f;
    case MaxTessellationPatchSize => assert LimitTable[35].0 == f;
  }

  lemma CoveredByChunk3(f: LimitField)
    requires f in {MaxTessellationControlPerVertexInputComponents, MaxTessellationControlPerVertexOutputComponents, MaxTessellationControlPerPatchOutputComponents, MaxTessellationControlTotalOutputComponents, MaxTessellationEvaluationInputComponents, MaxTessellationEvaluationOutputComponents, MaxGeometryShaderInvocations, MaxGeometryInputComponents, MaxGeometryOutputComponents, MaxGeometryOutputVertices, MaxGeometryTotalOutputComponents, MaxFragmentInputComponents}
    ensures exists k | 0 <= k < |LimitTable| :: LimitTable[k].0 == f
  {
    match f
    case MaxTessellationControlPerVertexInputComponents => assert LimitTable[36].0 == f;
    case MaxTessellationControlPerVertexOutputComponents => assert LimitTable[37].0 == f;
    case MaxTessellationControlPerPatchOutputComponents => assert LimitTable[38].0 == f;
    case MaxTessellationControlTotalOutputComponents => assert LimitTable[39].0 == f;
    case MaxTessellationEvaluationInputComponents => assert LimitTable[40].0 == f;
    case MaxTessellationEvaluationOutputComponents => assert LimitTable[41].0 == f;
    case MaxGeometryShaderInvocations => assert LimitTable[42].0 == f;
    case MaxGeometryInputComponents => assert LimitTable[43].0 == f;
    case MaxGeometryOutputComponents => assert LimitTable[44].0 == f;
    case MaxGeometryOutputVertices => assert LimitTable[45].0 == f;
    case MaxGeometryTotalOutputComponents => assert LimitTable[46].0 == f;
    case MaxFragmentInputComponents => assert LimitTable[47].0 == f;
  }

  lemma CoveredByChunk4(f: LimitField)
    requires f in {MaxFragmentOutputAttachments, MaxFragmentDualSrcAttachments, MaxFragmentCombinedOutputResources, MaxComputeSharedMemorySize, MaxComputeWorkGroupCount0, MaxComputeWorkGroupCount1, MaxComputeWorkGroupCount2, MaxComputeWorkGroupInvocations, MaxComputeWorkGroupSize0, MaxComputeWorkGroupSize1, MaxComputeWorkGroupSize2, SubPixelPrecisionBits}
    ensures exists k | 0 <= k < |LimitTable| :: LimitTable[k].0 == f
  {
    match f
    case MaxFragmentOutputAttachments => assert LimitTable[48].0 == f;
    case MaxFragmentDualSrcAttachments => assert LimitTable[49].0 == f;
    case MaxFragmentCombinedOutputResources => assert LimitTable[50].0 == f;
    case MaxComputeSharedMemorySize => assert LimitTable[51].0 == f;
    case MaxComputeWorkGroupCount0 => assert LimitTable[52].0 == f;
    case MaxComputeWorkGroupCount1 => assert LimitTable[53].0 == f;
    case MaxComputeWorkGroupCount2 => assert LimitTable[54].0 == f;
    case MaxComputeWorkGroupInvocations => assert LimitTable[55].0 == f;
    case MaxComputeWorkGroupSize0 => assert LimitTable[56].0 == f;
    case MaxComputeWorkGroupSize1 => assert LimitTable[57].0 == f;
    case MaxComputeWorkGroupSize2 => assert LimitTable[58].0 == f;
    case SubPixelPrecisionBits => assert LimitTable[59].0 == f;
  }

  lemma CoveredByChunk5(f: LimitField)
    requires f in {SubTexelPrecisionBits, MipmapPrecisionBits, MaxDrawIndexedIndexValue, MaxDrawIndirectCount, MaxSamplerLodBias, MaxSamplerAnisotropy, MaxViewports, MaxViewportDimensions0, MaxViewportDimensions1, ViewportBoundsRange0, ViewportBoundsRange1, ViewportSubPixelBits}
    ensures exists k | 0 <= k < |LimitTable| :: LimitTable[k].0 == f
  {
    match f
    case SubTexelPrecisionBits => assert LimitTable[60].0 == f;
    case MipmapPrecisionBits => assert LimitTable[61].0 == f;
    case MaxDrawIndexedIndexValue => assert LimitTable[62].0 == f;
    case MaxDrawIndirectCount => assert LimitTable[63].0 == f;
    case MaxSamplerLodBias => assert LimitTable[64].0 == f;
    case MaxSamplerAnisotropy => assert LimitTable[65].0 == f;
    case MaxViewports => assert LimitTable[66].0 == f;
    case MaxViewportDimensions0 => assert LimitTable[67].0 == f;
    case MaxViewportDimensions1 => assert LimitTable[68].0 == f;
    case ViewportBoundsRange0 => assert LimitTable[69].0 == f;
    case ViewportBoundsRange1 => assert LimitTable[70].0 == f;
    case ViewportSubPixelBits => assert LimitTable[71].0 == f;
  }

  lemma CoveredByChunk6(f: LimitField)
    requires f in {MinMemoryMapAlignment, MinTexelBufferOffsetAlignment, MinUniformBufferOffsetAlignment, MinStorageBufferOffsetAlignment, MinTexelOffset, MaxTexelOffset, MinTexelGatherOffset, MaxTexelGatherOffset, MinInterpolationOffset, MaxInterpolationOffset, SubPixelInterpolationOffsetBits, MaxFramebufferWidth}
    ensures exists k | 0 <= k < |LimitTable| :: LimitTable[k].0 == f
  {
    match f
    case MinMemoryMapAlignment => assert LimitTable[72].0 == f;
    case MinTexelBufferOffsetAlignment => assert LimitTable[73].0 == f;
    case MinUniformBufferOffsetAlignment => assert LimitTable[74].0 == f;
    case MinStorageBufferOffsetAlignment => assert LimitTable[75].0 == f;
    case MinTexelOffset => assert LimitTable[76].0 == f;
    case MaxTexelOffset => assert LimitTable[77].0 == f;
    case MinTexelGatherOffset => assert LimitTable[78].0 == f;
    case MaxTexelGatherOffset => assert LimitTable[79].0 == f;
    case MinInterpolationOffset => assert LimitTable[80].0 == f;
    case MaxInterpolationOffset => assert LimitTable[81].0 == f;
    case SubPixelInterpolationOffsetBits => assert LimitTable[82].0 == f;
    case MaxFramebufferWidth => assert LimitTable[83].0 == f;
  }

  lemma CoveredByChunk7(f: LimitField)
    requires f in {MaxFramebufferHeight, MaxFramebufferLayers, FramebufferColorSampleCounts, FramebufferDepthSampleCounts, FramebufferStencilSampleCounts, FramebufferNoAttachmentsSampleCounts, MaxColorAttachments, SampledImageColorSampleCounts, SampledImageIntegerSampleCounts, SampledImageDepthSampleCounts, SampledImageStencilSampleCounts, StorageImageSampleCounts}
    ensures exists k | 0 <= k < |LimitTable| :: LimitTable[k].0 == f
  {
    match f
    case MaxFramebufferHeight => assert LimitTable[84].0 == f;
    case MaxFramebufferLayers => assert LimitTable[85].0 == f;
    case FramebufferColorSampleCounts => assert LimitTable[86].0 == f;
    case FramebufferDepthSampleCounts => assert LimitTable[87].0 == f;
    case FramebufferStencilSampleCounts => assert LimitTable[88].0 == f;
    case FramebufferNoAttachmentsSampleCounts => assert LimitTable[89].0 == f;
    case MaxColorAttachments => assert LimitTable[90].0 == f;
    case SampledImageColorSampleCounts => assert LimitTable[91].0 == f;
    case SampledImageIntegerSampleCounts => assert LimitTable[92].0 == f;
    case SampledImageDepthSampleCounts => assert LimitTable[93].0 == f;
    case SampledImageStencilSampleCounts => assert LimitTable[94].0 == f;
    case StorageImageSampleCounts => assert LimitTable[95].0 == f;
  }

  lemma CoveredByChunk8(f: LimitField)
    requires f in {MaxSampleMaskWords, TimestampComputeAndGraphics, TimestampPeriod, MaxClipDistances, MaxCullDistances, MaxCombinedClipAndCullDistances, DiscreteQueuePriorities, PointSizeRange0, PointSizeRange1, LineWidthRange0, LineWidthRange1, PointSizeGranularity}
    ensures exists k | 0 <= k < |LimitTable| :: LimitTable[k].0 == f
  {
    match f
    case MaxSampleMaskWords => assert LimitTable[96].0 == f;
    case TimestampComputeAndGraphics => assert LimitTable[97].0 == f;
    case TimestampPeriod => assert LimitTable[98].0 == f;
    case MaxClipDistances => assert LimitTable[99].0 == f;
    case MaxCullDistances => assert LimitTable[100].0 == f;
    case MaxCombinedClipAndCullDistances => assert LimitTable[101].0 == f;
    case DiscreteQueuePriorities => assert LimitTable[102].0 == f;
    case PointSizeRange0 => assert LimitTable[103].0 == f;
    case PointSizeRange1 => assert LimitTable[104].0 == f;
    case LineWidthRange0 => assert LimitTable[105].0 == f;
    case LineWidthRange1 => assert LimitTable[106].0 == f;
    case PointSizeGranularity => assert LimitTable[107].0 == f;
  }

  lemma CoveredByChunk9(f: LimitField)
    requires f in {LineWidthGranularity, StrictLines, StandardSampleLocations, OptimalBufferCopyOffsetAlignment, OptimalBufferCopyRowPitchAlignment, NonCoherentAtomSize}
    ensures exists k | 0 <= k < |LimitTable| :: LimitTable[k].0 == f
  {
    match f
    case LineWidthGranularity => assert LimitTable[108].0 == f;
    case StrictLines => assert LimitTable[109].0 == f;
    case StandardSampleLocations => assert LimitTable[110].0 == f;
    case OptimalBufferCopyOffsetAlignment => assert LimitTable[111].0 == f;
    case OptimalBufferCopyRowPitchAlignment => assert LimitTable[112].0 == f;
    case NonCoherentAtomSize => assert LimitTable[113].0 == f;
  }

  /** Every member of VkPhysicalDeviceLimits has an entry in the table. */
  lemma Covered(f: LimitField)
    ensures exists k | 0 <= k < |LimitTable| :: LimitTable[k].0 == f
  {
    if f in {MaxImageDimension1D, MaxImageDimension2D, MaxImageDimension3D, MaxImageDimensionCube, MaxImageArrayLayers, MaxTexelBufferElements, MaxUniformBufferRange, MaxStorageBufferRange, MaxPushConstantsSize, MaxMemoryAllocationCount, MaxSamplerAllocationCount, BufferImageGranularity} {
      CoveredByChunk0(f);
    } else if f in {SparseAddressSpaceSize, MaxBoundDescriptorSets, MaxPerStageDescriptorSamplers, MaxPerStageDescriptorUniformBuffers, MaxPerStageDescriptorStorageBuffers, MaxPerStageDescriptorSampledImages, MaxPerStageDescriptorStorageImages, MaxPerStageDescriptorInputAttachments, MaxPerStageResources, MaxDescriptorSetSamplers, MaxDescriptorSetUniformBuffers, MaxDescriptorSetUniformBuffersDynamic} {
      CoveredByChunk1(f);
    } else if f in {MaxDescriptorSetStorageBuffers, MaxDescriptorSetStorageBuffersDynamic, MaxDescriptorSetSampledImages, MaxDescriptorSetStorageImages, MaxDescriptorSetInputAttachments, MaxVertexInputAttributes, MaxVertexInputBindings, MaxVertexInputAttributeOffset, MaxVertexInputBindingStride, MaxVertexOutputComponents, MaxTessellationGenerationLevel, MaxTessellationPatchSize} {
      CoveredByChunk2(f);
    } else if f in {MaxTessellationControlPerVertexInputComponents, MaxTessellationControlPerVertexOutputComponents, MaxTessellationControlPerPatchOutputComponents, MaxTessellationControlTotalOutputComponents, MaxTessellationEvaluationInputComponents, MaxTessellationEvaluationOutputComponents, MaxGeometryShaderInvocations, MaxGeometryInputComponents, MaxGeometryOutputComponents, MaxGeometryOutputVertices, MaxGeometryTotalOutputComponents, MaxFragmentInputComponents} {
      CoveredByChunk3(f);
    } else if f in {MaxFragmentOutputAttachments, MaxFragmentDualSrcAttachments, MaxFragmentCombinedOutputResources, MaxComputeSharedMemorySize, MaxComputeWorkGroupCount0, MaxComputeWorkGroupCount1, MaxComputeWorkGroupCount2, MaxComputeWorkGroupInvocations, MaxComputeWorkGroupSize0, MaxComputeWorkGroupSize1, MaxComputeWorkGroupSize2, SubPixelPrecisionBits} {
      CoveredByChunk4(f);
    } else if f in {SubTexelPrecisionBits, MipmapPrecisionBits, MaxDrawIndexedIndexValue, MaxDrawIndirectCount, MaxSamplerLodBias, MaxSamplerAnisotropy, MaxViewports, MaxViewportDimensions0, MaxViewportDimensions1, ViewportBoundsRange0, ViewportBoundsRange1, ViewportSubPixelBits} {
      CoveredByChunk5(f);
    } else if f in {MinMemoryMapAlignment, MinTexelBufferOffsetAlignment, MinUniformBufferOffsetAlignment, MinStorageBufferOffsetAlignment, MinTexelOffset, MaxTexelOffset, MinTexelGatherOffset, MaxTexelGatherOffset, MinInterpolationOffset, MaxInterpolationOffset, SubPixelInterpolationOffsetBits, MaxFramebufferWidth} {
      CoveredByChunk6(f);
    } else if f in {MaxFramebufferHeight, MaxFramebufferLayers, FramebufferColorSampleCounts, FramebufferDepthSampleCounts, FramebufferStencilSampleCounts, FramebufferNoAttachmentsSampleCounts, MaxColorAttachments, SampledImageColorSampleCounts, SampledImageIntegerSampleCounts, SampledImageDepthSampleCounts, SampledImageStencilSampleCounts, StorageImageSampleCounts} {
      CoveredByChunk7(f);
    } else if f in {MaxSampleMaskWords, TimestampComputeAndGraphics, TimestampPeriod, MaxClipDistances, MaxCullDistances, MaxCombinedClipAndCullDistances, DiscreteQueuePriorities, PointSizeRange0, PointSizeRange1, LineWidthRange0, LineWidthRange1, PointSizeGranularity} {
      CoveredByChunk8(f);
    } else {
      CoveredByChunk9(f);
    }
  }

  /** Every field is compared, and in the reversed direction exactly when it
      is one of the four lower-bound fields. */
  lemma DirectionOf(f: LimitField)
    ensures exists k | 0 <= k < |LimitTable| :: LimitTable[k].0 == f
    ensures forall k | 0 <= k < |LimitTable| && LimitTable[k].0 == f ::
      (LimitTable[k].1 == DeviceAtMost <==> f in LowerBoundFields)
  {
    Covered(f);
    forall k | 0 <= k < |LimitTable| && LimitTable[k].0 == f
      ensures LimitTable[k].1 == DeviceAtMost <==> f in LowerBoundFields
    {
      TableDirection(k);
    }
  }

  /** Alignment and granularity fields use the "device must be at least" direction. */
  lemma AlignmentFieldsAtLeast(f: LimitField)
    requires f in AlignmentFields
    ensures forall k | 0 <= k < |LimitTable| && LimitTable[k].0 == f :: LimitTable[k].1 == DeviceAtLeast
  {
    DirectionOf(f);
  }

  /** operator< holds exactly when some field fails in its direction: a
      larger-is-better field of the device below the query's value, or a
      lower-bound field of the device above the query's value. */
  lemma LessIff(d: Limits, q: Limits)
    ensures LimitsLess(d, q) <==>
      ((exists f :: f !in LowerBoundFields && d(f) < q(f)) ||
       (exists f :: f in LowerBoundFields && d(f) > q(f)))
  {
    if LimitsLess(d, q) {
      var k :| 0 <= k < |LimitTable| && Violated(LimitTable[k], d, q);
      TableDirection(k);
      var f := LimitTable[k].0;
      if f in LowerBoundFields {
        assert d(f) > q(f);
      } else {
        assert d(f) < q(f);
      }
    }
    if exists f :: f !in LowerBoundFields && d(f) < q(f) {
      var f :| f !in LowerBoundFields && d(f) < q(f);
      NotLessAt(d, q, f);
    }
    if exists f :: f in LowerBoundFields && d(f) > q(f) {
      var f :| f in LowerBoundFields && d(f) > q(f);
      NotLessAt(d, q, f);
    }
  }

  /** If d fails q on field f in f's direction, operator< holds. */
  lemma NotLessAt(d: Limits, q: Limits, f: LimitField)
    requires FieldViolated(f, d, q)
    ensures LimitsLess(d, q)
  {
    Covered(f);
    var k :| 0 <= k < |LimitTable| && LimitTable[k].0 == f;
    TableDirection(k);
    assert Violated(LimitTable[k], d, q);
  }

  /** A limits block never falls short of itself. */
  lemma LessIrreflexive(a: Limits)
    ensures !LimitsLess(a, a)
  {
  }

  /** q2 asks no more than q of field f, in f's direction. */
  predicate RelaxedAt(f: LimitField, q: Limits, q2: Limits)
  {
    match ExpectedDirection(f)
    case DeviceAtLeast => q2(f) <= q(f)
    case DeviceAtMost => q2(f) >= q(f)
  }

  /** q2 asks no more than q of any field. */
  ghost predicate Relaxed(q: Limits, q2: Limits)
  {
    forall f :: RelaxedAt(f, q, q2)
  }

  /** Relaxing a query never turns a passing device into a failing one. */
  lemma LessMonotone(d: Limits, q: Limits, q2: Limits)
    requires Relaxed(q, q2)
    requires !LimitsLess(d, q)
    ensures !LimitsLess(d, q2)
  {
    if LimitsLess(d, q2) {
      var k :| 0 <= k < |LimitTable| && Violated(LimitTable[k], d, q2);
      TableDirection(k);
      assert RelaxedAt(LimitTable[k].0, q, q2);
      assert Violated(LimitTable[k], d, q);
    }
  }

  /** Meeting a query is transitive: a device that meets limits q, where q
      meets q2, meets q2. */
  lemma LessTransitive(d: Limits, q: Limits, q2: Limits)
    requires !LimitsLess(d, q) && !LimitsLess(q, q2)
    ensures !LimitsLess(d, q2)
  {
  }

  // ---------------------------------------------------------------------
  // Platform detection
  // ---------------------------------------------------------------------

  /** Whether KVK_WINDOWS and KVK_APPLE are defined at build time. */
  datatype Platform = Platform(windows: bool, apple: bool)

  // ---------------------------------------------------------------------
  // KVK_ERR
  // ---------------------------------------------------------------------

  /** The function name KVK_FUNCTION expands to. */
  datatype Function = CreateInstanceFn | SelectPhysicalDeviceFn | CreateDeviceFn

  /** The diagnostics kvk formats, by kind, with the numbers they print. */
  datatype Diagnostic =
    | EnumerationFailed
    | ApiVersionTooLow(found: nat, required: nat)
    | FeatureMissing(reportedIndex: nat)
    | LimitsInsufficient
    | ExtensionVersionTooLow(extension: string, found: nat, required: nat)
    | ExtensionMissing(extension: string)
    | FormatInsufficient(format: Format)
    | ImageFormatUnsupported(format: Format)
    | ImageFormatInsufficient(format: Format)
    | MemoryTypeCountInsufficient
    | MemoryHeapCountInsufficient
    | QueueFamilyUnmatched(requirementIndex: nat)
    | PriorityCountMismatch(queueCount: nat, priorityCount: nat)
    | NoSuitableDevice
    | QueueReturnResizeFailed(reportedSize: nat)
    | DeviceCreationFailed
    | InstanceCreationFailed

  /** The arguments of one call of the error callback. */
  datatype Message = Message(result: VkResult, severity: Severity, diagnostic: Diagnostic, origin: Function)

  /** The process-wide g_error_callback, passed explicitly. */
  datatype ErrorCallback = NoCallback | Callback(id: nat)

  /** KVK_ERR: the calls the callback receives for one report, none when no
      callback is set. */
  function Report(callback: ErrorCallback, m: Message): (delivered: seq<Message>)
    ensures |delivered| <= 1
    ensures delivered != [] <==> callback.Callback?
    ensures delivered != [] ==> delivered[0] == m
  {
    if callback.Callback? then [m] else []
  }
}
