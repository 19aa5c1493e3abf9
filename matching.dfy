// src/kvk.cpp, the checks of select_physical_device and create_device as
// specifications: for one device record and one PhysicalDeviceQuery, which
// check rejects the device first, which queue families the greedy
// assignment picks, and which diagnostics the checks report. The methods in
// Selection and DeviceCreation are proved to compute exactly these.

module Matching {
  import opened Wrappers
  import opened Vulkan
  import opened Kvk
  import opened KvkUtil

  /** select_physical_device and create_device run the same checks with
      three differences: create_device reports VK_ERROR_INITIALIZATION_FAILED
      where select_physical_device reports VK_SUCCESS, it does not consult
      the surface-support oracle, and it checks priorities. */
  datatype Mode = SelectMode | CreateMode

  function VerboseResult(mode: Mode): VkResult
  {
    if mode == SelectMode then Success else ErrorInitializationFailed
  }

  function Origin(mode: Mode): Function
  {
    if mode == SelectMode then SelectPhysicalDeviceFn else CreateDeviceFn
  }

  /** A verbose-severity rejection report. */
  function Rejection(mode: Mode, diagnostic: Diagnostic): Message
  {
    Message(VerboseResult(mode), Verbose, diagnostic, Origin(mode))
  }

  /** The messages a callback receives when each of msgs is reported through KVK_ERR. */
  function Deliver(callback: ErrorCallback, msgs: seq<Message>): (delivered: seq<Message>)
    ensures callback.Callback? ==> delivered == msgs
    ensures callback.NoCallback? ==> delivered == []
  {
    if callback.Callback? then msgs else []
  }

  lemma DeliverConcat(callback: ErrorCallback, a: seq<Message>, b: seq<Message>)
    ensures Deliver(callback, a + b) == Deliver(callback, a) + Deliver(callback, b)
  {
  }

  // ---------------------------------------------------------------------
  // 1. Name, 2. excluded type, 3. API version
  // ---------------------------------------------------------------------

  /** std::strstr(s, sub) != nullptr. */
  predicate Contains(s: string, sub: string)
  {
    exists i | 0 <= i <= |s| - |sub| :: OccursAt(s, sub, i)
  }

  predicate OccursAt(s: string, sub: string, i: nat)
  {
    i + |sub| <= |s| && s[i..i + |sub|] == sub
  }

  predicate NameAccepted(d: PhysicalDevice, q: PhysicalDeviceQuery)
  {
    q.deviceNameSubstring.None? || Contains(d.deviceName, q.deviceNameSubstring.value)
  }

  predicate TypeExcluded(d: PhysicalDevice, q: PhysicalDeviceQuery)
  {
    HasType(q.excludedDeviceTypes, d.deviceType)
  }

  // ---------------------------------------------------------------------
  // 4. Features
  // ---------------------------------------------------------------------

  /** Every feature requested true is true on the device. */
  predicate FeaturesSatisfied(have: Features, want: Features)
  {
    forall i | 0 <= i < FeatureCount :: want[i] ==> have[i]
  }

  /** The first feature index at or after from that is requested but missing. */
  function FirstMissingFeature(have: Features, want: Features, from: nat): (r: Option<nat>)
    decreases FeatureCount - from
    ensures r.Some? ==> from <= r.value < FeatureCount && want[r.value] && !have[r.value]
    ensures r.Some? ==> forall i | from <= i < r.value :: want[i] ==> have[i]
    ensures r.None? ==> forall i | from <= i < FeatureCount :: want[i] ==> have[i]
  {
    if from >= FeatureCount then None
    else if want[from] && !have[from] then Some(from)
    else FirstMissingFeature(have, want, from + 1)
  }

  // ---------------------------------------------------------------------
  // 6. Extensions
  // ---------------------------------------------------------------------

  /** The first available extension at or after from named name (strcmp == 0). */
  function FindExtension(available: seq<ExtensionProperties>, name: string, from: nat): (r: Option<nat>)
    decreases |available| - from
    ensures r.Some? ==> from <= r.value < |available| && available[r.value].extensionName == name
    ensures r.Some? ==> forall j | from <= j < r.value :: available[j].extensionName != name
    ensures r.None? ==> forall j | from <= j < |available| :: available[j].extensionName != name
  {
    if from >= |available| then None
    else if available[from].extensionName == name then Some(from)
    else FindExtension(available, name, from + 1)
  }

  /** The first extension of that name is present, with at least the requested spec version. */
  predicate ExtensionProvided(available: seq<ExtensionProperties>, required: ExtensionProperties)
  {
    match FindExtension(available, required.extensionName, 0)
    case Some(j) => available[j].specVersion >= required.specVersion
    case None => false
  }

  predicate ExtensionsSatisfied(available: seq<ExtensionProperties>, required: seq<ExtensionProperties>)
  {
    forall i | 0 <= i < |required| :: ExtensionProvided(available, required[i])
  }

  /** The first n requirements are all provided, counted off one at a time
      as the extension loop does. */
  predicate ProvidedUpTo(available: seq<ExtensionProperties>, required: seq<ExtensionProperties>, n: nat)
    requires n <= |required|
  {
    n == 0 || (ProvidedUpTo(available, required, n - 1) && ExtensionProvided(available, required[n - 1]))
  }

  lemma {:induction false} ProvidedUpToMeaning(available: seq<ExtensionProperties>, required: seq<ExtensionProperties>, n: nat)
    requires n <= |required|
    ensures ProvidedUpTo(available, required, n) <==> forall k | 0 <= k < n :: ExtensionProvided(available, required[k])
  {
    if n > 0 {
      ProvidedUpToMeaning(available, required, n - 1);
    }
  }

  /** The reports of the extension loop from requirement i on, while the
      satisfied flag is as given: a too-old extension is reported, clears the
      flag and the loop goes on; a missing one is reported, and ends the loop,
      only while the flag is still set. */
  function ExtensionMessages(mode: Mode, available: seq<ExtensionProperties>, required: seq<ExtensionProperties>,
                             i: nat, satisfied: bool): seq<Message>
    decreases |required| - i
  {
    if i >= |required| then []
    else match FindExtension(available, required[i].extensionName, 0)
      case Some(j) =>
        if available[j].specVersion < required[i].specVersion then
          [Rejection(mode, ExtensionVersionTooLow(required[i].extensionName, available[j].specVersion, required[i].specVersion))]
          + ExtensionMessages(mode, available, required, i + 1, false)
        else ExtensionMessages(mode, available, required, i + 1, satisfied)
      case None =>
        if satisfied then [Rejection(mode, ExtensionMissing(required[i].extensionName))]
        else ExtensionMessages(mode, available, required, i + 1, satisfied)
  }

  /** The extension loop reports nothing exactly when every extension from i
      on is provided. */
  lemma {:induction false} ExtensionMessagesEmptyIff(mode: Mode, available: seq<ExtensionProperties>,
                                                     required: seq<ExtensionProperties>, i: nat)
    ensures ExtensionMessages(mode, available, required, i, true) == [] <==>
      forall k | i <= k < |required| :: ExtensionProvided(available, required[k])
    decreases |required| - i
  {
    if i < |required| {
      ExtensionMessagesEmptyIff(mode, available, required, i + 1);
    }
  }

  /** The first unmet extension requirement is reported first, and absent and
      too-old extensions are reported differently. */
  lemma ExtensionFailureReported(mode: Mode, available: seq<ExtensionProperties>,
                                 required: seq<ExtensionProperties>, i: nat)
    requires i < |required|
    requires forall k | 0 <= k < i :: ExtensionProvided(available, required[k])
    requires !ExtensionProvided(available, required[i])
    ensures ExtensionMessages(mode, available, required, 0, true) != []
    ensures ExtensionMessages(mode, available, required, 0, true)[0] ==
      match FindExtension(available, required[i].extensionName, 0)
      case None => Rejection(mode, ExtensionMissing(required[i].extensionName))
      case Some(j) => Rejection(mode, ExtensionVersionTooLow(required[i].extensionName,
                                                            available[j].specVersion, required[i].specVersion))
  {
    ExtensionMessagesSkip(mode, available, required, 0, i);
  }

  lemma {:induction false} ExtensionMessagesSkip(mode: Mode, available: seq<ExtensionProperties>,
                                                 required: seq<ExtensionProperties>, from: nat, i: nat)
    requires from <= i <= |required|
    requires forall k | from <= k < i :: ExtensionProvided(available, required[k])
    ensures ExtensionMessages(mode, available, required, from, true) == ExtensionMessages(mode, available, required, i, true)
    decreases i - from
  {
    if from < i {
      ExtensionMessagesSkip(mode, available, required, from + 1, i);
    }
  }

  // ---------------------------------------------------------------------
  // 7. Format features, 8. image-format bounds
  // ---------------------------------------------------------------------

  /** (have & want) == want. */
  predicate Superset(have: bv32, want: bv32)
  {
    have & want == want
  }

  predicate FormatRequirementMet(d: PhysicalDevice, r: PhysicalDeviceFormatPropertyRequirement)
  {
    var p := d.formatProperties(r.format);
    Superset(p.linearTilingFeatures, r.minimumProperties.linearTilingFeatures) &&
    Superset(p.optimalTilingFeatures, r.minimumProperties.optimalTilingFeatures) &&
    Superset(p.bufferFeatures, r.minimumProperties.bufferFeatures)
  }

  /** The first format requirement at or after from that the device fails. */
  function FirstFormatFailure(d: PhysicalDevice, reqs: seq<PhysicalDeviceFormatPropertyRequirement>, from: nat): (r: Option<nat>)
    decreases |reqs| - from
    ensures r.Some? ==> from <= r.value < |reqs| && !FormatRequirementMet(d, reqs[r.value])
    ensures r.Some? ==> forall i | from <= i < r.value :: FormatRequirementMet(d, reqs[i])
    ensures r.None? ==> forall i | from <= i < |reqs| :: FormatRequirementMet(d, reqs[i])
  {
    if from >= |reqs| then None
    else if !FormatRequirementMet(d, reqs[from]) then Some(from)
    else FirstFormatFailure(d, reqs, from + 1)
  }

  /** Every reported bound is at least the requested one; sampleCounts is
      compared as a number, not as a set of bits. */
  predicate ImageBoundsMet(p: ImageFormatProperties, m: ImageFormatProperties)
  {
    p.maxExtent.width >= m.maxExtent.width &&
    p.maxExtent.height >= m.maxExtent.height &&
    p.maxExtent.depth >= m.maxExtent.depth &&
    p.maxMipLevels >= m.maxMipLevels &&
    p.maxArrayLayers >= m.maxArrayLayers &&
    p.sampleCounts >= m.sampleCounts &&
    p.maxResourceSize >= m.maxResourceSize
  }

  predicate ImageRequirementMet(d: PhysicalDevice, r: PhysicalDeviceImageFormatPropertyRequirement)
  {
    var a := d.imageFormatProperties(r.Key());
    a.result == Success && ImageBoundsMet(a.properties, r.minimumProperties)
  }

  /** The first image-format requirement at or after from that the device fails. */
  function FirstImageFailure(d: PhysicalDevice, reqs: seq<PhysicalDeviceImageFormatPropertyRequirement>, from: nat): (r: Option<nat>)
    decreases |reqs| - from
    ensures r.Some? ==> from <= r.value < |reqs| && !ImageRequirementMet(d, reqs[r.value])
    ensures r.Some? ==> forall i | from <= i < r.value :: ImageRequirementMet(d, reqs[i])
    ensures r.None? ==> forall i | from <= i < |reqs| :: ImageRequirementMet(d, reqs[i])
  {
    if from >= |reqs| then None
    else if !ImageRequirementMet(d, reqs[from]) then Some(from)
    else FirstImageFailure(d, reqs, from + 1)
  }

  // ---------------------------------------------------------------------
  // 10. Greedy queue-family assignment
  // ---------------------------------------------------------------------

  /** The family offers the count, a superset of the flags, and a transfer
      granularity at least the requested one on every axis. */
  predicate Qualifies(f: QueueFamilyProperties, r: PhysicalDeviceQueueRequirements)
  {
    f.queueCount >= r.properties.queueCount &&
    Superset(f.queueFlags, r.properties.queueFlags) &&
    f.minImageTransferGranularity.width >= r.properties.minImageTransferGranularity.width &&
    f.minImageTransferGranularity.height >= r.properties.minImageTransferGranularity.height &&
    f.minImageTransferGranularity.depth >= r.properties.minImageTransferGranularity.depth
  }

  /** Only select_physical_device asks the surface-support oracle. */
  predicate SurfaceAllows(d: PhysicalDevice, j: nat, r: PhysicalDeviceQueueRequirements, mode: Mode)
  {
    mode == CreateMode || r.surfaceSupport == 0 || d.surfaceSupport(j, r.surfaceSupport)
  }

  predicate Eligible(d: PhysicalDevice, fams: seq<QueueFamilyProperties>, j: nat, r: PhysicalDeviceQueueRequirements, mode: Mode)
    requires j < |fams|
  {
    SurfaceAllows(d, j, r, mode) && Qualifies(fams[j], r)
  }

  /** The first family at or after from that requirement r may take. */
  function FirstFit(d: PhysicalDevice, fams: seq<QueueFamilyProperties>, r: PhysicalDeviceQueueRequirements,
                    mode: Mode, from: nat): (res: Option<nat>)
    decreases |fams| - from
    ensures res.Some? ==> from <= res.value < |fams| && Eligible(d, fams, res.value, r, mode)
    ensures res.Some? ==> forall j | from <= j < res.value :: !Eligible(d, fams, j, r, mode)
    ensures res.None? ==> forall j | from <= j < |fams| :: !Eligible(d, fams, j, r, mode)
  {
    if from >= |fams| then None
    else if Eligible(d, fams, from, r, mode) then Some(from)
    else FirstFit(d, fams, r, mode, from + 1)
  }

  /** queue_family_properties_list[j].queueCount = 0. */
  function Consume(fams: seq<QueueFamilyProperties>, j: nat): (r: seq<QueueFamilyProperties>)
    requires j < |fams|
    ensures |r| == |fams| && r[j] == fams[j].(queueCount := 0)
    ensures forall k | 0 <= k < |fams| && k != j :: r[k] == fams[k]
  {
    fams[j := fams[j].(queueCount := 0)]
  }

  datatype QueueStop = AllMatched | Unmatched(index: nat) | PriorityMismatch(index: nat)

  /** Where the assignment stopped, the family chosen for each requirement
      matched so far, and the family list as the loop leaves it. */
  datatype Assignment = Assignment(stop: QueueStop, chosen: seq<nat>, families: seq<QueueFamilyProperties>)

  /** The assignment loop from requirement |chosen| on, over family state fams. */
  function AssignFrom(d: PhysicalDevice, reqs: seq<PhysicalDeviceQueueRequirements>, mode: Mode,
                      fams: seq<QueueFamilyProperties>, chosen: seq<nat>): Assignment
    requires |chosen| <= |reqs|
    decreases |reqs| - |chosen|
  {
    var i := |chosen|;
    if i == |reqs| then Assignment(AllMatched, chosen, fams)
    else match FirstFit(d, fams, reqs[i], mode, 0)
      case None => Assignment(Unmatched(i), chosen, fams)
      case Some(j) =>
        if mode == CreateMode && |reqs[i].priorities| != reqs[i].properties.queueCount then
          Assignment(PriorityMismatch(i), chosen, Consume(fams, j))
        else AssignFrom(d, reqs, mode, Consume(fams, j), chosen + [j])
  }

  function Assign(d: PhysicalDevice, reqs: seq<PhysicalDeviceQueueRequirements>, mode: Mode): Assignment
  {
    AssignFrom(d, reqs, mode, d.queueFamilies, [])
  }

  /** The family state requirement i sees: the device's families with the
      count of every family chosen for an earlier requirement set to 0. */
  function StateAfter(orig: seq<QueueFamilyProperties>, chosen: seq<nat>): (r: seq<QueueFamilyProperties>)
    ensures |r| == |orig|
    ensures forall j | 0 <= j < |orig| :: r[j] == if j in chosen then orig[j].(queueCount := 0) else orig[j]
  {
    seq(|orig|, j requires 0 <= j < |orig| => if j in chosen then orig[j].(queueCount := 0) else orig[j])
  }

  /** The invariant of the assignment loop: every chosen family is the first
      eligible one for its requirement in the state left by the earlier
      choices, and the state is that left by all of them. */
  ghost predicate GreedyInvariant(d: PhysicalDevice, reqs: seq<PhysicalDeviceQueueRequirements>, mode: Mode,
                                  fams: seq<QueueFamilyProperties>, chosen: seq<nat>)
  {
    |chosen| <= |reqs| && fams == StateAfter(d.queueFamilies, chosen) &&
    forall i | 0 <= i < |chosen| ::
      chosen[i] < |d.queueFamilies| &&
      Eligible(d, StateAfter(d.queueFamilies, chosen[..i]), chosen[i], reqs[i], mode) &&
      forall j | 0 <= j < chosen[i] :: !Eligible(d, StateAfter(d.queueFamilies, chosen[..i]), j, reqs[i], mode)
  }

  lemma StateAfterConsume(orig: seq<QueueFamilyProperties>, chosen: seq<nat>, j: nat)
    requires j < |orig|
    ensures Consume(StateAfter(orig, chosen), j) == StateAfter(orig, chosen + [j])
  {
  }

  lemma {:induction false} AssignFromMeaning(d: PhysicalDevice, reqs: seq<PhysicalDeviceQueueRequirements>, mode: Mode,
                                             fams: seq<QueueFamilyProperties>, chosen: seq<nat>)
    requires GreedyInvariant(d, reqs, mode, fams, chosen)
    ensures var a := AssignFrom(d, reqs, mode, fams, chosen);
      GreedyInvariant(d, reqs, mode, StateAfter(d.queueFamilies, a.chosen), a.chosen) &&
      chosen <= a.chosen &&
      (a.stop.AllMatched? ==> |a.chosen| == |reqs| && a.families == StateAfter(d.queueFamilies, a.chosen)) &&
      (a.stop.Unmatched? ==>
         (a.stop.index == |a.chosen| < |reqs| && a.families == StateAfter(d.queueFamilies, a.chosen) &&
          forall j | 0 <= j < |d.queueFamilies| :: !Eligible(d, a.families, j, reqs[a.stop.index], mode))) &&
      (a.stop.PriorityMismatch? ==>
         (a.stop.index == |a.chosen| < |reqs| && mode == CreateMode &&
          |reqs[a.stop.index].priorities| != reqs[a.stop.index].properties.queueCount &&
          exists j | 0 <= j < |d.queueFamilies| :: Eligible(d, StateAfter(d.queueFamilies, a.chosen), j, reqs[a.stop.index], mode)))
    decreases |reqs| - |chosen|
  {
    var i := |chosen|;
    if i < |reqs| {
      match FirstFit(d, fams, reqs[i], mode, 0)
      case None =>
      case Some(j) =>
        if !(mode == CreateMode && |reqs[i].priorities| != reqs[i].properties.queueCount) {
          GreedyStep(d, reqs, mode, fams, chosen, j);
          AssignFromMeaning(d, reqs, mode, Consume(fams, j), chosen + [j]);
        }
    }
  }

  /** One turn of the assignment loop keeps the greedy invariant. */
  lemma GreedyStep(d: PhysicalDevice, reqs: seq<PhysicalDeviceQueueRequirements>, mode: Mode,
                   fams: seq<QueueFamilyProperties>, chosen: seq<nat>, j: nat)
    requires GreedyInvariant(d, reqs, mode, fams, chosen) && |chosen| < |reqs|
    requires FirstFit(d, fams, reqs[|chosen|], mode, 0) == Some(j)
    ensures GreedyInvariant(d, reqs, mode, Consume(fams, j), chosen + [j])
  {
    var i := |chosen|;
    StateAfterConsume(d.queueFamilies, chosen, j);
    var next: seq<nat> := chosen + [j];
    forall k | 0 <= k < |next|
      ensures next[k] < |d.queueFamilies|
      ensures Eligible(d, StateAfter(d.queueFamilies, next[..k]), next[k], reqs[k], mode)
      ensures forall j' | 0 <= j' < next[k] :: !Eligible(d, StateAfter(d.queueFamilies, next[..k]), j', reqs[k], mode)
    {
      if k < i {
        assert next[..k] == chosen[..k];
      } else {
        assert next[..k] == chosen;
      }
    }
  }

  /** What the greedy assignment computes, in terms of the device's own
      family list: the requirements matched, each to the first family
      eligible once the earlier choices are zeroed, and why it stopped. */
  lemma AssignMeaning(d: PhysicalDevice, reqs: seq<PhysicalDeviceQueueRequirements>, mode: Mode)
    ensures var a := Assign(d, reqs, mode);
      GreedyInvariant(d, reqs, mode, StateAfter(d.queueFamilies, a.chosen), a.chosen) &&
      (a.stop.AllMatched? ==> |a.chosen| == |reqs| && a.families == StateAfter(d.queueFamilies, a.chosen)) &&
      (a.stop.Unmatched? ==>
         (a.stop.index == |a.chosen| < |reqs| && a.families == StateAfter(d.queueFamilies, a.chosen) &&
          forall j | 0 <= j < |d.queueFamilies| :: !Eligible(d, a.families, j, reqs[a.stop.index], mode))) &&
      (a.stop.PriorityMismatch? ==>
         (a.stop.index == |a.chosen| < |reqs| && mode == CreateMode &&
          |reqs[a.stop.index].priorities| != reqs[a.stop.index].properties.queueCount))
  {
    assert StateAfter(d.queueFamilies, []) == d.queueFamilies;
    AssignFromMeaning(d, reqs, mode, d.queueFamilies, []);
  }

  /** Exclusivity: when every requirement asks for at least one queue, no
      family is chosen for two requirements. */
  lemma AssignExclusive(d: PhysicalDevice, reqs: seq<PhysicalDeviceQueueRequirements>, mode: Mode)
    requires forall i | 0 <= i < |reqs| :: reqs[i].properties.queueCount >= 1
    ensures var c := Assign(d, reqs, mode).chosen;
      forall i, k | 0 <= k < i < |c| :: c[k] != c[i]
  {
    AssignMeaning(d, reqs, mode);
    var c := Assign(d, reqs, mode).chosen;
    forall i, k | 0 <= k < i < |c| ensures c[k] != c[i] {
      var state := StateAfter(d.queueFamilies, c[..i]);
      assert Qualifies(state[c[i]], reqs[i]);
      assert c[i] !in c[..i];
      assert c[k] in c[..i];
    }
  }

  /** A requirement for zero queues can take a family an earlier requirement
      already took: the family's count is set to 0, and 0 >= 0. */
  lemma ZeroCountRequirementReusesFamily(d: PhysicalDevice, r: PhysicalDeviceQueueRequirements)
    requires |d.queueFamilies| == 1 && d.queueFamilies[0].queueFlags == 0
    requires d.queueFamilies[0].minImageTransferGranularity == Extent3D(0, 0, 0)
    requires r.properties.queueCount == 0 && r.properties.queueFlags == 0 && r.surfaceSupport == 0
    requires r.properties.minImageTransferGranularity == Extent3D(0, 0, 0)
    ensures Assign(d, [r, r], SelectMode) == Assignment(AllMatched, [0, 0], Consume(d.queueFamilies, 0))
  {
    var fams := d.queueFamilies;
    var reqs := [r, r];
    assert FirstFit(d, fams, r, SelectMode, 0) == Some(0);
    var none: seq<nat> := [];
    assert none + [0] == [0] && [0] + [0] == [0, 0];
    assert AssignFrom(d, reqs, SelectMode, fams, none) == AssignFrom(d, reqs, SelectMode, Consume(fams, 0), [0]);
    assert FirstFit(d, Consume(fams, 0), r, SelectMode, 0) == Some(0);
    assert Consume(Consume(fams, 0), 0) == Consume(fams, 0);
    assert AssignFrom(d, reqs, SelectMode, Consume(fams, 0), [0]) ==
           AssignFrom(d, reqs, SelectMode, Consume(fams, 0), [0, 0]);
  }

  /** create_device ignores the surface named in a requirement: its
      assignment does not depend on the surface-support oracle. */
  lemma {:induction false} CreateAssignIgnoresSurface(d: PhysicalDevice, oracle: (nat, SurfaceId) -> bool,
                                                      reqs: seq<PhysicalDeviceQueueRequirements>,
                                                      fams: seq<QueueFamilyProperties>, chosen: seq<nat>)
    requires |chosen| <= |reqs|
    ensures AssignFrom(d, reqs, CreateMode, fams, chosen) ==
            AssignFrom(d.(surfaceSupport := oracle), reqs, CreateMode, fams, chosen)
    decreases |reqs| - |chosen|
  {
    var d2 := d.(surfaceSupport := oracle);
    var i := |chosen|;
    if i < |reqs| {
      FirstFitIgnoresSurface(d, d2, fams, reqs[i], 0);
      match FirstFit(d, fams, reqs[i], CreateMode, 0)
      case None =>
      case Some(j) =>
        if |reqs[i].priorities| == reqs[i].properties.queueCount {
          CreateAssignIgnoresSurface(d, oracle, reqs, Consume(fams, j), chosen + [j]);
        }
    }
  }

  lemma {:induction false} FirstFitIgnoresSurface(d: PhysicalDevice, d2: PhysicalDevice, fams: seq<QueueFamilyProperties>,
                                                  r: PhysicalDeviceQueueRequirements, from: nat)
    ensures FirstFit(d, fams, r, CreateMode, from) == FirstFit(d2, fams, r, CreateMode, from)
    decreases |fams| - from
  {
    if from < |fams| {
      FirstFitIgnoresSurface(d, d2, fams, r, from + 1);
    }
  }

  /** The VkDeviceQueueCreateInfo create_device pushes for each matched requirement. */
  function QueueCreateInfos(reqs: seq<PhysicalDeviceQueueRequirements>, chosen: seq<nat>): (infos: seq<QueueCreateInfo>)
    requires |chosen| <= |reqs|
    ensures |infos| == |chosen|
    ensures forall k | 0 <= k < |chosen| ::
      infos[k] == QueueCreateInfo(reqs[k].createFlags, chosen[k], reqs[k].properties.queueCount, reqs[k].priorities)
  {
    if chosen == [] then []
    else
      var k := |chosen| - 1;
      QueueCreateInfos(reqs, chosen[..k]) +
      [QueueCreateInfo(reqs[k].createFlags, chosen[k], reqs[k].properties.queueCount, reqs[k].priorities)]
  }

  // ---------------------------------------------------------------------
  // The whole device
  // ---------------------------------------------------------------------

  datatype Check =
    | NameCheck | TypeCheck | ApiVersionCheck | FeatureCheck | LimitsCheck | ExtensionCheck
    | FormatCheck | ImageFormatCheck | MemoryTypeCheck | MemoryHeapCheck | QueueCheck

  /** create_device clears its satisfied flag only on these rejections; the
      others leave it set. */
  predicate ClearsSatisfied(c: Check)
  {
    c in {FeatureCheck, ExtensionCheck, FormatCheck, ImageFormatCheck, QueueCheck}
  }

  /** The first of the name, type and API-version checks that rejects the device. */
  function FilterFailure(d: PhysicalDevice, q: PhysicalDeviceQuery): Option<Check>
  {
    if !NameAccepted(d, q) then Some(NameCheck)
    else if TypeExcluded(d, q) then Some(TypeCheck)
    else if d.apiVersion < q.minimumVkVersion then Some(ApiVersionCheck)
    else None
  }

  /** The first of the name, type, API-version, feature and limits checks
      that rejects the device. */
  function EarlyFailure(d: PhysicalDevice, q: PhysicalDeviceQuery): Option<Check>
  {
    if FilterFailure(d, q).Some? then FilterFailure(d, q)
    else if FirstMissingFeature(d.features, q.minimumFeatures, 0).Some? then Some(FeatureCheck)
    else if LimitsLess(d.limits, q.minimumLimits) then Some(LimitsCheck)
    else None
  }

  /** The first of the extension, format, image-format and memory checks
      that rejects the device. */
  function LateFailure(d: PhysicalDevice, q: PhysicalDeviceQuery): Option<Check>
  {
    if !ExtensionsSatisfied(d.extensions, q.requiredExtensions) then Some(ExtensionCheck)
    else if FirstFormatFailure(d, q.minimumFormatProperties, 0).Some? then Some(FormatCheck)
    else if FirstImageFailure(d, q.minimumImageFormatProperties, 0).Some? then Some(ImageFormatCheck)
    else if d.memoryTypeCount < q.minimumMemoryTypeCount then Some(MemoryTypeCheck)
    else if d.memoryHeapCount < q.minimumMemoryHeapCount then Some(MemoryHeapCheck)
    else None
  }

  /** The first of checks 1 to 9 that rejects the device. */
  function FirstFailedCheck(d: PhysicalDevice, q: PhysicalDeviceQuery): Option<Check>
  {
    if EarlyFailure(d, q).Some? then EarlyFailure(d, q) else LateFailure(d, q)
  }

  datatype Verdict = Accepted | Rejected(check: Check) | Aborted

  function DeviceVerdict(d: PhysicalDevice, q: PhysicalDeviceQuery, mode: Mode): Verdict
  {
    match FirstFailedCheck(d, q)
    case Some(c) => Rejected(c)
    case None =>
      match Assign(d, q.requiredQueues, mode).stop
      case AllMatched => Accepted
      case Unmatched(_) => Rejected(QueueCheck)
      case PriorityMismatch(_) => Aborted
  }

  /** A device passes exactly when every one of the ten checks passes. */
  lemma AcceptedIff(d: PhysicalDevice, q: PhysicalDeviceQuery, mode: Mode)
    ensures DeviceVerdict(d, q, mode) == Accepted <==>
      NameAccepted(d, q) && !TypeExcluded(d, q) && d.apiVersion >= q.minimumVkVersion &&
      FeaturesSatisfied(d.features, q.minimumFeatures) && !LimitsLess(d.limits, q.minimumLimits) &&
      ExtensionsSatisfied(d.extensions, q.requiredExtensions) &&
      (forall i | 0 <= i < |q.minimumFormatProperties| :: FormatRequirementMet(d, q.minimumFormatProperties[i])) &&
      (forall i | 0 <= i < |q.minimumImageFormatProperties| :: ImageRequirementMet(d, q.minimumImageFormatProperties[i])) &&
      d.memoryTypeCount >= q.minimumMemoryTypeCount && d.memoryHeapCount >= q.minimumMemoryHeapCount &&
      Assign(d, q.requiredQueues, mode).stop == AllMatched
  {
  }

  /** A device reaches the assignment loop exactly when the verdict is not
      a rejection by one of checks 1 to 9. */
  lemma AssignmentReachedIff(d: PhysicalDevice, q: PhysicalDeviceQuery, mode: Mode)
    ensures FirstFailedCheck(d, q).None? <==>
      (DeviceVerdict(d, q, mode).Rejected? ==> DeviceVerdict(d, q, mode).check == QueueCheck)
  {
  }

  /** Only create_device aborts, on a priority-count mismatch. */
  lemma SelectNeverAborts(d: PhysicalDevice, q: PhysicalDeviceQuery)
    ensures DeviceVerdict(d, q, SelectMode) != Aborted
  {
    AssignMeaning(d, q.requiredQueues, SelectMode);
  }

  /** The queue create infos a device contributes: those pushed by
      create_device's assignment loop once the device reaches it. */
  function DeviceQueueInfos(d: PhysicalDevice, q: PhysicalDeviceQuery, mode: Mode): seq<QueueCreateInfo>
  {
    if mode == SelectMode || FirstFailedCheck(d, q).Some? then []
    else
      var a := Assign(d, q.requiredQueues, mode);
      AssignMeaning(d, q.requiredQueues, mode);
      QueueCreateInfos(q.requiredQueues, a.chosen)
  }

  /** vkGetPhysicalDeviceFeatures is called once a device passes the name,
      type and API-version checks. */
  predicate FetchesFeatures(v: Verdict)
  {
    !(v.Rejected? && v.check in {NameCheck, TypeCheck, ApiVersionCheck})
  }

  /** The report made when check c is the first to reject the device. */
  function FailureMessages(d: PhysicalDevice, q: PhysicalDeviceQuery, mode: Mode, c: Check): seq<Message>
  {
    match c
    case NameCheck => []
    case TypeCheck => []
    case ApiVersionCheck => [Rejection(mode, ApiVersionTooLow(d.apiVersion, q.minimumVkVersion))]
    case FeatureCheck =>
      (match FirstMissingFeature(d.features, q.minimumFeatures, 0)
       case Some(i) => [Rejection(mode, FeatureMissing(2 * i))]
       case None => [])
    case LimitsCheck => [Rejection(mode, LimitsInsufficient)]
    case ExtensionCheck => ExtensionMessages(mode, d.extensions, q.requiredExtensions, 0, true)
    case FormatCheck =>
      (match FirstFormatFailure(d, q.minimumFormatProperties, 0)
       case Some(i) => [Rejection(mode, FormatInsufficient(q.minimumFormatProperties[i].format))]
       case None => [])
    case ImageFormatCheck =>
      (match FirstImageFailure(d, q.minimumImageFormatProperties, 0)
       case Some(i) =>
         var r := q.minimumImageFormatProperties[i];
         var answer := d.imageFormatProperties(r.Key());
         if answer.result != Success then [Message(answer.result, Verbose, ImageFormatUnsupported(r.format), Origin(mode))]
         else [Rejection(mode, ImageFormatInsufficient(r.format))]
       case None => [])
    case MemoryTypeCheck => [Rejection(mode, MemoryTypeCountInsufficient)]
    case MemoryHeapCheck => [Rejection(mode, MemoryHeapCountInsufficient)]
    case QueueCheck => []
  }

  /** The report the queue assignment makes when it stops early. */
  function QueueMessages(d: PhysicalDevice, q: PhysicalDeviceQuery, mode: Mode): seq<Message>
  {
    var a := Assign(d, q.requiredQueues, mode);
    match a.stop
    case AllMatched => []
    case Unmatched(i) => [Rejection(mode, QueueFamilyUnmatched(i))]
    case PriorityMismatch(i) =>
      if i < |q.requiredQueues| then
        var r := q.requiredQueues[i];
        [Message(ErrorInitializationFailed, Error, PriorityCountMismatch(r.properties.queueCount, |r.priorities|), CreateDeviceFn)]
      else []
  }

  /** The reports made while one device is checked, before KVK_ERR filters them. */
  function DeviceMessages(d: PhysicalDevice, q: PhysicalDeviceQuery, mode: Mode): seq<Message>
  {
    match FirstFailedCheck(d, q)
    case Some(c) => FailureMessages(d, q, mode, c)
    case None => QueueMessages(d, q, mode)
  }

  // ---------------------------------------------------------------------
  // The walk over the enumerated devices
  // ---------------------------------------------------------------------

  /** The device loop stops at a device this verdict is given to. */
  predicate Decisive(v: Verdict)
  {
    v.Accepted? || v.Aborted?
  }

  /** The first device at or after from on which the device loop stops. */
  function FirstDecisive(devices: seq<PhysicalDevice>, q: PhysicalDeviceQuery, mode: Mode, from: nat): (r: Option<nat>)
    decreases |devices| - from
    ensures r.Some? ==> from <= r.value < |devices| && Decisive(DeviceVerdict(devices[r.value], q, mode))
    ensures r.Some? ==> forall k | from <= k < r.value :: !Decisive(DeviceVerdict(devices[k], q, mode))
    ensures r.None? ==> forall k | from <= k < |devices| :: !Decisive(DeviceVerdict(devices[k], q, mode))
  {
    if from >= |devices| then None
    else if Decisive(DeviceVerdict(devices[from], q, mode)) then Some(from)
    else FirstDecisive(devices, q, mode, from + 1)
  }

  /** How many devices the loop examines. */
  function Examined(devices: seq<PhysicalDevice>, q: PhysicalDeviceQuery, mode: Mode): (n: nat)
    ensures n <= |devices|
  {
    match FirstDecisive(devices, q, mode, 0)
    case Some(k) => k + 1
    case None => |devices|
  }

  /** A walk that gets past the last device examines every device. */
  lemma WalkExhausted(devices: seq<PhysicalDevice>, q: PhysicalDeviceQuery, mode: Mode)
    requires FirstDecisive(devices, q, mode, |devices|) == FirstDecisive(devices, q, mode, 0)
    ensures FirstDecisive(devices, q, mode, 0).None? && Examined(devices, q, mode) == |devices|
  {
  }

  /** The reports made while checking the first n devices. */
  function ScanMessages(devices: seq<PhysicalDevice>, q: PhysicalDeviceQuery, mode: Mode, n: nat): seq<Message>
    requires n <= |devices|
  {
    if n == 0 then [] else ScanMessages(devices, q, mode, n - 1) + DeviceMessages(devices[n - 1], q, mode)
  }

  lemma ScanMessagesStep(devices: seq<PhysicalDevice>, q: PhysicalDeviceQuery, mode: Mode, callback: ErrorCallback, k: nat)
    requires k < |devices|
    ensures Deliver(callback, ScanMessages(devices, q, mode, k + 1)) ==
            Deliver(callback, ScanMessages(devices, q, mode, k)) + Deliver(callback, DeviceMessages(devices[k], q, mode))
  {
    DeliverConcat(callback, ScanMessages(devices, q, mode, k), DeviceMessages(devices[k], q, mode));
  }

  lemma FirstDecisiveStep(devices: seq<PhysicalDevice>, q: PhysicalDeviceQuery, mode: Mode, v: Verdict, k: nat)
    requires k < |devices| && v == DeviceVerdict(devices[k], q, mode) && !Decisive(v)
    ensures FirstDecisive(devices, q, mode, k) == FirstDecisive(devices, q, mode, k + 1)
  {
  }
}
