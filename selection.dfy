// src/kvk.cpp:129-332, select_physical_device, and the per-device checks it
// shares with create_device, as loops proved to compute the specifications
// of module Matching.

module Selection {
  import opened Wrappers
  import opened Vulkan
  import opened Kvk
  import opened KvkUtil
  import opened Matching

  /** The feature walk: one VkBool32 per step, from robustBufferAccess to
      inheritedQueries; the index of the first requested feature the device
      lacks, if any. */
  method CheckFeatures(have: Features, want: Features) returns (missing: Option<nat>)
    ensures missing == FirstMissingFeature(have, want, 0)
    ensures missing.None? <==> FeaturesSatisfied(have, want)
  {
    var featureIndex := 0;
    while featureIndex < FeatureCount
      invariant 0 <= featureIndex <= FeatureCount
      invariant FirstMissingFeature(have, want, featureIndex) == FirstMissingFeature(have, want, 0)
    {
      if want[featureIndex] && !have[featureIndex] {
        return Some(featureIndex);
      }
      featureIndex := featureIndex + 1;
    }
    return None;
  }

  /** The inner extension loop: the index of the first available extension
      of that name, if any. */
  method FindByName(available: seq<ExtensionProperties>, name: string) returns (r: Option<nat>)
    ensures r == FindExtension(available, name, 0)
  {
    var j := 0;
    while j < |available|
      invariant 0 <= j <= |available|
      invariant FindExtension(available, name, j) == FindExtension(available, name, 0)
    {
      if available[j].extensionName == name {
        return Some(j);
      }
      j := j + 1;
    }
    return None;
  }

  /** The extension loop: for each required extension, the inner loop looks
      for the first available one of that name. */
  method CheckExtensions(available: seq<ExtensionProperties>, required: seq<ExtensionProperties>,
                         mode: Mode, callback: ErrorCallback) returns (satisfied: bool, log: seq<Message>)
    ensures satisfied == ExtensionsSatisfied(available, required)
    ensures log == Deliver(callback, ExtensionMessages(mode, available, required, 0, true))
  {
    ghost var all := ExtensionMessages(mode, available, required, 0, true);
    ProvidedUpToMeaning(available, required, |required|);
    satisfied := true;
    log := [];
    var i := 0;
    while i < |required|
      invariant 0 <= i <= |required|
      invariant satisfied == ProvidedUpTo(available, required, i)
      invariant log + Deliver(callback, ExtensionMessages(mode, available, required, i, satisfied)) == Deliver(callback, all)
    {
      var stop;
      satisfied, log, stop := ExamineExtension(available, required, mode, callback, i, satisfied, log);
      if stop {
        break;
      }
      i := i + 1;
    }
  }

  /** One turn of the extension loop, for requirement i: the new satisfied
      flag and log, and whether the loop breaks off here. */
  method ExamineExtension(available: seq<ExtensionProperties>, required: seq<ExtensionProperties>,
                          mode: Mode, callback: ErrorCallback, i: nat, satisfied: bool, log: seq<Message>)
    returns (satisfied': bool, log': seq<Message>, stop: bool)
    requires i < |required|
    ensures stop ==> satisfied && !ExtensionProvided(available, required[i]) && !satisfied'
    ensures stop ==> log' == log + Deliver(callback, ExtensionMessages(mode, available, required, i, satisfied))
    ensures !stop ==> satisfied' == (satisfied && ExtensionProvided(available, required[i]))
    ensures !stop ==> log' + Deliver(callback, ExtensionMessages(mode, available, required, i + 1, satisfied')) ==
                      log + Deliver(callback, ExtensionMessages(mode, available, required, i, satisfied))
  {
    var name := required[i].extensionName;
    var r := FindByName(available, name);
    satisfied', log', stop := satisfied, log, false;
    match r {
      case Some(j) =>
        if available[j].specVersion < required[i].specVersion {
          var m := Rejection(mode, ExtensionVersionTooLow(name, available[j].specVersion, required[i].specVersion));
          ghost var rest := ExtensionMessages(mode, available, required, i + 1, false);
          assert ExtensionMessages(mode, available, required, i, satisfied) == [m] + rest;
          DeliverConcat(callback, [m], rest);
          log' := log + Report(callback, m);
          satisfied' := false;
        } else {
          assert ExtensionMessages(mode, available, required, i, satisfied) ==
                 ExtensionMessages(mode, available, required, i + 1, satisfied);
        }
      case None =>
        if satisfied {
          var m := Rejection(mode, ExtensionMissing(name));
          assert ExtensionMessages(mode, available, required, i, satisfied) == [m];
          log' := log + Report(callback, m);
          satisfied', stop := false, true;
        } else {
          assert ExtensionMessages(mode, available, required, i, satisfied) ==
                 ExtensionMessages(mode, available, required, i + 1, satisfied);
        }
    }
  }

  /** The format loop: the index of the first format requirement whose
      feature masks the device does not cover. */
  method CheckFormats(d: PhysicalDevice, reqs: seq<PhysicalDeviceFormatPropertyRequirement>) returns (failed: Option<nat>)
    ensures failed == FirstFormatFailure(d, reqs, 0)
    ensures failed.None? <==> forall i | 0 <= i < |reqs| :: FormatRequirementMet(d, reqs[i])
  {
    var i := 0;
    while i < |reqs|
      invariant 0 <= i <= |reqs|
      invariant FirstFormatFailure(d, reqs, i) == FirstFormatFailure(d, reqs, 0)
    {
      var p := d.formatProperties(reqs[i].format);
      var m := reqs[i].minimumProperties;
      if !Superset(p.linearTilingFeatures, m.linearTilingFeatures) ||
         !Superset(p.optimalTilingFeatures, m.optimalTilingFeatures) ||
         !Superset(p.bufferFeatures, m.bufferFeatures) {
        return Some(i);
      }
      i := i + 1;
    }
    return None;
  }

  /** The image-format loop: the index of the first requirement whose query
      fails or whose bounds fall short. */
  method CheckImageFormats(d: PhysicalDevice, reqs: seq<PhysicalDeviceImageFormatPropertyRequirement>) returns (failed: Option<nat>)
    ensures failed == FirstImageFailure(d, reqs, 0)
    ensures failed.None? <==> forall i | 0 <= i < |reqs| :: ImageRequirementMet(d, reqs[i])
  {
    var i := 0;
    while i < |reqs|
      invariant 0 <= i <= |reqs|
      invariant FirstImageFailure(d, reqs, i) == FirstImageFailure(d, reqs, 0)
    {
      var answer := d.imageFormatProperties(reqs[i].Key());
      if answer.result != Success {
        return Some(i);
      }
      if !ImageBoundsMet(answer.properties, reqs[i].minimumProperties) {
        return Some(i);
      }
      i := i + 1;
    }
    return None;
  }

  /** The family loop for one requirement: the first family, by index, that
      passes the surface oracle (when asked) and qualifies. */
  method FindFamily(d: PhysicalDevice, families: array<QueueFamilyProperties>, r: PhysicalDeviceQueueRequirements,
                    mode: Mode) returns (fit: Option<nat>)
    ensures fit == FirstFit(d, families[..], r, mode, 0)
  {
    var j := 0;
    while j < families.Length
      invariant 0 <= j <= families.Length
      invariant FirstFit(d, families[..], r, mode, j) == FirstFit(d, families[..], r, mode, 0)
    {
      if mode == SelectMode && r.surfaceSupport != 0 {
        if !d.surfaceSupport(j, r.surfaceSupport) {
          j := j + 1;
          continue;
        }
      }
      if Qualifies(families[j], r) {
        return Some(j);
      }
      j := j + 1;
    }
    return None;
  }

  /** The greedy queue-family assignment over a mutable copy of the family
      list; create_device also pushes one VkDeviceQueueCreateInfo per
      matched requirement. */
  method AssignQueues(d: PhysicalDevice, reqs: seq<PhysicalDeviceQueueRequirements>, mode: Mode)
    returns (a: Assignment, infos: seq<QueueCreateInfo>)
    ensures a == Assign(d, reqs, mode)
    ensures |a.chosen| <= |reqs|
    ensures infos == if mode == CreateMode then QueueCreateInfos(reqs, a.chosen) else []
  {
    var families := new QueueFamilyProperties[|d.queueFamilies|](k requires 0 <= k < |d.queueFamilies| => d.queueFamilies[k]);
    assert families[..] == d.queueFamilies;
    var chosen: seq<nat> := [];
    infos := [];
    var i := 0;
    while i < |reqs|
      invariant 0 <= i <= |reqs| && |chosen| == i
      invariant AssignFrom(d, reqs, mode, families[..], chosen) == Assign(d, reqs, mode)
      invariant infos == if mode == CreateMode then QueueCreateInfos(reqs, chosen) else []
    {
      var r := reqs[i];
      var fit := FindFamily(d, families, r, mode);
      if fit.None? {
        return Assignment(Unmatched(i), chosen, families[..]), infos;
      }
      var j := fit.value;
      ghost var before := families[..];
      families[j] := families[j].(queueCount := 0);
      assert families[..] == Consume(before, j);
      if mode == CreateMode {
        if |r.priorities| != r.properties.queueCount {
          return Assignment(PriorityMismatch(i), chosen, families[..]), infos;
        }
        infos := infos + [QueueCreateInfo(r.createFlags, j, r.properties.queueCount, r.priorities)];
      }
      chosen := chosen + [j];
      assert chosen[..i] == chosen[..|chosen| - 1];
      i := i + 1;
    }
    return Assignment(AllMatched, chosen, families[..]), infos;
  }

  /** Checks 1 to 3 of the device loop: name, type and API version. */
  method FilterChecks(d: PhysicalDevice, q: PhysicalDeviceQuery, mode: Mode, callback: ErrorCallback)
    returns (failed: Option<Check>, log: seq<Message>)
    ensures failed == FilterFailure(d, q)
    ensures log == if failed.Some? then Deliver(callback, FailureMessages(d, q, mode, failed.value)) else []
  {
    log := [];
    if q.deviceNameSubstring.Some? && !Contains(d.deviceName, q.deviceNameSubstring.value) {
      return Some(NameCheck), log;
    }
    if HasType(q.excludedDeviceTypes, d.deviceType) {
      return Some(TypeCheck), log;
    }
    if d.apiVersion < q.minimumVkVersion {
      log := Report(callback, Rejection(mode, ApiVersionTooLow(d.apiVersion, q.minimumVkVersion)));
      return Some(ApiVersionCheck), log;
    }
    return None, log;
  }

  /** Checks 1 to 5 of the device loop: the filters, then features and
      limits, each reporting through KVK_ERR on failure. */
  method EarlyChecks(d: PhysicalDevice, q: PhysicalDeviceQuery, mode: Mode, callback: ErrorCallback)
    returns (failed: Option<Check>, log: seq<Message>)
    ensures failed == EarlyFailure(d, q)
    ensures log == if failed.Some? then Deliver(callback, FailureMessages(d, q, mode, failed.value)) else []
  {
    failed, log := FilterChecks(d, q, mode, callback);
    if failed.Some? {
      return;
    }
    var missing := CheckFeatures(d.features, q.minimumFeatures);
    if missing.Some? {
      log := Report(callback, Rejection(mode, FeatureMissing(2 * missing.value)));
      return Some(FeatureCheck), log;
    }
    if LimitsLess(d.limits, q.minimumLimits) {
      log := Report(callback, Rejection(mode, LimitsInsufficient));
      return Some(LimitsCheck), log;
    }
    return None, log;
  }

  /** Checks 6 to 9 of the device loop: extensions, formats, image formats
      and memory counts. */
  method LateChecks(d: PhysicalDevice, q: PhysicalDeviceQuery, mode: Mode, callback: ErrorCallback)
    returns (failed: Option<Check>, log: seq<Message>)
    ensures failed == LateFailure(d, q)
    ensures log == if failed.Some? then Deliver(callback, FailureMessages(d, q, mode, failed.value)) else []
  {
    var satisfied;
    satisfied, log := CheckExtensions(d.extensions, q.requiredExtensions, mode, callback);
    if !satisfied {
      return Some(ExtensionCheck), log;
    }
    ExtensionMessagesEmptyIff(mode, d.extensions, q.requiredExtensions, 0);
    failed, log := ResourceChecks(d, q, mode, callback);
  }

  /** Checks 7 to 9 of the device loop, reached once the extensions are
      satisfied: formats, image formats and memory counts. */
  method ResourceChecks(d: PhysicalDevice, q: PhysicalDeviceQuery, mode: Mode, callback: ErrorCallback)
    returns (failed: Option<Check>, log: seq<Message>)
    requires ExtensionsSatisfied(d.extensions, q.requiredExtensions)
    ensures failed == LateFailure(d, q)
    ensures log == if failed.Some? then Deliver(callback, FailureMessages(d, q, mode, failed.value)) else []
  {
    log := [];
    var formatFailure := CheckFormats(d, q.minimumFormatProperties);
    if formatFailure.Some? {
      log := Report(callback, Rejection(mode, FormatInsufficient(q.minimumFormatProperties[formatFailure.value].format)));
      return Some(FormatCheck), log;
    }
    var imageFailure := CheckImageFormats(d, q.minimumImageFormatProperties);
    if imageFailure.Some? {
      var r := q.minimumImageFormatProperties[imageFailure.value];
      var answer := d.imageFormatProperties(r.Key());
      if answer.result != Success {
        log := Report(callback, Message(answer.result, Verbose, ImageFormatUnsupported(r.format), Origin(mode)));
      } else {
        log := Report(callback, Rejection(mode, ImageFormatInsufficient(r.format)));
      }
      return Some(ImageFormatCheck), log;
    }
    if d.memoryTypeCount < q.minimumMemoryTypeCount {
      log := Report(callback, Rejection(mode, MemoryTypeCountInsufficient));
      return Some(MemoryTypeCheck), log;
    }
    if d.memoryHeapCount < q.minimumMemoryHeapCount {
      log := Report(callback, Rejection(mode, MemoryHeapCountInsufficient));
      return Some(MemoryHeapCheck), log;
    }
    return None, log;
  }

  /** The body of the device loop for one device: the ten checks in order,
      skipping to the next device at the first failure. In create mode it
      also returns the queue create infos the device adds to create_device's
      list. */
  method EvaluateDevice(d: PhysicalDevice, q: PhysicalDeviceQuery, mode: Mode, callback: ErrorCallback)
    returns (verdict: Verdict, infos: seq<QueueCreateInfo>, log: seq<Message>)
    ensures verdict == DeviceVerdict(d, q, mode)
    ensures infos == DeviceQueueInfos(d, q, mode)
    ensures log == Deliver(callback, DeviceMessages(d, q, mode))
  {
    infos := [];
    var failed;
    failed, log := EarlyChecks(d, q, mode, callback);
    if failed.Some? {
      return Rejected(failed.value), infos, log;
    }
    failed, log := LateChecks(d, q, mode, callback);
    if failed.Some? {
      return Rejected(failed.value), infos, log;
    }
    verdict, infos, log := AssignmentCheck(d, q, mode, callback);
  }

  /** Check 10 of the device loop, reached once checks 1 to 9 pass: the
      greedy queue assignment, and the report when it stops early. */
  method AssignmentCheck(d: PhysicalDevice, q: PhysicalDeviceQuery, mode: Mode, callback: ErrorCallback)
    returns (verdict: Verdict, infos: seq<QueueCreateInfo>, log: seq<Message>)
    requires FirstFailedCheck(d, q).None?
    ensures verdict == DeviceVerdict(d, q, mode)
    ensures infos == DeviceQueueInfos(d, q, mode)
    ensures log == Deliver(callback, DeviceMessages(d, q, mode))
  {
    var a;
    a, infos := AssignQueues(d, q.requiredQueues, mode);
    AssignMeaning(d, q.requiredQueues, mode);
    match a.stop
    case AllMatched =>
      verdict := Accepted;
      log := [];
    case Unmatched(i) =>
      log := Report(callback, Rejection(mode, QueueFamilyUnmatched(i)));
      verdict := Rejected(QueueCheck);
    case PriorityMismatch(i) =>
      var r := q.requiredQueues[i];
      log := Report(callback, Message(ErrorInitializationFailed, Error,
                                      PriorityCountMismatch(r.properties.queueCount, |r.priorities|), CreateDeviceFn));
      verdict := Aborted;
  }

  /** vkEnumeratePhysicalDevices failed, or reported no device. */
  predicate EnumerationFails(e: Enumeration)
  {
    e.countResult != Success || |e.devices| == 0 || e.listResult != Success
  }

  /** The handle select_physical_device returns. */
  function SelectedDevice(e: Enumeration, q: PhysicalDeviceQuery): Handle
  {
    if EnumerationFails(e) then NullHandle
    else match FirstDecisive(e.devices, q, SelectMode, 0)
      case Some(k) => Live(e.devices[k].handle)
      case None => NullHandle
  }

  /** The reports select_physical_device makes. */
  function SelectionMessages(e: Enumeration, q: PhysicalDeviceQuery): seq<Message>
  {
    if e.countResult != Success || |e.devices| == 0 then
      [Message(e.countResult, Error, EnumerationFailed, SelectPhysicalDeviceFn)]
    else if e.listResult != Success then
      [Message(e.listResult, Error, EnumerationFailed, SelectPhysicalDeviceFn)]
    else ScanMessages(e.devices, q, SelectMode, Examined(e.devices, q, SelectMode))
  }

  /** select_physical_device: the first device, in enumeration order, that
      passes every check. */
  method SelectPhysicalDevice(e: Enumeration, q: PhysicalDeviceQuery, callback: ErrorCallback)
    returns (device: Handle, log: seq<Message>)
    ensures device == SelectedDevice(e, q)
    ensures log == Deliver(callback, SelectionMessages(e, q))
  {
    if e.countResult != Success || |e.devices| == 0 {
      log := Report(callback, Message(e.countResult, Error, EnumerationFailed, SelectPhysicalDeviceFn));
      return NullHandle, log;
    }
    if e.listResult != Success {
      log := Report(callback, Message(e.listResult, Error, EnumerationFailed, SelectPhysicalDeviceFn));
      return NullHandle, log;
    }
    var found;
    found, log := WalkForSelection(e.devices, q, callback);
    match found
    case Some(k) => device := Live(e.devices[k].handle);
    case None => device := NullHandle;
  }

  /** The device loop of select_physical_device: where it stops, and the
      reports it makes up to that point. */
  method WalkForSelection(devices: seq<PhysicalDevice>, q: PhysicalDeviceQuery, callback: ErrorCallback)
    returns (found: Option<nat>, log: seq<Message>)
    ensures found == FirstDecisive(devices, q, SelectMode, 0)
    ensures log == Deliver(callback, ScanMessages(devices, q, SelectMode, Examined(devices, q, SelectMode)))
  {
    log := [];
    var k := 0;
    while k < |devices|
      invariant 0 <= k <= |devices|
      invariant FirstDecisive(devices, q, SelectMode, k) == FirstDecisive(devices, q, SelectMode, 0)
      invariant log == Deliver(callback, ScanMessages(devices, q, SelectMode, k))
    {
      var accepted;
      accepted, log := ExamineForSelection(devices, q, callback, k, log);
      if accepted {
        return Some(k), log;
      }
      k := k + 1;
    }
    assert Examined(devices, q, SelectMode) == |devices|;
    return None, log;
  }

  /** One turn of select_physical_device's device loop, stated in terms of
      the walk: whether the loop stops at device k, and the reports it adds. */
  method ExamineForSelection(devices: seq<PhysicalDevice>, q: PhysicalDeviceQuery, callback: ErrorCallback, k: nat,
                             log: seq<Message>)
    returns (accepted: bool, log': seq<Message>)
    requires k < |devices|
    requires FirstDecisive(devices, q, SelectMode, k) == FirstDecisive(devices, q, SelectMode, 0)
    requires log == Deliver(callback, ScanMessages(devices, q, SelectMode, k))
    ensures accepted ==> FirstDecisive(devices, q, SelectMode, 0) == Some(k) && Examined(devices, q, SelectMode) == k + 1
    ensures !accepted ==> FirstDecisive(devices, q, SelectMode, k + 1) == FirstDecisive(devices, q, SelectMode, 0)
    ensures log' == Deliver(callback, ScanMessages(devices, q, SelectMode, k + 1))
  {
    var verdict, _, deviceLog := EvaluateDevice(devices[k], q, SelectMode, callback);
    SelectNeverAborts(devices[k], q);
    ScanMessagesStep(devices, q, SelectMode, callback, k);
    accepted := verdict == Accepted;
    log' := log + deviceLog;
  }

  /** What select_physical_device promises: a device is returned exactly
      when enumeration succeeds and some device passes every check, and then
      it is the first such device. */
  lemma SelectedIsFirstAccepted(e: Enumeration, q: PhysicalDeviceQuery)
    ensures SelectedDevice(e, q).Live? <==>
      !EnumerationFails(e) && exists k | 0 <= k < |e.devices| :: DeviceVerdict(e.devices[k], q, SelectMode) == Accepted
    ensures SelectedDevice(e, q).Live? ==>
      exists k | 0 <= k < |e.devices| ::
        SelectedDevice(e, q) == Live(e.devices[k].handle) &&
        DeviceVerdict(e.devices[k], q, SelectMode) == Accepted &&
        forall j | 0 <= j < k :: DeviceVerdict(e.devices[j], q, SelectMode) != Accepted
  {
    if !EnumerationFails(e) {
      forall j | 0 <= j < |e.devices| ensures Decisive(DeviceVerdict(e.devices[j], q, SelectMode)) <==>
                                               DeviceVerdict(e.devices[j], q, SelectMode) == Accepted {
        SelectNeverAborts(e.devices[j], q);
      }
    }
  }

  /** A selected device has the requested name, a type that is not
      excluded, and at least the requested API version. */
  lemma SelectedPassesFilters(e: Enumeration, q: PhysicalDeviceQuery, k: nat)
    requires k < |e.devices| && DeviceVerdict(e.devices[k], q, SelectMode) == Accepted
    ensures NameAccepted(e.devices[k], q)
    ensures !HasType(q.excludedDeviceTypes, e.devices[k].deviceType)
    ensures e.devices[k].apiVersion >= q.minimumVkVersion
  {
  }
}
