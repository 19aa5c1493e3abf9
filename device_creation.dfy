// src/kvk.cpp:334-659, create_device: the device walk in create mode, the
// uint32 queue count, growing the caller's return array, the device
// extension presets, the request handed to vkCreateDevice and the
// flattening of the created queues into the return array. The driver's
// vkCreateDevice and vkGetDeviceQueue are inputs.

module DeviceCreation {
  import opened Wrappers
  import opened Vulkan
  import opened Kvk
  import opened KvkUtil
  import opened Matching
  import opened Selection

  const U32Modulus: nat := 0x1_0000_0000

  // ---------------------------------------------------------------------
  // The device walk of create_device
  // ---------------------------------------------------------------------

  /** The create infos accumulated over the first n devices: the list is not
      cleared between candidates. */
  function ScanInfos(devices: seq<PhysicalDevice>, q: PhysicalDeviceQuery, n: nat): seq<QueueCreateInfo>
    requires n <= |devices|
  {
    if n == 0 then [] else ScanInfos(devices, q, n - 1) + DeviceQueueInfos(devices[n - 1], q, CreateMode)
  }

  /** The contents of physical_device_features after the first n devices:
      those of the last device that got past the API-version check. */
  function ScanFeatures(devices: seq<PhysicalDevice>, q: PhysicalDeviceQuery, n: nat): Option<Features>
    requires n <= |devices|
  {
    if n == 0 then None
    else if FetchesFeatures(DeviceVerdict(devices[n - 1], q, CreateMode)) then Some(devices[n - 1].features)
    else ScanFeatures(devices, q, n - 1)
  }

  /** The satisfied flag after the first n devices: set at the start of each
      device and cleared only by the feature, extension, format, image-format
      and queue checks. */
  function SatisfiedAfter(devices: seq<PhysicalDevice>, q: PhysicalDeviceQuery, n: nat): bool
    requires n <= |devices|
  {
    n == 0 ||
    match DeviceVerdict(devices[n - 1], q, CreateMode)
    case Rejected(c) => !ClearsSatisfied(c)
    case _ => true
  }

  datatype ScanStop = FoundAt(index: nat) | AbortedAt(index: nat) | Exhausted

  /** How the walk ends when it stops at device k. */
  function StopAt(devices: seq<PhysicalDevice>, q: PhysicalDeviceQuery, k: nat): ScanStop
    requires k < |devices|
  {
    if DeviceVerdict(devices[k], q, CreateMode) == Aborted then AbortedAt(k) else FoundAt(k)
  }

  /** Where the device walk of create_device stops. */
  function ScanStopOf(devices: seq<PhysicalDevice>, q: PhysicalDeviceQuery): ScanStop
  {
    match FirstDecisive(devices, q, CreateMode, 0)
    case Some(k) => StopAt(devices, q, k)
    case None => Exhausted
  }

  /** The variables create_device's device loop carries from one device to
      the next: satisfied, vk_device_queue_create_infos,
      physical_device_features, and the reports made so far. */
  datatype ScanState = ScanState(satisfied: bool, infos: seq<QueueCreateInfo>, features: Option<Features>, log: seq<Message>)

  function ScanStateAfter(devices: seq<PhysicalDevice>, q: PhysicalDeviceQuery, callback: ErrorCallback, n: nat): ScanState
    requires n <= |devices|
  {
    ScanState(SatisfiedAfter(devices, q, n), ScanInfos(devices, q, n), ScanFeatures(devices, q, n),
              Deliver(callback, ScanMessages(devices, q, CreateMode, n)))
  }

  /** One turn of create_device's device loop, stated in terms of the walk:
      it takes the loop's state after device k - 1 and returns it after
      device k, with whether the loop stops there. */
  method ExamineForCreation(devices: seq<PhysicalDevice>, q: PhysicalDeviceQuery, callback: ErrorCallback, k: nat,
                            state: ScanState)
    returns (accepted: bool, aborted: bool, state': ScanState)
    requires k < |devices|
    requires FirstDecisive(devices, q, CreateMode, k) == FirstDecisive(devices, q, CreateMode, 0)
    requires state.infos == ScanInfos(devices, q, k) && state.features == ScanFeatures(devices, q, k)
    requires state.log == Deliver(callback, ScanMessages(devices, q, CreateMode, k))
    ensures accepted || aborted ==> Examined(devices, q, CreateMode) == k + 1
    ensures accepted ==> ScanStopOf(devices, q) == FoundAt(k)
    ensures aborted ==> ScanStopOf(devices, q) == AbortedAt(k)
    ensures !(accepted || aborted) ==>
      FirstDecisive(devices, q, CreateMode, k + 1) == FirstDecisive(devices, q, CreateMode, 0)
    ensures state' == ScanStateAfter(devices, q, callback, k + 1)
  {
    var verdict, deviceInfos, deviceLog := EvaluateDevice(devices[k], q, CreateMode, callback);
    ScanMessagesStep(devices, q, CreateMode, callback, k);
    accepted := verdict == Accepted;
    aborted := verdict == Aborted;
    state' := ScanState(
      !(verdict.Rejected? && ClearsSatisfied(verdict.check)),
      state.infos + deviceInfos,
      if FetchesFeatures(verdict) then Some(devices[k].features) else state.features,
      state.log + deviceLog);
  }

  /** The device loop of create_device for a query. */
  method ScanDevices(devices: seq<PhysicalDevice>, q: PhysicalDeviceQuery, callback: ErrorCallback)
    returns (stop: ScanStop, state: ScanState)
    ensures stop == ScanStopOf(devices, q)
    ensures state == ScanStateAfter(devices, q, callback, Examined(devices, q, CreateMode))
  {
    state := ScanState(true, [], None, []);
    var k := 0;
    while k < |devices|
      invariant 0 <= k <= |devices|
      invariant FirstDecisive(devices, q, CreateMode, k) == FirstDecisive(devices, q, CreateMode, 0)
      invariant state == ScanStateAfter(devices, q, callback, k)
    {
      var accepted, aborted;
      accepted, aborted, state := ExamineForCreation(devices, q, callback, k, state);
      if aborted {
        return AbortedAt(k), state;
      }
      if accepted {
        return FoundAt(k), state;
      }
      k := k + 1;
    }
    WalkExhausted(devices, q, CreateMode);
    stop := Exhausted;
  }

  /** What create_device has decided before it counts queues: return early
      with a result, or go on with a physical device, the accumulated queue
      create infos and the contents of its feature block. */
  datatype Plan =
    | Abort(result: VkResult)
    | Proceed(physicalDevice: Handle, infos: seq<QueueCreateInfo>, features: Option<Features>)

  function CreationPlan(e: Enumeration, info: DeviceCreateInfo): Plan
    requires info.ActiveMemberMatches()
  {
    if e.countResult != Success || |e.devices| == 0 then Abort(e.countResult)
    else if e.listResult != Success then Abort(e.listResult)
    else if info.physicalDevice != NullHandle then Proceed(info.physicalDevice, [], None)
    else
      var q := info.selection.physicalDeviceQuery;
      var n := Examined(e.devices, q, CreateMode);
      match ScanStopOf(e.devices, q)
      case AbortedAt(_) => Abort(ErrorInitializationFailed)
      case FoundAt(k) => Proceed(Live(e.devices[k].handle), ScanInfos(e.devices, q, n), ScanFeatures(e.devices, q, n))
      case Exhausted =>
        if SatisfiedAfter(e.devices, q, n) then Proceed(NullHandle, ScanInfos(e.devices, q, n), ScanFeatures(e.devices, q, n))
        else Abort(ErrorInitializationFailed)
  }

  /** The reports create_device makes up to that decision. */
  function PlanMessages(e: Enumeration, info: DeviceCreateInfo): seq<Message>
    requires info.ActiveMemberMatches()
  {
    if e.countResult != Success || |e.devices| == 0 then [Message(e.countResult, Error, EnumerationFailed, CreateDeviceFn)]
    else if e.listResult != Success then [Message(e.listResult, Error, EnumerationFailed, CreateDeviceFn)]
    else if info.physicalDevice != NullHandle then []
    else
      var q := info.selection.physicalDeviceQuery;
      var n := Examined(e.devices, q, CreateMode);
      ScanMessages(e.devices, q, CreateMode, n) +
      if ScanStopOf(e.devices, q).Exhausted? && !SatisfiedAfter(e.devices, q, n) then
        [Message(ErrorInitializationFailed, Error, NoSuitableDevice, CreateDeviceFn)]
      else []
  }

  /** Enumeration, the manual-or-query branch and the device loop of create_device. */
  method PlanCreation(e: Enumeration, info: DeviceCreateInfo, callback: ErrorCallback) returns (plan: Plan, log: seq<Message>)
    requires info.ActiveMemberMatches()
    ensures plan == CreationPlan(e, info)
    ensures log == Deliver(callback, PlanMessages(e, info))
  {
    if e.countResult != Success || |e.devices| == 0 {
      log := Report(callback, Message(e.countResult, Error, EnumerationFailed, CreateDeviceFn));
      return Abort(e.countResult), log;
    }
    if e.listResult != Success {
      log := Report(callback, Message(e.listResult, Error, EnumerationFailed, CreateDeviceFn));
      return Abort(e.listResult), log;
    }
    if info.physicalDevice != NullHandle {
      return Proceed(info.physicalDevice, [], None), [];
    }
    var q := info.selection.physicalDeviceQuery;
    var stop, state := ScanDevices(e.devices, q, callback);
    log := state.log;
    match stop
    case AbortedAt(_) =>
      plan := Abort(ErrorInitializationFailed);
    case FoundAt(k) =>
      plan := Proceed(Live(e.devices[k].handle), state.infos, state.features);
    case Exhausted =>
      if !state.satisfied {
        DeliverConcat(callback, log, [Message(ErrorInitializationFailed, Error, NoSuitableDevice, CreateDeviceFn)]);
        log := log + Report(callback, Message(ErrorInitializationFailed, Error, NoSuitableDevice, CreateDeviceFn));
        plan := Abort(ErrorInitializationFailed);
      } else {
        plan := Proceed(NullHandle, state.infos, state.features);
      }
  }

  /** The create infos that the devices among the first n rejected at the
      queue check left behind: the partial lists their assignment loops
      pushed before a requirement went unmatched. */
  function QueueRejectedInfos(devices: seq<PhysicalDevice>, q: PhysicalDeviceQuery, n: nat): seq<QueueCreateInfo>
    requires n <= |devices|
  {
    if n == 0 then []
    else
      QueueRejectedInfos(devices, q, n - 1) +
      if DeviceVerdict(devices[n - 1], q, CreateMode) == Rejected(QueueCheck) then DeviceQueueInfos(devices[n - 1], q, CreateMode)
      else []
  }

  /** A device rejected at the queue check leaves one create info per
      requirement matched before the unmatched one. */
  lemma QueueRejectedPartial(d: PhysicalDevice, q: PhysicalDeviceQuery)
    requires DeviceVerdict(d, q, CreateMode) == Rejected(QueueCheck)
    ensures var a := Assign(d, q.requiredQueues, CreateMode);
      a.stop.Unmatched? && |a.chosen| == a.stop.index < |q.requiredQueues| &&
      DeviceQueueInfos(d, q, CreateMode) == QueueCreateInfos(q.requiredQueues, a.chosen)
  {
    AssignmentReachedIff(d, q, CreateMode);
    AssignMeaning(d, q.requiredQueues, CreateMode);
  }

  /** While every device is rejected, only those rejected at the queue check
      add to the accumulated create infos. */
  lemma {:induction false} RejectedPrefixInfos(devices: seq<PhysicalDevice>, q: PhysicalDeviceQuery, n: nat)
    requires n <= |devices|
    requires forall j | 0 <= j < n :: DeviceVerdict(devices[j], q, CreateMode).Rejected?
    ensures ScanInfos(devices, q, n) == QueueRejectedInfos(devices, q, n)
  {
    if n > 0 {
      RejectedPrefixInfos(devices, q, n - 1);
      AssignmentReachedIff(devices[n - 1], q, CreateMode);
    }
  }

  /** vk_device_queue_create_infos is not cleared between candidates: when
      the walk finds device k, the infos passed on are the partial lists of
      the earlier devices rejected at the queue check, followed by one info
      per requirement for device k. request_index therefore counts
      positions in this list and not requirements. */
  lemma StaleCreateInfosKept(devices: seq<PhysicalDevice>, q: PhysicalDeviceQuery, k: nat)
    requires ScanStopOf(devices, q) == FoundAt(k)
    ensures k < |devices| && Examined(devices, q, CreateMode) == k + 1
    ensures ScanInfos(devices, q, Examined(devices, q, CreateMode)) ==
      QueueRejectedInfos(devices, q, k) + DeviceQueueInfos(devices[k], q, CreateMode)
    ensures Assign(devices[k], q.requiredQueues, CreateMode).stop.AllMatched? &&
      |Assign(devices[k], q.requiredQueues, CreateMode).chosen| == |q.requiredQueues| &&
      DeviceQueueInfos(devices[k], q, CreateMode) ==
        QueueCreateInfos(q.requiredQueues, Assign(devices[k], q.requiredQueues, CreateMode).chosen)
  {
    assert FirstDecisive(devices, q, CreateMode, 0) == Some(k);
    assert DeviceVerdict(devices[k], q, CreateMode) == Accepted;
    RejectedPrefixInfos(devices, q, k);
    AssignmentReachedIff(devices[k], q, CreateMode);
    AssignMeaning(devices[k], q.requiredQueues, CreateMode);
  }

  /** A walk that ends on a device rejected by a check that leaves the
      satisfied flag set goes on to vkCreateDevice with a null physical
      device. */
  lemma NullDeviceProceeds(e: Enumeration, info: DeviceCreateInfo)
    requires info.ActiveMemberMatches() && info.physicalDevice == NullHandle
    requires !EnumerationFails(e)
    requires ScanStopOf(e.devices, info.selection.physicalDeviceQuery) == Exhausted
    requires var v := DeviceVerdict(e.devices[|e.devices| - 1], info.selection.physicalDeviceQuery, CreateMode);
      v.Rejected? && !ClearsSatisfied(v.check)
    ensures CreationPlan(e, info).Proceed? && CreationPlan(e, info).physicalDevice == NullHandle
  {
    var q := info.selection.physicalDeviceQuery;
    assert Examined(e.devices, q, CreateMode) == |e.devices|;
  }

  /** A priority-count mismatch on the first device that reaches it, after
      the earlier devices were all rejected, ends create_device with
      VK_ERROR_INITIALIZATION_FAILED before vkCreateDevice. */
  lemma PriorityMismatchAborts(e: Enumeration, info: DeviceCreateInfo, k: nat)
    requires info.ActiveMemberMatches() && info.physicalDevice == NullHandle && !EnumerationFails(e)
    requires k < |e.devices|
    requires forall j | 0 <= j < k :: DeviceVerdict(e.devices[j], info.selection.physicalDeviceQuery, CreateMode).Rejected?
    requires FirstFailedCheck(e.devices[k], info.selection.physicalDeviceQuery).None?
    requires Assign(e.devices[k], info.selection.physicalDeviceQuery.requiredQueues, CreateMode).stop.PriorityMismatch?
    ensures CreationPlan(e, info) == Abort(ErrorInitializationFailed)
  {
    var q := info.selection.physicalDeviceQuery;
    assert DeviceVerdict(e.devices[k], q, CreateMode) == Aborted;
    assert FirstDecisive(e.devices, q, CreateMode, 0) == Some(k);
  }

  /** The device chosen by the query, once found, is the first in
      enumeration order that passes every check, and its own features are
      the ones enabled. */
  lemma FoundDeviceIsFirstAccepted(e: Enumeration, info: DeviceCreateInfo)
    requires info.ActiveMemberMatches() && info.physicalDevice == NullHandle && !EnumerationFails(e)
    requires ScanStopOf(e.devices, info.selection.physicalDeviceQuery).FoundAt?
    ensures var q := info.selection.physicalDeviceQuery;
      var k := ScanStopOf(e.devices, q).index;
      k < |e.devices| &&
      CreationPlan(e, info) == Proceed(Live(e.devices[k].handle), ScanInfos(e.devices, q, k + 1), Some(e.devices[k].features)) &&
      DeviceVerdict(e.devices[k], q, CreateMode) == Accepted &&
      forall j | 0 <= j < k :: DeviceVerdict(e.devices[j], q, CreateMode) == Rejected(DeviceVerdict(e.devices[j], q, CreateMode).check)
  {
  }

  // ---------------------------------------------------------------------
  // Queue counting and the return array
  // ---------------------------------------------------------------------

  /** The sum of queueCount over the first n create infos. */
  function TotalUpTo(infos: seq<QueueCreateInfo>, n: nat): nat
    requires n <= |infos|
  {
    if n == 0 then 0 else TotalUpTo(infos, n - 1) + infos[n - 1].queueCount
  }

  function TotalQueues(infos: seq<QueueCreateInfo>): nat
  {
    TotalUpTo(infos, |infos|)
  }

  lemma {:induction false} TotalMonotone(infos: seq<QueueCreateInfo>, m: nat, n: nat)
    requires m <= n <= |infos|
    ensures TotalUpTo(infos, m) <= TotalUpTo(infos, n)
    decreases n - m
  {
    if m < n {
      TotalMonotone(infos, m, n - 1);
    }
  }

  /** queue_count: the uint32 sum, which wraps. */
  method SumQueueCounts(infos: seq<QueueCreateInfo>) returns (queueCount: Uint32)
    ensures queueCount == TotalQueues(infos) % U32Modulus
  {
    queueCount := 0;
    var i := 0;
    while i < |infos|
      invariant 0 <= i <= |infos|
      invariant queueCount == TotalUpTo(infos, i) % U32Modulus
    {
      WrapAdd(TotalUpTo(infos, i), infos[i].queueCount);
      queueCount := (queueCount + infos[i].queueCount) % U32Modulus;
      i := i + 1;
    }
  }

  /** Euclidean division by 2^32 is unique. */
  lemma ModUnique(x: int, k: int, r: int)
    requires 0 <= r < U32Modulus && x == k * U32Modulus + r
    ensures x % U32Modulus == r && x / U32Modulus == k
  {
  }

  /** Reducing the running sum before each addition does not change the
      wrapped total. */
  lemma WrapAdd(a: nat, c: nat)
    ensures (a % U32Modulus + c) % U32Modulus == (a + c) % U32Modulus
  {
    var m := U32Modulus;
    var r := (a % m + c) % m;
    var k := (a % m + c) / m;
    assert a % m + c == k * m + r;
    assert a == (a / m) * m + a % m;
    assert a + c == (a / m + k) * m + r;
    ModUnique(a + c, a / m + k, r);
  }

  /** The queues of create info i, in slot order. */
  function QueuesOf(infos: seq<QueueCreateInfo>, queueOf: (nat, nat) -> Handle, i: nat): (r: seq<DeviceQueueReturn>)
    requires i < |infos|
    ensures |r| == infos[i].queueCount
    ensures forall j | 0 <= j < |r| ::
      r[j] == DeviceQueueReturn(queueOf(infos[i].queueFamilyIndex, j), infos[i].queueFamilyIndex, i, j)
  {
    seq(infos[i].queueCount, j requires 0 <= j < infos[i].queueCount =>
      DeviceQueueReturn(queueOf(infos[i].queueFamilyIndex, j), infos[i].queueFamilyIndex, i, j))
  }

  /** The queues of the first n create infos, request by request. */
  function FlattenUpTo(infos: seq<QueueCreateInfo>, queueOf: (nat, nat) -> Handle, n: nat): (r: seq<DeviceQueueReturn>)
    requires n <= |infos|
    ensures |r| == TotalUpTo(infos, n)
  {
    if n == 0 then [] else FlattenUpTo(infos, queueOf, n - 1) + QueuesOf(infos, queueOf, n - 1)
  }

  function Flatten(infos: seq<QueueCreateInfo>, queueOf: (nat, nat) -> Handle): (r: seq<DeviceQueueReturn>)
    ensures |r| == TotalQueues(infos)
  {
    FlattenUpTo(infos, queueOf, |infos|)
  }

  /** Slot j of request i lands at the sum of the earlier requests' counts
      plus j, with request_index i and queue_index j. */
  lemma {:induction false} FlattenAt(infos: seq<QueueCreateInfo>, queueOf: (nat, nat) -> Handle, n: nat, i: nat, j: nat)
    requires i < n <= |infos| && j < infos[i].queueCount
    ensures TotalUpTo(infos, i) + j < TotalUpTo(infos, n)
    ensures FlattenUpTo(infos, queueOf, n)[TotalUpTo(infos, i) + j] ==
      DeviceQueueReturn(queueOf(infos[i].queueFamilyIndex, j), infos[i].queueFamilyIndex, i, j)
    decreases n
  {
    if i == n - 1 {
      assert FlattenUpTo(infos, queueOf, n) == FlattenUpTo(infos, queueOf, n - 1) + QueuesOf(infos, queueOf, n - 1);
    } else {
      FlattenAt(infos, queueOf, n - 1, i, j);
      assert FlattenUpTo(infos, queueOf, n) == FlattenUpTo(infos, queueOf, n - 1) + QueuesOf(infos, queueOf, n - 1);
    }
  }

  /** Earlier requests come first: every slot of request i precedes every
      slot of a later request. */
  lemma FlattenOrdered(infos: seq<QueueCreateInfo>, i: nat, j: nat, i2: nat, j2: nat)
    requires i < i2 < |infos| && j < infos[i].queueCount && j2 < infos[i2].queueCount
    ensures TotalUpTo(infos, i) + j < TotalUpTo(infos, i2) + j2
  {
    TotalMonotone(infos, i + 1, i2);
  }

  /** The inner loop of the return-array fill: the queues of request i,
      written from position start through the bounds-checked operator[].
      Without wrap-around, it fails exactly when a slot it writes is past
      the end. Either way the slots written are the in-range ones. */
  method FillRequest(infos: seq<QueueCreateInfo>, queueOf: (nat, nat) -> Handle, i: nat, start: Uint32,
                     queueReturns: ArrayReference<DeviceQueueReturn>) returns (ok: bool, next: Uint32)
    requires i < |infos|
    modifies queueReturns.vector
    ensures |queueReturns.vector.elements| == |old(queueReturns.vector.elements)|
    ensures start + infos[i].queueCount < U32Modulus ==>
      (ok <==> infos[i].queueCount == 0 || start + infos[i].queueCount <= |old(queueReturns.vector.elements)|)
    ensures start + infos[i].queueCount < U32Modulus && ok ==> next == start + infos[i].queueCount
    ensures start + infos[i].queueCount < U32Modulus ==>
      forall t | 0 <= t < |queueReturns.vector.elements| ::
        queueReturns.vector.elements[t] ==
          if start <= t < start + infos[i].queueCount then QueuesOf(infos, queueOf, i)[t - start]
          else old(queueReturns.vector.elements)[t]
  {
    ghost var original := queueReturns.vector.elements;
    ghost var small := start + infos[i].queueCount < U32Modulus;
    var familyIndex := infos[i].queueFamilyIndex;
    next := start;
    var j := 0;
    while j < infos[i].queueCount
      invariant 0 <= j <= infos[i].queueCount
      invariant |queueReturns.vector.elements| == |original|
      invariant small ==> next == start + j && (j == 0 || start + j <= |original|)
      invariant small ==> forall t | 0 <= t < |original| ::
        queueReturns.vector.elements[t] ==
          if start <= t < start + j then QueuesOf(infos, queueOf, i)[t - start] else original[t]
    {
      var written := queueReturns.Set(next, DeviceQueueReturn(queueOf(familyIndex, j), familyIndex, i, j));
      if !written {
        return false, next;
      }
      next := (next + 1) % U32Modulus;
      j := j + 1;
    }
    ok := true;
  }

  /** The loop that writes the created queues into the return array, with a
      uint32 running index. Without wrap-around it fails exactly when the
      array is shorter than the total, and every in-range slot below the
      total then holds its flattened queue. */
  method FillQueueReturns(infos: seq<QueueCreateInfo>, queueOf: (nat, nat) -> Handle,
                          queueReturns: ArrayReference<DeviceQueueReturn>) returns (ok: bool)
    modifies queueReturns.vector
    ensures |queueReturns.vector.elements| == |old(queueReturns.vector.elements)|
    ensures TotalQueues(infos) < U32Modulus ==> (ok <==> TotalQueues(infos) <= |old(queueReturns.vector.elements)|)
    ensures TotalQueues(infos) < U32Modulus ==>
      forall t | 0 <= t < |queueReturns.vector.elements| ::
        queueReturns.vector.elements[t] ==
          if t < TotalQueues(infos) then Flatten(infos, queueOf)[t] else old(queueReturns.vector.elements)[t]
    ensures TotalQueues(infos) <= |old(queueReturns.vector.elements)| && TotalQueues(infos) < U32Modulus ==>
      queueReturns.vector.elements ==
        Flatten(infos, queueOf) + old(queueReturns.vector.elements)[TotalQueues(infos)..]
  {
    ghost var original := queueReturns.vector.elements;
    ghost var small := TotalQueues(infos) < U32Modulus;
    var queueIndex: Uint32 := 0;
    var i := 0;
    while i < |infos|
      invariant 0 <= i <= |infos|
      invariant |queueReturns.vector.elements| == |original|
      invariant small ==> queueIndex == TotalUpTo(infos, i) && TotalUpTo(infos, i) <= |original|
      invariant TotalUpTo(infos, i) <= TotalQueues(infos)
      invariant small ==> forall t | 0 <= t < |original| ::
        queueReturns.vector.elements[t] ==
          if t < TotalUpTo(infos, i) then Flatten(infos, queueOf)[t] else original[t]
    {
      TotalMonotone(infos, i + 1, |infos|);
      ghost var before := queueReturns.vector.elements;
      var filled;
      filled, queueIndex := FillRequest(infos, queueOf, i, queueIndex, queueReturns);
      if small {
        FillStep(infos, queueOf, i, original, before, queueReturns.vector.elements);
      }
      if !filled {
        return false;
      }
      i := i + 1;
    }
    if small {
      assert queueReturns.vector.elements == Flatten(infos, queueOf) + original[TotalQueues(infos)..];
    }
    ok := true;
  }

  /** Request n's slots of Flatten are its own queues, in slot order. */
  lemma {:induction false} FlattenPrefix(infos: seq<QueueCreateInfo>, queueOf: (nat, nat) -> Handle, n: nat, t: nat)
    requires n <= |infos| && t < TotalUpTo(infos, n)
    ensures TotalUpTo(infos, n) <= TotalQueues(infos)
    ensures FlattenUpTo(infos, queueOf, n)[t] == Flatten(infos, queueOf)[t]
    decreases |infos| - n
  {
    if n < |infos| {
      assert FlattenUpTo(infos, queueOf, n + 1) == FlattenUpTo(infos, queueOf, n) + QueuesOf(infos, queueOf, n);
      FlattenPrefix(infos, queueOf, n + 1, t);
    }
  }

  /** One turn of the fill: after request i, the in-range slots below the
      next running total hold Flatten, and the rest is untouched. */
  lemma FillStep(infos: seq<QueueCreateInfo>, queueOf: (nat, nat) -> Handle, i: nat,
                 original: seq<DeviceQueueReturn>, before: seq<DeviceQueueReturn>, after: seq<DeviceQueueReturn>)
    requires i < |infos| && TotalUpTo(infos, i + 1) <= TotalQueues(infos) < U32Modulus
    requires |before| == |original| == |after|
    requires forall t | 0 <= t < |original| ::
      before[t] == if t < TotalUpTo(infos, i) then Flatten(infos, queueOf)[t] else original[t]
    requires forall t | 0 <= t < |after| ::
      after[t] == if TotalUpTo(infos, i) <= t < TotalUpTo(infos, i) + infos[i].queueCount
        then QueuesOf(infos, queueOf, i)[t - TotalUpTo(infos, i)] else before[t]
    ensures forall t | 0 <= t < |original| ::
      after[t] == if t < TotalUpTo(infos, i + 1) then Flatten(infos, queueOf)[t] else original[t]
  {
    forall t | 0 <= t < |original| && TotalUpTo(infos, i) <= t < TotalUpTo(infos, i + 1)
      ensures after[t] == Flatten(infos, queueOf)[t]
    {
      assert FlattenUpTo(infos, queueOf, i + 1) == FlattenUpTo(infos, queueOf, i) + QueuesOf(infos, queueOf, i);
      FlattenPrefix(infos, queueOf, i + 1, t);
    }
  }

  // ---------------------------------------------------------------------
  // Device extension presets
  // ---------------------------------------------------------------------

  const PortabilitySubsetExtension := "VK_KHR_portability_subset"
  const SwapchainExtension := "VK_KHR_swapchain"
  const PageableDeviceLocalMemoryExtension := "VK_EXT_pageable_device_local_memory"
  const MemoryPriorityExtension := "VK_EXT_memory_priority"
  const DynamicRenderingExtension := "VK_KHR_dynamic_rendering"

  /** portability_subset is requested explicitly, or recommended on Apple builds. */
  predicate WantsPortabilitySubset(p: DevicePresets, platform: Platform)
  {
    p.enablePortabilitySubset || (p.recommended && platform.apple)
  }

  /** The extensions the presets append after the caller's, in order. */
  function DevicePresetExtensions(p: DevicePresets, platform: Platform): seq<string>
  {
    (if WantsPortabilitySubset(p, platform) then [PortabilitySubsetExtension] else []) +
    (if p.recommended || p.enableSwapchain then [SwapchainExtension] else []) +
    (if p.recommended then [PageableDeviceLocalMemoryExtension, MemoryPriorityExtension] else []) +
    (if p.enableDynamicRendering then [DynamicRenderingExtension] else [])
  }

  /** enabled_extensions: a copy of the caller's list, extended by push_back. */
  method ExpandDeviceExtensions(info: DeviceCreateInfo, platform: Platform) returns (extensions: seq<string>)
    ensures extensions == info.extensions + DevicePresetExtensions(info.presets, platform)
  {
    var p := info.presets;
    extensions := info.extensions;
    if p.enablePortabilitySubset {
      extensions := extensions + [PortabilitySubsetExtension];
    } else if p.recommended {
      if platform.apple {
        extensions := extensions + [PortabilitySubsetExtension];
      }
    }
    if p.recommended || p.enableSwapchain {
      extensions := extensions + [SwapchainExtension];
    }
    if p.recommended {
      extensions := extensions + [PageableDeviceLocalMemoryExtension];
    }
    if p.recommended {
      extensions := extensions + [MemoryPriorityExtension];
    }
    if p.enableDynamicRendering {
      extensions := extensions + [DynamicRenderingExtension];
    }
  }

  /** Each preset extension is present exactly when its presets ask for it. */
  lemma DevicePresetsIff(p: DevicePresets, platform: Platform)
    ensures PortabilitySubsetExtension in DevicePresetExtensions(p, platform) <==> WantsPortabilitySubset(p, platform)
    ensures SwapchainExtension in DevicePresetExtensions(p, platform) <==> p.recommended || p.enableSwapchain
    ensures PageableDeviceLocalMemoryExtension in DevicePresetExtensions(p, platform) <==> p.recommended
    ensures MemoryPriorityExtension in DevicePresetExtensions(p, platform) <==> p.recommended
    ensures DynamicRenderingExtension in DevicePresetExtensions(p, platform) <==> p.enableDynamicRendering
  {
    assert |PortabilitySubsetExtension| == 25 && |SwapchainExtension| == 16;
    assert |PageableDeviceLocalMemoryExtension| == 35 && |MemoryPriorityExtension| == 22;
    assert |DynamicRenderingExtension| == 24;
  }

  // ---------------------------------------------------------------------
  // create_device
  // ---------------------------------------------------------------------

  /** What vkCreateDevice and vkGetDeviceQueue do: the result, the device
      handle written, and the queue handle for each (family, slot). */
  datatype DeviceDriver = DeviceDriver(result: VkResult, device: Handle, queueOf: (nat, nat) -> Handle)

  /** How create_device ends: it returns a result, or operator[] on the
      return array throws std::out_of_range. */
  datatype CallOutcome = Returned(result: VkResult) | ThrewOutOfRange

  /** The VkDeviceCreateInfo create_device passes to vkCreateDevice once the
      plan is to proceed. */
  function DeviceRequest(info: DeviceCreateInfo, platform: Platform, physicalDevice: Handle,
                         infos: seq<QueueCreateInfo>, features: Option<Features>): DeviceCreateRequest
    requires info.ActiveMemberMatches()
  {
    DeviceCreateRequest(
      physicalDevice, info.flags,
      if info.physicalDevice != NullHandle then info.selection.manualSelection.queueCreateInfos else infos,
      info.extensions + DevicePresetExtensions(info.presets, platform),
      features)
  }

  /** The return array after create_device's size check: grown to n, with
      value-initialised slots after the old ones, when it is shorter than n,
      and unchanged otherwise. */
  function GrownReturns(elements: seq<DeviceQueueReturn>, n: nat, zero: DeviceQueueReturn): (r: seq<DeviceQueueReturn>)
    ensures |r| == if |elements| < n then n else |elements|
    ensures forall t | 0 <= t < |r| :: r[t] == if t < |elements| then elements[t] else zero
  {
    if |elements| < n then elements + seq(n - |elements|, _ => zero) else elements
  }

  /** create_device. callerDevice is what vk_device held before the call;
      allocationSucceeds says whether growing the return array succeeds. */
  method CreateDevice(e: Enumeration, info: DeviceCreateInfo, platform: Platform, callback: ErrorCallback,
                      allocationSucceeds: bool, driver: DeviceDriver, callerDevice: Handle,
                      queueReturns: ArrayReference<DeviceQueueReturn>)
    returns (outcome: CallOutcome, physicalDevice: Handle, device: Handle,
             request: Option<DeviceCreateRequest>, log: seq<Message>)
    requires info.ActiveMemberMatches()
    modifies queueReturns.vector
    ensures var plan := CreationPlan(e, info);
      physicalDevice == (if plan.Proceed? then plan.physicalDevice else info.physicalDevice)
    ensures var plan := CreationPlan(e, info);
      plan.Abort? ==>
        outcome == Returned(plan.result) && request == None && device == callerDevice &&
        log == Deliver(callback, PlanMessages(e, info)) &&
        queueReturns.vector.elements == old(queueReturns.vector.elements)
    ensures var plan := CreationPlan(e, info);
      plan.Proceed? && |old(queueReturns.vector.elements)| < TotalQueues(plan.infos) % U32Modulus && !allocationSucceeds ==>
        outcome == Returned(ErrorInitializationFailed) && request == None && device == callerDevice &&
        log == Deliver(callback, PlanMessages(e, info)) +
               Report(callback, Message(ErrorInitializationFailed, Error, QueueReturnResizeFailed(|plan.infos|), CreateDeviceFn)) &&
        queueReturns.vector.elements == old(queueReturns.vector.elements)
    ensures var plan := CreationPlan(e, info);
      plan.Proceed? && !(|old(queueReturns.vector.elements)| < TotalQueues(plan.infos) % U32Modulus && !allocationSucceeds) ==>
        request == Some(DeviceRequest(info, platform, plan.physicalDevice, plan.infos, plan.features)) &&
        device == driver.device &&
        (driver.result != Success ==>
          outcome == Returned(driver.result) &&
          log == Deliver(callback, PlanMessages(e, info)) +
                 Report(callback, Message(driver.result, Error, DeviceCreationFailed, CreateDeviceFn)) &&
          queueReturns.vector.elements ==
            GrownReturns(old(queueReturns.vector.elements), TotalQueues(plan.infos) % U32Modulus, queueReturns.zero)) &&
        (driver.result == Success && TotalQueues(plan.infos) < U32Modulus ==>
          outcome == Returned(Success) && log == Deliver(callback, PlanMessages(e, info)) &&
          |queueReturns.vector.elements| ==
            (if |old(queueReturns.vector.elements)| < TotalQueues(plan.infos) then TotalQueues(plan.infos)
             else |old(queueReturns.vector.elements)|) &&
          queueReturns.vector.elements == Flatten(plan.infos, driver.queueOf) +
            (if |old(queueReturns.vector.elements)| < TotalQueues(plan.infos) then []
             else old(queueReturns.vector.elements)[TotalQueues(plan.infos)..]))
  {
    physicalDevice := info.physicalDevice;
    device := callerDevice;
    request := None;
    var plan;
    plan, log := PlanCreation(e, info, callback);
    if plan.Abort? {
      return Returned(plan.result), physicalDevice, device, request, log;
    }
    physicalDevice := plan.physicalDevice;
    outcome, device, request, log :=
      CreateOnDevice(info, platform, callback, allocationSucceeds, driver, callerDevice, queueReturns,
                     plan.physicalDevice, plan.infos, plan.features, log);
  }

  /** The rest of create_device once a physical device is settled: size the
      return array, build the device create info, call vkCreateDevice and
      fill the return array. The reports made so far are in logSoFar. */
  method CreateOnDevice(info: DeviceCreateInfo, platform: Platform, callback: ErrorCallback,
                        allocationSucceeds: bool, driver: DeviceDriver, callerDevice: Handle,
                        queueReturns: ArrayReference<DeviceQueueReturn>,
                        physicalDevice: Handle, infos: seq<QueueCreateInfo>, features: Option<Features>,
                        logSoFar: seq<Message>)
    returns (outcome: CallOutcome, device: Handle, request: Option<DeviceCreateRequest>, log: seq<Message>)
    requires info.ActiveMemberMatches()
    modifies queueReturns.vector
    ensures |old(queueReturns.vector.elements)| < TotalQueues(infos) % U32Modulus && !allocationSucceeds ==>
      outcome == Returned(ErrorInitializationFailed) && request == None && device == callerDevice &&
      log == logSoFar +
             Report(callback, Message(ErrorInitializationFailed, Error, QueueReturnResizeFailed(|infos|), CreateDeviceFn)) &&
      queueReturns.vector.elements == old(queueReturns.vector.elements)
    ensures !(|old(queueReturns.vector.elements)| < TotalQueues(infos) % U32Modulus && !allocationSucceeds) ==>
      request == Some(DeviceRequest(info, platform, physicalDevice, infos, features)) &&
      device == driver.device &&
      (driver.result != Success ==>
        outcome == Returned(driver.result) &&
        log == logSoFar + Report(callback, Message(driver.result, Error, DeviceCreationFailed, CreateDeviceFn)) &&
        queueReturns.vector.elements ==
          GrownReturns(old(queueReturns.vector.elements), TotalQueues(infos) % U32Modulus, queueReturns.zero)) &&
      (driver.result == Success && TotalQueues(infos) < U32Modulus ==>
        outcome == Returned(Success) && log == logSoFar &&
        |queueReturns.vector.elements| ==
          (if |old(queueReturns.vector.elements)| < TotalQueues(infos) then TotalQueues(infos)
           else |old(queueReturns.vector.elements)|) &&
        queueReturns.vector.elements == Flatten(infos, driver.queueOf) +
          (if |old(queueReturns.vector.elements)| < TotalQueues(infos) then []
           else old(queueReturns.vector.elements)[TotalQueues(infos)..]))
  {
    device := callerDevice;
    request := None;
    log := logSoFar;
    ghost var original := queueReturns.vector.elements;
    var queueCount := SumQueueCounts(infos);
    if queueReturns.Size() < queueCount {
      var resized := queueReturns.Resize(queueCount, allocationSucceeds);
      if !resized {
        log := log + Report(callback, Message(ErrorInitializationFailed, Error, QueueReturnResizeFailed(|infos|), CreateDeviceFn));
        return Returned(ErrorInitializationFailed), device, request, log;
      }
    }
    assert queueReturns.vector.elements == GrownReturns(original, queueCount, queueReturns.zero);
    var extensions := ExpandDeviceExtensions(info, platform);
    var queueCreateInfos := if info.physicalDevice != NullHandle then info.selection.manualSelection.queueCreateInfos else infos;
    request := Some(DeviceCreateRequest(physicalDevice, info.flags, queueCreateInfos, extensions, features));
    device := driver.device;
    if driver.result != Success {
      log := log + Report(callback, Message(driver.result, Error, DeviceCreationFailed, CreateDeviceFn));
      return Returned(driver.result), device, request, log;
    }
    ghost var total := TotalQueues(infos);
    ghost var beforeFill := queueReturns.vector.elements;
    assert total < U32Modulus ==> total <= |beforeFill|;
    var filled := FillQueueReturns(infos, driver.queueOf, queueReturns);
    outcome := if filled then Returned(Success) else ThrewOutOfRange;
  }
}
