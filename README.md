# kvk physical-device matcher, in Dafny

kvk is a small C++ helper library for Vulkan. This project models three of
its operations and proves properties about them:

- `select_physical_device` walks the enumerated physical devices in order and
  returns the first one that passes every check of a `PhysicalDeviceQuery`.
- `create_device` runs the same walk, or takes a device named by the caller.
  It then builds the queue create infos and the extension list, calls
  `vkCreateDevice`, and writes the created queues into a caller-owned return
  array.
- `create_instance` expands its presets into layers, extensions and flags
  before it calls `vkCreateInstance`.

The device checks run in source order: name substring, excluded-type
bitmask, API version, boolean features, limits, extensions, format feature
masks, image-format bounds, memory type and heap counts, and greedy
queue-family assignment. The limits comparison `operator<` is a table of
(field, direction) pairs. `KVK_ERR` becomes a report that is delivered only
when a callback is installed.

Every Vulkan driver query is an input. An `Enumeration` holds the two results
of `vkEnumeratePhysicalDevices` and the device records. A `PhysicalDevice`
record holds the properties, features, extensions, memory counts and queue
families. Its format, image-format and surface-support queries are function
fields (oracles). `vkCreateInstance` and `vkCreateDevice` are `InstanceDriver`
and `DeviceDriver` values: a result, the handle written, and, for the device,
the handle `vkGetDeviceQueue` returns for each (family, slot). The platform
`#ifdef`s are a `Platform` value.

Modules:

- `Wrappers`: `Option`.
- `Vulkan`: the Vulkan types that are used.
- `Kvk` (include/kvk.h): the type flags, `ArrayReference` as a class over a
  `Vector` object, and the request and return structures.
- `KvkUtil` (src/kvk_util.inl): the limits table, the platform, and `KVK_ERR`.
- `Matching`: one pure specification per check, the greedy assignment, the
  verdict for one device, and the walk over devices.
- `Selection`: the imperative loops of `select_physical_device`, each proved
  equal to its specification.
- `DeviceCreation`: `create_device`.
- `InstanceCreation`: `create_instance`.

The imperative members follow the loops of the source: the feature walk, the
nested extension search, the two format loops, the assignment loop that
zeroes a family's count in an array copy, the device loops, the uint32
queue-count sum and the nested fill of the return array. Each of them is
proved against a function. The lemmas then state what the source promises
about those functions.

## Model

| member | source | states |
|---|---|---|
| Kvk.TypeFlag | include/kvk.h:105-111 | each `PhysicalDeviceTypeFlags` enumerator equals `1 << t` for its `VkPhysicalDeviceType` t |
| Kvk.TypeFlagNamesOneType | include/kvk.h:105-111 | the bit tested for type u is set in type t's enumerator iff t == u |
| Kvk.Union | include/kvk.h:113-115 | a type is in `a \| b` iff it is in a or in b |
| Kvk.UnionCommutative | include/kvk.h:113-115 | `a \| b == b \| a` |
| Kvk.UnionAssociative | include/kvk.h:113-115 | `(a \| b) \| c == a \| (b \| c)` |
| Kvk.HasType | src/kvk.cpp:154 | the excluded-type test: `flags & (1 << deviceType)` is nonzero; TypeFlagNamesOneType shows it picks out exactly the enumerator's own type |
| Kvk.DeviceCreateInfo.ActiveMemberMatches | include/kvk.h:172-183 | the union member create_device reads is the active one: the query when vk_physical_device is null, the manual selection otherwise |
| Kvk.ArrayReference.constructor | include/kvk.h:27-52 | the reference is bound to the caller's vector |
| Kvk.ArrayReference.Resize | include/kvk.h:29-36 | returns whether the allocation succeeds; on success the size is n, the old prefix is kept and new slots are value-initialised; on failure nothing changes |
| Kvk.ArrayReference.Size | include/kvk.h:38-40 | the length of the referenced vector |
| Kvk.ArrayReference.Get | include/kvk.h:42-70 | the element at i when i < size(), out_of_range otherwise; nothing changes |
| Kvk.ArrayReference.Set | include/kvk.h:42-70 | succeeds iff i < size(); then only element i changes; the size never changes |
| KvkUtil.Violated | src/kvk_util.inl:27-140 | one disjunct of `operator<`: `device < query` for a "device must be >=" field, `device > query` for a lower-bound field |
| KvkUtil.LimitsLess | src/kvk_util.inl:26-141 | `operator<` as the disjunction over the table of (field, direction) pairs, in source order; LessIff ties it to an independent per-field definition |
| KvkUtil.ExpectedDirection | src/kvk_util.inl:96-107 | the reference direction, independent of the table: "device must be <=" exactly for the four lower-bound fields |
| KvkUtil.Covered | src/kvk_util.inl:26-141 | every limits field appears in the comparison table |
| KvkUtil.DirectionOf | src/kvk_util.inl:26-141 | a field is compared with "device must be <=" exactly when it is one of the four lower-bound fields |
| KvkUtil.AlignmentFieldsAtLeast | src/kvk_util.inl:38-140 | the alignment and granularity fields are compared with "device must be >=" |
| KvkUtil.LessIff | src/kvk_util.inl:26-141 | `operator<` holds iff some field is below the query (or above it, for a lower-bound field) |
| KvkUtil.NotLessAt | src/kvk_util.inl:26-141 | violating any single field makes `operator<` true |
| KvkUtil.LessIrreflexive | src/kvk_util.inl:26-141 | a limits block never compares less than itself |
| KvkUtil.LessMonotone | src/kvk_util.inl:26-141 | relaxing query fields in their passing direction never turns a pass into a fail |
| KvkUtil.LessTransitive | src/kvk_util.inl:26-141 | if d passes q and q, taken as a device, passes q2, then d passes q2 |
| KvkUtil.Report | src/kvk_util.inl:24 | `KVK_ERR` delivers exactly its message when a callback is set, and nothing otherwise |
| Matching.Deliver | src/kvk_util.inl:24 | a sequence of reports is delivered whole when a callback is set, and not at all otherwise |
| Matching.DeliverConcat | src/kvk_util.inl:24 | delivering two report sequences in turn is delivering their concatenation |
| Matching.VerboseResult | src/kvk.cpp:158-160 | the result code of a rejection report: VK_SUCCESS in select_physical_device, VK_ERROR_INITIALIZATION_FAILED in create_device (src/kvk.cpp:376) |
| Matching.Contains | src/kvk.cpp:149 | `std::strstr` finds the substring: it occurs at some position of the name |
| Matching.NameAccepted | src/kvk.cpp:148-152 | the name check passes when no substring is set, or the name contains it |
| Matching.TypeExcluded | src/kvk.cpp:154-156 | the device's type bit is set in excluded_device_types |
| Matching.FeaturesSatisfied | src/kvk.cpp:166-186 | every feature requested true is true on the device; FirstMissingFeature finds none exactly then |
| Matching.FirstMissingFeature | src/kvk.cpp:166-182 | the first feature index at or after from that is requested but missing; none iff every requested feature is present |
| Matching.FindExtension | src/kvk.cpp:201-211 | the first available extension with exactly that name; none iff no name matches |
| Matching.ExtensionProvided | src/kvk.cpp:201-213 | the first extension with that exact name exists and has at least the requested spec version |
| Matching.ExtensionsSatisfied | src/kvk.cpp:199-223 | every required extension is provided |
| Matching.ProvidedUpTo | src/kvk.cpp:199-222 | the satisfied flag after the first n requirements, counted off one at a time; ProvidedUpToMeaning states what it means |
| Matching.ExtensionMessages | src/kvk.cpp:199-223 | the extension loop's reports: a stale extension is reported, clears the flag and the loop goes on; a missing one is reported, and ends the loop, only while the flag is still set; the lemmas below state when it is empty and what comes first |
| Matching.ExtensionMessagesEmptyIff | src/kvk.cpp:199-223 | the extension loop reports nothing iff every remaining requirement is present with a sufficient spec version |
| Matching.ExtensionFailureReported | src/kvk.cpp:199-223 | the first failing requirement is the first one reported, as stale or as missing |
| Matching.ExtensionMessagesSkip | src/kvk.cpp:199-223 | satisfied requirements add no reports |
| Matching.ProvidedUpToMeaning | src/kvk.cpp:199-223 | the running `satisfied` flag after n requirements holds iff each of the first n is present with a sufficient spec version |
| Matching.Superset | src/kvk.cpp:228-230 | `(have & want) == want` |
| Matching.FormatRequirementMet | src/kvk.cpp:226-230 | the linear, optimal and buffer feature masks of the format each contain the requested mask |
| Matching.FirstFormatFailure | src/kvk.cpp:225-235 | the first format requirement whose linear, optimal or buffer mask is not a superset; none iff all are |
| Matching.ImageBoundsMet | src/kvk.cpp:257-263 | every reported bound is at least the requested one, sampleCounts compared as a number |
| Matching.ImageRequirementMet | src/kvk.cpp:242-263 | the image-format query succeeds and its bounds are met |
| Matching.FirstImageFailure | src/kvk.cpp:241-268 | the first image requirement that the query rejects or whose bounds fall short; none iff all pass |
| Matching.Qualifies | src/kvk.cpp:304-308 | the family's count, flags superset and transfer granularity (compared with >=) meet the requirement |
| Matching.SurfaceAllows | src/kvk.cpp:295-302 | the surface-support oracle is asked only in select_physical_device and only for a non-null surface |
| Matching.Eligible | src/kvk.cpp:295-308 | a family may be taken when the surface test and Qualifies both pass |
| Matching.FirstFit | src/kvk.cpp:294-315 | the first family at or after from that is eligible for the requirement; none iff no family is |
| Matching.Consume | src/kvk.cpp:310 | the chosen family's queueCount becomes 0 and nothing else changes |
| Matching.AssignFrom | src/kvk.cpp:292-322 | the assignment loop from requirement |chosen| on: first fit, zero the family, go on; stops unmatched, or on a priority mismatch in create mode (src/kvk.cpp:517-521); AssignFromMeaning states its result |
| Matching.Assign | src/kvk.cpp:286-322 | the assignment over the device's own family list; AssignMeaning states its result |
| Matching.StateAfter | src/kvk.cpp:292-322 | the family list a requirement sees: every earlier chosen family with count 0 |
| Matching.StateAfterConsume | src/kvk.cpp:310 | zeroing one more family extends that state by one choice |
| Matching.GreedyInvariant | src/kvk.cpp:292-322 | the invariant of the assignment loop: each choice is the first eligible family in the state left by the earlier choices |
| Matching.AssignFromMeaning | src/kvk.cpp:292-322 | from any state meeting the greedy invariant, the assignment ends in that invariant, and its stop says why |
| Matching.GreedyStep | src/kvk.cpp:304-313 | choosing the first eligible family and zeroing it keeps the greedy invariant |
| Matching.AssignMeaning | src/kvk.cpp:292-322 | each requirement gets the first eligible family given earlier choices; an unmatched requirement has no eligible family; a priority mismatch only stops create mode |
| Matching.AssignExclusive | src/kvk.cpp:310 | when every requirement asks for at least one queue, no family is chosen twice |
| Matching.ZeroCountRequirementReusesFamily | src/kvk.cpp:304-310 | a requirement for 0 queues can take a family that an earlier one already zeroed |
| Matching.CreateAssignIgnoresSurface | src/kvk.cpp:506-545 | in create mode the assignment does not depend on the surface-support oracle |
| Matching.FirstFitIgnoresSurface | src/kvk.cpp:508-513 | in create mode the family search does not depend on the surface-support oracle |
| Matching.QueueCreateInfos | src/kvk.cpp:523-532 | one create info per chosen family, carrying the requirement's flags, count and priorities |
| Matching.ClearsSatisfied | src/kvk.cpp:390-542 | the rejections on which create_device sets satisfied to false: features, extensions, formats, image formats and queues |
| Matching.FilterFailure | src/kvk.cpp:148-161 | the first of the name, type and API-version checks to fail, in source order |
| Matching.EarlyFailure | src/kvk.cpp:148-191 | the first check to fail up to limits, in source order |
| Matching.LateFailure | src/kvk.cpp:193-284 | the first of the extension, format, image, memory-type and memory-heap checks to fail, in source order |
| Matching.FirstFailedCheck | src/kvk.cpp:148-284 | the first of checks 1 to 9 to fail |
| Matching.DeviceVerdict | src/kvk.cpp:145-328 | a device's outcome: rejected by the first failing check, else by the assignment's stop: accepted, rejected at the queue check, or aborted; AcceptedIff states it |
| Matching.DeviceQueueInfos | src/kvk.cpp:506-545 | the create infos a device pushes in create mode once it reaches assignment, and none otherwise |
| Matching.FetchesFeatures | src/kvk.cpp:380 | vkGetPhysicalDeviceFeatures runs once the name, type and API checks pass |
| Matching.FailureMessages | src/kvk.cpp:158-284 | the report each rejecting check makes: none for name and type, the feature index doubled, the extension loop's reports, and the image query's own result |
| Matching.QueueMessages | src/kvk.cpp:317-320 | the assignment's report: the unmatched requirement's index, or the priority mismatch at error severity (src/kvk.cpp:518-520) |
| Matching.DeviceMessages | src/kvk.cpp:145-328 | one device's reports: the failing check's, or the assignment's |
| Matching.AcceptedIff | src/kvk.cpp:145-328 | a device is accepted iff all ten checks pass |
| Matching.SelectNeverAborts | src/kvk.cpp:145-328 | select mode never aborts, because only create mode checks priorities |
| Matching.AssignmentReachedIff | src/kvk.cpp:145-328 | a device gets to queue assignment iff it is accepted, aborts, or is rejected at the queue check |
| Matching.Decisive | src/kvk.cpp:517-552 | the loop stops at a device that is accepted or aborts |
| Matching.FirstDecisive | src/kvk.cpp:145-331 | the first device at or after from that is accepted or aborts, and every earlier one is rejected |
| Matching.Examined | src/kvk.cpp:361-553 | how many devices the loop looks at |
| Matching.ScanMessages | src/kvk.cpp:145-331 | the reports of the first n devices, in order |
| Matching.ScanMessagesStep | src/kvk.cpp:145-331 | looking at one more device appends that device's reports |
| Matching.FirstDecisiveStep | src/kvk.cpp:145-331 | a rejected device does not stop the walk |
| Matching.WalkExhausted | src/kvk.cpp:145-331 | a walk that passes every device without stopping finds nothing and examines them all |
| Selection.CheckFeatures | src/kvk.cpp:166-186 | the feature loop finds FirstMissingFeature; it finds nothing iff every requested feature is present |
| Selection.CheckExtensions | src/kvk.cpp:199-223 | satisfied iff every requirement is present with a sufficient spec version; the reports are the specified ones |
| Selection.FindByName | src/kvk.cpp:201-211 | the inner name search finds FindExtension: the first extension with that exact name |
| Selection.ExamineExtension | src/kvk.cpp:200-222 | one requirement: the outer loop breaks only while `satisfied` still holds and this requirement fails; otherwise `satisfied` is cleared iff this one is absent or stale; the reports are the specified ones |
| Selection.CheckFormats | src/kvk.cpp:225-239 | the format loop finds FirstFormatFailure; nothing iff every requirement is met |
| Selection.CheckImageFormats | src/kvk.cpp:241-272 | the image-format loop finds FirstImageFailure; nothing iff every requirement is met |
| Selection.FindFamily | src/kvk.cpp:294-315 | the family loop for one requirement finds FirstFit over the current copy of the family list |
| Selection.AssignQueues | src/kvk.cpp:286-326 | the in-place loop over a copy of the family list computes Assign; in create mode it pushes QueueCreateInfos |
| Selection.FilterChecks | src/kvk.cpp:146-161 | the name, type and API-version checks fail exactly as FilterFailure says, with their reports |
| Selection.EarlyChecks | src/kvk.cpp:146-191 | the checks up to limits fail exactly as EarlyFailure says, with their reports |
| Selection.LateChecks | src/kvk.cpp:193-284 | the extension, format, image and memory checks fail exactly as LateFailure says, with their reports |
| Selection.ResourceChecks | src/kvk.cpp:225-284 | once the extensions pass, the format, image and memory checks fail exactly as LateFailure says, with their reports |
| Selection.EvaluateDevice | src/kvk.cpp:145-328 | one device's verdict, queue create infos and reports are DeviceVerdict, DeviceQueueInfos and DeviceMessages |
| Selection.AssignmentCheck | src/kvk.cpp:286-328 | for a device that passes every earlier check, assignment gives DeviceVerdict, DeviceQueueInfos and DeviceMessages |
| Selection.EnumerationFails | src/kvk.cpp:132-143 | either enumeration call fails, or the count is 0 |
| Selection.SelectedDevice | src/kvk.cpp:129-332 | the null handle on enumeration failure, else the first decisive device, else null; SelectedIsFirstAccepted states it |
| Selection.SelectionMessages | src/kvk.cpp:129-332 | the enumeration error report, or the reports of every device examined |
| Selection.SelectPhysicalDevice | src/kvk.cpp:129-332 | the handle returned is SelectedDevice and the reports are SelectionMessages |
| Selection.WalkForSelection | src/kvk.cpp:145-331 | the device loop stops at FirstDecisive and delivers the reports of every device it examined |
| Selection.ExamineForSelection | src/kvk.cpp:145-329 | one turn of the loop stops exactly at an accepted device and appends that device's reports |
| Selection.SelectedIsFirstAccepted | src/kvk.cpp:129-332 | a device is returned iff enumeration succeeds and some device is accepted; it is then the first accepted device |
| Selection.SelectedPassesFilters | src/kvk.cpp:148-161 | an accepted device has the name substring, is not of an excluded type, and meets the API version |
| InstanceCreation.PlatformSurfaceExtension | src/kvk.cpp:93-102 | the win32, metal or xlib surface extension by platform |
| InstanceCreation.PresetLayers | src/kvk.cpp:61-63 | the validation layer when enable_validation_layers |
| InstanceCreation.PresetExtensions | src/kvk.cpp:65-102 | the debug extensions, then the presentation extensions |
| InstanceCreation.DebugExtensions | src/kvk.cpp:65-81 | debug_utils for enable_debug_utils or a messenger, then debug_report for a report callback |
| InstanceCreation.PresentationExtensions | src/kvk.cpp:84-102 | portability enumeration, the surface extension, the platform surface extension, each under its presets |
| InstanceCreation.PresetFlags | src/kvk.cpp:84-87 | the caller's flags, with the portability bit or-ed in under its presets |
| InstanceCreation.EnumeratesPortability | src/kvk.cpp:84 | recommended or create_enumerate_portability_instance |
| InstanceCreation.ExpandFlags | src/kvk.cpp:55-87 | the flags are the caller's, plus the portability bit when the presets ask for it |
| InstanceCreation.ExpandLayers | src/kvk.cpp:57-63 | the layers are the caller's followed by the preset layers |
| InstanceCreation.ExpandExtensions | src/kvk.cpp:58-102 | the extensions are the caller's followed by the preset extensions |
| InstanceCreation.AppendDebugExtensions | src/kvk.cpp:65-81 | appends debug_utils for enable_debug_utils, again only when no earlier push happened for the messenger, and debug_report |
| InstanceCreation.AppendPresentationExtensions | src/kvk.cpp:84-102 | appends portability enumeration, the surface extension and the platform surface extension under their conditions |
| InstanceCreation.Occurrences | src/kvk.cpp:65-75 | counts occurrences of a name; zero iff absent |
| InstanceCreation.OccurrencesAppend | src/kvk.cpp:65-75 | counting distributes over concatenation |
| InstanceCreation.CallerListsFirst | src/kvk.cpp:57-58 | the caller's layers and extensions come first, unchanged |
| InstanceCreation.ValidationLayerIff | src/kvk.cpp:61-63 | the validation layer is appended iff enable_validation_layers |
| InstanceCreation.DebugUtilsAtMostOnce | src/kvk.cpp:65-75 | the library adds `VK_EXT_debug_utils` once when enable_debug_utils or a messenger callback is set, and not otherwise |
| InstanceCreation.DebugReportIff | src/kvk.cpp:77-81 | `VK_EXT_debug_report` is added iff a report callback is given |
| InstanceCreation.NotInPresentation | src/kvk.cpp:84-102 | proof step for DebugUtilsAtMostOnce: no presentation extension has the length of the debug-utils name, so none is debug_utils |
| InstanceCreation.PortabilityExtensionIff | src/kvk.cpp:84-87 | the portability-enumeration extension is added iff recommended or create_enumerate_portability_instance |
| InstanceCreation.PortabilityFlagIff | src/kvk.cpp:84-87 | the portability bit is set iff it was set already or the presets ask for it |
| InstanceCreation.PortabilityFlagKeepsOtherBits | src/kvk.cpp:86 | no other flag bit changes |
| InstanceCreation.BitUnionKeepsOtherBits | src/kvk.cpp:86 | or-ing in the portability bit keeps every other bit |
| InstanceCreation.SurfaceExtensionsIff | src/kvk.cpp:89-102 | the surface extension and the platform's surface extension are added iff their presets ask for them |
| InstanceCreation.InstanceRequest | src/kvk.cpp:30-113 | the VkInstanceCreateInfo: application info with engine "kvk" 1.0.0, the expanded flags, layers and extensions |
| InstanceCreation.CreateInstance | src/kvk.cpp:28-122 | the request is InstanceRequest; the result and handle are the driver's; a failure is reported at error severity |
| DeviceCreation.ScanInfos | src/kvk.cpp:359-532 | vk_device_queue_create_infos after n devices: never cleared, each device appends its own |
| DeviceCreation.ScanFeatures | src/kvk.cpp:354-380 | physical_device_features after n devices: those of the last device that got past the API-version check |
| DeviceCreation.SatisfiedAfter | src/kvk.cpp:361-545 | satisfied after n devices: reset per device and cleared only by the checks ClearsSatisfied names |
| DeviceCreation.StopAt | src/kvk.cpp:517-552 | a decisive device either aborts the call or is the one found |
| DeviceCreation.ScanStopOf | src/kvk.cpp:360-553 | where the loop stops: found, aborted, or after every device |
| DeviceCreation.ScanStateAfter | src/kvk.cpp:352-553 | the loop's carried state after n devices |
| DeviceCreation.ExamineForCreation | src/kvk.cpp:361-552 | one turn of the device loop: where the walk stops, and the state after the device |
| DeviceCreation.ScanDevices | src/kvk.cpp:360-553 | the loop stops as ScanStopOf says; satisfied, the create infos, the feature block and the reports are those after the last device examined |
| DeviceCreation.CreationPlan | src/kvk.cpp:335-559 | return on enumeration failure, proceed with the manual device, abort on a priority mismatch, proceed with the found device, or at the end of the walk proceed (null device) or fail on `!satisfied` |
| DeviceCreation.PlanMessages | src/kvk.cpp:335-559 | the reports up to that decision |
| DeviceCreation.PlanCreation | src/kvk.cpp:335-559 | enumeration failure, the manual branch, the walk and the `!satisfied` test give CreationPlan and PlanMessages |
| DeviceCreation.QueueRejectedInfos | src/kvk.cpp:506-545 | the partial create info lists of the devices among the first n rejected at the queue check |
| DeviceCreation.QueueRejectedPartial | src/kvk.cpp:506-545 | a device rejected at the queue check leaves one create info per requirement matched before the unmatched one |
| DeviceCreation.RejectedPrefixInfos | src/kvk.cpp:359-545 | while every device is rejected, only those rejected at the queue check add create infos |
| DeviceCreation.StaleCreateInfosKept | src/kvk.cpp:359-552 | when device k is found, the infos passed on are the partial lists of every earlier device rejected at the queue check, followed by one info per requirement for device k |
| DeviceCreation.NullDeviceProceeds | src/kvk.cpp:552-558 | a walk that ends on a device rejected by name, type, API version, limits or memory goes on with a null physical device |
| DeviceCreation.PriorityMismatchAborts | src/kvk.cpp:517-521 | a priority-count mismatch on the device that reaches it ends the call with VK_ERROR_INITIALIZATION_FAILED before vkCreateDevice |
| DeviceCreation.FoundDeviceIsFirstAccepted | src/kvk.cpp:551-552 | a found device is the first accepted one, and its own features are the enabled ones |
| DeviceCreation.TotalUpTo | src/kvk.cpp:561-564 | the sum of queueCount over the first n create infos, without wrap-around |
| DeviceCreation.TotalQueues | src/kvk.cpp:561-564 | the sum over all create infos, without wrap-around; SumQueueCounts relates it to the uint32 sum |
| DeviceCreation.TotalMonotone | src/kvk.cpp:561-564 | partial queue-count sums grow with the prefix |
| DeviceCreation.SumQueueCounts | src/kvk.cpp:561-564 | queue_count is the sum of the create infos' queueCount modulo 2^32 |
| DeviceCreation.ModUnique | src/kvk.cpp:563 | proof step for WrapAdd and SumQueueCounts: division by 2^32 has a unique quotient and remainder |
| DeviceCreation.WrapAdd | src/kvk.cpp:563 | adding to the wrapped running sum gives the wrapped total |
| DeviceCreation.QueuesOf | src/kvk.cpp:642-651 | the returns of create info i: one per slot j, with the queue of (family, j), request_index i and queue_index j |
| DeviceCreation.FlattenUpTo | src/kvk.cpp:640-655 | the returns of the first n create infos, as many as their queueCounts add up to |
| DeviceCreation.Flatten | src/kvk.cpp:640-655 | the returns of all create infos, as many as the total queue count |
| DeviceCreation.FlattenAt | src/kvk.cpp:640-655 | slot j of create info i is at the earlier counts' sum plus j |
| DeviceCreation.FlattenOrdered | src/kvk.cpp:640-655 | every slot of an earlier create info comes before every slot of a later one |
| DeviceCreation.FlattenPrefix | src/kvk.cpp:640-655 | the returns of the first n create infos are a prefix of Flatten |
| DeviceCreation.FillStep | src/kvk.cpp:641-654 | after create info i is written, the in-range slots below the running total hold Flatten and the rest is untouched |
| DeviceCreation.FillRequest | src/kvk.cpp:642-654 | without wrap-around: fails iff some slot it writes is past the end; in every case exactly the in-range slots from start on hold create info i's returns, and on success the index moves on by queueCount |
| DeviceCreation.FillQueueReturns | src/kvk.cpp:640-655 | without wrap-around: fails iff the array is shorter than the total; the in-range slots below the total hold Flatten and the rest is unchanged; when it fits, the array is Flatten followed by the old tail |
| DeviceCreation.GrownReturns | src/kvk.cpp:566-571 | the return array after the size check: grown to queue_count, with value-initialised new slots, only when it is shorter |
| DeviceCreation.WantsPortabilitySubset | src/kvk.cpp:576-582 | portability_subset is enabled explicitly, or recommended on an Apple build |
| DeviceCreation.DevicePresetExtensions | src/kvk.cpp:575-614 | the device extensions the presets append, in source order |
| DeviceCreation.ExpandDeviceExtensions | src/kvk.cpp:575-614 | the extensions are the caller's followed by DevicePresetExtensions |
| DeviceCreation.DevicePresetsIff | src/kvk.cpp:576-614 | each preset device extension is present iff its presets ask for it |
| DeviceCreation.DeviceRequest | src/kvk.cpp:616-632 | the VkDeviceCreateInfo: the flags, the manual or accumulated queue create infos, the expanded extensions and the feature block |
| DeviceCreation.CreateDevice | src/kvk.cpp:334-658 | physical device, result, request to vkCreateDevice, written device and reports on every path, and the return array on every path with fewer than 2^32 queues; when it succeeds, the array is Flatten of the create infos followed by the old tail, grown to the total exactly when it was shorter |
| DeviceCreation.CreateOnDevice | src/kvk.cpp:561-658 | after selection: a failed resize reports and returns VK_ERROR_INITIALIZATION_FAILED with the array unchanged; otherwise the request goes to vkCreateDevice; a failure is reported and leaves the array grown only; on success the array is Flatten of the create infos followed by the old tail beyond the total, and is grown to the total exactly when it was shorter |

## Left out

- Driver calls (`vkEnumeratePhysicalDevices`, the `vkGet*` queries, the surface-support query, `vkCreateInstance`, `vkCreateDevice`, `vkGetDeviceQueue`) are input records and oracle functions, not modelled code.
- The process-wide `g_error_callback` and `set_error_callback` are an `ErrorCallback` parameter. Messages keep their result, severity, origin and a diagnostic with its numbers. The `std::format` text, device names and `KVK_FUNCTION` strings are not modelled.
- `pNext` chains (the debug messenger and report create infos, the pageable-memory and memory-priority feature structs) and `vk_pnext` fields are pointer plumbing and are left out.
- `VkPhysicalDeviceFeatures` is a sequence of 55 booleans. The `reinterpret_cast` pointer walk is not modelled.
- Float-valued limits and queue priorities are `real`. Limits are only compared, and priorities are only counted.
- Of the memory properties only the two counts are read. `memoryTypes` and `memoryHeaps` are not modelled.
- The mono-allocation heap, `create_swapchain` and the swapchain structures carry no shown implementation. demo/demo.cpp is not part of this model.
- `create_device` at src/kvk.cpp:334 takes a `ReturnArray<DeviceQueueReturn>`, while include/kvk.h:193 declares `ArrayReference`. The model uses `ArrayReference`.
- `ArrayReference` wraps its vector's operations in callbacks. The model calls the operations directly and takes the allocation outcome of `resize` as a parameter.
- The manual-selection path of `create_device` forwards the caller's queue create infos unchanged. Its feature block is uninitialised in the source, and the model sends `None`.
- DeviceCreation.CreateDevice: when the queue counts add up to 2^32 or more, queue_count and queue_index wrap. The contract then does not say whether the fill throws or what it writes.
- DeviceCreation.CreateOnDevice: the same as for CreateDevice. With a total of 2^32 or more the contract says nothing about the outcome or the array once vkCreateDevice succeeds.
- DeviceCreation.FillRequest: when start plus the create info's queueCount reaches 2^32 the running index wraps, and the contract says nothing about the outcome or the writes.
- DeviceCreation.FillQueueReturns: when the total reaches 2^32 the running index wraps, and the contract says nothing about the outcome or the writes.
- Loop indices `i` and `j` of the fill, and `request_index`, are naturals. The model assumes fewer than 2^32 create infos and slots.
- The device loop of `select_physical_device` and of `create_device` is one function in the source. The model splits each into stage methods (FilterChecks, EarlyChecks, LateChecks, ResourceChecks, AssignmentCheck, AssignQueues), the inner searches (FindByName, FindFamily), one method per loop turn (ExamineExtension, ExamineForSelection, ExamineForCreation), and, in `create_device`, the part after selection (CreateOnDevice). This keeps each proof small, and the order of the checks is unchanged.
- Handles are `NullHandle` or `Live(id)`. A found device is `Live` of its record's handle.
