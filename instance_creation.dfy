// src/kvk.cpp:29-120, create_instance: the layer and extension lists and the
// flags built from InstanceCreateInfo and its presets, and the call to
// vkCreateInstance, whose result and instance handle are inputs.

module InstanceCreation {
  import opened Vulkan
  import opened Kvk
  import opened KvkUtil

  const ValidationLayer := "VK_LAYER_KHRONOS_validation"
  const DebugUtilsExtension := "VK_EXT_debug_utils"
  const DebugReportExtension := "VK_EXT_debug_report"
  const PortabilityEnumerationExtension := "VK_KHR_portability_enumeration"
  const SurfaceExtension := "VK_KHR_surface"

  /** VK_INSTANCE_CREATE_ENUMERATE_PORTABILITY_BIT_KHR. */
  const EnumeratePortabilityBit: bv32 := 0x1

  const EngineName := "kvk"

  /** VK_MAKE_VERSION(1, 0, 0). */
  const EngineVersion: nat := 0x40_0000

  /** The surface extension of the platform the library is built for. */
  function PlatformSurfaceExtension(platform: Platform): string
  {
    if platform.windows then "VK_KHR_win32_surface"
    else if platform.apple then "VK_KHR_metal_surface"
    else "VK_KHR_xlib_surface"
  }

  /** The layers the presets append after the caller's. */
  function PresetLayers(p: InstancePresets): seq<string>
  {
    if p.enableValidationLayers then [ValidationLayer] else []
  }

  /** The extensions the presets append after the caller's, in order. */
  function PresetExtensions(p: InstancePresets, platform: Platform): seq<string>
  {
    DebugExtensions(p) + PresentationExtensions(p, platform)
  }

  /** The debug extensions: debug_utils once for either preset, then debug_report. */
  function DebugExtensions(p: InstancePresets): seq<string>
  {
    (if p.enableDebugUtils || p.debugMessengerCallbackSet then [DebugUtilsExtension] else []) +
    (if p.debugReportCallbackSet then [DebugReportExtension] else [])
  }

  /** Portability enumeration, then the generic and the platform surface extensions. */
  function PresentationExtensions(p: InstancePresets, platform: Platform): seq<string>
  {
    (if EnumeratesPortability(p) then [PortabilityEnumerationExtension] else []) +
    (if p.recommended || p.enableSurfaces then [SurfaceExtension] else []) +
    (if p.recommended || p.enablePlatformSpecificSurfaces then [PlatformSurfaceExtension(platform)] else [])
  }

  /** The caller's flags, with the portability-enumeration bit added by the presets. */
  function PresetFlags(flags: bv32, p: InstancePresets): bv32
  {
    if EnumeratesPortability(p) then flags | EnumeratePortabilityBit else flags
  }

  predicate EnumeratesPortability(p: InstancePresets)
  {
    p.recommended || p.createEnumeratePortabilityInstance
  }

  /** The VkInstanceCreateInfo create_instance passes to vkCreateInstance. */
  function InstanceRequest(info: InstanceCreateInfo, platform: Platform): InstanceCreateRequest
  {
    InstanceCreateRequest(
      info.appName, info.appVersion, EngineName, EngineVersion, info.vkVersion,
      PresetFlags(info.flags, info.presets),
      info.layers + PresetLayers(info.presets),
      info.extensions + PresetExtensions(info.presets, platform))
  }

  /** The flag update of create_instance's portability preset. */
  method ExpandFlags(info: InstanceCreateInfo) returns (flags: bv32)
    ensures flags == PresetFlags(info.flags, info.presets)
  {
    flags := info.flags;
    if info.presets.recommended || info.presets.createEnumeratePortabilityInstance {
      flags := flags | EnumeratePortabilityBit;
    }
  }

  /** The layer preset of create_instance: a copy of the caller's layers,
      extended by push_back. */
  method ExpandLayers(info: InstanceCreateInfo) returns (layers: seq<string>)
    ensures layers == info.layers + PresetLayers(info.presets)
  {
    layers := info.layers;
    if info.presets.enableValidationLayers {
      layers := layers + [ValidationLayer];
    }
  }

  /** The extension presets of create_instance: a copy of the caller's
      extensions, extended by push_back. */
  method ExpandExtensions(info: InstanceCreateInfo, platform: Platform) returns (extensions: seq<string>)
    ensures extensions == info.extensions + PresetExtensions(info.presets, platform)
  {
    extensions := info.extensions;
    extensions := AppendDebugExtensions(extensions, info.presets);
    extensions := AppendPresentationExtensions(extensions, info.presets, platform);
    assert extensions == info.extensions + DebugExtensions(info.presets) + PresentationExtensions(info.presets, platform);
  }

  /** The debug-utils and debug-report presets. */
  method AppendDebugExtensions(extensions0: seq<string>, p: InstancePresets) returns (extensions: seq<string>)
    ensures extensions == extensions0 + DebugExtensions(p)
  {
    extensions := extensions0;
    if p.enableDebugUtils {
      extensions := extensions + [DebugUtilsExtension];
    }
    if p.debugMessengerCallbackSet {
      if !p.enableDebugUtils {
        extensions := extensions + [DebugUtilsExtension];
      }
    }
    if p.debugReportCallbackSet {
      extensions := extensions + [DebugReportExtension];
    }
  }

  /** The portability-enumeration and surface presets. */
  method AppendPresentationExtensions(extensions0: seq<string>, p: InstancePresets, platform: Platform)
    returns (extensions: seq<string>)
    ensures extensions == extensions0 + PresentationExtensions(p, platform)
  {
    extensions := extensions0;
    if p.recommended || p.createEnumeratePortabilityInstance {
      extensions := extensions + [PortabilityEnumerationExtension];
    }
    if p.recommended || p.enableSurfaces {
      extensions := extensions + [SurfaceExtension];
    }
    if p.recommended || p.enablePlatformSpecificSurfaces {
      extensions := extensions + [PlatformSurfaceExtension(platform)];
    }
  }

  /** The number of occurrences of x in s. */
  function Occurrences(s: seq<string>, x: string): (n: nat)
    ensures n <= |s|
    ensures n == 0 <==> x !in s
  {
    if s == [] then 0 else (if s[0] == x then 1 else 0) + Occurrences(s[1..], x)
  }

  lemma {:induction false} OccurrencesAppend(a: seq<string>, b: seq<string>, x: string)
    ensures Occurrences(a + b, x) == Occurrences(a, x) + Occurrences(b, x)
  {
    if a == [] {
      assert a + b == b;
    } else {
      assert (a + b)[1..] == a[1..] + b;
      OccurrencesAppend(a[1..], b, x);
    }
  }

  /** The caller's layers and extensions come first, unchanged. */
  lemma CallerListsFirst(info: InstanceCreateInfo, platform: Platform)
    ensures var r := InstanceRequest(info, platform);
      r.enabledLayers[..|info.layers|] == info.layers &&
      r.enabledExtensions[..|info.extensions|] == info.extensions
  {
    var r := InstanceRequest(info, platform);
    assert r.enabledLayers[..|info.layers|] == info.layers;
    assert r.enabledExtensions[..|info.extensions|] == info.extensions;
  }

  /** The validation layer is appended exactly when enable_validation_layers is set. */
  lemma ValidationLayerIff(info: InstanceCreateInfo, platform: Platform)
    ensures var r := InstanceRequest(info, platform);
      |r.enabledLayers| == |info.layers| + (if info.presets.enableValidationLayers then 1 else 0) &&
      (info.presets.enableValidationLayers <==> r.enabledLayers[|info.layers|..] == [ValidationLayer])
  {
  }

  /** VK_EXT_debug_report is appended exactly when a report callback is given. */
  lemma DebugReportIff(p: InstancePresets, platform: Platform)
    ensures DebugReportExtension in PresetExtensions(p, platform) <==> p.debugReportCallbackSet
  {
    var rest := PresentationExtensions(p, platform);
    assert DebugReportExtension[3] == 'E';
    assert forall k | 0 <= k < |rest| :: rest[k][3] == 'K';
    assert DebugReportExtension != DebugUtilsExtension;
  }

  /** The library appends VK_EXT_debug_utils once when either enable_debug_utils
      is set or a messenger callback is given, and otherwise not at all. */
  lemma DebugUtilsAtMostOnce(p: InstancePresets, platform: Platform)
    ensures Occurrences(PresetExtensions(p, platform), DebugUtilsExtension) ==
            if p.enableDebugUtils || p.debugMessengerCallbackSet then 1 else 0
  {
    var a := if p.enableDebugUtils || p.debugMessengerCallbackSet then [DebugUtilsExtension] else [];
    var b := if p.debugReportCallbackSet then [DebugReportExtension] else [];
    var rest := PresentationExtensions(p, platform);
    assert PresetExtensions(p, platform) == a + (b + rest);
    OccurrencesAppend(a, b + rest, DebugUtilsExtension);
    NotInPresentation(p, platform, DebugUtilsExtension);
    assert DebugUtilsExtension != DebugReportExtension;
    assert DebugUtilsExtension !in b + rest;
  }

  /** An 18-character name is none of the presentation extensions. */
  lemma NotInPresentation(p: InstancePresets, platform: Platform, x: string)
    requires |x| == 18
    ensures x !in PresentationExtensions(p, platform)
  {
    assert |PortabilityEnumerationExtension| == 30 && |SurfaceExtension| == 14;
    assert |PlatformSurfaceExtension(platform)| in {19, 20};
  }

  /** The portability-enumeration extension is added exactly when
      recommended or create_enumerate_portability_instance is set. */
  lemma PortabilityExtensionIff(p: InstancePresets, platform: Platform)
    ensures PortabilityEnumerationExtension in PresetExtensions(p, platform) <==> EnumeratesPortability(p)
  {
    var x := PortabilityEnumerationExtension;
    assert |x| == 30;
    assert |DebugUtilsExtension| == 18 && |DebugReportExtension| == 19 && |SurfaceExtension| == 14;
    assert |PlatformSurfaceExtension(platform)| in {19, 20};
    assert x !in DebugExtensions(p);
    var c := if EnumeratesPortability(p) then [x] else [];
    var rest := (if p.recommended || p.enableSurfaces then [SurfaceExtension] else []) +
      (if p.recommended || p.enablePlatformSpecificSurfaces then [PlatformSurfaceExtension(platform)] else []);
    assert PresentationExtensions(p, platform) == c + rest;
    assert x !in rest;
  }

  /** The portability-enumeration flag bit is set afterwards exactly when the
      same presets ask for it or the caller set it. */
  lemma PortabilityFlagIff(flags: bv32, p: InstancePresets)
    ensures PresetFlags(flags, p) & EnumeratePortabilityBit != 0 <==>
            EnumeratesPortability(p) || flags & EnumeratePortabilityBit != 0
  {
  }

  lemma PortabilityFlagKeepsOtherBits(flags: bv32, p: InstancePresets)
    ensures PresetFlags(flags, p) & !EnumeratePortabilityBit == flags & !EnumeratePortabilityBit
  {
    if EnumeratesPortability(p) {
      BitUnionKeepsOtherBits(flags);
    }
  }

  lemma BitUnionKeepsOtherBits(flags: bv32)
    ensures (flags | EnumeratePortabilityBit) & !EnumeratePortabilityBit == flags & !EnumeratePortabilityBit
  {
  }

  /** The generic and the platform surface extensions follow their presets. */
  lemma SurfaceExtensionsIff(p: InstancePresets, platform: Platform)
    ensures SurfaceExtension in PresetExtensions(p, platform) <==> p.recommended || p.enableSurfaces
    ensures PlatformSurfaceExtension(platform) in PresetExtensions(p, platform) <==>
            p.recommended || p.enablePlatformSpecificSurfaces
  {
  }

  /** What vkCreateInstance does with the request: its result and the
      instance handle it writes. */
  datatype InstanceDriver = InstanceDriver(result: VkResult, instance: Handle)

  /** create_instance: the instance handle and result are the driver's; a
      failure is reported at error severity. */
  method CreateInstance(info: InstanceCreateInfo, platform: Platform, driver: InstanceDriver, callback: ErrorCallback)
    returns (result: VkResult, instance: Handle, request: InstanceCreateRequest, log: seq<Message>)
    ensures request == InstanceRequest(info, platform)
    ensures result == driver.result && instance == driver.instance
    ensures log == if result != Success then Report(callback, Message(result, Error, InstanceCreationFailed, CreateInstanceFn)) else []
  {
    var layers := ExpandLayers(info);
    var extensions := ExpandExtensions(info, platform);
    var flags := ExpandFlags(info);
    request := InstanceCreateRequest(info.appName, info.appVersion, EngineName, EngineVersion, info.vkVersion,
                                     flags, layers, extensions);
    result, instance := driver.result, driver.instance;
    log := [];
    if result != Success {
      log := Report(callback, Message(result, Error, InstanceCreationFailed, CreateInstanceFn));
    }
  }
}
