/** packages/main/src/fingerprint/gpu.ts: the NVIDIA GPU descriptor the
    fingerprint presents (vendor, renderer string, vendor and device ids),
    the browser flags that carry it, and the WebGL override script. The
    random draws of `generateGPUInfo` are parameters. */
module Gpu {
  import opened Js
  import Text
  import Template

  /** `GPUInfo`. */
  datatype GpuInfo = GpuInfo(vendor: string, renderer: string, vendorId: string, deviceId: string)

  // NVIDIA_CONFIG
  const VendorId := "0x10de"
  const Vendor := "Google Inc. (NVIDIA)"
  const RtxModels: seq<string> := [
    "NVIDIA GeForce RTX 4090", "NVIDIA GeForce RTX 4080", "NVIDIA GeForce RTX 4070 Ti",
    "NVIDIA GeForce RTX 4070", "NVIDIA GeForce RTX 4060 Ti", "NVIDIA GeForce RTX 4060",
    "NVIDIA GeForce RTX 3090 Ti", "NVIDIA GeForce RTX 3090", "NVIDIA GeForce RTX 3080 Ti",
    "NVIDIA GeForce RTX 3080", "NVIDIA GeForce RTX 3070 Ti", "NVIDIA GeForce RTX 3070",
    "NVIDIA GeForce RTX 3060 Ti", "NVIDIA GeForce RTX 3060"
  ]
  const GtxModels: seq<string> := [
    "NVIDIA GeForce GTX 1660 SUPER", "NVIDIA GeForce GTX 1660 Ti", "NVIDIA GeForce GTX 1660",
    "NVIDIA GeForce GTX 1650 SUPER", "NVIDIA GeForce GTX 1650", "NVIDIA GeForce GTX 1080 Ti",
    "NVIDIA GeForce GTX 1080", "NVIDIA GeForce GTX 1070 Ti", "NVIDIA GeForce GTX 1070",
    "NVIDIA GeForce GTX 1060 6GB", "NVIDIA GeForce GTX 1060 3GB", "NVIDIA GeForce GTX 1050 Ti"
  ]
  /** `[...rtxModels, ...gtxModels]`: 14 RTX models, then 12 GTX models. */
  const AllModels: seq<string> := RtxModels + GtxModels
  const DeviceIdMin: nat := 1514
  const DeviceIdMax: nat := 8978
  /** The number of integers `Math.floor(Math.random() * (max - min + 1) + min)` can give. */
  const DeviceIdSpan: nat := DeviceIdMax - DeviceIdMin + 1

  const DeviceIdPrefix := "0x0000"

  /** `0x0000${n.toString(16).toUpperCase().padStart(4, '0')}`: the prefix and
      then exactly four upper-case hex digits that read back as `n`. */
  function DeviceIdOf(n: nat): (id: string)
    requires n < 65536
    ensures |id| == 10 && id[..6] == DeviceIdPrefix
    ensures Text.AllDigits(id[6..], 16)
    ensures Text.ParseNat(id[6..], 16) == n
  {
    var hex := Text.NatToString(n, 16);
    assert Text.Pow(16, 4) == 65536;
    Text.NatToStringWidth(n, 16, 4);
    var padded := Text.PadStart(hex, 4, '0');
    var zeros := padded[..4 - |hex|];
    assert padded == zeros + hex;
    Text.ParseNatToString(n, 16);
    Text.ParseNatLeadingZeros(zeros, hex, 16);
    var id := DeviceIdPrefix + padded;
    assert id[6..] == padded;
    id
  }

  /** The renderer string of gpu.ts: `${vendor} ANGLE (NVIDIA, ${model} (${deviceId}) Direct3D11 vs_5_0 ps_5_0, Direct3D11)`. */
  const RendererHead := Vendor + " ANGLE (NVIDIA, "
  const RendererTail := ") Direct3D11 vs_5_0 ps_5_0, Direct3D11)"

  /** A GPU description of the shape `<head><model> (<deviceId><tail>`; both
      renderer templates of the fingerprint code have it. */
  function Describe(head: string, model: string, deviceId: string, tail: string): string {
    head + model + " (" + deviceId + tail
  }

  function Renderer(model: string, deviceId: string): string {
    Describe(RendererHead, model, deviceId, RendererTail)
  }

  /** Reads the model and the device id back out of a description whose
      device id has the fixed width of ten characters. */
  function ParseDescription(head: string, tail: string, r: string): (parsed: Option<(string, string)>)
  {
    if |r| >= |head| + 12 + |tail|
       && r[..|head|] == head
       && r[|r| - |tail|..] == tail
    then
      var middle := r[|head|..|r| - |tail|];
      if middle[|middle| - 12..|middle| - 10] == " ("
      then Some((middle[..|middle| - 12], middle[|middle| - 10..]))
      else None
    else None
  }

  /** A description names the model and the device id it was built from, and
      both can be read back out of it. */
  lemma DescriptionRoundTrip(head: string, model: string, deviceId: string, tail: string)
    requires |deviceId| == 10
    ensures ParseDescription(head, tail, Describe(head, model, deviceId, tail)) == Some((model, deviceId))
  {
    var r := Describe(head, model, deviceId, tail);
    assert r == head + (model + " (" + deviceId) + tail;
    assert r[..|head|] == head;
    assert r[|r| - |tail|..] == tail;
    var middle := r[|head|..|r| - |tail|];
    assert middle == model + " (" + deviceId;
    assert middle[|middle| - 12..|middle| - 10] == " (";
    assert middle[..|middle| - 12] == model;
    assert middle[|middle| - 10..] == deviceId;
  }

  /** generateGPUInfo with its two draws as parameters: `modelDraw` is
      `Math.floor(Math.random() * 26)` and `deviceDraw` is
      `Math.floor(Math.random() * DeviceIdSpan)`. The vendor and vendor id are
      fixed, the model is the drawn one of the 26, and the device id holds the
      drawn integer of [1514, 8978]. */
  function GenerateGpuInfo(modelDraw: nat, deviceDraw: nat): (g: GpuInfo)
    requires modelDraw < |AllModels|
    requires deviceDraw < DeviceIdSpan
    ensures g.vendor == Vendor && g.vendorId == VendorId
    ensures |g.deviceId| == 10 && g.deviceId[..6] == DeviceIdPrefix && Text.AllDigits(g.deviceId[6..], 16)
    ensures Text.ParseNat(g.deviceId[6..], 16) == DeviceIdMin + deviceDraw
    ensures DeviceIdMin <= Text.ParseNat(g.deviceId[6..], 16) <= DeviceIdMax
    ensures ParseDescription(RendererHead, RendererTail, g.renderer) == Some((AllModels[modelDraw], g.deviceId))
    ensures AllModels[modelDraw] in RtxModels || AllModels[modelDraw] in GtxModels
  {
    var model := AllModels[modelDraw];
    var deviceId := DeviceIdOf(DeviceIdMin + deviceDraw);
    DescriptionRoundTrip(RendererHead, model, deviceId, RendererTail);
    assert modelDraw < 14 ==> model == RtxModels[modelDraw];
    assert modelDraw >= 14 ==> model == GtxModels[modelDraw - 14];
    GpuInfo(Vendor, Renderer(model, deviceId), VendorId, deviceId)
  }

  /** getGPULaunchArgs: seven fixed GPU flags, then the vendor id and the
      device id. */
  function GpuLaunchArgs(g: GpuInfo): (args: seq<string>)
    ensures |args| == 9
    ensures args[7] == "--gpu-vendor-id=" + g.vendorId
    ensures args[8] == "--gpu-device-id=" + g.deviceId
    ensures args[..7] == FixedGpuFlags
  {
    FixedGpuFlags + ["--gpu-vendor-id=" + g.vendorId, "--gpu-device-id=" + g.deviceId]
  }

  const FixedGpuFlags: seq<string> := [
    "--disable-gpu-driver-bug-workarounds", "--disable-gpu-vsync", "--ignore-gpu-blocklist",
    "--disable-gpu-sandbox", "--disable-gpu-compositing", "--use-gl=desktop", "--use-angle=default"
  ]

  /** A device id of the generated shape reaches the flags as the prefix and
      its four hex digits. */
  lemma DeviceIdFlag(g: GpuInfo)
    requires |g.deviceId| == 10 && g.deviceId[..6] == DeviceIdPrefix
    ensures GpuLaunchArgs(g)[8] == "--gpu-device-id=" + DeviceIdPrefix + g.deviceId[6..]
  {
    assert g.deviceId == g.deviceId[..6] + g.deviceId[6..];
  }

  /** For every generated GPU the flags claim NVIDIA's vendor id and a device id
      of four hex digits that read back as the drawn integer. */
  lemma GeneratedLaunchArgs(modelDraw: nat, deviceDraw: nat)
    requires modelDraw < |AllModels| && deviceDraw < DeviceIdSpan
    ensures var g := GenerateGpuInfo(modelDraw, deviceDraw);
      var args := GpuLaunchArgs(g);
      var digits := g.deviceId[6..];
      && args[7] == "--gpu-vendor-id=" + VendorId
      && args[8] == "--gpu-device-id=" + DeviceIdPrefix + digits
      && |digits| == 4 && Text.AllDigits(digits, 16)
      && Text.ParseNat(digits, 16) == DeviceIdMin + deviceDraw
  {
    var g := GenerateGpuInfo(modelDraw, deviceDraw);
    DeviceIdFlag(g);
  }

  // generateWebGLScript: the script text with the vendor spliced in once and
  // the renderer twice.
  const WebGlScriptParts: seq<string> := [
@"
    (() => {
      const getContext = HTMLCanvasElement.prototype.getContext;
      HTMLCanvasElement.prototype.getContext = function(type, attributes) {
        const context = getContext.call(this, type, attributes);
        if (type === 'webgl' || type === 'webgl2') {
          const getParameter = context.getParameter.bind(context);
          context.getParameter = function(parameter) {
            // UNMASKED_VENDOR_WEBGL
            if (parameter === 0x9245) {
              return """,
@""";
            }
            // UNMASKED_RENDERER_WEBGL
            if (parameter === 0x9246) {
              return """,
@""";
            }
            return getParameter(parameter);
          };
        }
        return context;
      };
      
      // 覆盖 navigator.getGPUDescription
      if (navigator.gpu) {
        Object.defineProperty(navigator.gpu, 'getGPUDescription', {
          value: () => """,
@""",
          writable: false
        });
      }
    })();
  "
  ]

  /** generateWebGLScript: the fixed script text, answering the vendor query
      with the GPU's vendor and the renderer query (and `getGPUDescription`)
      with its renderer, and nothing else added. */
  function WebGlScript(g: GpuInfo): (s: string)
    ensures Template.Fills(s, WebGlScriptParts, [g.vendor, g.renderer, g.renderer])
  {
    Template.InterpolateFills(WebGlScriptParts, [g.vendor, g.renderer, g.renderer]);
    Template.Interpolate(WebGlScriptParts, [g.vendor, g.renderer, g.renderer])
  }
}
