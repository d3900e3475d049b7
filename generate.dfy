/** packages/main/src/fingerprint/generate.ts: the random fingerprint a new
    window gets, and the older NVIDIA renderer generator. Every
    `Math.random()` draw is an explicit integer parameter in the range the
    source's arithmetic gives it. */
module Generate {
  import opened Js
  import Text
  import Gpu
  import Records

  /** The draws of one `generateRandomFingerprint` call, in source order. The
      two floating-point draws (`clientRect`, `gpu.device`) are not modelled. */
  datatype Draws = Draws(
    canvas: seq<nat>,        // three draws of floor(random * 5)
    gpuModel: nat,           // generateGPUInfo's model draw
    gpuDevice: nat,          // generateGPUInfo's device-id draw
    ipThird: nat,            // floor(random * 255)
    ipFourth: nat,           // floor(random * 255)
    description: seq<nat>,   // five draws of floor(random * 36)
    webaudio: nat,           // floor(random * 500)
    platform: nat,           // floor(random * 6)
    archX86: bool,           // random > 0.5
    bits64: bool)            // random > 0.2

  /** Each draw lies in the range its expression can produce. */
  predicate ValidDraws(d: Draws) {
    && |d.canvas| == 3 && (forall i :: 0 <= i < 3 ==> d.canvas[i] < 5)
    && d.gpuModel < |Gpu.AllModels| && d.gpuDevice < Gpu.DeviceIdSpan
    && d.ipThird < 255 && d.ipFourth < 255
    && |d.description| == 5 && (forall i :: 0 <= i < 5 ==> d.description[i] < 36)
    && d.webaudio < 500
    && d.platform < 6
  }

  datatype WebGl = WebGl(vendor: string, renderer: Gpu.GpuInfo)
  datatype WebRtc = WebRtc(public: JsString, private: string)
  datatype Languages = Languages(http: string, js: string)
  datatype ClientHint = ClientHint(
    platform: string, platformVersion: string, uaFullVersion: string,
    mobile: string, architecture: string, bitness: string)

  /** The fingerprint object (without its two floating-point fields).
      `webgl.renderer` holds the whole `GPUInfo` record, as in the source. */
  datatype Fingerprint = Fingerprint(
    enable: bool,
    canvas: seq<nat>,
    webgl: WebGl,
    webrtc: WebRtc,
    gpuDescription: string,
    languages: Languages,
    webaudio: nat,
    clientHint: ClientHint)

  const DescriptionAlphabet := "0123456789ABCDEFGHIJKLMNOPQRSTUVWXYZ"
  const HttpLanguages := "en-US,en;q=0.9"
  const JsLanguage := "en-US"
  const UaFullVersion := "130.0.6723.41"

  /** The character at position `d` of the description alphabet: the digit
      of value `d` in base 36. */
  function AlphabetChar(d: nat): (c: char)
    requires d < 36
    ensures c == Text.DigitChar(d)
  {
    DescriptionAlphabet[d]
  }

  /** `192.168.${x}.${y}`. */
  function PrivateIp(x: nat, y: nat): (ip: string)
    ensures Text.StartsWith(ip, "192.168.")
  {
    "192.168." + Text.NatToString(x, 10) + "." + Text.NatToString(y, 10)
  }

  /** The private address splits into the four octets it was built from, the
      last two reading back as the draws. */
  lemma PrivateIpOctets(x: nat, y: nat)
    ensures var parts := Text.Split(PrivateIp(x, y), '.');
      && |parts| == 4 && parts[0] == "192" && parts[1] == "168"
      && Text.AllDigits(parts[2], 10) && Text.ParseNat(parts[2], 10) == x
      && Text.AllDigits(parts[3], 10) && Text.ParseNat(parts[3], 10) == y
  {
    var a := Text.NatToString(x, 10);
    var b := Text.NatToString(y, 10);
    var parts := ["192", "168", a, b];
    Text.NonDigitAbsent(a, 10, '.');
    Text.NonDigitAbsent(b, 10, '.');
    assert Text.Join(parts[3..], '.') == b;
    assert Text.Join(parts[2..], '.') == a + "." + b;
    assert Text.Join(parts[1..], '.') == "168" + "." + a + "." + b;
    assert Text.Join(parts, '.') == PrivateIp(x, y);
    Text.SplitJoin(parts, '.');
    Text.ParseNatToString(x, 10);
    Text.ParseNatToString(y, 10);
  }

  /** Five characters of `0-9A-Z`, each the drawn position in the alphabet. */
  function GpuDescription(draws: seq<nat>): (s: string)
    requires |draws| == 5 && forall i :: 0 <= i < 5 ==> draws[i] < 36
    ensures |s| == 5
    ensures forall i :: 0 <= i < 5 ==> ('0' <= s[i] <= '9' || 'A' <= s[i] <= 'Z')
    ensures forall i :: 0 <= i < 5 ==> Text.DigitValue(s[i]) == draws[i]
  {
    var s := seq(5, i requires 0 <= i < 5 => AlphabetChar(draws[i]));
    assert forall i :: 0 <= i < 5 ==> Text.DigitValue(s[i]) == draws[i] by {
      forall i | 0 <= i < 5 {
        Text.DigitRoundTrip(draws[i]);
      }
    }
    s
  }

  /** `${10 + k}.0.0`. */
  function PlatformVersion(k: nat): string {
    Text.NatToString(10 + k, 10) + ".0.0"
  }

  /** The platform version reads as `N.0.0` with N the major version 10 + k. */
  lemma PlatformVersionShape(k: nat)
    requires k < 6
    ensures var parts := Text.Split(PlatformVersion(k), '.');
      && |parts| == 3 && parts[1] == "0" && parts[2] == "0"
      && Text.AllDigits(parts[0], 10)
      && 10 <= Text.ParseNat(parts[0], 10) <= 15
      && Text.ParseNat(parts[0], 10) == 10 + k
  {
    var n := Text.NatToString(10 + k, 10);
    var parts := [n, "0", "0"];
    Text.NonDigitAbsent(n, 10, '.');
    assert Text.Join(parts[1..], '.') == "0.0";
    assert Text.Join(parts, '.') == PlatformVersion(k);
    Text.SplitJoin(parts, '.');
    Text.ParseNatToString(10 + k, 10);
  }

  /** generateRandomFingerprint. */
  function GenerateRandomFingerprint(ipInfo: Records.IpInfo, d: Draws): (f: Fingerprint)
    requires ValidDraws(d)
    ensures f.enable
    ensures f.webrtc.public == ipInfo.ip
    ensures |f.canvas| == 3 && forall i :: 0 <= i < 3 ==> f.canvas[i] <= 4
    ensures f.webgl.vendor == Gpu.Vendor && f.webgl.renderer.vendor == Gpu.Vendor
    ensures f.webgl.renderer.vendorId == Gpu.VendorId
    ensures |f.webgl.renderer.deviceId| == 10 && Text.AllDigits(f.webgl.renderer.deviceId[6..], 16)
    ensures Gpu.DeviceIdMin <= Text.ParseNat(f.webgl.renderer.deviceId[6..], 16) <= Gpu.DeviceIdMax
    ensures Text.StartsWith(f.webrtc.private, "192.168.")
    ensures |f.gpuDescription| == 5
    ensures forall i :: 0 <= i < 5 ==> ('0' <= f.gpuDescription[i] <= '9' || 'A' <= f.gpuDescription[i] <= 'Z')
    ensures f.languages == Languages(HttpLanguages, JsLanguage)
    ensures 1 <= f.webaudio <= 500
    ensures f.clientHint.platform == "Windows" && f.clientHint.mobile == "?0"
    ensures f.clientHint.uaFullVersion == UaFullVersion
    ensures f.clientHint.architecture in {"x86", "arm"}
    ensures f.clientHint.bitness in {"64", "32"}
  {
    Fingerprint(
      true,
      d.canvas,
      WebGl(Gpu.Vendor, Gpu.GenerateGpuInfo(d.gpuModel, d.gpuDevice)),
      WebRtc(ipInfo.ip, PrivateIp(d.ipThird, d.ipFourth)),
      GpuDescription(d.description),
      Languages(HttpLanguages, JsLanguage),
      d.webaudio + 1,
      ClientHint(
        "Windows",
        PlatformVersion(d.platform),
        UaFullVersion,
        "?0",
        if d.archX86 then "x86" else "arm",
        if d.bits64 then "64" else "32"))
  }

  /** The fingerprint's private address and platform version have the promised
      shapes. */
  lemma FingerprintShapes(ipInfo: Records.IpInfo, d: Draws)
    requires ValidDraws(d)
    ensures var f := GenerateRandomFingerprint(ipInfo, d);
      var ip := Text.Split(f.webrtc.private, '.');
      var pv := Text.Split(f.clientHint.platformVersion, '.');
      && |ip| == 4 && ip[0] == "192" && ip[1] == "168"
      && Text.AllDigits(ip[2], 10) && Text.ParseNat(ip[2], 10) <= 254
      && Text.AllDigits(ip[3], 10) && Text.ParseNat(ip[3], 10) <= 254
      && |pv| == 3 && pv[1] == "0" && pv[2] == "0"
      && Text.AllDigits(pv[0], 10) && 10 <= Text.ParseNat(pv[0], 10) <= 15
  {
    PrivateIpOctets(d.ipThird, d.ipFourth);
    PlatformVersionShape(d.platform);
  }

  // generateRandomNvidiaGpu: its own twelve models and a D3D11 template.
  const NvidiaModels: seq<string> := [
    "NVIDIA GeForce RTX 4090", "NVIDIA GeForce RTX 4080", "NVIDIA GeForce RTX 4070",
    "NVIDIA GeForce RTX 4060", "NVIDIA GeForce RTX 3060", "NVIDIA GeForce RTX 3070",
    "NVIDIA GeForce GTX 1660 Ti", "NVIDIA GeForce GTX 1650",
    "NVIDIA GeForce GTX 1080", "NVIDIA GeForce GTX 1070",
    "NVIDIA GeForce GTX 1060", "NVIDIA GeForce GTX 1050 Ti"
  ]
  const NvidiaHead := "Google Inc. (NVIDIA) ANGLE (NVIDIA, "
  const NvidiaTail := ") D3D11 vs_5_0 ps_5_0, D3D11)"

  /** generateRandomNvidiaGpu with its model draw and device-id draw as
      parameters: the renderer names one of its twelve models and a device id
      of the `0x0000XXXX` form holding an integer of [1514, 8978]. */
  function GenerateRandomNvidiaGpu(modelDraw: nat, deviceDraw: nat): (r: string)
    requires modelDraw < |NvidiaModels| && deviceDraw < Gpu.DeviceIdSpan
    ensures var p := Gpu.ParseDescription(NvidiaHead, NvidiaTail, r);
      && p.Some? && p.value.0 == NvidiaModels[modelDraw]
      && var id := p.value.1;
      && |id| == 10 && id[..6] == Gpu.DeviceIdPrefix && Text.AllDigits(id[6..], 16)
      && Text.ParseNat(id[6..], 16) == Gpu.DeviceIdMin + deviceDraw
      && Gpu.DeviceIdMin <= Text.ParseNat(id[6..], 16) <= Gpu.DeviceIdMax
  {
    var deviceId := Gpu.DeviceIdOf(Gpu.DeviceIdMin + deviceDraw);
    Gpu.DescriptionRoundTrip(NvidiaHead, NvidiaModels[modelDraw], deviceId, NvidiaTail);
    Gpu.Describe(NvidiaHead, NvidiaModels[modelDraw], deviceId, NvidiaTail)
  }
}
