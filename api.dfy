/** packages/shared/api/api.ts: the shared HTTP client's interceptors. The
    request interceptor upgrades an `http` proxy protocol to `https` for an
    `https` URL, in place on the request config; the response interceptor
    passes responses through. */
module Api {
  import opened Js
  import Text

  datatype ProxyAuth = ProxyAuth(username: string, password: string)

  /** An axios proxy description (`AxiosProxyConfig`). */
  datatype ProxyConfig = ProxyConfig(host: string, port: int, protocol: JsString, auth: Option<ProxyAuth>)

  /** `config.proxy`: absent, `false` (proxying disabled), or a proxy. Only the
      last is truthy. */
  datatype ProxySetting = Unset | Disabled | Proxy(config: ProxyConfig)

  /** The interceptor's condition: the URL starts with `https`, a proxy is set
      and its protocol is `http`. */
  predicate NeedsUpgrade(url: JsString, proxy: ProxySetting) {
    && url.Some? && Text.StartsWith(url.value, "https")
    && proxy.Proxy? && proxy.config.protocol == Some("http")
  }

  /** The proxy setting after the request interceptor: `{...proxy, protocol: 'https'}`
      when the condition holds, otherwise the setting as it was. */
  function UpgradedProxy(url: JsString, proxy: ProxySetting): (r: ProxySetting)
    ensures NeedsUpgrade(url, proxy) ==> r.Proxy? && r.config.protocol == Some("https")
    ensures NeedsUpgrade(url, proxy) ==>
      r.config.host == proxy.config.host && r.config.port == proxy.config.port && r.config.auth == proxy.config.auth
    ensures !NeedsUpgrade(url, proxy) ==> r == proxy
  {
    if NeedsUpgrade(url, proxy) then Proxy(proxy.config.(protocol := Some("https"))) else proxy
  }

  /** Applying the interceptor twice is applying it once. */
  lemma UpgradeIdempotent(url: JsString, proxy: ProxySetting)
    ensures UpgradedProxy(url, UpgradedProxy(url, proxy)) == UpgradedProxy(url, proxy)
  {
  }

  /** After the interceptor, no `https` URL goes through an `http` proxy. */
  lemma NoHttpProxyForHttpsUrl(url: JsString, proxy: ProxySetting)
    requires url.Some? && Text.StartsWith(url.value, "https")
    ensures var r := UpgradedProxy(url, proxy); !(r.Proxy? && r.config.protocol == Some("http"))
  {
  }

  /** The part of an axios request config the interceptor reads and writes. */
  class RequestConfig {
    var url: JsString
    var proxy: ProxySetting

    constructor(url: JsString, proxy: ProxySetting)
      ensures this.url == url && this.proxy == proxy
    {
      this.url := url;
      this.proxy := proxy;
    }
  }

  /** The request interceptor: rewrites `config.proxy` in place and returns the
      same config object. */
  method InterceptRequest(config: RequestConfig) returns (r: RequestConfig)
    modifies config
    ensures r == config
    ensures config.url == old(config.url)
    ensures config.proxy == UpgradedProxy(old(config.url), old(config.proxy))
  {
    if config.url.Some? && Text.StartsWith(config.url.value, "https")
      && config.proxy.Proxy? && config.proxy.config.protocol == Some("http")
    {
      config.proxy := Proxy(config.proxy.config.(protocol := Some("https")));
    }
    return config;
  }

  /** The response interceptor hands every response on unchanged. */
  function InterceptResponse<T>(response: T): (r: T)
    ensures r == response
  {
    response
  }
}
