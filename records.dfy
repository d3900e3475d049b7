/** The records the core reads and writes: the geo/IP description of a
    proxy, stored cookies, and the window and proxy rows of the record store
    (a map from id to record). */
module Records {
  import opened Js

  /** What the geo lookup returns for a proxy's egress IP (`IP` in the
      sources). A field the lookup's JSON lacks is `None`; `ll` is
      [latitude, longitude]. */
  datatype IpInfo = IpInfo(timeZone: JsString, ip: JsString, ll: seq<real>, country: JsString, lang: JsString)

  /** `{ timeZone: '', ip: '', ll: [], country: '', lang: '' }`, used when the
      window has no proxy. */
  const DefaultIpInfo := IpInfo(Some(""), Some(""), [], Some(""), Some(""))

  /** `{}`: the object `testProxy` stores when the lookup returned nothing. */
  const EmptyIpInfo := IpInfo(None, None, [], None, None)

  /** A browser cookie, kept opaque beyond the fields that identify it. */
  datatype Cookie = Cookie(name: string, value: string, domain: string)

  /** A window row. `status` is 1 when idle and 2 when open; `port` is the
      browser's debug port; `cookie` is the stored cookie JSON. */
  datatype WindowRecord = WindowRecord(
    id: int,
    profileId: string,
    proxyId: Option<int>,
    status: int,
    port: Option<nat>,
    openedAt: Option<int>,
    cookie: JsString)

  /** One line of the connectivity report of `testProxy`. */
  datatype ConnectivityEntry = ConnectivityEntry(name: string, elapsedTime: int, status: string, reason: JsString)

  /** The report `testProxy` builds and stores as the proxy's check result. */
  datatype ProxyTestReport = ProxyTestReport(ipInfo: Option<IpInfo>, connectivity: seq<ConnectivityEntry>)

  /** A proxy row: the type and `host:port:user:pass` string, which geo backend
      to use, and the diagnostic fields written by the connectivity test. */
  datatype ProxyRecord = ProxyRecord(
    id: Option<int>,
    proxyType: JsString,
    proxy: JsString,
    ip: JsString,
    ipChecker: JsString,
    ipCountry: JsString,
    checkResult: Option<ProxyTestReport>,
    checkedAt: Option<int>)

  /** The record store: window and proxy rows by id. An update of an id
      that has no row changes nothing. */
  class RecordStore {
    var windows: map<int, WindowRecord>
    var proxies: map<int, ProxyRecord>

    constructor(windows: map<int, WindowRecord>, proxies: map<int, ProxyRecord>)
      ensures this.windows == windows && this.proxies == proxies
    {
      this.windows := windows;
      this.proxies := proxies;
    }

    /** `WindowDB.update(id, { status, port, opened_at })`; `openedAt` is
        `None` when the patch does not set it. */
    method UpdateWindow(id: int, status: int, port: Option<nat>, openedAt: Option<int>)
      modifies this
      ensures proxies == old(proxies)
      ensures id in old(windows) ==>
        windows == old(windows)[id := old(windows)[id].(status := status, port := port,
          openedAt := if openedAt.Some? then openedAt else old(windows)[id].openedAt)]
      ensures id !in old(windows) ==> windows == old(windows)
    {
      if id in windows {
        var w := windows[id];
        windows := windows[id := w.(status := status, port := port,
          openedAt := if openedAt.Some? then openedAt else w.openedAt)];
      }
    }

    /** `ProxyDB.update(id, { ip, ip_country, check_result, checked_at })`. */
    method UpdateProxyCheck(id: int, ip: JsString, ipCountry: JsString, report: ProxyTestReport, checkedAt: int)
      modifies this
      ensures windows == old(windows)
      ensures id in old(proxies) ==>
        proxies == old(proxies)[id := old(proxies)[id].(ip := ip, ipCountry := ipCountry,
          checkResult := Some(report), checkedAt := Some(checkedAt))]
      ensures id !in old(proxies) ==> proxies == old(proxies)
    {
      if id in proxies {
        var p := proxies[id];
        proxies := proxies[id := p.(ip := ip, ipCountry := ipCountry,
          checkResult := Some(report), checkedAt := Some(checkedAt))];
      }
    }
  }
}
