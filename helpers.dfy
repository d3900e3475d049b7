/** packages/main/src/puppeteer/helpers.ts: page helpers. The title marker,
    the cookie cache lookup and the set decision, the stored-cookie preset,
    the frame-navigation handler and the time-zone script. Puppeteer and CDP
    calls are replaced by the page and browser state they change, with their
    outcomes as parameters. */
module Helpers {
  import opened Js
  import Text
  import Template
  import Records

  // ------------------------------------------------------------ title marker

  const Marker := "By WND"

  /** The `framenavigated` handler's title rule: append `' By WND'` unless the
      title already contains `By WND`. */
  function MarkTitle(title: string): (r: string)
    ensures Text.Contains(r, Marker)
    ensures Text.Contains(title, Marker) ==> r == title
    ensures !Text.Contains(title, Marker) ==> r == title + " " + Marker
  {
    if Text.Contains(title, Marker) then title
    else
      Text.ContainsInfix(title + " ", Marker, "");
      assert title + " " + Marker + "" == title + " " + Marker;
      title + " " + Marker
  }

  /** Marking a marked title changes nothing. */
  lemma MarkTitleIdempotent(title: string)
    ensures MarkTitle(MarkTitle(title)) == MarkTitle(title)
  {
  }

  // ------------------------------------------------------------ cookie cache

  /** What `getCookie` returns: `null` when the window has no map, otherwise
      the domain's entry, `undefined` (`None`) when the domain is absent. */
  datatype CookieLookup = NoWindowMap | DomainEntry(cookies: Option<seq<Records.Cookie>>)

  /** `cookieMap`: window id to domain to cookies. The only writer in the
      source is commented out, so the cache stays as constructed: empty. */
  class CookieCache {
    var windows: map<int, map<string, seq<Records.Cookie>>>

    constructor()
      ensures windows == map[]
    {
      windows := map[];
    }

    /** getCookie. */
    function GetCookie(windowId: int, domain: string): (r: CookieLookup)
      reads this
      ensures windowId !in windows <==> r == NoWindowMap
      ensures windowId in windows && domain in windows[windowId] ==>
        r == DomainEntry(Some(windows[windowId][domain]))
      ensures windowId in windows && domain !in windows[windowId] ==> r == DomainEntry(None)
    {
      if windowId in windows then
        var m := windows[windowId];
        if domain in m then DomainEntry(Some(m[domain])) else DomainEntry(None)
      else NoWindowMap
    }
  }

  /** A cache no one has written answers `null` for every window and domain. */
  lemma EmptyCacheAnswersNull(cache: CookieCache, windowId: int, domain: string)
    requires cache.windows == map[]
    ensures cache.GetCookie(windowId, domain) == NoWindowMap
  {
  }

  /** The cookies `setCookieToPage` sets: the stored list, only when the page
      has no cookies and the stored list is present and non-empty. */
  function CookiesToSet(pageCookieCount: nat, stored: CookieLookup): (r: Option<seq<Records.Cookie>>)
    ensures r.Some? <==> pageCookieCount == 0 && stored.DomainEntry? && stored.cookies.Some? && |stored.cookies.value| > 0
    ensures r.Some? ==> r == stored.cookies
  {
    if pageCookieCount == 0 && stored.DomainEntry? && stored.cookies.Some? && |stored.cookies.value| > 0
    then stored.cookies
    else None
  }

  // ------------------------------------------------------------ page, browser

  datatype Geolocation = Geolocation(latitude: Option<real>, longitude: Option<real>)

  /** The page state the helpers read and change. */
  class Page {
    var title: string
    var cookies: seq<Records.Cookie>
    var geolocation: Option<Geolocation>
    var emulatedTimeZone: Option<JsString>
    var newDocumentScripts: seq<string>

    constructor(title: string, cookies: seq<Records.Cookie>)
      ensures this.title == title && this.cookies == cookies
      ensures geolocation.None? && emulatedTimeZone.None? && newDocumentScripts == []
    {
      this.title := title;
      this.cookies := cookies;
      geolocation := None;
      emulatedTimeZone := None;
      newDocumentScripts := [];
    }
  }

  /** setCookieToPage, with the page URL's host name as a parameter: the
      cached cookies for that host are set on a page that has none. */
  method SetCookieToPage(cache: CookieCache, windowId: int, hostname: string, page: Page)
    modifies page
    ensures var toSet := CookiesToSet(|old(page.cookies)|, cache.GetCookie(windowId, hostname));
      page.cookies == if toSet.Some? then old(page.cookies) + toSet.value else old(page.cookies)
    ensures page.title == old(page.title) && page.geolocation == old(page.geolocation)
    ensures page.emulatedTimeZone == old(page.emulatedTimeZone)
    ensures page.newDocumentScripts == old(page.newDocumentScripts)
  {
    var cookie := cache.GetCookie(windowId, hostname);
    var pageCookies := page.cookies;
    if |pageCookies| == 0 {
      if cookie.DomainEntry? && cookie.cookies.Some? && |cookie.cookies.value| > 0 {
        page.cookies := page.cookies + cookie.cookies.value;
      }
    }
  }

  /** With the cache as the source leaves it, no page ever gets cookies from it. */
  lemma NoCookiesFromEmptyCache(cache: CookieCache, windowId: int, hostname: string, count: nat)
    requires cache.windows == map[]
    ensures CookiesToSet(count, cache.GetCookie(windowId, hostname)).None?
  {
    EmptyCacheAnswersNull(cache, windowId, hostname);
  }

  /** The browser state `presetCookie` changes: its cookie jar and the error
      notices sent to the UI. */
  class Browser {
    var cookieJar: seq<Records.Cookie>
    var notices: seq<string>

    constructor()
      ensures cookieJar == [] && notices == []
    {
      cookieJar := [];
      notices := [];
    }
  }

  const CookieParseNotice := "Cookie JSON 解析错误"

  /** presetCookie, with the window row (`None` when absent), the JSON parse of
      its stored cookie (`None` on a parse error) and whether the CDP
      `Network.setCookies` call succeeds as parameters. Nothing is injected
      unless the stored cookie is a non-empty string; a parse error posts a
      notice; a rejected CDP call rejects the whole call (`Err`). Whenever
      it returns, it returns true. */
  method PresetCookie(browser: Browser, window: Option<Records.WindowRecord>,
                      parsed: Option<seq<Records.Cookie>>, cdpAccepts: bool)
    returns (r: Result<bool, string>)
    modifies browser
    ensures var injects := window.Some? && Truthy(window.value.cookie);
      && (!injects ==> r == Ok(true) && browser.cookieJar == old(browser.cookieJar)
                                     && browser.notices == old(browser.notices))
      && (injects ==> browser.notices == old(browser.notices) + (if parsed.None? then [CookieParseNotice] else []))
      && (injects && cdpAccepts ==> r == Ok(true) && browser.cookieJar == old(browser.cookieJar) + parsed.GetOr([]))
      && (injects && !cdpAccepts ==> r.Err? && browser.cookieJar == old(browser.cookieJar))
  {
    if window.Some? && Truthy(window.value.cookie) {
      if parsed.None? {
        browser.notices := browser.notices + [CookieParseNotice];
      }
      if !cdpAccepts {
        return Err("Network.setCookies failed");
      }
      browser.cookieJar := browser.cookieJar + parsed.GetOr([]);
    }
    return Ok(true);
  }

  // ------------------------------------------------------------ page info

  /** The `framenavigated` handler of modifyPageInfo, with the outcomes of
      `setGeolocation` and `emulateTimezone` as parameters. The title is marked,
      then the geolocation is set to `ll[0]`, `ll[1]`, then the time zone; a
      failing step ends the handler (its error is caught and logged). */
  method OnFrameNavigated(page: Page, ipInfo: Records.IpInfo, geoAccepts: bool, tzAccepts: bool)
    modifies page
    ensures page.title == MarkTitle(old(page.title))
    ensures page.cookies == old(page.cookies) && page.newDocumentScripts == old(page.newDocumentScripts)
    ensures page.geolocation == if geoAccepts then Some(Geolocation(Nth(ipInfo.ll, 0), Nth(ipInfo.ll, 1))) else old(page.geolocation)
    ensures page.emulatedTimeZone == if geoAccepts && tzAccepts then Some(ipInfo.timeZone) else old(page.emulatedTimeZone)
  {
    var title := page.title;
    if !Text.Contains(title, Marker) {
      page.title := title + " " + Marker;
    }
    if !geoAccepts {
      return;
    }
    page.geolocation := Some(Geolocation(Nth(ipInfo.ll, 0), Nth(ipInfo.ll, 1)));
    if !tzAccepts {
      return;
    }
    page.emulatedTimeZone := Some(ipInfo.timeZone);
  }

  /** The script that disables the media and WebRTC APIs on every new document. */
  const MediaScript := "navigator.mediaDevices.getUserMedia = navigator.webkitGetUserMedia = navigator.mozGetUserMedia = navigator.getUserMedia = webkitRTCPeerConnection = RTCPeerConnection = MediaStreamTrack = undefined;"

  /** modifyPageInfo's scripts: the media script, then the time-zone script for
      `ipInfo.timeZone` (an absent zone is spliced in as `undefined`). */
  method ModifyPageInfo(page: Page, ipInfo: Records.IpInfo)
    modifies page
    ensures page.newDocumentScripts == old(page.newDocumentScripts) + [MediaScript, TimeZoneScript(Show(ipInfo.timeZone))]
    ensures page.title == old(page.title) && page.cookies == old(page.cookies)
    ensures page.geolocation == old(page.geolocation) && page.emulatedTimeZone == old(page.emulatedTimeZone)
  {
    page.newDocumentScripts := page.newDocumentScripts + [MediaScript];
    page.newDocumentScripts := page.newDocumentScripts + [TimeZoneScript(Show(ipInfo.timeZone))];
  }

  // ------------------------------------------------------------ time-zone script

  /** timeZoneScript's fixed text, around the two sites where the zone is
      spliced in: where it overrides `Intl.DateTimeFormat` and where it
      computes the offset. */
  const TimeZoneScriptParts: seq<string> := [
@"
Object.defineProperty(Intl, 'DateTimeFormat', {
    get: function() {
        return function(...args) {
            return new Date().toLocaleString('en-US', {timeZone: '",
@"'});
        }
    }
});

const _Date = Date;
Date = class extends _Date {
    constructor(...args) {
        if (args.length === 0) {
            super();
        } else {
            super(...args);
        }
    }
}

// 获取时区偏移
const getTimezoneOffset = () => {
    const date = new Date();
    const timeString = date.toLocaleString('en-US', { timeZone: '",
@"' });
    const localTime = new Date(timeString);
    const utcTime = new Date(date.toLocaleString('en-US', { timeZone: 'UTC' }));
    return (localTime - utcTime) / (3600 * 1000);
};

const offset = getTimezoneOffset();
Date.prototype = _Date.prototype;
Date.now = () => new _Date().getTime() + offset * 3600 * 1000;
"
  ]

  /** timeZoneScript: the fixed script text with the zone spliced in twice,
      so the script is as long as the fixed text and two copies of the zone.
      Where each part lands is `TimeZoneScriptText`. */
  function TimeZoneScript(timezone: string): (s: string)
    ensures |s| == |TimeZoneScriptParts[0]| + |TimeZoneScriptParts[1]| + |TimeZoneScriptParts[2]| + 2 * |timezone|
  {
    Template.TwoHoleLength(TimeZoneScriptParts, timezone, timezone);
    Template.Interpolate(TimeZoneScriptParts, [timezone, timezone])
  }

  /** The time-zone script reads as its template: the fixed text, with the
      zone at both of its sites and nothing else added. */
  lemma TimeZoneScriptText(timezone: string)
    ensures Template.Fills(TimeZoneScript(timezone), TimeZoneScriptParts, [timezone, timezone])
  {
    Template.InterpolateFills(TimeZoneScriptParts, [timezone, timezone]);
  }

  /** Different zones give different scripts. */
  lemma TimeZoneScriptInjective(a: string, b: string)
    requires TimeZoneScript(a) == TimeZoneScript(b)
    ensures a == b
  {
    TimeZoneScriptText(a);
    TimeZoneScriptText(b);
    Template.SameValueTwiceDetermined(TimeZoneScript(a), TimeZoneScriptParts, a, b);
  }
}
