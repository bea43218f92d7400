/** The handler's configuration record and its construction from crawler
    settings (`Config.from_settings`). */
module Config {
  import opened Common

  const DefaultBrowserType: string := "chromium"
  const DefaultTargetClosedMaxRetries: nat := 3
  const BothEndpointsMessage: string :=
    "Setting both PLAYWRIGHT_CDP_URL and PLAYWRIGHT_CONNECT_URL is not supported"

  type Kwargs = map<string, Value>

  /** The crawler settings the handler reads, each already passed through the
      Scrapy getter the source uses: `get` gives an optional value, `getdict`
      a dictionary (empty when unset), `getint` an integer (0 when unset),
      `getbool` an optional flag (None when unset, so the default applies). */
  datatype Settings = Settings(
    cdpUrl: Option<string>,                   // PLAYWRIGHT_CDP_URL
    cdpKwargs: Kwargs,                        // PLAYWRIGHT_CDP_KWARGS
    connectUrl: Option<string>,               // PLAYWRIGHT_CONNECT_URL
    connectKwargs: Kwargs,                    // PLAYWRIGHT_CONNECT_KWARGS
    browserType: Option<string>,              // PLAYWRIGHT_BROWSER_TYPE
    launchOptions: Kwargs,                    // PLAYWRIGHT_LAUNCH_OPTIONS
    maxPagesPerContext: int,                  // PLAYWRIGHT_MAX_PAGES_PER_CONTEXT
    maxContexts: int,                         // PLAYWRIGHT_MAX_CONTEXTS
    contexts: map<string, Kwargs>,            // PLAYWRIGHT_CONTEXTS
    navigationTimeout: Option<real>,          // PLAYWRIGHT_DEFAULT_NAVIGATION_TIMEOUT, as coerced
    restartDisconnectedBrowser: Option<bool>, // PLAYWRIGHT_RESTART_DISCONNECTED_BROWSER
    threadedLoop: Option<bool>,               // _PLAYWRIGHT_THREADED_LOOP
    concurrentRequests: int                   // CONCURRENT_REQUESTS
  )

  datatype Config = Config(
    cdpUrl: Option<string>,
    cdpKwargs: Kwargs,
    connectUrl: Option<string>,
    connectKwargs: Kwargs,
    browserTypeName: string,
    launchOptions: Kwargs,
    maxPagesPerContext: int,
    maxContexts: Option<int>,
    startupContextKwargs: map<string, Kwargs>,
    navigationTimeout: Option<real>,
    restartDisconnectedBrowser: bool,
    targetClosedMaxRetries: nat,
    useThreadedLoop: bool
  )
  {
    /** Whether a remote browser is configured (`cfg.cdp_url or cfg.connect_url`). */
    predicate IsRemote() { SetUrl(cdpUrl) || SetUrl(connectUrl) }
  }

  /** Python truthiness of an optional URL string. */
  predicate SetUrl(url: Option<string>)
  {
    url.Some? && url.value != ""
  }

  /** What every configuration built from settings satisfies. */
  predicate Normalised(c: Config)
  {
    && !(SetUrl(c.cdpUrl) && SetUrl(c.connectUrl))
    && c.browserTypeName != ""
    && c.maxContexts != Some(0)
    && "endpoint_url" !in c.cdpKwargs
    && "ws_endpoint" !in c.connectKwargs
    && c.targetClosedMaxRetries == DefaultTargetClosedMaxRetries
  }

  /** `Config.from_settings`; `onWindows` stands for `platform.system() == "Windows"`. */
  function FromSettings(s: Settings, onWindows: bool): (r: Result<Config>)
    ensures r.Err? <==> SetUrl(s.cdpUrl) && SetUrl(s.connectUrl)
    ensures r.Err? ==> r.error == NotSupported(BothEndpointsMessage)
    ensures r.Ok? ==> Normalised(r.value)
    ensures r.Ok? ==> r.value.cdpUrl == s.cdpUrl && r.value.connectUrl == s.connectUrl
    ensures r.Ok? ==> r.value.cdpKwargs == s.cdpKwargs - {"endpoint_url"}
    ensures r.Ok? ==> r.value.connectKwargs == s.connectKwargs - {"ws_endpoint"}
    ensures r.Ok? && s.browserType.Some? && s.browserType.value != "" ==>
              r.value.browserTypeName == s.browserType.value
    ensures r.Ok? && (s.browserType.None? || s.browserType.value == "") ==>
              r.value.browserTypeName == DefaultBrowserType
    ensures r.Ok? ==> (r.value.maxContexts.None? <==> s.maxContexts == 0)
    ensures r.Ok? && s.maxContexts != 0 ==> r.value.maxContexts == Some(s.maxContexts)
    ensures r.Ok? && s.maxPagesPerContext != 0 ==> r.value.maxPagesPerContext == s.maxPagesPerContext
    ensures r.Ok? && s.maxPagesPerContext == 0 ==> r.value.maxPagesPerContext == s.concurrentRequests
    ensures r.Ok? ==> r.value.restartDisconnectedBrowser == (s.restartDisconnectedBrowser != Some(false))
    ensures r.Ok? ==> r.value.useThreadedLoop == (onWindows || s.threadedLoop == Some(true))
    ensures r.Ok? ==> r.value.launchOptions == s.launchOptions && r.value.startupContextKwargs == s.contexts
                      && r.value.navigationTimeout == s.navigationTimeout
  {
    if SetUrl(s.cdpUrl) && SetUrl(s.connectUrl) then
      Err(NotSupported(BothEndpointsMessage))
    else
      Ok(Config(
        cdpUrl := s.cdpUrl,
        cdpKwargs := s.cdpKwargs - {"endpoint_url"},
        connectUrl := s.connectUrl,
        connectKwargs := s.connectKwargs - {"ws_endpoint"},
        browserTypeName := BrowserTypeOr(s.browserType),
        launchOptions := s.launchOptions,
        maxPagesPerContext := if s.maxPagesPerContext != 0 then s.maxPagesPerContext
                              else s.concurrentRequests,
        maxContexts := if s.maxContexts != 0 then Some(s.maxContexts) else None,
        startupContextKwargs := s.contexts,
        navigationTimeout := s.navigationTimeout,
        restartDisconnectedBrowser := s.restartDisconnectedBrowser != Some(false),
        targetClosedMaxRetries := DefaultTargetClosedMaxRetries,
        useThreadedLoop := onWindows || s.threadedLoop == Some(true)
      ))
  }

  /** `settings.get("PLAYWRIGHT_BROWSER_TYPE") or DEFAULT_BROWSER_TYPE` */
  function BrowserTypeOr(b: Option<string>): string
  {
    if b.Some? && b.value != "" then b.value else DefaultBrowserType
  }

  /** Settings that describe an existing configuration, set explicitly. */
  function ToSettings(c: Config): Settings
  {
    Settings(
      cdpUrl := c.cdpUrl,
      cdpKwargs := c.cdpKwargs,
      connectUrl := c.connectUrl,
      connectKwargs := c.connectKwargs,
      browserType := Some(c.browserTypeName),
      launchOptions := c.launchOptions,
      maxPagesPerContext := c.maxPagesPerContext,
      maxContexts := match c.maxContexts
                     case Some(n) => n
                     case None => 0,
      contexts := c.startupContextKwargs,
      navigationTimeout := c.navigationTimeout,
      restartDisconnectedBrowser := Some(c.restartDisconnectedBrowser),
      threadedLoop := Some(c.useThreadedLoop),
      concurrentRequests := c.maxPagesPerContext
    )
  }

  /** A normalised configuration is exactly what its own settings produce:
      normalisation loses nothing a configuration can hold. */
  lemma FromSettingsRoundTrip(c: Config)
    requires Normalised(c)
    ensures FromSettings(ToSettings(c), false) == Ok(c)
  {
    var s := ToSettings(c);
    assert s.cdpKwargs - {"endpoint_url"} == c.cdpKwargs;
    assert s.connectKwargs - {"ws_endpoint"} == c.connectKwargs;
  }

  /** Normalising the settings of a built configuration changes nothing. */
  lemma FromSettingsIdempotent(s: Settings, onWindows: bool)
    requires FromSettings(s, onWindows).Ok?
    ensures FromSettings(ToSettings(FromSettings(s, onWindows).value), false) == FromSettings(s, onWindows)
  {
    FromSettingsRoundTrip(FromSettings(s, onWindows).value);
  }
}
