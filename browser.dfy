// The browser session of Playwright.cs: the memoised driver and browser
// handles, engine selection, the timeout arithmetic, the options a browser
// context is created with, resource blocking and the error-swallowing
// shutdown. The Playwright library itself is reduced to the calls the session
// makes on it; whether a call fails is a parameter.

module Browser {
  import opened Wrappers
  import opened Text
  import opened Settings
  import opened Logging

  // ---------------------------------------------------------------------------
  // Engines

  datatype Engine = Chromium | Firefox | WebKit

  function EngineName(e: Engine): string
  {
    match e
    case Chromium => "chromium"
    case Firefox => "firefox"
    case WebKit => "webkit"
  }

  /** The engine the configured name selects, by its lower-case form. */
  function SelectEngine(navegadorPadrao: string): Engine
  {
    var t := ToLower(navegadorPadrao);
    if t == EngineName(Firefox) then Firefox
    else if t == EngineName(WebKit) then WebKit
    else Chromium
  }

  /** "firefox" and "webkit" in any letter case select their engines; every
      other name, "chromium" and the empty text included, selects Chromium. */
  lemma SelectEngineSpec(navegadorPadrao: string)
    ensures SelectEngine(navegadorPadrao) == Firefox <==> ToLower(navegadorPadrao) == "firefox"
    ensures SelectEngine(navegadorPadrao) == WebKit <==> ToLower(navegadorPadrao) == "webkit"
    ensures SelectEngine(navegadorPadrao) == Chromium <==>
      ToLower(navegadorPadrao) != "firefox" && ToLower(navegadorPadrao) != "webkit"
  {
  }

  /** Every engine's own name selects it. */
  lemma SelectEngineRoundTrip(e: Engine)
    ensures SelectEngine(EngineName(e)) == e
  {
    var n := EngineName(e);
    assert forall i :: 0 <= i < |n| ==> !IsUpper(n[i]);
    ToLowerOfLower(n);
    assert EngineName(Firefox) != EngineName(WebKit);
  }

  // ---------------------------------------------------------------------------
  // Timeouts and context options

  /** `TimeoutSegundos * 1000`, evaluated in unchecked 32-bit arithmetic: the
      launch, page-default and navigation timeout in milliseconds. */
  function TimeoutMs(nav: NavegacaoConfig): int32
  {
    Wrap32(nav.timeoutSegundos as int * 1000)
  }

  /** Up to 2147483 seconds the product fits and is the exact conversion. */
  lemma TimeoutMsExact(nav: NavegacaoConfig)
    requires -2147483 <= nav.timeoutSegundos <= 2147483
    ensures TimeoutMs(nav) as int == nav.timeoutSegundos as int * 1000
  {
  }

  /** A positive timeout that validation accepts still yields a negative
      millisecond count once the product leaves the 32-bit range. */
  lemma TimeoutMsOverflow()
    ensures var c := DefaultConfig.(navegacao := DefaultNavegacao.(timeoutSegundos := 2147484));
      !Fails(c, TimeoutCheck) && TimeoutMs(c.navegacao) as int == -2147483296
  {
    var c := DefaultConfig.(navegacao := DefaultNavegacao.(timeoutSegundos := 2147484));
    assert 2147484 * 1000 - 0x1_0000_0000 == -2147483296;
    assert (2147484 * 1000) % 0x1_0000_0000 == 2147484000;
  }

  /** The wait used by `AguardarElemento`: the caller's override when one is
      given, the configured timeout otherwise. */
  function WaitTimeout(timeoutPersonalizado: Option<int32>, nav: NavegacaoConfig): (r: int32)
  {
    if timeoutPersonalizado.Some? then timeoutPersonalizado.value else TimeoutMs(nav)
  }

  /** An override wins, even a zero one; without one the configured timeout
      applies. */
  lemma WaitTimeoutChoice(timeoutPersonalizado: Option<int32>, nav: NavegacaoConfig)
    ensures timeoutPersonalizado.Some? ==> WaitTimeout(timeoutPersonalizado, nav) == timeoutPersonalizado.value
    ensures timeoutPersonalizado.None? ==> WaitTimeout(timeoutPersonalizado, nav) == TimeoutMs(nav)
  {
  }

  /** The user agent handed to the context: none for the empty text, the
      configured text otherwise. */
  function UserAgentOption(userAgent: string): Option<string>
  {
    if userAgent == [] then None else Some(userAgent)
  }

  /** The configured user agent is passed through unchanged, blanks included,
      and only the empty text is dropped. */
  lemma UserAgentRoundTrip(userAgent: string)
    ensures UserAgentOption(userAgent).None? <==> userAgent == []
    ensures UserAgentOption(userAgent).Some? ==> UserAgentOption(userAgent).value == userAgent
  {
  }

  datatype ViewportSize = ViewportSize(width: int32, height: int32)

  datatype ContextOptions = ContextOptions(viewport: ViewportSize, userAgent: Option<string>)

  function ContextOptionsFor(nav: NavegacaoConfig): ContextOptions
  {
    ContextOptions(ViewportSize(nav.viewportWidth, nav.viewportHeight), UserAgentOption(nav.userAgent))
  }

  // ---------------------------------------------------------------------------
  // Resource blocking

  const ImagePattern := "**/*.{png,jpg,jpeg,gif,svg,webp,ico,bmp}"
  const StylePatterns := ["**/*.css", "**/*.woff", "**/*.woff2", "**/*.ttf"]

  /** The glob list `ConfigurarBloqueiosRecursos` assembles: the image glob
      when images are blocked, then the style and font globs when stylesheets
      are blocked. */
  function BlockPatterns(bloquearImagens: bool, bloquearCss: bool): seq<string>
  {
    (if bloquearImagens then [ImagePattern] else []) + (if bloquearCss then StylePatterns else [])
  }

  /** The four flag combinations: nothing, the image glob alone, the four style
      globs alone, or all five with the image glob first. */
  lemma BlockPatternsCases(bloquearImagens: bool, bloquearCss: bool)
    ensures var ps := BlockPatterns(bloquearImagens, bloquearCss);
      |ps| == (if bloquearImagens then 1 else 0) + (if bloquearCss then 4 else 0) &&
      (ImagePattern in ps <==> bloquearImagens) &&
      (bloquearImagens ==> ps[0] == ImagePattern) &&
      (forall p :: p in StylePatterns ==> (p in ps <==> bloquearCss))
  {
    var ps := BlockPatterns(bloquearImagens, bloquearCss);
    assert ImagePattern !in StylePatterns by {
      forall i | 0 <= i < |StylePatterns| ensures StylePatterns[i] != ImagePattern {
        assert |StylePatterns[i]| < |ImagePattern|;
      }
    }
    if bloquearImagens {
      forall p | p in StylePatterns ensures p in ps <==> bloquearCss {
        assert p != ImagePattern;
      }
    }
  }

  /** `string.Join(", ", recursos)`. */
  function Join(items: seq<string>): string
  {
    if items == [] then ""
    else if |items| == 1 then items[0]
    else items[0] + ", " + Join(items[1..])
  }

  // ---------------------------------------------------------------------------
  // The library's objects

  /** A launched browser: the engine and the launch options it was given. */
  datatype BrowserHandle = BrowserHandle(serial: nat, engine: Engine, headless: bool, launchTimeout: int32)

  datatype WaitUntilState = DOMContentLoaded
  datatype SelectorState = Visible

  /** A call the session makes on a page. */
  datatype PageCall =
    | Goto(url: string, timeout: int32, waitUntil: WaitUntilState)
    | WaitForSelector(selector: string, timeout: int32, state: SelectorState)

  /** An isolated browser context and the URL globs whose requests it aborts. */
  class BrowserContext {
    const browser: BrowserHandle
    const options: ContextOptions
    var routes: seq<string>

    constructor(browser: BrowserHandle, options: ContextOptions)
      ensures this.browser == browser && this.options == options && routes == []
    {
      this.browser := browser;
      this.options := options;
      routes := [];
    }

    /** `RouteAsync(pattern, route => route.AbortAsync())`. */
    method Route(pattern: string)
      modifies this
      ensures routes == old(routes) + [pattern]
    {
      routes := routes + [pattern];
    }

    /** `NewPageAsync`: the page sees the routes installed so far. */
    method NewPage() returns (p: Page)
      ensures fresh(p)
      ensures p.context == this && p.blockedAtCreation == routes
      ensures p.defaultTimeout == None && p.calls == []
    {
      p := new Page(this, routes);
    }
  }

  class Page {
    const context: BrowserContext
    const blockedAtCreation: seq<string>
    var defaultTimeout: Option<int32>
    var calls: seq<PageCall>

    constructor(context: BrowserContext, blocked: seq<string>)
      ensures this.context == context && blockedAtCreation == blocked
      ensures defaultTimeout == None && calls == []
    {
      this.context := context;
      blockedAtCreation := blocked;
      defaultTimeout := None;
      calls := [];
    }

    method SetDefaultTimeout(ms: int32)
      modifies this
      ensures defaultTimeout == Some(ms) && calls == old(calls)
    {
      defaultTimeout := Some(ms);
    }

    method Call(c: PageCall)
      modifies this
      ensures defaultTimeout == old(defaultTimeout) && calls == old(calls) + [c]
    {
      calls := calls + [c];
    }
  }

  // ---------------------------------------------------------------------------
  // Log texts

  const MsgStarting := "Inicializando Playwright..."
  const MsgPageCreated := "Nova página criada com configurações aplicadas"
  const MsgBrowserClosed := "Navegador fechado"
  const MsgFinished := "Playwright finalizado"
  const CtxInicializar := "Playwright.InicializarNavegador"
  const CtxFinalizar := "Playwright.Finalizar"

  function LaunchedText(navegadorPadrao: string): string
  {
    "\U{2705} Navegador " + navegadorPadrao + " iniciado"
  }

  function BlockText(recursos: seq<string>): string
  {
    "Bloqueio de recursos configurado: " + Join(recursos)
  }

  function NavigatingText(url: string): string { "Navegando para: " + url }

  function LoadedText(url: string): string { "\U{2705} Página carregada: " + url }

  function NavContext(url: string): string { "Playwright.NavegarPara(" + url + ")" }

  // ---------------------------------------------------------------------------
  // The session

  /** How the library answers a launch attempt. */
  datatype LaunchOutcome = CreateFails(ex: Exception) | LaunchFails(ex: Exception) | Launches

  /** The browser a launch yields: the engine the configured name selects,
      started with the configured headless flag and timeout. */
  function LaunchedBrowser(serial: nat, nav: NavegacaoConfig): BrowserHandle
  {
    BrowserHandle(serial, SelectEngine(nav.navegadorPadrao), nav.headlessMode, TimeoutMs(nav))
  }

  /** The log entry that closes a launch attempt made with pipeline `p`: the
      browser reported at Information, or the failure at Error. */
  function OutcomeEntries(p: Option<Pipeline>, nav: NavegacaoConfig, outcome: LaunchOutcome): seq<Entry>
  {
    if outcome.Launches? then Dispatch(p, Information, LaunchedText(nav.navegadorPadrao), None)
    else Dispatch(p, Error, ErroText(CtxInicializar, outcome.ex.message), Some(outcome.ex))
  }

  /** The log entries of resource blocking: one debug report, only when
      something is blocked. */
  function BlockEntries(p: Option<Pipeline>, nav: NavegacaoConfig): seq<Entry>
  {
    if !nav.bloquearImagens && !nav.bloquearCss then []
    else Dispatch(p, Debug, BlockText(BlockPatterns(nav.bloquearImagens, nav.bloquearCss)), None)
  }

  /** The static `Playwright` class: the settings it read once, the driver and
      browser it holds, and counters of what it asked the library for. */
  class SessionManager {
    const nav: NavegacaoConfig
    const log: Logger
    var playwright: Option<nat>
    var browser: Option<BrowserHandle>
    var driversCreated: nat
    var driversDisposed: nat
    var launches: nat

    constructor(nav: NavegacaoConfig, log: Logger)
      ensures this.nav == nav && this.log == log
      ensures playwright == None && browser == None
      ensures driversCreated == 0 && driversDisposed == 0 && launches == 0
    {
      this.nav := nav;
      this.log := log;
      playwright := None;
      browser := None;
      driversCreated := 0;
      driversDisposed := 0;
      launches := 0;
    }

    /** `InicializarNavegador`: a held browser is returned as it is, without
        logging; otherwise the launch below runs. */
    method InicializarNavegador(outcome: LaunchOutcome) returns (r: Result<BrowserHandle, Exception>)
      modifies this, log
      ensures old(browser).Some? ==> r == Success(old(browser).value)
      ensures old(browser).Some? ==> unchanged(this) && log.written == old(log.written)
      ensures log.pipeline == old(log.pipeline) && log.configurado == old(log.configurado)
      ensures old(browser).None? ==> LaunchPost(old(playwright), old(driversCreated), old(launches), outcome, r)
      ensures old(browser).None? ==>
        log.written == old(log.written) + Dispatch(log.pipeline, Information, MsgStarting, None) +
          OutcomeEntries(log.pipeline, nav, outcome)
      ensures driversDisposed == old(driversDisposed)
    {
      if browser.Some? {
        return Success(browser.value);
      }
      r := Launch(outcome);
    }

    /** The new session state after a launch attempt made from `playwright0`,
        `created0` drivers and `launches0` launches: a failed driver creation
        changes nothing; otherwise a new driver is held and counted, and the
        browser is held exactly when the launch succeeded. */
    ghost predicate LaunchPost(playwright0: Option<nat>, created0: nat, launches0: nat,
                               outcome: LaunchOutcome, r: Result<BrowserHandle, Exception>)
      reads this
    {
      (outcome.CreateFails? ==>
        r == Failure(outcome.ex) && browser == None && playwright == playwright0 &&
        driversCreated == created0 && launches == launches0) &&
      (!outcome.CreateFails? ==>
        playwright == Some(created0) && driversCreated == created0 + 1 && launches == launches0 + 1) &&
      (outcome.LaunchFails? ==> r == Failure(outcome.ex) && browser == None) &&
      (outcome.Launches? ==> r == Success(LaunchedBrowser(launches0, nav)) && browser == Some(r.value))
    }

    /** The `try` block of `InicializarNavegador`: announces the start, creates
        a driver, launches the browser and reports it; a failure is logged and
        passed on, and leaves no browser held, so the next call tries again. */
    method Launch(outcome: LaunchOutcome) returns (r: Result<BrowserHandle, Exception>)
      requires browser == None
      modifies this, log
      ensures LaunchPost(old(playwright), old(driversCreated), old(launches), outcome, r)
      ensures log.pipeline == old(log.pipeline) && log.configurado == old(log.configurado)
      ensures log.written == old(log.written) + Dispatch(log.pipeline, Information, MsgStarting, None) +
        OutcomeEntries(log.pipeline, nav, outcome)
      ensures driversDisposed == old(driversDisposed)
    {
      log.RegistrarInfo(MsgStarting);
      ghost var started := log.written;
      if outcome.CreateFails? {
        log.RegistrarErro(outcome.ex, CtxInicializar);
        assert log.written == started + OutcomeEntries(log.pipeline, nav, outcome);
        return Failure(outcome.ex);
      }
      playwright := Some(driversCreated);
      driversCreated := driversCreated + 1;
      launches := launches + 1;
      if outcome.LaunchFails? {
        log.RegistrarErro(outcome.ex, CtxInicializar);
        assert log.written == started + OutcomeEntries(log.pipeline, nav, outcome);
        return Failure(outcome.ex);
      }
      var b := LaunchedBrowser(launches - 1, nav);
      browser := Some(b);
      log.RegistrarInfo(LaunchedText(nav.navegadorPadrao));
      assert log.written == started + OutcomeEntries(log.pipeline, nav, outcome);
      r := Success(b);
    }

    /** `ConfigurarBloqueiosRecursos`: when either flag is set, routes every
        glob of the pattern list to an abort, in list order, and reports the
        list at Debug. */
    method ConfigurarBloqueiosRecursos(context: BrowserContext)
      modifies context, log
      ensures context.routes == old(context.routes) + BlockPatterns(nav.bloquearImagens, nav.bloquearCss)
      ensures log.pipeline == old(log.pipeline) && log.configurado == old(log.configurado)
      ensures log.written == old(log.written) + BlockEntries(log.pipeline, nav)
    {
      if !nav.bloquearImagens && !nav.bloquearCss {
        return;
      }
      var recursos: seq<string> := [];
      if nav.bloquearImagens {
        recursos := recursos + [ImagePattern];
      }
      assert recursos == BlockPatterns(nav.bloquearImagens, false);
      if nav.bloquearCss {
        recursos := recursos + StylePatterns;
      }
      assert recursos == BlockPatterns(nav.bloquearImagens, nav.bloquearCss);
      var i := 0;
      while i < |recursos|
        invariant 0 <= i <= |recursos|
        invariant context.routes == old(context.routes) + recursos[..i]
        modifies context
      {
        context.Route(recursos[i]);
        assert recursos[..i + 1] == recursos[..i] + [recursos[i]];
        i := i + 1;
      }
      assert recursos[..i] == recursos;
      log.RegistrarDebug(BlockText(recursos));
    }

    /** The part of `CriarPagina` after the browser is obtained: a context
        with the configured viewport and user agent, the resource blocking
        installed on it, and only then a page, whose default timeout is the
        configured one. */
    method OpenPage(b: BrowserHandle) returns (page: Page)
      modifies log
      ensures fresh(page) && fresh(page.context)
      ensures page.context.browser == b && page.context.options == ContextOptionsFor(nav)
      ensures page.blockedAtCreation == BlockPatterns(nav.bloquearImagens, nav.bloquearCss)
      ensures page.context.routes == page.blockedAtCreation
      ensures page.defaultTimeout == Some(TimeoutMs(nav)) && page.calls == []
      ensures log.pipeline == old(log.pipeline) && log.configurado == old(log.configurado)
      ensures log.written == old(log.written) + BlockEntries(log.pipeline, nav) +
        Dispatch(log.pipeline, Debug, MsgPageCreated, None)
    {
      var context := new BrowserContext(b, ContextOptionsFor(nav));
      ConfigurarBloqueiosRecursos(context);
      page := context.NewPage();
      page.SetDefaultTimeout(TimeoutMs(nav));
      log.RegistrarDebug(MsgPageCreated);
    }

    /** `CriarPagina`: obtains the browser, then opens a page on it; a failed
        launch is passed on. */
    method CriarPagina(outcome: LaunchOutcome) returns (r: Result<Page, Exception>)
      modifies this, log
      ensures log.pipeline == old(log.pipeline) && log.configurado == old(log.configurado)
      ensures r.Success? <==> old(browser).Some? || outcome.Launches?
      ensures old(browser).Some? ==> unchanged(this)
      ensures old(browser).None? ==>
        browser == (if outcome.Launches? then Some(LaunchedBrowser(old(launches), nav)) else None)
      ensures old(browser).None? ==>
        LaunchPost(old(playwright), old(driversCreated), old(launches), outcome,
                   if outcome.Launches? then Success(LaunchedBrowser(old(launches), nav)) else Failure(outcome.ex))
      ensures driversDisposed == old(driversDisposed)
      ensures old(browser).None? && !outcome.Launches? ==>
        r == Failure(outcome.ex) && browser == None &&
        log.written == old(log.written) + Dispatch(log.pipeline, Information, MsgStarting, None) +
          OutcomeEntries(log.pipeline, nav, outcome)
      ensures r.Success? ==>
        browser.Some? && fresh(r.value) && fresh(r.value.context) &&
        r.value.context.browser == browser.value &&
        r.value.context.options == ContextOptionsFor(nav) &&
        r.value.blockedAtCreation == BlockPatterns(nav.bloquearImagens, nav.bloquearCss) &&
        r.value.context.routes == r.value.blockedAtCreation &&
        r.value.defaultTimeout == Some(TimeoutMs(nav)) && r.value.calls == []
      ensures old(browser).Some? ==>
        log.written == old(log.written) + BlockEntries(log.pipeline, nav) +
          Dispatch(log.pipeline, Debug, MsgPageCreated, None)
      ensures old(browser).None? && outcome.Launches? ==>
        log.written == old(log.written) + Dispatch(log.pipeline, Information, MsgStarting, None) +
          OutcomeEntries(log.pipeline, nav, outcome) + BlockEntries(log.pipeline, nav) +
          Dispatch(log.pipeline, Debug, MsgPageCreated, None)
    {
      var b := InicializarNavegador(outcome);
      if b.Failure? {
        return Failure(b.error);
      }
      var page := OpenPage(b.value);
      r := Success(page);
    }

    /** `NavegarPara`: reports the target, navigates with the configured
        timeout until the DOM is loaded, and reports the load; a failed
        navigation is logged with the URL in its context and passed on. */
    method NavegarPara(page: Page, url: string, failure: Option<Exception>) returns (r: Result<(), Exception>)
      modifies page, log
      ensures page.defaultTimeout == old(page.defaultTimeout)
      ensures page.calls == old(page.calls) + [Goto(url, TimeoutMs(nav), DOMContentLoaded)]
      ensures log.pipeline == old(log.pipeline) && log.configurado == old(log.configurado)
      ensures failure.None? ==>
        r == Success(()) &&
        log.written == old(log.written) + Dispatch(log.pipeline, Debug, NavigatingText(url), None) +
          Dispatch(log.pipeline, Information, LoadedText(url), None)
      ensures failure.Some? ==>
        r == Failure(failure.value) &&
        log.written == old(log.written) + Dispatch(log.pipeline, Debug, NavigatingText(url), None) +
          Dispatch(log.pipeline, Error, ErroText(NavContext(url), failure.value.message), failure)
    {
      log.RegistrarDebug(NavigatingText(url));
      page.Call(Goto(url, TimeoutMs(nav), DOMContentLoaded));
      if failure.Some? {
        log.RegistrarErro(failure.value, NavContext(url));
        return Failure(failure.value);
      }
      log.RegistrarInfo(LoadedText(url));
      r := Success(());
    }

    /** `AguardarElemento`: waits for the selector to become visible, with the
        override timeout when one is given and the configured one otherwise.
        A failed wait is passed on without being logged. */
    method AguardarElemento(page: Page, seletor: string, timeoutPersonalizado: Option<int32>,
                            failure: Option<Exception>)
      returns (r: Result<(), Exception>)
      modifies page
      ensures page.defaultTimeout == old(page.defaultTimeout)
      ensures page.calls == old(page.calls) + [WaitForSelector(seletor, WaitTimeout(timeoutPersonalizado, nav), Visible)]
      ensures r == if failure.Some? then Failure(failure.value) else Success(())
    {
      var timeout := WaitTimeout(timeoutPersonalizado, nav);
      page.Call(WaitForSelector(seletor, timeout, Visible));
      r := if failure.Some? then Failure(failure.value) else Success(());
    }

    /** `Finalizar`: closes a held browser and releases it, disposes and
        releases the driver, and reports each step. It never fails: an error
        is logged and the remaining steps are skipped, so a browser that could
        not be closed stays held. */
    method Finalizar(closeFailure: Option<Exception>, disposeFailure: Option<Exception>)
      modifies this, log
      ensures launches == old(launches) && driversCreated == old(driversCreated)
      ensures log.pipeline == old(log.pipeline) && log.configurado == old(log.configurado)
      ensures old(browser).Some? && closeFailure.Some? ==>
        unchanged(this) &&
        log.written == old(log.written) +
          Dispatch(log.pipeline, Error, ErroText(CtxFinalizar, closeFailure.value.message), closeFailure)
      ensures !(old(browser).Some? && closeFailure.Some?) ==> browser == None
      ensures !(old(browser).Some? && closeFailure.Some?) && old(playwright).Some? && disposeFailure.Some? ==>
        playwright == old(playwright) && driversDisposed == old(driversDisposed) &&
        log.written == old(log.written) +
          (if old(browser).Some? then Dispatch(log.pipeline, Information, MsgBrowserClosed, None) else []) +
          Dispatch(log.pipeline, Error, ErroText(CtxFinalizar, disposeFailure.value.message), disposeFailure)
      ensures !(old(browser).Some? && closeFailure.Some?) && !(old(playwright).Some? && disposeFailure.Some?) ==>
        playwright == None &&
        driversDisposed == old(driversDisposed) + (if old(playwright).Some? then 1 else 0) &&
        log.written == old(log.written) +
          (if old(browser).Some? then Dispatch(log.pipeline, Information, MsgBrowserClosed, None) else []) +
          Dispatch(log.pipeline, Information, MsgFinished, None)
    {
      if browser.Some? {
        if closeFailure.Some? {
          log.RegistrarErro(closeFailure.value, CtxFinalizar);
          return;
        }
        browser := None;
        log.RegistrarInfo(MsgBrowserClosed);
      }
      if playwright.Some? {
        if disposeFailure.Some? {
          log.RegistrarErro(disposeFailure.value, CtxFinalizar);
          return;
        }
        driversDisposed := driversDisposed + 1;
      }
      playwright := None;
      log.RegistrarInfo(MsgFinished);
    }
  }

  // ---------------------------------------------------------------------------
  // Session scenarios

  /** A second `InicializarNavegador` returns the browser the first one
      launched, whatever the library would have done, and launches nothing. */
  method HeldBrowserIsReused(nav: NavegacaoConfig, second: LaunchOutcome)
    returns (r1: Result<BrowserHandle, Exception>, r2: Result<BrowserHandle, Exception>, launches: nat)
    ensures r1 == Success(LaunchedBrowser(0, nav)) && r2 == r1 && launches == 1
  {
    var log := new Logger();
    var session := new SessionManager(nav, log);
    r1 := session.InicializarNavegador(Launches);
    r2 := session.InicializarNavegador(second);
    launches := session.launches;
  }

  /** A failed launch is retried by the next call, which creates a second
      driver; the first is never disposed, so shutting down afterwards
      disposes one driver of the two created. */
  method FailedLaunchIsRetried(nav: NavegacaoConfig, ex: Exception)
    returns (r1: Result<BrowserHandle, Exception>, r2: Result<BrowserHandle, Exception>,
             created: nat, disposed: nat)
    ensures r1 == Failure(ex) && r2 == Success(LaunchedBrowser(1, nav))
    ensures created == 2 && disposed == 1
  {
    var log := new Logger();
    var session := new SessionManager(nav, log);
    r1 := session.InicializarNavegador(LaunchFails(ex));
    r2 := session.InicializarNavegador(Launches);
    session.Finalizar(None, None);
    created := session.driversCreated;
    disposed := session.driversDisposed;
  }

  /** After a clean shutdown nothing is held; a second shutdown disposes
      nothing and only reports that the driver is finished; the next call
      launches a new browser. */
  method ShutdownResetsSession(nav: NavegacaoConfig, source: LoadOutcome, today: Date)
    returns (heldAfter: bool, secondShutdown: seq<Entry>, disposed: nat,
             relaunched: Result<BrowserHandle, Exception>)
    requires today.Valid() && LoadResult(source).Success?
    ensures !heldAfter
    ensures secondShutdown ==
      Dispatch(Some(PipelineFor(LoadResult(source).value.logging, today)), Information, MsgFinished, None)
    ensures disposed == 1
    ensures relaunched == Success(LaunchedBrowser(1, nav))
  {
    var store := new ConfigStore();
    var log := new Logger();
    var _ := log.ConfigurarLogger(store, source, today);
    var session := new SessionManager(nav, log);
    var _ := session.InicializarNavegador(Launches);
    session.Finalizar(None, None);
    heldAfter := session.browser.Some? || session.playwright.Some?;
    var before := |log.written|;
    session.Finalizar(None, None);
    secondShutdown := log.written[before..];
    disposed := session.driversDisposed;
    relaunched := session.InicializarNavegador(Launches);
  }

  /** A browser that fails to close stays held, so the next call hands it out
      again instead of launching. */
  method CloseFailureKeepsBrowser(nav: NavegacaoConfig, ex: Exception)
    returns (r: Result<BrowserHandle, Exception>, launches: nat)
    ensures r == Success(LaunchedBrowser(0, nav)) && launches == 1
  {
    var log := new Logger();
    var session := new SessionManager(nav, log);
    var _ := session.InicializarNavegador(Launches);
    session.Finalizar(Some(ex), None);
    r := session.InicializarNavegador(Launches);
    launches := session.launches;
  }
}
