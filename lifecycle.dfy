/**
 * The scenario lifecycle of `Hooks`: a before-scenario hook that reads the settings and
 * launches the browser, an after-step hook that screenshots, and two after-scenario hooks,
 * failure capture and teardown. The static `driver` field and the registry slot of
 * `DriverManager` are process-wide and live in `Runtime`; the `allureUtil` field belongs
 * to the `Hooks` instance, which the test runner creates afresh for every scenario.
 * Every call into the browser or the report (launch, maximize, navigate, register, reporter
 * construction, metadata write, screenshot, quit) is given as an `Outcome` parameter.
 */
module Lifecycle {
  import opened Wrappers
  import opened Factory

  /** One running browser session, launched with `spec`. */
  class Browser {
    const spec: DriverSpec

    constructor (spec: DriverSpec)
      ensures this.spec == spec
    {
      this.spec := spec;
    }
  }

  /** A reporting utility, bound to the browser it screenshots. */
  datatype Reporter = Reporter(browser: Browser)

  /** What an external call did: returned normally, or threw an exception with this message. */
  datatype Outcome = Done | Threw(message: string)

  /** Log lines (by level), console output, and the calls made into the browser and the report. */
  datatype Event =
    | Info(text: string)
    | Warn(text: string)
    | Error(text: string)
    | Console(text: string)
    | Navigate(url: string)
    | EnvironmentWritten(entries: map<string, string>)  // attempted: the write may have thrown
    | Screenshot(browser: Browser)
    | Quit(browser: Browser)

  /** The exceptions that escape the before-scenario hook. */
  datatype SetUpError = ConfigNotFound(env: string) | MissingKey(key: string)

  /** The system properties and environment variables the hooks read. */
  datatype Inputs = Inputs(
    envProp: Option<string>,       // system property "env"
    browserProp: Option<string>,   // system property "browser"
    headlessProp: Option<string>,  // system property "headless"
    headlessEnv: Option<string>,   // environment variable HEADLESS
    chromeBin: Option<string>,     // environment variable CHROME_BIN
    osName: string)                // system property "os.name"

  /** The outcomes of the calls made inside the before-scenario hook's try block, in order. */
  datatype SetUpCalls = SetUpCalls(
    launch: Outcome, maximize: Outcome, navigate: Outcome, register: Outcome,
    reporter: Outcome, metadata: Outcome)

  /** The environment name, browser name and base URL a scenario runs with. */
  datatype Settings = Settings(env: string, browser: string, url: string)

  const InitFailedPrefix: string := "Failed to initialize WebDriver: "
  const StartingPrefix: string := "Starting scenario: "
  const StepShotFailedPrefix: string := "Failed to capture step screenshot: "
  const StepShotSkipped: string := "Skipping step screenshot - WebDriver or AllureUtil not initialized."
  const ScenarioFailedPrefix: string := "Scenario failed: "
  const FailureShotFailedPrefix: string := "Could not capture failure screenshot: "
  const FailureShotSkipped: string := "Skipping failure screenshot - AllureUtil not initialized."
  const ClosedText: string := "WebDriver closed successfully."
  const QuitFailedPrefix: string := "Error while quitting WebDriver: "
  const NoDriverText: string := "No WebDriver instance found to close."

  /**
   * The settings read before the try block. `configs` maps each environment name to its
   * settings; the environment defaults to "dev". The "browser" setting is looked up even when
   * the "browser" property overrides it, so a missing key fails either way.
   */
  function ResolveSettings(configs: map<string, map<string, string>>, inputs: Inputs): (r: Result<Settings, SetUpError>)
    ensures var env := inputs.envProp.GetOr("dev");
            && (r.Success? <==> env in configs && "browser" in configs[env] && "baseUrl" in configs[env])
            && (r.Success? ==> r.value.env == env && r.value.url == configs[env]["baseUrl"])
            && (r.Success? && inputs.browserProp.Some? ==> r.value.browser == inputs.browserProp.value)
            && (r.Success? && inputs.browserProp.None? ==> r.value.browser == configs[env]["browser"])
            && (r.Failure? ==> r.error == if env !in configs then ConfigNotFound(env)
                                          else if "browser" !in configs[env] then MissingKey("browser")
                                          else MissingKey("baseUrl"))
  {
    var env := inputs.envProp.GetOr("dev");
    if env !in configs then Failure(ConfigNotFound(env))
    else
      var config := configs[env];
      if "browser" !in config then Failure(MissingKey("browser"))
      else if "baseUrl" !in config then Failure(MissingKey("baseUrl"))
      else Success(Settings(env, inputs.browserProp.GetOr(config["browser"]), config["baseUrl"]))
  }

  /** The environment record written to the report. */
  function Metadata(osName: string, s: Settings): map<string, string> {
    map["OS" := osName, "Browser" := s.browser, "Environment" := s.env]
  }

  /** The try block of the before-scenario hook ran to its end. */
  predicate SetUpCompletes(sel: Result<DriverSpec, string>, calls: SetUpCalls) {
    && sel.Success? && calls.launch.Done? && calls.maximize.Done? && calls.navigate.Done?
    && calls.register.Done? && calls.reporter.Done? && calls.metadata.Done?
  }

  /** The message of the first call of the try block that threw. */
  function SetUpFailure(sel: Result<DriverSpec, string>, calls: SetUpCalls): string
    requires !SetUpCompletes(sel, calls)
  {
    if sel.Failure? then sel.error
    else if calls.launch.Threw? then calls.launch.message
    else if calls.maximize.Threw? then calls.maximize.message
    else if calls.navigate.Threw? then calls.navigate.message
    else if calls.register.Threw? then calls.register.message
    else if calls.reporter.Threw? then calls.reporter.message
    else calls.metadata.message
  }

  /** What the before-scenario hook adds to the log once the settings are read. */
  function SetUpEvents(s: Settings, sel: Result<DriverSpec, string>, calls: SetUpCalls,
                       osName: string, scenarioName: string): seq<Event>
  {
    BannerEvents(sel) + CallEvents(s, sel, calls, osName) + ClosingEvents(sel, calls, scenarioName)
  }

  /** The factory prints the Chrome mode before it launches the browser. */
  function BannerEvents(sel: Result<DriverSpec, string>): seq<Event> {
    if sel.Success? && sel.value.Chrome? then [Console(ModeBanner(sel.value.mode))] else []
  }

  /** Selection and launch succeeded: line 39 assigned a new driver. */
  predicate Launched(sel: Result<DriverSpec, string>, calls: SetUpCalls) {
    sel.Success? && calls.launch.Done?
  }

  /** After the launch, maximize, navigate and register all succeeded. */
  predicate RegisteredAfterLaunch(calls: SetUpCalls) {
    calls.maximize.Done? && calls.navigate.Done? && calls.register.Done?
  }

  /** The launched browser was put in the registry. */
  predicate Registered(sel: Result<DriverSpec, string>, calls: SetUpCalls) {
    Launched(sel, calls) && RegisteredAfterLaunch(calls)
  }

  /**
   * The calls logged after the launch: navigation is attempted once the browser is maximized;
   * the environment record is written (successfully or not) once the reporter is built.
   */
  function PrepareEvents(s: Settings, calls: SetUpCalls, osName: string): seq<Event> {
    (if calls.maximize.Done? then [Navigate(s.url)] else [])
    + (if RegisteredAfterLaunch(calls) && calls.reporter.Done? then [EnvironmentWritten(Metadata(osName, s))] else [])
  }

  /** The calls logged by the try block, if the browser was launched. */
  function CallEvents(s: Settings, sel: Result<DriverSpec, string>, calls: SetUpCalls, osName: string): seq<Event> {
    if Launched(sel, calls) then PrepareEvents(s, calls, osName) else []
  }

  /** The start line when the try block completes, else the caught error. */
  function ClosingEvents(sel: Result<DriverSpec, string>, calls: SetUpCalls, scenarioName: string): seq<Event> {
    if SetUpCompletes(sel, calls)
    then [Info(StartingPrefix + scenarioName)]
    else [Error(InitFailedPrefix + SetUpFailure(sel, calls))]
  }

  /** The setup log ends with the start line when the try block completes, else with the caught error. */
  lemma SetUpLogsOutcome(s: Settings, sel: Result<DriverSpec, string>, calls: SetUpCalls,
                         osName: string, scenarioName: string)
    ensures var events := SetUpEvents(s, sel, calls, osName, scenarioName);
            && |events| >= 1
            && (SetUpCompletes(sel, calls) ==> events[|events| - 1] == Info(StartingPrefix + scenarioName))
            && (!SetUpCompletes(sel, calls) ==> events[|events| - 1] == Error(InitFailedPrefix + SetUpFailure(sel, calls)))
            && (sel.Failure? ==> events == [Error(InitFailedPrefix + sel.error)])
  {
  }

  /** What the after-step hook logs, given the reporter and driver it finds. */
  function StepEvents(allureUtil: Option<Reporter>, driver: Option<Browser>, shot: Outcome): seq<Event> {
    if allureUtil.Some? && driver.Some? then
      [Screenshot(allureUtil.value.browser)] + (if shot.Threw? then [Warn(StepShotFailedPrefix + shot.message)] else [])
    else
      [Warn(StepShotSkipped)]
  }

  /** What the failure-capture hook logs. */
  function FailureEvents(failed: bool, allureUtil: Option<Reporter>, driver: Option<Browser>,
                         scenarioName: string, shot: Outcome): seq<Event>
  {
    if !failed then []
    else if allureUtil.Some? && driver.Some? then
      [Screenshot(allureUtil.value.browser),
       if shot.Done? then Error(ScenarioFailedPrefix + scenarioName) else Error(FailureShotFailedPrefix + shot.message)]
    else
      [Warn(FailureShotSkipped)]
  }

  /** What the teardown hook logs. */
  function TearDownEvents(driver: Option<Browser>, quit: Outcome): seq<Event> {
    if driver.Some? then
      [Quit(driver.value), if quit.Done? then Info(ClosedText) else Error(QuitFailedPrefix + quit.message)]
    else
      [Warn(NoDriverText)]
  }

  /** The process-wide state: the static driver field, the registry slot and the log. */
  class Runtime {
    var driver: Option<Browser>
    var registry: Option<Browser>
    var log: seq<Event>

    constructor ()
      ensures driver == None && registry == None && log == []
    {
      driver, registry, log := None, None, [];
    }
  }

  /** One scenario's hooks object. */
  class Hooks {
    const runtime: Runtime
    var allureUtil: Option<Reporter>

    /** A reporter, when present, is bound to the registered browser, and to the driver while it is live. */
    ghost predicate Valid()
      reads this, runtime
    {
      allureUtil.Some? ==>
        && runtime.registry == Some(allureUtil.value.browser)
        && (runtime.driver.Some? ==> runtime.driver == runtime.registry)
    }

    constructor (runtime: Runtime)
      ensures this.runtime == runtime && allureUtil == None && Valid()
    {
      this.runtime := runtime;
      allureUtil := None;
    }

    /**
     * Before each scenario. Failures of reading the settings escape as `raised`; everything
     * after that runs in the try block of `Initialize`, which never raises.
     */
    method SetUp(configs: map<string, map<string, string>>, inputs: Inputs, calls: SetUpCalls,
                 scenarioName: string) returns (raised: Option<SetUpError>)
      requires Valid()
      modifies this, runtime
      ensures Valid()
      ensures raised.Some? <==> ResolveSettings(configs, inputs).Failure?
      ensures raised.Some? ==> raised.value == ResolveSettings(configs, inputs).error && unchanged(this, runtime)
      ensures raised.None? ==>
                var s := ResolveSettings(configs, inputs).value;
                var sel := SelectDriver(s.browser, inputs.headlessProp, inputs.headlessEnv, inputs.chromeBin);
                && (Launched(sel, calls) ==> runtime.driver.Some? && fresh(runtime.driver.value) && runtime.driver.value.spec == sel.value)
                && (!Launched(sel, calls) ==> runtime.driver == old(runtime.driver))
                && runtime.registry == (if Registered(sel, calls) then runtime.driver else old(runtime.registry))
                && (allureUtil.Some? <==> SetUpCompletes(sel, calls))
                && (allureUtil.Some? ==> allureUtil == Some(Reporter(runtime.driver.value)))
                && runtime.log == old(runtime.log) + SetUpEvents(s, sel, calls, inputs.osName, scenarioName)
    {
      var resolved := ResolveSettings(configs, inputs);
      if resolved.Failure? {
        return Some(resolved.error);
      }
      var s := resolved.value;
      var sel := SelectDriver(s.browser, inputs.headlessProp, inputs.headlessEnv, inputs.chromeBin);
      Initialize(s, sel, calls, inputs.osName, scenarioName);
      raised := None;
    }

    /**
     * The try block of the before-scenario hook, with its catch: every failure is logged and
     * leaves no reporter. A failure after the launch leaves the new browser in `driver`; the
     * registry is set only once navigation succeeded.
     */
    method Initialize(s: Settings, sel: Result<DriverSpec, string>, calls: SetUpCalls,
                      osName: string, scenarioName: string)
      requires Valid()
      modifies this, runtime
      ensures Valid()
      ensures && (Launched(sel, calls) ==> runtime.driver.Some? && fresh(runtime.driver.value) && runtime.driver.value.spec == sel.value)
              && (!Launched(sel, calls) ==> runtime.driver == old(runtime.driver))
              && runtime.registry == (if Registered(sel, calls) then runtime.driver else old(runtime.registry))
              && (allureUtil.Some? <==> SetUpCompletes(sel, calls))
              && (allureUtil.Some? ==> allureUtil == Some(Reporter(runtime.driver.value)))
              && runtime.log == old(runtime.log) + SetUpEvents(s, sel, calls, osName, scenarioName)
    {
      var browser, failure := Launch(sel, calls.launch);
      if browser.Some? {
        failure := Prepare(browser.value, s, calls, osName);
      }
      if failure.Some? {
        runtime.log := runtime.log + [Error(InitFailedPrefix + failure.value)];
        allureUtil := None;
      } else {
        runtime.log := runtime.log + [Info(StartingPrefix + scenarioName)];
      }
    }

    /**
     * The first statement of the try block: select the configuration, print its mode and
     * start the browser, which becomes the driver. `failure` is the message of what threw.
     */
    method Launch(sel: Result<DriverSpec, string>, launch: Outcome)
      returns (browser: Option<Browser>, failure: Option<string>)
      modifies runtime`driver, runtime`log
      ensures browser.Some? <==> sel.Success? && launch.Done?
      ensures browser.Some? ==> && fresh(browser.value) && browser.value.spec == sel.value
                                && runtime.driver == browser && failure.None?
      ensures browser.None? ==> && runtime.driver == old(runtime.driver)
                                && failure == Some(if sel.Failure? then sel.error else launch.message)
      ensures runtime.log == old(runtime.log) + BannerEvents(sel)
    {
      browser, failure := None, None;
      if sel.Failure? {
        failure := Some(sel.error);
      } else {
        if sel.value.Chrome? {
          runtime.log := runtime.log + [Console(ModeBanner(sel.value.mode))];
        }
        if launch.Threw? {
          failure := Some(launch.message);
        } else {
          var b := new Browser(sel.value);
          runtime.driver := Some(b);
          browser := Some(b);
        }
      }
    }

    /**
     * The rest of the try block for a launched `browser`: maximize, navigate, register it,
     * bind a reporter to it and write the environment record, stopping at the first that throws.
     */
    method Prepare(browser: Browser, s: Settings, calls: SetUpCalls, osName: string) returns (failure: Option<string>)
      modifies this`allureUtil, runtime`registry, runtime`log
      ensures runtime.registry == (if RegisteredAfterLaunch(calls) then Some(browser) else old(runtime.registry))
      ensures allureUtil == (if RegisteredAfterLaunch(calls) && calls.reporter.Done? then Some(Reporter(browser)) else old(allureUtil))
      ensures failure.None? <==> RegisteredAfterLaunch(calls) && calls.reporter.Done? && calls.metadata.Done?
      ensures failure.Some? ==> failure.value == (if calls.maximize.Threw? then calls.maximize.message
                                                  else if calls.navigate.Threw? then calls.navigate.message
                                                  else if calls.register.Threw? then calls.register.message
                                                  else if calls.reporter.Threw? then calls.reporter.message
                                                  else calls.metadata.message)
      ensures runtime.log == old(runtime.log) + PrepareEvents(s, calls, osName)
    {
      failure := None;
      if calls.maximize.Threw? {
        failure := Some(calls.maximize.message);
        return;
      }
      runtime.log := runtime.log + [Navigate(s.url)];
      if calls.navigate.Threw? {
        failure := Some(calls.navigate.message);
      } else if calls.register.Threw? {
        failure := Some(calls.register.message);
      } else {
        runtime.registry := Some(browser);
        if calls.reporter.Threw? {
          failure := Some(calls.reporter.message);
        } else {
          allureUtil := Some(Reporter(browser));
          runtime.log := runtime.log + [EnvironmentWritten(Metadata(osName, s))];
          if calls.metadata.Threw? {
            failure := Some(calls.metadata.message);
          }
        }
      }
    }

    /**
     * After each step. Screenshots only when both the reporter and the driver are present, and
     * then the live driver; a failed capture is logged, never raised. No slot changes.
     */
    method AfterEachStep(shot: Outcome)
      requires Valid()
      modifies runtime`log
      ensures Valid()
      ensures runtime.driver == old(runtime.driver) && runtime.registry == old(runtime.registry)
      ensures runtime.log == old(runtime.log) + StepEvents(allureUtil, runtime.driver, shot)
      ensures allureUtil.Some? && runtime.driver.Some? ==> runtime.log[|old(runtime.log)|] == Screenshot(runtime.driver.value)
    {
      if allureUtil.Some? && runtime.driver.Some? {
        runtime.log := runtime.log + [Screenshot(allureUtil.value.browser)];
        if shot.Threw? {
          runtime.log := runtime.log + [Warn(StepShotFailedPrefix + shot.message)];
        }
      } else {
        runtime.log := runtime.log + [Warn(StepShotSkipped)];
      }
    }

    /**
     * After a scenario, before teardown. Nothing happens unless the scenario failed; then the
     * live driver is screenshotted when both slots are present. Capture errors are logged,
     * never raised, and no slot changes.
     */
    method CaptureFailure(failed: bool, scenarioName: string, shot: Outcome)
      requires Valid()
      modifies runtime`log
      ensures Valid()
      ensures runtime.driver == old(runtime.driver) && runtime.registry == old(runtime.registry)
      ensures !failed ==> runtime.log == old(runtime.log)
      ensures runtime.log == old(runtime.log) + FailureEvents(failed, allureUtil, runtime.driver, scenarioName, shot)
      ensures failed && allureUtil.Some? && runtime.driver.Some? ==> runtime.log[|old(runtime.log)|] == Screenshot(runtime.driver.value)
    {
      if failed {
        if allureUtil.Some? && runtime.driver.Some? {
          runtime.log := runtime.log + [Screenshot(allureUtil.value.browser)];
          if shot.Done? {
            runtime.log := runtime.log + [Error(ScenarioFailedPrefix + scenarioName)];
          } else {
            runtime.log := runtime.log + [Error(FailureShotFailedPrefix + shot.message)];
          }
        } else {
          runtime.log := runtime.log + [Warn(FailureShotSkipped)];
        }
      }
    }

    /**
     * After a scenario, last. Quits the driver if there is one and empties `driver` whether or
     * not quitting threw; the registry and the reporter are left as they were.
     */
    method TearDown(quit: Outcome)
      requires Valid()
      modifies runtime`driver, runtime`log
      ensures Valid()
      ensures runtime.driver == None
      ensures runtime.registry == old(runtime.registry) && allureUtil == old(allureUtil)
      ensures runtime.log == old(runtime.log) + TearDownEvents(old(runtime.driver), quit)
    {
      if runtime.driver.Some? {
        var browser := runtime.driver.value;
        runtime.log := runtime.log + [Quit(browser)];
        if quit.Done? {
          runtime.log := runtime.log + [Info(ClosedText)];
        } else {
          runtime.log := runtime.log + [Error(QuitFailedPrefix + quit.message)];
        }
        runtime.driver := None;
      } else {
        runtime.log := runtime.log + [Warn(NoDriverText)];
      }
    }
  }

  /** The configuration setup launches a browser with, if it gets that far without an error. */
  function LaunchedSpec(configs: map<string, map<string, string>>, inputs: Inputs, calls: SetUpCalls): Option<DriverSpec> {
    var resolved := ResolveSettings(configs, inputs);
    if resolved.Failure? then None
    else
      var sel := SelectDriver(resolved.value.browser, inputs.headlessProp, inputs.headlessEnv, inputs.chromeBin);
      if Launched(sel, calls) then Some(sel.value) else None
  }

  /** Setup reads its settings and its whole try block succeeds. */
  predicate SetUpSucceeds(configs: map<string, map<string, string>>, inputs: Inputs, calls: SetUpCalls) {
    var resolved := ResolveSettings(configs, inputs);
    && resolved.Success?
    && SetUpCompletes(SelectDriver(resolved.value.browser, inputs.headlessProp, inputs.headlessEnv, inputs.chromeBin), calls)
  }

  /** What the test runner supplies for one scenario. */
  datatype ScenarioRun = ScenarioRun(
    name: string, calls: SetUpCalls, stepShots: seq<Outcome>, failed: bool,
    failureShot: Outcome, quit: Outcome)

  /**
   * One scenario as the test runner schedules it: a fresh hooks object, setup, the after-step
   * hook once per step, then the after-scenario hooks, the higher order (failure capture) before
   * the lower (teardown). Steps are skipped when setup raised, and the scenario then counts as failed.
   */
  method RunScenario(runtime: Runtime, configs: map<string, map<string, string>>, inputs: Inputs,
                     run: ScenarioRun) returns (hooks: Hooks, raised: Option<SetUpError>)
    modifies runtime
    ensures fresh(hooks) && hooks.runtime == runtime && hooks.Valid()
    ensures runtime.driver == None
    ensures old(runtime.log) <= runtime.log
    ensures raised.Some? <==> ResolveSettings(configs, inputs).Failure?
    ensures hooks.allureUtil.Some? <==> SetUpSucceeds(configs, inputs, run.calls)
    ensures hooks.allureUtil.Some? ==>
              && runtime.registry == Some(hooks.allureUtil.value.browser)
              && fresh(hooks.allureUtil.value.browser)
              && Quit(hooks.allureUtil.value.browser) in runtime.log[|old(runtime.log)|..]
    ensures LaunchedSpec(configs, inputs, run.calls).Some? ==>
              exists i :: && |old(runtime.log)| <= i < |runtime.log|
                          && runtime.log[i].Quit? && fresh(runtime.log[i].browser)
                          && runtime.log[i].browser.spec == LaunchedSpec(configs, inputs, run.calls).value
    ensures hooks.allureUtil.Some? && run.failed ==>
              exists i, j :: |old(runtime.log)| <= i < j < |runtime.log|
                             && runtime.log[i] == Screenshot(hooks.allureUtil.value.browser)
                             && runtime.log[j] == Quit(hooks.allureUtil.value.browser)
  {
    hooks := new Hooks(runtime);
    raised := hooks.SetUp(configs, inputs, run.calls, run.name);
    ghost var driverAfterSetUp, reporterAfterSetUp := runtime.driver, hooks.allureUtil;
    assert reporterAfterSetUp.Some? ==> driverAfterSetUp == Some(reporterAfterSetUp.value.browser);
    if raised.None? {
      for k := 0 to |run.stepShots|
        invariant hooks.Valid()
        invariant runtime.driver == driverAfterSetUp && hooks.allureUtil == reporterAfterSetUp
        invariant old(runtime.log) <= runtime.log
      {
        hooks.AfterEachStep(run.stepShots[k]);
      }
    }
    ghost var shotAt := |runtime.log|;
    hooks.CaptureFailure(run.failed || raised.Some?, run.name, run.failureShot);
    ghost var quitAt := |runtime.log|;
    hooks.TearDown(run.quit);
    if LaunchedSpec(configs, inputs, run.calls).Some? {
      assert runtime.log[quitAt] == Quit(driverAfterSetUp.value);
    }
    if hooks.allureUtil.Some? {
      assert runtime.log[|old(runtime.log)|..][quitAt - |old(runtime.log)|] == Quit(hooks.allureUtil.value.browser);
    }
    if hooks.allureUtil.Some? && run.failed {
      assert runtime.log[shotAt] == Screenshot(hooks.allureUtil.value.browser);
      assert runtime.log[quitAt] == Quit(hooks.allureUtil.value.browser);
    }
  }
}
