# Browser selection and scenario lifecycle of a Selenium/Cucumber harness

This project models the two pieces of decision logic in a browser test harness, with the
browser, the report and the test runner left out.

- **`Factory`** models `WebDriverFactory.loadDriver`. A browser name and three optional
  environment inputs select one of three launch configurations. Chrome gets an ordered argument
  list, an optional binary path and a headless or normal mode. Firefox and Edge get no options.
  Any other name gives the "Unsupported browser" error. It is a pure function, `SelectDriver`.
- **`AsciiText`** holds the Java string operations the factory uses, over ASCII case mapping:
  `toLowerCase`, `equalsIgnoreCase`, `contains` and `Boolean.parseBoolean`.
- **`Lifecycle`** models `Hooks`.
  - The static `driver` field, the `DriverManager` registry slot and the log are process-wide
    state in class `Runtime`.
  - The per-scenario `allureUtil` field lives in class `Hooks`, which is created anew for every
    scenario.
  - The four hooks are methods with `modifies` frames: `SetUp`, `AfterEachStep`,
    `CaptureFailure` and `TearDown`.
  - Each call into the browser or the report is an `Outcome` parameter: it returns or throws
    with a message.
  - `RunScenario` runs the hooks in the order the runner uses: setup, one after-step hook per
    step, failure capture (order 1), then teardown (order 0).

`Hooks.Valid` is the invariant every hook keeps. When a reporter exists, it is bound to the
registered browser, and to the driver while a driver is live. So every screenshot is taken of
the live driver.

Four facts about the code that the model keeps:
- The code adds the five stability flags to every Chrome launch, not only to headless ones
  (`WebDriverFactory.java:32-38`).
- A setup failure after the launch (`Hooks.java:39`) leaves the new browser in `driver`, with no
  reporter (`Hooks.java:60`). Teardown still quits that browser.
- Teardown never clears the registry slot (`Hooks.java:103-116`). After a completed scenario the
  registry still holds the browser that was quit.
- Only the `headless` property, the `HEADLESS` variable and the name "chrome-headless" make Chrome
  headless (`WebDriverFactory.java:27-29, 40`); nothing else switches to the headless variant.

## Model

| member | source | states |
|---|---|---|
| AsciiText.ToLower | src/test/java/com/cheq/demo_webshop/factory/WebDriverFactory.java:21 | Lower-casing keeps the length and maps each character through the ASCII case mapping, position by position |
| AsciiText.EqualsIgnoreCaseIsLowerEquality | src/test/java/com/cheq/demo_webshop/factory/WebDriverFactory.java:27-29 | The character-wise `equalsIgnoreCase` rule holds exactly when the two lower-cased strings are equal |
| AsciiText.ParseBooleanIsLowerTrue | src/test/java/com/cheq/demo_webshop/factory/WebDriverFactory.java:27-29 | `parseBoolean` is true exactly when the text lower-cases to "true" |
| AsciiText.LowerOfCasing | src/test/java/com/cheq/demo_webshop/factory/WebDriverFactory.java:21 | Lower-casing any upper/lower mix of a lower-case name gives that name |
| Factory.SelectDriver | src/test/java/com/cheq/demo_webshop/factory/WebDriverFactory.java:20-62 | Selection succeeds exactly when the lower-cased name is chrome, chrome-headless, firefox or edge; otherwise the error is "Unsupported browser: " followed by the name as given |
| Factory.SelectDriverByName | src/test/java/com/cheq/demo_webshop/factory/WebDriverFactory.java:21-59 | Chrome is chosen exactly for the two Chrome names; the option-free Firefox exactly for "firefox"; the option-free Edge exactly for "edge" |
| Factory.ChromeForAnyCasing | src/test/java/com/cheq/demo_webshop/factory/WebDriverFactory.java:21-23 | Any casing of "chrome" or "chrome-headless" selects Chrome |
| Factory.FirefoxForAnyCasing | src/test/java/com/cheq/demo_webshop/factory/WebDriverFactory.java:55-56 | Any casing of "firefox" selects Firefox with no options |
| Factory.EdgeForAnyCasing | src/test/java/com/cheq/demo_webshop/factory/WebDriverFactory.java:58-59 | Any casing of "edge" selects Edge with no options |
| Factory.SelectionIgnoresCase | src/test/java/com/cheq/demo_webshop/factory/WebDriverFactory.java:21 | Two names that lower-case alike select the same configuration |
| Factory.HeadlessInName | src/test/java/com/cheq/demo_webshop/factory/WebDriverFactory.java:40 | Of the two Chrome names, only "chrome-headless" contains "headless" |
| Factory.HeadlessFlagPriority | src/test/java/com/cheq/demo_webshop/factory/WebDriverFactory.java:27-29 | The headless flag is decided by the `headless` property when present, else by `HEADLESS`, else it is false; it is true when that text is "true" in any casing |
| Factory.ChromeArgsStartWithStabilityArgs | src/test/java/com/cheq/demo_webshop/factory/WebDriverFactory.java:32-38 | Every Chrome argument list starts with the five stability flags in source order |
| Factory.ChromeHeadlessRule | src/test/java/com/cheq/demo_webshop/factory/WebDriverFactory.java:40-45 | The mode is headless, and "--headless=new" is present, exactly when the flag is true or the name is chrome-headless; the list is then the five flags plus it, otherwise the five flags alone |
| Factory.ChromeBinaryRule | src/test/java/com/cheq/demo_webshop/factory/WebDriverFactory.java:48-51 | The Chrome binary is set exactly when `CHROME_BIN` is present and non-empty, and then equals it |
| Factory.SafariIsUnsupported | src/test/java/com/cheq/demo_webshop/factory/WebDriverFactory.java:61-62 | "Safari" fails with "Unsupported browser: Safari", not lower-cased |
| Factory.LocalChromeRunsNormal | src/test/java/com/cheq/demo_webshop/factory/WebDriverFactory.java:27-45 | "chrome" with HEADLESS=false runs in normal mode with only the five flags and no binary |
| Lifecycle.ResolveSettings | src/test/java/com/cheq/demo_webshop/hooks/Hooks.java:31-35 | The environment defaults to "dev"; the browser property overrides the configured browser; the "browser" and "baseUrl" keys are both required, even when the browser is overridden; a missing environment or key is the error |
| Lifecycle.SetUpLogsOutcome | src/test/java/com/cheq/demo_webshop/hooks/Hooks.java:56-58 | Setup's log ends with the scenario-start line when the try block completes, else with the initialization error carrying the message of the first call that threw |
| Lifecycle.Runtime.constructor | src/test/java/com/cheq/demo_webshop/hooks/Hooks.java:22 | The process starts with no driver, an empty registry and an empty log |
| Lifecycle.Hooks.constructor | src/test/java/com/cheq/demo_webshop/hooks/Hooks.java:23 | A new hooks object has no reporter |
| Lifecycle.Hooks.SetUp | src/test/java/com/cheq/demo_webshop/hooks/Hooks.java:29-62 | Settings failures escape and change nothing. Otherwise nothing escapes: after the launch the driver is the fresh browser; the registry is set only once maximize, navigate and register succeed; a reporter bound to that browser exists exactly when the whole try block succeeds |
| Lifecycle.Hooks.Initialize | src/test/java/com/cheq/demo_webshop/hooks/Hooks.java:37-61 | The try block and its catch: any failure is logged with its message and leaves no reporter, but leaves the driver set if the launch had succeeded |
| Lifecycle.Hooks.Launch | src/test/java/com/cheq/demo_webshop/hooks/Hooks.java:39 | A browser exists exactly when selection and launch succeed; it is fresh, carries the selected configuration and becomes the driver; otherwise the driver is untouched |
| Lifecycle.Hooks.Prepare | src/test/java/com/cheq/demo_webshop/hooks/Hooks.java:40-54 | Maximize, navigate, register, reporter and metadata run in order and stop at the first failure; the registry and the reporter are set only if every earlier call succeeded; the navigation and the metadata write are logged once attempted |
| Lifecycle.Hooks.AfterEachStep | src/test/java/com/cheq/demo_webshop/hooks/Hooks.java:67-78 | A screenshot of the live driver is attempted only when both the reporter and the driver are present; a failure or a skip is only logged; no slot changes |
| Lifecycle.Hooks.CaptureFailure | src/test/java/com/cheq/demo_webshop/hooks/Hooks.java:83-97 | Nothing happens for a scenario that did not fail. For a failed one, the live driver is screenshotted only when both slots are present; capture errors are only logged; no slot changes |
| Lifecycle.Hooks.TearDown | src/test/java/com/cheq/demo_webshop/hooks/Hooks.java:102-116 | The driver is quit if present and is empty afterwards, whether or not quitting threw; with no driver only a warning is logged; the registry and the reporter are unchanged |
| Lifecycle.RunScenario | src/test/java/com/cheq/demo_webshop/hooks/Hooks.java:83-116 | After a scenario the driver is empty. Only a settings error escapes. A reporter remains exactly when setup completed; its browser is then fresh, was quit in this scenario, and is still held by the registry. Whenever setup launched a browser, the quit of that fresh browser is logged. For a failed scenario after a completed setup, the failure screenshot of that browser is logged before its quit |

## Left out

- Launching, maximizing, navigating, screenshotting and quitting a real browser, and writing
  report files. Each is an outcome parameter, recorded as an event in the log.
- Configuration files. `ConfigReader` is not part of this model: the settings are a map from
  environment name to key/value pairs. The model assumes that a missing environment or key
  throws. Those calls sit outside the try block (`Hooks.java:31-35`), so the error escapes setup.
- `DriverManager` and `AllureUtil` internals are not part of this model. The registry is one
  field, and a reporter is a value bound to one browser.
- Reading system properties and environment variables. They are the `Inputs` parameters.
- Locale-sensitive and non-ASCII case mapping. Only `A`-`Z` and `a`-`z` have case here.
- A null browser name, which throws `NullPointerException` in `toLowerCase`. Names are strings,
  never null.
- The emoji markers in the log texts. The log events keep the words, and the em dash in the two
  skip warnings becomes a hyphen.
- Cucumber's hook discovery and scheduling. `RunScenario` fixes the order instead. It skips the
  steps when setup raises, and then treats the scenario as failed.
- Concurrency. The static driver field is shared, unsynchronised state, and parallel scenarios
  are not modelled.
- The test runner's annotation configuration, which has no runtime logic.
