/**
 * Browser selection of `WebDriverFactory.loadDriver`: a browser name and three optional
 * environment inputs (the `headless` system property, the `HEADLESS` and `CHROME_BIN`
 * environment variables) decide which browser is launched and with which options.
 * Launching the browser itself is outside the model: the result is the launch
 * configuration, or the error message of the `IllegalArgumentException`.
 */
module Factory {
  import opened Wrappers
  import opened AsciiText

  datatype Mode = Headless | Normal

  /** What `loadDriver` launches. Only Chrome is given options. */
  datatype DriverSpec =
    | Chrome(args: seq<string>, binary: Option<string>, mode: Mode)
    | Firefox
    | Edge

  /** The arguments every Chrome launch gets, in this order. */
  const StabilityArgs: seq<string> :=
    ["--no-sandbox", "--disable-dev-shm-usage", "--disable-gpu",
     "--remote-allow-origins=*", "--window-size=1920,1080"]

  const HeadlessArg: string := "--headless=new"

  const UnsupportedPrefix: string := "Unsupported browser: "

  /** The lower-case names the switch accepts. */
  const SupportedNames: set<string> := {"chrome", "chrome-headless", "firefox", "edge"}

  /** The text handed to `parseBoolean`: the property, else the variable, else "false". */
  function HeadlessText(headlessProp: Option<string>, headlessEnv: Option<string>): string {
    headlessProp.GetOr(headlessEnv.GetOr("false"))
  }

  /** The resolved headless flag. */
  predicate HeadlessRequested(headlessProp: Option<string>, headlessEnv: Option<string>) {
    ParseBoolean(HeadlessText(headlessProp, headlessEnv))
  }

  /** The options built in the Chrome branch, for the lower-cased browser name `name`. */
  function ChromeSpec(name: string, headlessProp: Option<string>, headlessEnv: Option<string>,
                      chromeBin: Option<string>): DriverSpec
  {
    var headless := HeadlessRequested(headlessProp, headlessEnv) || Contains(name, "headless");
    Chrome(StabilityArgs + (if headless then [HeadlessArg] else []),
           if chromeBin.Some? && chromeBin.value != "" then chromeBin else None,
           if headless then Headless else Normal)
  }

  /** The line printed to standard output when the Chrome options are built. */
  function ModeBanner(mode: Mode): string {
    match mode
    case Headless => "Running Chrome in HEADLESS mode (CI)"
    case Normal => "Running Chrome in NORMAL mode (Local)"
  }

  /** `loadDriver(browser)`: a case-insensitive switch over the supported names. */
  function SelectDriver(browser: string, headlessProp: Option<string>, headlessEnv: Option<string>,
                        chromeBin: Option<string>): (r: Result<DriverSpec, string>)
    ensures r.Success? <==> ToLower(browser) in SupportedNames
    ensures r.Failure? ==> r.error == UnsupportedPrefix + browser
  {
    var name := ToLower(browser);
    if name == "chrome" || name == "chrome-headless" then
      Success(ChromeSpec(name, headlessProp, headlessEnv, chromeBin))
    else if name == "firefox" then
      Success(Firefox)
    else if name == "edge" then
      Success(Edge)
    else
      Failure(UnsupportedPrefix + browser)
  }

  /** Each browser is chosen by its lower-cased name; Firefox and Edge carry no options. */
  lemma SelectDriverByName(browser: string, headlessProp: Option<string>, headlessEnv: Option<string>,
                           chromeBin: Option<string>)
    ensures var r := SelectDriver(browser, headlessProp, headlessEnv, chromeBin);
            && (r.Success? && r.value.Chrome? <==> ToLower(browser) in {"chrome", "chrome-headless"})
            && (r == Success(Firefox) <==> ToLower(browser) == "firefox")
            && (r == Success(Edge) <==> ToLower(browser) == "edge")
  {
  }

  /** Any casing of "chrome" or "chrome-headless" selects Chrome. */
  lemma ChromeForAnyCasing(browser: string, headlessProp: Option<string>, headlessEnv: Option<string>,
                           chromeBin: Option<string>)
    requires IsCasingOf(browser, "chrome") || IsCasingOf(browser, "chrome-headless")
    ensures var r := SelectDriver(browser, headlessProp, headlessEnv, chromeBin);
            r.Success? && r.value.Chrome?
  {
    if IsCasingOf(browser, "chrome") {
      LowerOfCasing(browser, "chrome");
    } else {
      LowerOfCasing(browser, "chrome-headless");
    }
  }

  /** Any casing of "firefox" selects Firefox. */
  lemma FirefoxForAnyCasing(browser: string, headlessProp: Option<string>, headlessEnv: Option<string>,
                            chromeBin: Option<string>)
    requires IsCasingOf(browser, "firefox")
    ensures SelectDriver(browser, headlessProp, headlessEnv, chromeBin) == Success(Firefox)
  {
    LowerOfCasing(browser, "firefox");
  }

  /** Any casing of "edge" selects Edge. */
  lemma EdgeForAnyCasing(browser: string, headlessProp: Option<string>, headlessEnv: Option<string>,
                         chromeBin: Option<string>)
    requires IsCasingOf(browser, "edge")
    ensures SelectDriver(browser, headlessProp, headlessEnv, chromeBin) == Success(Edge)
  {
    LowerOfCasing(browser, "edge");
  }

  /** Two names that lower-case alike select the same configuration (only an error message differs). */
  lemma SelectionIgnoresCase(b1: string, b2: string, headlessProp: Option<string>, headlessEnv: Option<string>,
                             chromeBin: Option<string>)
    requires ToLower(b1) == ToLower(b2)
    ensures var r1 := SelectDriver(b1, headlessProp, headlessEnv, chromeBin);
            var r2 := SelectDriver(b2, headlessProp, headlessEnv, chromeBin);
            r1.Success? ==> r1 == r2
  {
  }

  /** Of the two Chrome names, only "chrome-headless" contains "headless". */
  lemma HeadlessInName(name: string)
    requires name == "chrome" || name == "chrome-headless"
    ensures Contains(name, "headless") <==> name == "chrome-headless"
  {
    if name == "chrome-headless" {
      assert OccursAt(name, "headless", 7);
    }
  }

  /** The headless flag: the property decides when present, else the variable, else false. */
  lemma HeadlessFlagPriority(headlessProp: Option<string>, headlessEnv: Option<string>)
    ensures HeadlessRequested(headlessProp, headlessEnv) <==>
            match headlessProp
            case Some(text) => ToLower(text) == "true"
            case None => headlessEnv.Some? && ToLower(headlessEnv.value) == "true"
  {
    ParseBooleanIsLowerTrue(HeadlessText(headlessProp, headlessEnv));
    assert ToLower("false") == "false";
  }

  /** Every Chrome argument list starts with the five stability flags. */
  lemma ChromeArgsStartWithStabilityArgs(browser: string, headlessProp: Option<string>,
                                         headlessEnv: Option<string>, chromeBin: Option<string>)
    ensures var r := SelectDriver(browser, headlessProp, headlessEnv, chromeBin);
            r.Success? && r.value.Chrome? ==> |r.value.args| >= 5 && r.value.args[..5] == StabilityArgs
  {
    if ToLower(browser) in {"chrome", "chrome-headless"} {
      ChromeHeadlessRule(browser, headlessProp, headlessEnv, chromeBin);
    }
  }

  /**
   * Headless mode, the headless argument and the requested flag or name agree; the argument
   * list is the stability flags plus the headless argument, or exactly the stability flags.
   */
  lemma ChromeHeadlessRule(browser: string, headlessProp: Option<string>, headlessEnv: Option<string>,
                           chromeBin: Option<string>)
    requires ToLower(browser) in {"chrome", "chrome-headless"}
    ensures var r := SelectDriver(browser, headlessProp, headlessEnv, chromeBin);
            var headless := HeadlessRequested(headlessProp, headlessEnv) || ToLower(browser) == "chrome-headless";
            && r.Success? && r.value.Chrome?
            && (r.value.mode == Headless <==> headless)
            && (HeadlessArg in r.value.args <==> headless)
            && r.value.args == (if headless then StabilityArgs + [HeadlessArg] else StabilityArgs)
  {
    HeadlessInName(ToLower(browser));
    assert HeadlessArg !in StabilityArgs;
  }

  /** The binary is set exactly when `CHROME_BIN` is present and non-empty, and then to its value. */
  lemma ChromeBinaryRule(browser: string, headlessProp: Option<string>, headlessEnv: Option<string>,
                         chromeBin: Option<string>)
    ensures var r := SelectDriver(browser, headlessProp, headlessEnv, chromeBin);
            r.Success? && r.value.Chrome? ==>
              && (r.value.binary.Some? <==> chromeBin.Some? && chromeBin.value != "")
              && (r.value.binary.Some? ==> r.value.binary == chromeBin)
  {
  }

  /** A name outside the supported set: the error keeps the name as given, not lower-cased. */
  lemma SafariIsUnsupported()
    ensures SelectDriver("Safari", None, None, None) == Failure("Unsupported browser: Safari")
  {
    assert ToLower("Safari") == "safari";
    assert UnsupportedPrefix + "Safari" == "Unsupported browser: Safari";
  }

  /** Local default: "chrome" with HEADLESS=false runs in normal mode with the five flags only. */
  lemma LocalChromeRunsNormal()
    ensures SelectDriver("chrome", None, Some("false"), None) == Success(Chrome(StabilityArgs, None, Normal))
  {
    assert ToLower("chrome") == "chrome";
    HeadlessFlagPriority(None, Some("false"));
    HeadlessInName("chrome");
    assert StabilityArgs + [] == StabilityArgs;
  }
}
