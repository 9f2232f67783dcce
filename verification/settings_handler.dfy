/** The run-settings resolver: merges the four command-line values with the
    compiled-in defaults, validates them, and yields one immutable `Settings`
    value or the first error met. */
module SettingsHandler {
  import opened Wrappers
  import opened Text
  import opened Constants

  /** The resolved configuration of a test session. */
  datatype Settings = Settings(env: Environment, baseUrl: string, browser: string, headless: bool)

  /** Why resolution stopped; each error carries the input it rejects. */
  datatype Error =
    | UnknownEnv(name: string)
    | UnsupportedBrowser(candidate: string)
    | NoBaseUrl(env: Environment)

  /** The four command-line values: `--env-name`, `--app-base-url`,
      `--app-browser` and `--app-headed`. Each is `None` when not given. */
  datatype CliInput = CliInput(
    envName: Option<string>,
    baseUrl: Option<string>,
    browser: Option<string>,
    headed: Option<bool>)

  /** Python truthiness of an optional string: `None` and `""` are both false. */
  predicate Truthy(o: Option<string>) {
    o.Some? && o.value != ""
  }

  /** `bool(...)` of the headed option, whose default is `None`. */
  predicate HeadedFlag(o: Option<bool>) {
    o.Some? && o.value
  }

  /** A settings value that resolution could produce: a non-empty base URL and a
      supported, lower-case browser name. */
  predicate ValidSettings(s: Settings) {
    s.baseUrl != "" && s.browser in SupportedBrowsers
  }

  /** The environment: the default when none is given, otherwise the member
      whose value is the lower-cased name. */
  function ResolveEnv(cliEnv: Option<string>): (r: Result<Environment, Error>)
    ensures !Truthy(cliEnv) ==> r == Success(DefaultEnv)
    ensures Truthy(cliEnv) ==>
      (r.Success? <==> Lower(cliEnv.value) in {"local", "staging", "prod"})
    ensures Truthy(cliEnv) && r.Success? ==> r.value.Value() == Lower(cliEnv.value)
    ensures r.Failure? ==> Truthy(cliEnv) && r.error == UnknownEnv(Lower(cliEnv.value))
  {
    if !Truthy(cliEnv) then Success(DefaultEnv)
    else
      var name := Lower(cliEnv.value);
      match FromValue(name)
      case Some(e) => Success(e)
      case None => Failure(UnknownEnv(name))
  }

  /** The browser: the default when none is given, otherwise the lower-cased
      name, which must be one of the supported browsers. */
  function ResolveBrowser(cliBrowser: Option<string>): (r: Result<string, Error>)
    ensures r.Success? ==> r.value in SupportedBrowsers && IsLowerString(r.value)
    ensures !Truthy(cliBrowser) ==> r == Success("chromium")
    ensures Truthy(cliBrowser) ==>
      (r.Success? <==> Lower(cliBrowser.value) in {"chromium", "firefox", "webkit"})
    ensures Truthy(cliBrowser) && r.Success? ==> r.value == Lower(cliBrowser.value)
    ensures r.Failure? ==> Truthy(cliBrowser) && r.error == UnsupportedBrowser(Lower(cliBrowser.value))
  {
    var candidate := if Truthy(cliBrowser) then Lower(cliBrowser.value) else DefaultBrowser;
    if candidate !in SupportedBrowsers then Failure(UnsupportedBrowser(candidate))
    else Success(candidate)
  }

  /** Headless mode: the headed flag forces a visible browser, otherwise the default. */
  function ResolveHeadless(cliHeaded: bool): (r: bool)
    ensures !r <==> cliHeaded
    ensures !cliHeaded ==> r == DefaultHeadless
  {
    if cliHeaded then false else DefaultHeadless
  }

  /** The base URL: a given command-line URL verbatim, otherwise the built-in URL
      of the environment, which must exist and be non-empty. */
  function ResolveBaseUrl(cliBaseUrl: Option<string>, env: Environment): (r: Result<string, Error>)
    ensures Truthy(cliBaseUrl) ==> r == Success(cliBaseUrl.value)
    ensures !Truthy(cliBaseUrl) && r.Success? ==> env in EnvBaseUrls && r.value == EnvBaseUrls[env]
    ensures r.Success? ==> r.value != ""
    ensures r.Failure? ==> !Truthy(cliBaseUrl) && r.error == NoBaseUrl(env)
    ensures r.Failure? <==> !Truthy(cliBaseUrl) && (env !in EnvBaseUrls || EnvBaseUrls[env] == "")
  {
    if Truthy(cliBaseUrl) then Success(cliBaseUrl.value)
    else if env in EnvBaseUrls && EnvBaseUrls[env] != "" then Success(EnvBaseUrls[env])
    else Failure(NoBaseUrl(env))
  }

  /** Resolution in the order environment, base URL, browser, headless; the
      first error stops it and no partial settings are produced. */
  function BuildSettings(input: CliInput): (r: Result<Settings, Error>)
    ensures ResolveEnv(input.envName).Failure? ==> r == Failure(ResolveEnv(input.envName).error)
    ensures r.Success? ==> ValidSettings(r.value)
    ensures r.Success? ==>
      && ResolveEnv(input.envName) == Success(r.value.env)
      && ResolveBaseUrl(input.baseUrl, r.value.env) == Success(r.value.baseUrl)
      && ResolveBrowser(input.browser) == Success(r.value.browser)
      && r.value.headless == ResolveHeadless(HeadedFlag(input.headed))
  {
    var env :- ResolveEnv(input.envName);
    var baseUrl :- ResolveBaseUrl(input.baseUrl, env);
    var browser :- ResolveBrowser(input.browser);
    var headless := ResolveHeadless(HeadedFlag(input.headed));
    Success(Settings(env, baseUrl, browser, headless))
  }

  /** An environment name is accepted whatever its letter case. */
  lemma ResolveEnvAnyCase(e: Environment, s: string)
    requires Lower(s) == e.Value()
    ensures ResolveEnv(Some(s)) == Success(e)
  {
    EnvironmentMembers();
  }

  /** Names that lower-case alike resolve alike, to the same member or the same error. */
  lemma ResolveEnvCaseInsensitive(a: string, b: string)
    requires Lower(a) == Lower(b)
    ensures ResolveEnv(Some(a)) == ResolveEnv(Some(b))
  {
    assert |a| == |Lower(a)| == |b|;
  }

  /** A resolved browser name resolves to itself: resolution is a normalisation. */
  lemma ResolveBrowserIdempotent(cliBrowser: Option<string>)
    requires ResolveBrowser(cliBrowser).Success?
    ensures ResolveBrowser(Some(ResolveBrowser(cliBrowser).value)) == ResolveBrowser(cliBrowser)
  {
  }

  /** The built-in URL map makes the missing-base-URL error unreachable. */
  lemma NoBaseUrlUnreachable(input: CliInput)
    ensures forall env: Environment :: ResolveBaseUrl(input.baseUrl, env).Success?
    ensures !(BuildSettings(input).Failure? && BuildSettings(input).error.NoBaseUrl?)
  {
    EnvBaseUrlsTotal();
  }

  /** Base-URL precedence: a given command-line URL wins over the built-in map
      for every environment; without one, the map's URL is used. */
  lemma BaseUrlPrecedence(input: CliInput)
    ensures BuildSettings(input).Success? && Truthy(input.baseUrl) ==>
      BuildSettings(input).value.baseUrl == input.baseUrl.value
    ensures BuildSettings(input).Success? && !Truthy(input.baseUrl) ==>
      BuildSettings(input).value.baseUrl == EnvBaseUrls[BuildSettings(input).value.env]
  {
  }

  /** Resolution succeeds exactly when the environment name and the browser are
      acceptable; a bad environment is reported before a bad browser. */
  lemma BuildSettingsOutcome(input: CliInput)
    ensures BuildSettings(input).Success? <==>
      ResolveEnv(input.envName).Success? && ResolveBrowser(input.browser).Success?
    ensures ResolveEnv(input.envName).Success? && ResolveBrowser(input.browser).Failure? ==>
      BuildSettings(input) == Failure(UnsupportedBrowser(Lower(input.browser.value)))
  {
    NoBaseUrlUnreachable(input);
  }

  /** The browser is headless unless the headed flag was given as true; an absent
      flag (`None`) counts as false. */
  lemma HeadlessUnlessHeaded(input: CliInput)
    ensures BuildSettings(input).Success? ==>
      (BuildSettings(input).value.headless <==> input.headed != Some(true))
  {
  }

  /** With both an unknown environment and an unsupported browser, the
      environment error is the one reported. */
  lemma EnvErrorReportedFirst(input: CliInput)
    requires ResolveEnv(input.envName).Failure?
    requires ResolveBrowser(input.browser).Failure?
    ensures BuildSettings(input) == Failure(UnknownEnv(Lower(input.envName.value)))
  {
  }

  /** With no command-line values at all, the production defaults come out. */
  lemma DefaultSettings()
    ensures BuildSettings(CliInput(None, None, None, None))
      == Success(Settings(Prod, "https://pocketaces2.github.io/fashionhub/", "chromium", true))
  {
  }

  /** The command line that spells out a settings value exactly. */
  function ToCli(s: Settings): CliInput {
    CliInput(Some(s.env.Value()), Some(s.baseUrl), Some(s.browser), Some(!s.headless))
  }

  /** Every valid settings value is reachable, and spelling it back out as a
      command line resolves to that same value. */
  lemma BuildSettingsRoundTrip(s: Settings)
    requires ValidSettings(s)
    ensures BuildSettings(ToCli(s)) == Success(s)
  {
    var input := ToCli(s);
    EnvironmentMembers();
    ResolveEnvAnyCase(s.env, s.env.Value());
    assert ResolveBaseUrl(input.baseUrl, s.env) == Success(s.baseUrl);
    SupportedBrowsersWellFormed();
    assert Lower(s.browser) == s.browser;
    assert ResolveBrowser(input.browser) == Success(s.browser);
    assert ResolveHeadless(HeadedFlag(input.headed)) == s.headless;
  }

  /** Resolving the command line that spells out a resolved value changes nothing. */
  lemma BuildSettingsIdempotent(input: CliInput)
    ensures BuildSettings(input).Success? ==>
      BuildSettings(ToCli(BuildSettings(input).value)) == BuildSettings(input)
  {
    if BuildSettings(input).Success? {
      BuildSettingsRoundTrip(BuildSettings(input).value);
    }
  }


  /** The supported environment values as the environment message lists them. */
  function EnvList(): string {
    Join(EnvValues(Environments), ", ")
  }

  /** The supported browsers as the browser message lists them. */
  function BrowserList(): string {
    Join(SortedBrowsers, ", ")
  }

  /** The text of the exception raised for each error: it opens with the kind
      of failure and quotes the rejected input. */
  function Message(e: Error): (r: string)
    ensures e.UnknownEnv? ==> "Unknown environment '" + e.name + "'" <= r
    ensures e.UnsupportedBrowser? ==> "Unsupported browser '" + e.candidate + "'" <= r
    ensures e.NoBaseUrl? ==> "No base URL configured for environment '" + e.env.Value() + "'" <= r
  {
    match e
    case UnknownEnv(name) =>
      "Unknown environment '" + name + "'. Supported values: " + EnvList()
    case UnsupportedBrowser(candidate) =>
      "Unsupported browser '" + candidate + "'. Supported browsers: " + BrowserList()
    case NoBaseUrl(env) =>
      "No base URL configured for environment '" + env.Value() + "'."
  }

  /** Every environment value appears in the list of supported values. */
  lemma EnvListContains(env: Environment)
    ensures Occurs(env.Value(), EnvList())
  {
    var i := match env case Local => 0 case Staging => 1 case Prod => 2;
    assert Environments[i] == env;
    JoinContains(EnvValues(Environments), ", ", i);
  }

  /** Every supported browser appears in the list of supported browsers. */
  lemma BrowserListContains(b: string)
    requires b in SupportedBrowsers
    ensures Occurs(b, BrowserList())
  {
    SortedBrowsersIsSorted();
    var i :| 0 <= i < |SortedBrowsers| && SortedBrowsers[i] == b;
    JoinContains(SortedBrowsers, ", ", i);
  }

  /** The environment message names the rejected name and every environment value. */
  lemma UnknownEnvMessageLists(name: string)
    ensures Occurs(name, Message(UnknownEnv(name)))
    ensures forall env: Environment :: Occurs(env.Value(), Message(UnknownEnv(name)))
  {
    var head, mid := "Unknown environment '", "'. Supported values: ";
    var m := Message(UnknownEnv(name));
    assert m == head + name + (mid + EnvList());
    assert OccursAt(name, name, 0);
    OccursInContext(name, head, name, mid + EnvList());
    forall env: Environment
      ensures Occurs(env.Value(), m)
    {
      EnvListContains(env);
      OccursInContext(env.Value(), head + name + mid, EnvList(), "");
      assert head + name + mid + EnvList() + "" == m;
    }
  }

  /** The browser message names the rejected candidate and every supported browser. */
  lemma UnsupportedBrowserMessageLists(candidate: string)
    ensures Occurs(candidate, Message(UnsupportedBrowser(candidate)))
    ensures forall b :: b in SupportedBrowsers ==> Occurs(b, Message(UnsupportedBrowser(candidate)))
  {
    var head, mid := "Unsupported browser '", "'. Supported browsers: ";
    var m := Message(UnsupportedBrowser(candidate));
    assert m == head + candidate + (mid + BrowserList());
    assert OccursAt(candidate, candidate, 0);
    OccursInContext(candidate, head, candidate, mid + BrowserList());
    forall b | b in SupportedBrowsers
      ensures Occurs(b, m)
    {
      BrowserListContains(b);
      OccursInContext(b, head + candidate + mid, BrowserList(), "");
      assert head + candidate + mid + BrowserList() + "" == m;
    }
  }

  /** Each message names the rejected input and, for the two validation
      errors, lists every accepted alternative. */
  lemma MessageEnumeratesAlternatives(e: Error)
    ensures e.UnknownEnv? ==> Occurs(e.name, Message(e))
    ensures e.UnknownEnv? ==> forall env: Environment :: Occurs(env.Value(), Message(e))
    ensures e.UnsupportedBrowser? ==> Occurs(e.candidate, Message(e))
    ensures e.UnsupportedBrowser? ==> forall b :: b in SupportedBrowsers ==> Occurs(b, Message(e))
    ensures e.NoBaseUrl? ==> Occurs(e.env.Value(), Message(e))
  {
    match e
    case UnknownEnv(name) =>
      UnknownEnvMessageLists(name);
    case UnsupportedBrowser(candidate) =>
      UnsupportedBrowserMessageLists(candidate);
    case NoBaseUrl(env) =>
      var v := env.Value();
      assert OccursAt(v, v, 0);
      OccursInContext(v, "No base URL configured for environment '", v, "'.");
  }

  /** The text between a fixed head and a fixed tail is determined by the whole. */
  lemma MiddleDetermined(h: string, a: string, b: string, mid: string, t: string)
    requires h + a + mid + t == h + b + mid + t
    ensures a == b
  {
    var m := h + a + mid + t;
    assert |a| == |b|;
    assert m[|h|..|h| + |a|] == a;
    assert (h + b + mid + t)[|h|..|h| + |b|] == b;
  }

  /** The first and third characters of a message tell its kind of error. */
  lemma MessageOpening(e: Error)
    ensures |Message(e)| > 2
    ensures Message(e)[0] == (if e.NoBaseUrl? then 'N' else 'U')
    ensures e.UnknownEnv? ==> Message(e)[2] == 'k'
    ensures e.UnsupportedBrowser? ==> Message(e)[2] == 's'
  {
    match e
    case UnknownEnv(n) =>
      var h := "Unknown environment '" + n + "'";
      assert h <= Message(e) && h[0] == 'U' && h[2] == 'k';
    case UnsupportedBrowser(c) =>
      var h := "Unsupported browser '" + c + "'";
      assert h <= Message(e) && h[0] == 'U' && h[2] == 's';
    case NoBaseUrl(env) =>
      var h := "No base URL configured for environment '" + env.Value() + "'";
      assert h <= Message(e) && h[0] == 'N';
  }

  /** Messages of different kinds of error differ in their opening words. */
  lemma MessageDeterminesKind(e1: Error, e2: Error)
    requires Message(e1) == Message(e2)
    ensures e1.UnknownEnv? == e2.UnknownEnv?
    ensures e1.UnsupportedBrowser? == e2.UnsupportedBrowser?
  {
    MessageOpening(e1);
    MessageOpening(e2);
  }

  /** The environment message determines the rejected name. */
  lemma UnknownEnvMessageInjective(n1: string, n2: string)
    requires Message(UnknownEnv(n1)) == Message(UnknownEnv(n2))
    ensures n1 == n2
  {
    MiddleDetermined("Unknown environment '", n1, n2, "'. Supported values: ", EnvList());
  }

  /** The browser message determines the rejected candidate. */
  lemma UnsupportedBrowserMessageInjective(c1: string, c2: string)
    requires Message(UnsupportedBrowser(c1)) == Message(UnsupportedBrowser(c2))
    ensures c1 == c2
  {
    MiddleDetermined("Unsupported browser '", c1, c2, "'. Supported browsers: ", BrowserList());
  }

  /** A message identifies its error: different errors never share a text. */
  lemma MessageInjective(e1: Error, e2: Error)
    requires Message(e1) == Message(e2)
    ensures e1 == e2
  {
    MessageDeterminesKind(e1, e2);
    match e1
    case UnknownEnv(n1) =>
      UnknownEnvMessageInjective(n1, e2.name);
    case UnsupportedBrowser(c1) =>
      UnsupportedBrowserMessageInjective(c1, e2.candidate);
    case NoBaseUrl(v1) =>
      MiddleDetermined("No base URL configured for environment '", v1.Value(), e2.env.Value(), "'.", "");
      assert Message(e1) == "No base URL configured for environment '" + v1.Value() + "'." + "";
      EnvironmentMembers();
  }

  /** Browser names are matched ignoring letter case and come out lower-cased. */
  lemma BrowserMixedCaseExample()
    ensures ResolveBrowser(Some("Chromium")) == Success("chromium")
  {
    LowerByChars("Chromium", "chromium");
  }

  /** An unknown browser is rejected, naming the candidate. */
  lemma BrowserUnknownExample()
    ensures ResolveBrowser(Some("bogus")) == Failure(UnsupportedBrowser("bogus"))
  {
    LowerByChars("bogus", "bogus");
  }

  /** Environment names are matched ignoring letter case. */
  lemma EnvUpperCaseExample()
    ensures ResolveEnv(Some("STAGING")) == Success(Staging)
  {
    LowerByChars("STAGING", "staging");
    ResolveEnvAnyCase(Staging, "STAGING");
  }

  /** An unknown environment is rejected with its lower-cased name. */
  lemma EnvUnknownExample()
    ensures ResolveEnv(Some("Dev")) == Failure(UnknownEnv("dev"))
  {
    LowerByChars("Dev", "dev");
    assert FromValue("dev").None?;
  }

  /** A local run in headed mode: the local URL, the default browser, a visible window. */
  lemma LocalHeadedScenario()
    ensures BuildSettings(CliInput(Some("local"), None, None, Some(true)))
      == Success(Settings(Local, "http://localhost:4000/fashionhub/", "chromium", false))
  {
    LowerByChars("local", "local");
    ResolveEnvAnyCase(Local, "local");
  }
}
