/** The compiled-in configuration: the environments, their base URLs, the
    supported browsers and the defaults used when the command line is silent. */
module Constants {
  import opened Wrappers
  import opened Text

  /** A deployment target of the site under test. */
  datatype Environment = Local | Staging | Prod {

    /** The enum member's string value. */
    function Value(): string {
      match this
      case Local => "local"
      case Staging => "staging"
      case Prod => "prod"
    }
  }

  /** The members in declaration order, the order in which iterating the enum yields them. */
  const Environments: seq<Environment> := [Local, Staging, Prod]

  /** The values of the given members, in order: `e.value for e in Environment`
      when applied to `Environments`. */
  function EnvValues(es: seq<Environment>): (vs: seq<string>)
    ensures |vs| == |es|
    ensures forall i :: 0 <= i < |es| ==> vs[i] == es[i].Value()
  {
    if es == [] then [] else [es[0].Value()] + EnvValues(es[1..])
  }

  /** The built-in environment to base URL mapping. */
  const EnvBaseUrls: map<Environment, string> := map[
    Local := "http://localhost:4000/fashionhub/",
    Staging := "https://staging-env/fashionhub/",
    Prod := "https://pocketaces2.github.io/fashionhub/"
  ]

  const SupportedBrowsers: set<string> := {"chromium", "firefox", "webkit"}

  const DefaultEnv: Environment := Prod
  const DefaultBrowser: string := "chromium"
  const DefaultHeadless: bool := true

  /** The supported browsers in ascending order, as `sorted` lists them. */
  const SortedBrowsers: seq<string> := ["chromium", "firefox", "webkit"]

  /** Searches `es` for the member whose value is exactly `name`. */
  function FindByValue(es: seq<Environment>, name: string): (r: Option<Environment>)
    ensures r.Some? ==> r.value in es && r.value.Value() == name
    ensures r.None? <==> forall e :: e in es ==> e.Value() != name
  {
    if es == [] then None
    else if es[0].Value() == name then Some(es[0])
    else FindByValue(es[1..], name)
  }

  /** Calling the enum with a value: the member whose value equals `name`, if any.
      The match is exact, so it is case-sensitive. */
  function FromValue(name: string): (r: Option<Environment>)
    ensures r.Some? <==> name == "local" || name == "staging" || name == "prod"
    ensures r.Some? ==> r.value.Value() == name
  {
    assert Environments[0] == Local && Environments[1] == Staging && Environments[2] == Prod;
    assert Local.Value() == "local" && Staging.Value() == "staging" && Prod.Value() == "prod";
    FindByValue(Environments, name)
  }

  /** The enum has exactly the three members, with distinct lower-case values. */
  lemma EnvironmentMembers()
    ensures forall e: Environment :: e in Environments
    ensures |Environments| == 3
    ensures [Local.Value(), Staging.Value(), Prod.Value()] == ["local", "staging", "prod"]
    ensures forall e: Environment :: IsLowerString(e.Value())
    ensures forall e1: Environment, e2: Environment :: e1.Value() == e2.Value() ==> e1 == e2
  {
    forall e: Environment
      ensures e in Environments
    {
      match e
      case Local => assert Environments[0] == e;
      case Staging => assert Environments[1] == e;
      case Prod => assert Environments[2] == e;
    }
  }

  /** Looking a member up by its own value finds that member. */
  lemma FromValueRoundTrip(e: Environment)
    ensures FromValue(e.Value()) == Some(e)
  {
  }

  /** Every environment has a base URL, and none is empty. */
  lemma EnvBaseUrlsTotal()
    ensures forall e: Environment :: e in EnvBaseUrls && EnvBaseUrls[e] != ""
  {
    forall e: Environment
      ensures e in EnvBaseUrls && EnvBaseUrls[e] != ""
    {
      match e
      case Local =>
      case Staging =>
      case Prod =>
    }
  }

  /** The supported browsers are lower-case names and include the default. */
  lemma SupportedBrowsersWellFormed()
    ensures forall b :: b in SupportedBrowsers ==> IsLowerString(b)
    ensures DefaultBrowser in SupportedBrowsers
    ensures |SupportedBrowsers| == 3
  {
  }

  /** `SortedBrowsers` lists exactly the supported browsers, in ascending order. */
  lemma SortedBrowsersIsSorted()
    ensures forall b :: b in SortedBrowsers <==> b in SupportedBrowsers
    ensures |SortedBrowsers| == |SupportedBrowsers|
    ensures StrictlyAscending(SortedBrowsers)
  {
  }
}
