# FashionHub run-settings resolver, in Dafny

This project models the run-settings resolver of the FashionHub end-to-end test
suite. At session start, `build_settings` reads four command-line values:

- `--env-name`
- `--app-base-url`
- `--app-browser`
- `--app-headed`

It merges them with the compiled-in defaults of `constants/constants.py`,
validates them, and returns a frozen `Settings(env, base_url, browser, headless)`.
If a step fails, it raises the first error it meets.

Modules:

- `Wrappers` (`wrappers.dfy`): `Option` and a `Result` that works with `:-`. The
  resolver uses `Result` in place of raised exceptions.
- `Text` (`text.dfy`): ASCII lower-casing, which models `str.lower`;
  `", ".join(...)`; code-point string ordering, which models `sorted`; and
  substring occurrence.
- `Constants` (`constants.dfy`): the `Environment` enum with its values, the
  environment to base URL map, the supported browsers, the three defaults, and
  lookup of an enum member by its value (`Environment(name)`).
- `SettingsHandler` (`settings_handler.dfy`): `Settings`, `Error`, the command-line
  input record, one function per resolver step, `BuildSettings`, and the
  exception messages.

Python semantics are written out explicitly:

- `if not x` on an optional string is `Truthy`: `None` and `""` are both absent.
- `bool(getoption("--app-headed"))` is `HeadedFlag`: the option defaults to
  `None`, and `None` counts as false.
- The command-line base URL is accepted verbatim. It is not checked in any way.

## Model

| member | source | states |
|---|---|---|
| Text.LowerChar | utils/settings_handler.py:33 | one character lower-cased: `A`..`Z` move to `a`..`z`, every other character is unchanged, and the result is never an upper-case letter |
| Text.Lower | utils/settings_handler.py:33 | lower-casing keeps the length, maps each character through `LowerChar`, yields a string with no upper-case letter, and leaves an already lower-case string unchanged |
| Text.LowerIdempotent | utils/settings_handler.py:46 | lower-casing a lower-cased name changes nothing |
| Text.Join | utils/settings_handler.py:51 | `sep.join(xs)`: no items give the empty string, and otherwise the text starts with the first item |
| Text.JoinContains | utils/settings_handler.py:37 | every item of a `", ".join(...)` list occurs as a substring of the joined text |
| Constants.FindByValue | utils/settings_handler.py:35 | the enum lookup finds a member with exactly the given value, or reports none exactly when no member has that value |
| Constants.FromValue | constants/constants.py:10-13 | `Environment(name)` succeeds exactly for "local", "staging" and "prod", with the member whose value is `name`; the match is case-sensitive |
| Constants.EnvironmentMembers | constants/constants.py:10-13 | the enum has exactly three members, with the values "local", "staging" and "prod", which are lower-case and distinct |
| Constants.FromValueRoundTrip | constants/constants.py:10-13 | looking a member up by its own value gives back that member |
| Constants.EnvBaseUrlsTotal | constants/constants.py:17-21 | every environment has a base URL, and no base URL is empty |
| Constants.SupportedBrowsersWellFormed | constants/constants.py:23-26 | the three supported browsers are lower-case, and the default browser is one of them |
| Constants.SortedBrowsersIsSorted | utils/settings_handler.py:51 | the browser list in the error message holds exactly the supported browsers, in strictly ascending code-point order |
| SettingsHandler.ResolveEnv | utils/settings_handler.py:26-38 | an absent or empty name gives Prod; a given name succeeds iff its lower-case form is "local", "staging" or "prod", and then gives the member with that value; otherwise it fails with UnknownEnv carrying the lower-cased name |
| SettingsHandler.ResolveBrowser | utils/settings_handler.py:41-55 | a success is always a supported, lower-case browser; an absent or empty input gives "chromium"; a given name gives its lower-case form, and fails with UnsupportedBrowser iff that form is not supported |
| SettingsHandler.ResolveHeadless | utils/settings_handler.py:58-64 | the result is false exactly when the headed flag is set; otherwise it is the default, true |
| SettingsHandler.ResolveBaseUrl | utils/settings_handler.py:80-88 | a given command-line URL is returned unchanged; otherwise a success is the environment's built-in URL; a success is never empty; it fails, with NoBaseUrl, exactly when no URL was given and the map has no entry or an empty one for the environment |
| SettingsHandler.BuildSettings | utils/settings_handler.py:67-98 | an environment error is reported unchanged; on success, every field equals its resolver's output, and the result has a non-empty base URL and a supported browser |
| SettingsHandler.ResolveEnvAnyCase | utils/settings_handler.py:33-35 | any spelling whose lower-case form is a member's value resolves to that member |
| SettingsHandler.ResolveEnvCaseInsensitive | utils/settings_handler.py:33-38 | two names that lower-case alike resolve to the same member or to the same error |
| SettingsHandler.ResolveBrowserIdempotent | utils/settings_handler.py:45-55 | resolving an already resolved browser name gives it back unchanged |
| SettingsHandler.NoBaseUrlUnreachable | utils/settings_handler.py:84-88 | the base-URL step succeeds for every environment, so the build never fails with NoBaseUrl |
| SettingsHandler.BaseUrlPrecedence | utils/settings_handler.py:80-84 | a non-empty command-line URL is the result whatever the environment; otherwise the result is the resolved environment's built-in URL |
| SettingsHandler.BuildSettingsOutcome | utils/settings_handler.py:78-91 | the build succeeds iff the environment and the browser both resolve; with a good environment and a bad browser it fails with UnsupportedBrowser carrying the lower-cased name |
| SettingsHandler.HeadlessUnlessHeaded | utils/settings_handler.py:75 | the built settings are headless iff the headed option is not `True`, so an absent option means headless |
| SettingsHandler.EnvErrorReportedFirst | utils/settings_handler.py:78-90 | with both a bad environment and a bad browser, the error reported is the environment's |
| SettingsHandler.DefaultSettings | utils/settings_handler.py:73-98 | with no command-line values, the result is Prod, "https://pocketaces2.github.io/fashionhub/", "chromium", headless |
| SettingsHandler.BuildSettingsRoundTrip | utils/settings_handler.py:93-98 | every settings value with a non-empty URL and a supported browser is produced by the command line that spells it out |
| SettingsHandler.BuildSettingsIdempotent | utils/settings_handler.py:93-98 | spelling a built settings value back out as a command line builds the same value |
| Constants.EnvValues | utils/settings_handler.py:37 | the listed values follow the enum's member order, one for each member |
| SettingsHandler.Message | utils/settings_handler.py:36-54 | the exception text opens with the kind of failure and quotes the rejected input, for the environment and browser errors here and the missing-URL error at lines 86-88 |
| SettingsHandler.UnknownEnvMessageLists | utils/settings_handler.py:36-38 | the environment message contains the rejected name and every environment value |
| SettingsHandler.UnsupportedBrowserMessageLists | utils/settings_handler.py:50-54 | the browser message contains the rejected candidate and every supported browser |
| SettingsHandler.MessageEnumeratesAlternatives | utils/settings_handler.py:36-38 | each error message contains the rejected input; the environment message contains every environment value; the browser message contains every supported browser |
| SettingsHandler.MessageInjective | utils/settings_handler.py:36-54 | two errors with the same message text are the same error, so the text identifies both the kind of failure and the rejected input |
| SettingsHandler.BrowserMixedCaseExample | utils/settings_handler.py:45-46 | "Chromium" resolves to "chromium" |
| SettingsHandler.BrowserUnknownExample | utils/settings_handler.py:50-54 | "bogus" is rejected with UnsupportedBrowser("bogus") |
| SettingsHandler.EnvUpperCaseExample | utils/settings_handler.py:33-35 | "STAGING" resolves to Staging |
| SettingsHandler.EnvUnknownExample | utils/settings_handler.py:36-38 | "Dev" is rejected with UnknownEnv("dev") |
| SettingsHandler.LocalHeadedScenario | utils/settings_handler.py:78-98 | `--env-name local --app-headed` gives Local, the local URL, "chromium" and a headed browser |

## Left out

- Reading the options through pytest (`tests/conftest.py:9-40`, `utils/settings_handler.py:73-76`). The four values are plain inputs of `CliInput`.
- The Playwright fixtures (`tests/conftest.py:51-70`). They are external browser automation. The browser is also picked by name with `getattr`, which is dynamic dispatch.
- The page objects, the web and API test cases, and the pull-request export script. They are UI, HTTP and file I/O.
- `src/pages/base_page.py` imports `open_relative`, `assert_title_contains` and `wait_for_url_contains` from the settings module, but that module does not define them. They are not modelled.
- `PROJECT_ROOT` (filesystem path resolution) and `DEFAULT_TIMEOUT_MS` (never used by the resolver).
- Text.Lower: models `str.lower` on ASCII letters only. Python's full Unicode lower-casing, for example of `'İ'`, is not modelled.
- The Python exception classes: `ValueError` for the two validation errors and `RuntimeError` for the missing base URL. The model returns `Error` values, and `Message` gives their text.
- A JSON profile file with per-environment base URL, browser and headless overrides. The code has no such layer. The model follows the code: command-line values first, then the built-in constants.
