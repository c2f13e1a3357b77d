# coveralls_multi_ci: CI detection, profile fields, RUN_AT and log routing

`coveralls_multi_ci` submits coverage results to Coveralls.io. This version of the
tool decides three things before it reports anything, and this project models
and proves those three decision rules:

- **CI detection** (`select_ci`). The tool reads the environment and picks one of
  nine profiles: `Local`, `GenericCI`, `TravisCI`, `AppVeyor`, `CircleCI`,
  `Semaphore`, `JenkinsCI`, `Codeship` or `Bamboo`. The rule is an ordered
  if/elif chain with a `CI_NAME` fallback.
- **Profile fields.** Each profile is a class with upper-case attributes:
  the repo token, `RUN_AT`, service name, job id, build number, build URL,
  branch and pull request. Each is a constant, an `os.environ.get` lookup, or
  (`RUN_AT`) the clock read at import and formatted; all are evaluated once,
  when the module is imported. Every attribute a class does not assign
  comes from its base class. The `RUN_AT` timestamp has the layout
  `YYYY-MM-DD HH:MM:SS +0000`.
- **Log routing** (`setup_logging`). The quiet and verbose flags and a message's
  level decide which console stream, if any, receives the message.

The environment (`Env`, a `map<string, string>`) and the clock (a `DateTime`)
are explicit, immutable parameters. The source reads `os.environ` twice: the
class attributes read it when the module is imported, and `select_ci` reads it
again each time it is called. `Detection.SelectCI` therefore takes two
environments, `importEnv` and `callEnv`. The tests reload the module after
setting the environment, so in them the two are the same.

Modules:

- `Wrappers` (wrappers.dfy): the `Option` type. It stands for Python's value-or-`None`.
- `Timestamp` (timestamp.dfy): the `RUN_AT` format and a strict parser for it. The
  round trip between them is proved.
- `Profiles` (profiles.dfy): the class hierarchy. Each class's own assignments are
  given by `Own`. `Resolve` looks an attribute up through the base classes, the way
  Python does. The same fields are also written as a flat table per profile, and
  the two are proved equal.
- `Detection` (detection.dfy): the `select_ci` chain and the instance it creates.
  The chain is also written as a first-match table of markers, and the two are
  proved to pick the same profile.
- `LogRouting` (log_routing.dfy): the handler thresholds, `InfoFilter`, the root
  threshold and `logging.disable`. They are proved to route messages exactly as
  `setup_logging`'s docstring says.

A class attribute read is either `Unbound` (no class in the chain assigns it) or
`Bound(v)`, where `v` may be `None`. This keeps two cases apart. `TravisCI` has no
`SERVICE_NUMBER` attribute at all. `GenericCI` has one that is `None` when
`CI_BUILD_NUMBER` is unset.

## Model

| member | source | states |
|---|---|---|
| Timestamp.Digits | coveralls_multi_ci.py:35 | a `%Y`/`%m`/`%d`/`%H`/`%M`/`%S` field is exactly `width` decimal digits |
| Timestamp.FormatRunAt | coveralls_multi_ci.py:35 | `RUN_AT` has the layout `DDDD-DD-DD DD:DD:DD +0000` (D a digit) and ends with ` +0000` |
| Timestamp.ParseTimestamp | tests/test_end_to_end.py:45 | whatever the strict `%Y-%m-%d %H:%M:%S` reading accepts is a valid date and time with no microseconds |
| Timestamp.DigitsRoundTrip | coveralls_multi_ci.py:35 | reading a zero-padded field back gives the number written, for every number that fits the width |
| Timestamp.RunAtRoundTrip | tests/test_end_to_end.py:44-45 | for every valid instant, `RUN_AT` ends with ` +0000`, and the text before that suffix parses back to the same instant, to the second |
| Profiles.Own | coveralls_multi_ci.py:33-85 | the class bodies: every class assigns `SERVICE_NAME`; only `Local` assigns `RUN_AT`; only `Local` and `TravisCI` assign `REPO_TOKEN`; only `TravisCI` assigns `SERVICE_JOB_ID`; only `GenericCI` assigns the four `CI_*` build attributes |
| Profiles.Resolve | coveralls_multi_ci.py:33-85 | Python's attribute lookup along the base classes: an own assignment shadows inherited ones, every class sees `Local`'s `RUN_AT`, and an attribute is unbound exactly when no class on the chain assigns it; `ResolutionMatchesTable` gives every value |
| Profiles.ProfileFields | coveralls_multi_ci.py:33-85 | the fields of a profile: every profile has `RUN_AT`, a repo token and a service name, and only TravisCI has a job id; `ResolutionMatchesTable` equates it with the flat table |
| Profiles.Parent | coveralls_multi_ci.py:33-85 | `Local` is the only root; every other class extends a class strictly closer to `Local`, so attribute lookup terminates |
| Profiles.ResolutionMatchesTable | coveralls_multi_ci.py:33-85 | for every profile and environment, inherited lookup gives the fields of the flat per-profile table (repo token, RUN_AT, service name, job id, number, build URL, branch, pull request) |
| Profiles.NamedGenericInherits | coveralls_multi_ci.py:43-48 | AppVeyor, CircleCI, Semaphore, JenkinsCI, Codeship and Bamboo override only the service name, with a constant; every other attribute, including `Local`'s repo token, equals `GenericCI`'s |
| Profiles.TravisFields | coveralls_multi_ci.py:51-55 | TravisCI's repo token is `None` even when `COVERALLS_REPO_TOKEN` is set; its service name is `travis-ci` and its job id is `TRAVIS_JOB_ID`; it has no number, build URL, branch or pull request attribute |
| Profiles.GenericFields | coveralls_multi_ci.py:43-48 | GenericCI's service name is `CI_NAME`; its number, build URL, branch and pull request are `CI_BUILD_NUMBER`, `CI_BUILD_URL`, `CI_BRANCH` and `CI_PULL_REQUEST`; its repo token is `COVERALLS_REPO_TOKEN`; it has no job id |
| Profiles.LocalFields | coveralls_multi_ci.py:33-36 | Local's service name is `coveralls_multi_ci` and its repo token is `COVERALLS_REPO_TOKEN`; it has no CI build attribute |
| Profiles.RunAtShared | coveralls_multi_ci.py:35 | every profile reports the one `RUN_AT` string computed at import, in the `RUN_AT` layout |
| Profiles.SourceFiles | coveralls_multi_ci.py:116-117 | `source_files()` is an empty mapping |
| Detection.Select | coveralls_multi_ci.py:120-143 | total; Travis, AppVeyor, Circle, Semaphore and Codeship are chosen only when `CI` is set; Jenkins needs `JENKINS_URL`; Bamboo needs `bamboo.buildNumber`; Codeship needs `CI_NAME` equal to `codeship`; GenericCI needs `CI_NAME`; Local is chosen only without `CI_NAME` |
| Detection.SelectCI | coveralls_multi_ci.py:120-143 | the instance has the profile chosen from the call-time environment and that profile's table fields read from the import-time environment (lines 34-55); its `source_files` is empty and its `git` is the record it was given (lines 38-40) |
| Detection.StaleImportEnvironment | coveralls_multi_ci.py:44 | whenever `CI_NAME` was unset at import and the call-time environment selects GenericCI, the instance's service name is `None` |
| Detection.SelectMatchesTable | coveralls_multi_ci.py:120-143 | for every environment, the if/elif chain picks the same profile as the first-match table of markers with the `CI_NAME` fallback |
| Detection.FirstMatchIsFirst | coveralls_multi_ci.py:122-135 | first match wins: the table yields nothing exactly when no marker holds; otherwise it yields the profile of a rule whose marker holds and before which no marker holds |
| Detection.EarlierBranchWins | coveralls_multi_ci.py:122-135 | when two markers hold, the profile of the later branch is never chosen (order: Travis, AppVeyor, Circle, Semaphore, Jenkins, Codeship, Bamboo) |
| Detection.TravisFirst | coveralls_multi_ci.py:122-123 | with `CI` and `TRAVIS` both set, TravisCI is chosen whatever else is set |
| Detection.JenkinsAndBambooWithoutCI | coveralls_multi_ci.py:130-135 | without `CI`, `JENKINS_URL` selects JenkinsCI, and `bamboo.buildNumber` without `JENKINS_URL` selects Bamboo; no other named service can be chosen |
| Detection.CodeshipWithoutCIIsGeneric | coveralls_multi_ci.py:132-139 | `CI_NAME=codeship` without `CI` (and without the Jenkins and Bamboo markers) falls through to GenericCI, which reports service name `codeship` when the module was imported under the same environment |
| Detection.Fallback | coveralls_multi_ci.py:136-143 | GenericCI is chosen exactly when no marker holds and `CI_NAME` is set, and Local exactly when no marker holds and `CI_NAME` is unset; when the module was imported under the same environment, GenericCI's service name is then `CI_NAME`, never `None` |
| LogRouting.Disabled | coveralls_multi_ci.py:167-169 | `logging.disable(CRITICAL)` drops a message exactly when quiet is on, since every level is at most CRITICAL |
| LogRouting.RootThreshold | coveralls_multi_ci.py:187 | the root logger's threshold is DEBUG exactly when verbose is on, and INFO otherwise |
| LogRouting.InfoFilter | coveralls_multi_ci.py:172-175 | the stdout filter passes exactly DEBUG and INFO records; `RoutingMatchesDocumentation` shows its part in the routing |
| LogRouting.Deliveries | coveralls_multi_ci.py:167-189 | with quiet nothing is written; no message reaches both streams; stdout gets only DEBUG/INFO and stderr only WARNING and above |
| LogRouting.RoutingMatchesDocumentation | coveralls_multi_ci.py:159-166 | for every level and flag setting, the handlers, filter and thresholds deliver a message exactly where the docstring's table sends it |
| LogRouting.DebugNeedsVerbose | coveralls_multi_ci.py:187 | a DEBUG message is printed exactly when verbose is on and quiet is off |
| LogRouting.HandlerFormat | coveralls_multi_ci.py:167-170 | a format is installed exactly when quiet is off |
| LogRouting.TimestampedIffVerbose | coveralls_multi_ci.py:170 | the installed format contains the `asctime` field if and only if verbose is on |

## Left out

- The tests import `coverage_report`, `dump_json_to_disk` and `API_URL` (tests/test_coverage_report.py:1, tests/test_dump_json_to_disk.py:8, tests/test_end_to_end.py:52), but this version of `coveralls_multi_ci.py` does not define them. The coverage translation, the placeholder substitution in the JSON writer and the payload validation those tests exercise are not part of this model.
- `git_stats` (coveralls_multi_ci.py:88-113): it wraps the GitPython library and reads a repository. Its result is a parameter of `Detection.SelectCI` (`GitStats`).
- `post_to_api` and `main` (coveralls_multi_ci.py:146-155): `post_to_api` is empty and `main` only emits one log message per level.
- The docopt parsing of the command line, the SIGINT handler, and the `--version` message: they are process glue. The quiet and verbose flags are parameters.
- Reading `os.environ` and calling `datetime.utcnow()`: both are parameters (`Env` and `DateTime`).
- Building the logging handlers and writing to the streams: only where a message goes is modelled, not the bytes written.
- Detection.Select: `Env` models `os.environ` as on POSIX, with case-sensitive keys. On Windows, `os.environ` upper-cases its keys and matches lookups case-insensitively, so there `bamboo.buildNumber` (coveralls_multi_ci.py:134), and any variable set in another case, is still found. The model does not capture that.
- The log messages `select_ci` itself emits are not modelled: a DEBUG message when it falls back to the generic class (coveralls_multi_ci.py:137), and a WARNING when it resorts to `Local` (line 141). `Detection.Select` returns only the profile.
- Detection.Fallback: the clause that GenericCI's service name is never `None` is stated for a module imported under the environment `select_ci` reads, as the tests arrange by reloading it. `Detection.StaleImportEnvironment` shows that it fails otherwise.
- Detection.CodeshipWithoutCIIsGeneric: the service-name clause likewise assumes the import-time and call-time environments are the same.
- How an unbound or `None` attribute shows up in the submitted JSON: this version has no payload writer.
- setup.py: packaging glue that depends on file reads and the host platform.
- Timestamp.FormatRunAt: years below 1000 are zero-padded to four digits here, and the platform's `strftime` may not pad `%Y`. Under Python 2.6 and 2.7 (setup.py:142-143), `datetime.strftime` raises `ValueError` for any year before 1900, so the import itself fails. The model returns a string for those years. A clock that reads such a year is not a practical case.
- Timestamp.ParseTimestamp: it accepts only zero-padded fields. Python's `strptime` also accepts one-digit months, days and times. It is the inverse that `RUN_AT` is checked against, not a model of `strptime`.
- LogRouting.Deliveries: only the five standard levels are modelled, because they are the only ones the module logs at. A custom level above CRITICAL would get past `logging.disable(CRITICAL)`.
