# PyTester environment setup, modelled in Dafny

PyTester is a GitHub action that installs a Python package and its test
suite into a fresh environment and then runs the tests. This project models
the part that installs them, in both versions the repository holds, and
the small heading formatter used by the action's console output:

- `action_env_setup.dfy` (module `ActionEnvSetup`) models
  `action/src/pytester/env_setup.py`. `EnvSetup` is a class. It holds the
  platform, the pip runner's command prefix, the repository path and the
  trace of everything done so far. Its methods append to that trace: shell
  runs, sleeps, log entries, environment-variable writes and `sys.exit`.
  The retried registry install is a `while` loop. It is proved against the
  specification function `RetryEvents`, and the attempt, sleep and exit
  counts are proved about that function. `main` is the method `RunAction`.
  Whether each pip attempt succeeds is an input sequence.
- `env_setup.dfy` (module `EnvSetup`) models the root `env_setup.py`:
  - the source check;
  - `prepare`, `install_package`, `install_testsuite`;
  - the reporting of every shell call (`submit_log_shell_output`).
  The answers of the shell, the file system and the retry library are the
  fields of a `World` value. Each step is a method returning an `Outcome`:
  its events in order, and whether it ended the process. Each method is
  proved equal to a specification function, and the lemmas are stated
  about those functions.
- `heading.dfy` (module `Heading`) models `heading.py`: the level table,
  the newline margins, the ANSI style escape and CPython's `str.center`.
- `common.dfy` (module `Common`) holds what the three share:
  - `Option`;
  - how `sys.exit(arg)` ends the process;
  - Python's `str()` of an integer, with its read-back;
  - ASCII `str.lower`;
  - the three accepted source names.

Three behaviours of the code are easy to miss:

- The source is only lower-cased, not trimmed, before it is checked.
- In the action version, a sleep follows every failed attempt, including
  the last one. The installer then exits without a further attempt.
- In the action version, a requirements file is installed before the
  package for every source, not only for TestPyPI.

## Model

| member | source | states |
|---|---|---|
| Common.ExitStatus.ProcessStatus | env_setup.py:195-196 | `sys.exit` with a message ends the process with status 1; with an integer, with that integer |
| Common.NatToString | action/src/pytester/env_setup.py:117 | Python's `str()` of a non-negative integer is a non-empty run of decimal digits without a leading zero |
| Common.IntToString | action/src/pytester/env_setup.py:127-128 | `str()` of an integer starts with `-` exactly when it is negative. A negative number is `-` followed by the digits of its magnitude; any other is its digit string |
| Common.IntTextAt | action/src/pytester/env_setup.py:127-128 | the text `str()` writes for an integer, followed by a space, reads back as that integer and ends where the space starts |
| Common.SignedDigitsBeforeSpace | action/src/pytester/env_setup.py:127-128 | an integer written after a common head and followed by a space is read off unambiguously: equal texts give equal integers and equal remainders |
| Common.TwoIntsDetermined | action/src/pytester/env_setup.py:127-128 | a text holding two written integers, each followed by a space-led part, determines both integers |
| Common.ParseNatToString | action/src/pytester/env_setup.py:117 | the decimal text of a number reads back as that number |
| Common.NatToStringInjective | action/src/pytester/env_setup.py:117 | distinct numbers are written as distinct strings |
| Common.Lower | env_setup.py:19 | `str.lower` keeps the length and maps each upper-case ASCII letter to its lower-case letter, leaving other characters alone |
| Common.LowerIdempotent | action/src/pytester/env_setup.py:145 | lower-casing twice is lower-casing once, and the result holds no upper-case ASCII letter |
| Heading.LevelSpec | heading.py:6-13 | exactly the keys "1" to "6" have a level; each style starts with the escape character and each width is at least 35 |
| Heading.Center | heading.py:19 | `str.center` gives length max(len, width), and leaves a string at least as wide as the width unchanged |
| Heading.CenterShape | heading.py:19 | `str.center` gives length max(len, width). The title is kept whole, with only spaces around it. The pads differ by at most one, and the left pad is the longer one exactly when both the margin and the width are odd |
| Heading.CenterLast | heading.py:19 | the last character of a centred title is a padding space or the title's own last character |
| Heading.Heading | heading.py:5-19 | the result is the error branch exactly when the level has no table entry; that branch prints the error line and exits with status 1. A heading's length is the two margins, the style escape and the centred title's max(len, width) |
| Heading.HeadingRejectsUnknownLevel | heading.py:14-16 | a level outside "1" to "6" prints the error line and exits with status 1, and every such level is refused |
| Heading.HeadingLayout | heading.py:17-19 | a heading starts with exactly `top` newlines and ends with `bottom` newlines. Between them are the style escape and the centred title. The bottom margin is exactly `bottom` newlines long when the title does not end in a newline |
| Heading.WidthsDecrease | heading.py:7-12 | level k has width 125 - 15k, so the widths strictly decrease with the level |
| Heading.LevelWidth | heading.py:7-12 | the decimal key of level k, for k from 1 to 6, has width 125 - 15k |
| Heading.AcceptedLevels | heading.py:6-14 | a decimal level k is accepted exactly when 1 <= k <= 6 |
| Heading.InvalidMessageUnderstatesLevels | heading.py:14-15 | as written, the error message names 4 as the highest level while level 5 is accepted |
| Heading.IntendedMessageMatchesLevels | heading.py:14-16 | with the corrected message, a decimal level is accepted exactly when it lies in the range the message names, and accepted levels format as before |
| ActionEnvSetup.SplitLast | action/src/pytester/env_setup.py:22 | splitting a path at its last separator gives a parent and a final component with no separator, which join back to the path |
| ActionEnvSetup.SplitJoin | action/src/pytester/env_setup.py:22 | joining a component with no separator onto a base path is undone by splitting at the last separator |
| ActionEnvSetup.VenvExecutablePath | action/src/pytester/env_setup.py:15-22 | on Windows the executable is `venv\Scripts\<name>.exe`, elsewhere `venv/bin/<name>` |
| ActionEnvSetup.VenvExecutableSplit | action/src/pytester/env_setup.py:15-22 | the executable path splits back into the environment, the platform's script directory and the file name |
| ActionEnvSetup.Requirement | action/src/pytester/env_setup.py:108 | the requirement starts with the name. It is the bare name exactly when no version is given, and otherwise continues with `==` and the version |
| ActionEnvSetup.ParseRequirement | action/src/pytester/env_setup.py:108 | reading a requirement back splits it at a `==` into name and version, or gives the whole text as the name with no version |
| ActionEnvSetup.RequirementRoundTrip | action/src/pytester/env_setup.py:108 | the requirement `name` or `name==version` reads back as the name and version it was built from |
| ActionEnvSetup.NameRoundTrip | action/src/pytester/env_setup.py:108 | an unpinned name reads back as that name with no version |
| ActionEnvSetup.PipCommand | action/src/pytester/env_setup.py:108-113 | the command is `install` and the requirement; for TestPyPI exactly `--no-deps --index-url https://test.pypi.org/simple` follow, and for any other source nothing does |
| ActionEnvSetup.ExhaustedEntry | action/src/pytester/env_setup.py:125-129 | the entry logged after the last failure is a critical entry |
| ActionEnvSetup.ExhaustedMessageDeterminesCounts | action/src/pytester/env_setup.py:125-129 | the critical message for a source names its attempt count and total sleep time: two messages agree only when both numbers agree |
| ActionEnvSetup.RetryEvents | action/src/pytester/env_setup.py:114-130 | the loop's events are never empty. They start with the next attempt, under its own numbered title, while attempts remain, and with the critical entry once they are spent |
| ActionEnvSetup.RetryStep | action/src/pytester/env_setup.py:114-123 | one turn of the loop: a successful attempt ends it; a failed one is followed by a sleep and the next turn |
| ActionEnvSetup.RetryEnd | action/src/pytester/env_setup.py:124-130 | once the attempts are spent, the loop ends with the critical entry and `exit(1)` |
| ActionEnvSetup.RetryUntilSuccess | action/src/pytester/env_setup.py:114-123 | when attempt k is the first to succeed, the titles are those of attempts 1 to k in order, with k - 1 sleeps and no exit |
| ActionEnvSetup.RetryEndsWithSuccess | action/src/pytester/env_setup.py:114-122 | when attempt k is the first to succeed, that attempt is the last event |
| ActionEnvSetup.RetryUntilExhausted | action/src/pytester/env_setup.py:114-130 | when every attempt fails, all are made in order with their numbered titles and as many sleeps as attempts, then the critical entry and `exit(1)` end the trace (the attempt-then-sleep order of each turn is `RetryStep`'s) |
| ActionEnvSetup.RetryHaltsIffAllFail | action/src/pytester/env_setup.py:114-130 | the loop exits the process exactly when no attempt succeeds |
| ActionEnvSetup.InstallSucceedsOnFirstSuccess | action/src/pytester/env_setup.py:114-123 | the registry install of any source makes exactly k attempts, numbered 1 to k, and k - 1 sleeps when attempt k first succeeds, and does not exit |
| ActionEnvSetup.InstallFailsAfterAllAttempts | action/src/pytester/env_setup.py:114-130 | when all fail, it makes exactly `retries` attempts and `retries` sleeps. It then logs a critical entry citing `retries * retry_sleep_seconds` and exits with 1 |
| ActionEnvSetup.NoRetriesIsFatal | action/src/pytester/env_setup.py:114-130 | with `retries <= 0` no attempt is made and the install is fatal at once |
| ActionEnvSetup.AttemptTitlesDistinct | action/src/pytester/env_setup.py:117 | distinct attempt numbers give distinct log titles |
| ActionEnvSetup.InstallPackageDispatch | action/src/pytester/env_setup.py:57-70 | a requirements file comes first whatever the source. "github" then installs once from the repository, with no attempt, sleep or exit. Any other source runs the registry install, which alone decides whether the process exits |
| ActionEnvSetup.PackageHaltsIffAllFail | action/src/pytester/env_setup.py:57-70 | `install_package` exits exactly when the source is not "github" and every attempt fails |
| ActionEnvSetup.PypiFirstAttempt | action/src/pytester/env_setup.py:108-117 | the registry install starts with attempt 1 of the source's own command |
| ActionEnvSetup.EnvSetup.constructor | action/src/pytester/env_setup.py:27-45 | the virtual environment is created, the path of its Python is exported, and the pip runner is that Python with `-m pip` |
| ActionEnvSetup.EnvSetup.InstallPackage | action/src/pytester/env_setup.py:47-70 | appends the requirements install when a path is given, then the GitHub or registry events; returns whether it exited, which happens exactly when the source is not "github" and all attempts fail |
| ActionEnvSetup.EnvSetup.InstallTestsuite | action/src/pytester/env_setup.py:72-76 | appends one install of the test-suite path, under the test-suite title |
| ActionEnvSetup.EnvSetup.DisplayEnv | action/src/pytester/env_setup.py:78-82 | appends one `pip list` |
| ActionEnvSetup.EnvSetup.InstallFromGithub | action/src/pytester/env_setup.py:84-90 | appends one `pip install <repo>/<path>` |
| ActionEnvSetup.EnvSetup.InstallPkgRequirements | action/src/pytester/env_setup.py:92-98 | appends one `pip install -r <repo>/<path>` |
| ActionEnvSetup.EnvSetup.InstallFromPypi | action/src/pytester/env_setup.py:100-131 | the `for ... else` loop appends exactly the events of `RetryEvents`. It exits exactly when every attempt fails, and always when `retries <= 0` |
| ActionEnvSetup.RunAction | action/src/pytester/env_setup.py:134-161 | `main` produces the events of `MainEvents`; an unknown source ends it right after the section header |
| ActionEnvSetup.MainStepOrder | action/src/pytester/env_setup.py:151-160 | environment creation, then the package install. When that does not exit, the test-suite install and the listing follow and end the trace |
| ActionEnvSetup.FirstPackageEvent | action/src/pytester/env_setup.py:151-156 | the first package event is the GitHub install or attempt 1 of the source `install_package` is handed |
| ActionEnvSetup.FirstPackageEventOf | action/src/pytester/env_setup.py:151-156 | after the requirements install, the package events start with the GitHub install or the first registry event |
| ActionEnvSetup.MixedCaseSourceInstallsFromPypi | action/src/pytester/env_setup.py:145-156 | as written, an accepted source not already in lower case gets a plain PyPI attempt first |
| ActionEnvSetup.GithubSpelledGitHubGoesToPypi | action/src/pytester/env_setup.py:145-156 | "GitHub" passes the check, yet a PyPI attempt is made instead of the GitHub install |
| ActionEnvSetup.IntendedDispatchFollowsSource | action/src/pytester/env_setup.py:145-156 | with the checked source passed on, "github" installs from the repository and the registries use their own command and title, TestPyPI with its index options |
| EnvSetup.AndThenEndsAtExit | env_setup.py:26-40 | running steps one after the other keeps the exit last: a run has exited exactly when its last event is an exit, and no exit comes earlier |
| EnvSetup.ComposeSummary | env_setup.py:184-188 | with an empty prepend the summary is the call's own; in every case it ends with the call's summary |
| EnvSetup.SummaryRoundTrip | env_setup.py:184-188 | with a prepend, the summary reads back as whether the call succeeded and the call's own summary |
| EnvSetup.EntryStatus | env_setup.py:190 | the status of a reported call is success or error |
| EnvSetup.SubmitOutcome | env_setup.py:179-197 | reporting a call exits the process exactly when the call failed, and first logs an entry under the given title |
| EnvSetup.Reported | env_setup.py:179-197 | a reported call is never empty and exits exactly when the call failed |
| EnvSetup.SubmitExitsOnFailure | env_setup.py:184-197 | the report is the entry alone, or the entry and the exit: exactly one entry is logged, with status success exactly when the call succeeded, and carrying the call's details. The process exits, with the composed summary as its message, exactly when the call failed |
| EnvSetup.ReportedLogsOnce | env_setup.py:179-197 | a reported call is the call, its one log entry and, only on failure, the exit; no other event is a log entry |
| EnvSetup.SubmitLogShellOutput | env_setup.py:179-197 | logs the entry and exits on failure as `SubmitOutcome` says |
| EnvSetup.Prepare | env_setup.py:44-49 | upgrades pip and reports it as `PrepareOutcome` says |
| EnvSetup.InstallTestsuite | env_setup.py:164-176 | installs the test-suite path in the repository and reports it as `TestsuiteOutcome` says |
| EnvSetup.IndexLabel | env_setup.py:69 | the index named in logs and messages is "TestPyPI" exactly for "testpypi", else "PyPI" |
| EnvSetup.RetryLoggerNamesIndex | env_setup.py:79-96 | the accepted, retried and timed-out cases have the statuses success, attention and error, and each summary starts by naming the index |
| EnvSetup.RetryLoggerFollowsSource | env_setup.py:66-96 | the retry logger is the TestPyPI one exactly for "testpypi" and the PyPI one for every other source |
| EnvSetup.RetryArgsBySource | env_setup.py:138-155 | only TestPyPI passes `install_dependencies=False` and `index="testpypi"`. A version is pinned as `==version` exactly when one is given, and the pin reads back as the version |
| EnvSetup.RetryFailedMessageDeterminesCounts | env_setup.py:145-160 | the exit message after exhausted retries determines the number of tries and the total sleep time it names |
| EnvSetup.RetryOutcomeFacts | env_setup.py:138-160 | the retried install is the only shell call. The step exits exactly on `RetryError`, with the message naming the index, the tries and the total |
| EnvSetup.InstallPackage | env_setup.py:52-161 | the package step produces the events of `PackageOutcome` |
| EnvSetup.InstallRequirements | env_setup.py:118-137 | TestPyPI's requirements are installed when the file exists and skipped otherwise, as `RequirementsOutcome` says |
| EnvSetup.TryRetriedInstall | env_setup.py:138-160 | the retried install and its `except RetryError` exit produce the events of `RetryOutcome` |
| EnvSetup.RetryOutcome | env_setup.py:138-160 | the retried install step is never empty, and exits exactly on `RetryError` |
| EnvSetup.RequirementsOutcome | env_setup.py:117-137 | the requirements step is never empty, and exits exactly when the file exists and its install fails |
| EnvSetup.PackageOutcome | env_setup.py:107-161 | the package step exits exactly when the call its source depends on fails (see `PackageSucceeds`) |
| EnvSetup.PackageFacts | env_setup.py:107-161 | the package step exits exactly when one of its calls fails, and only through its last event. When nothing fails, it makes exactly the calls of `PackageCalls`, in order |
| EnvSetup.GithubInstallsOnce | env_setup.py:107-116 | GitHub makes one direct install from the setup path, with no requirements install and no retried install |
| EnvSetup.PypiOnlyRetries | env_setup.py:150-160 | PyPI makes the retried install as its only shell call and never installs a requirements file |
| EnvSetup.TestpypiMissingRequirementsSkips | env_setup.py:117-144 | TestPyPI without a requirements file logs exactly one skip entry naming the input and resolved paths, and the retried install still follows |
| EnvSetup.SetupEnvironment | env_setup.py:8-41 | `setup_environment` produces the events of `SetupOutcome` |
| EnvSetup.SetupOutcome | env_setup.py:8-41 | the setup is never empty, and exits exactly when the source is rejected, the pip upgrade fails, the package step fails or the test-suite install fails |
| EnvSetup.InvalidSourceExitsFirst | env_setup.py:19-26 | a source outside github, pypi and testpypi, in any case, ends the process before anything runs; an accepted one starts with the pip upgrade |
| EnvSetup.SetupExitsIffSomeStepFails | env_setup.py:19-40 | the setup exits exactly when the source is rejected or some shell call of the three steps fails, and only through its last event |
| EnvSetup.SetupStepOrder | env_setup.py:26-40 | when every call succeeds, the shell calls are the pip upgrade, the package's calls and the test-suite install, in that order |
| EnvSetup.FailedUpgradeStopsSetup | env_setup.py:26-27 | a failed pip upgrade ends the setup with no further shell call |
| EnvSetup.FailedPackageSkipsTestsuite | env_setup.py:27-40 | a failed package step ends the setup: the calls are the pip upgrade and the package's own, with no test-suite install |

## Left out

- The libraries `actionman`, `pyshellman`, `retryit` and `loggerman` are not part of this model. Their effects are recorded as events, and their answers are inputs.
- The retry library's schedule is not modelled. Nothing is claimed about how many attempts `constant_until_max_duration` allows, nor about the entries its logger writes. The retried call is one event carrying its arguments, logger templates and sleeper. Its result, accepted or `RetryError` with the tries and the total, is an input.
- `EnvSetup.RetryFailedMessageDeterminesCounts`: the total sleep time is taken as the text the retry library prints for it, because its type and formatting are the library's.
- `pyshellman.run` and the pip runner's default `raise_exit_code` behaviour are not modelled. The action version's plain runs are events that always return, so a failed requirements, GitHub, test-suite or listing run is not shown to stop the action. The "exactly when" claims of `ActionEnvSetup.PackageHaltsIffAllFail`, `ActionEnvSetup.EnvSetup.InstallPackage`, `ActionEnvSetup.RunAction` and `ActionEnvSetup.MainStepOrder` rest on this: they count only the retried install's exit.
- Shell execution, `time.sleep`, venv creation and environment-variable writes are I/O. They appear only as events.
- `Path.resolve()` and `is_file()` are not modelled. The resolved repository and requirements paths and the file check are inputs of `World`.
- `ActionEnvSetup.Join` does not model pathlib normalisation. An absolute component, `.`, a trailing separator or an empty component is joined as text with the platform separator: an empty path gives `repo/`, where pathlib gives `repo`.
- `Common.Lower` is ASCII-only. Python's full Unicode case mapping is not modelled.
- Sleep durations are whole seconds (`nat`). Float durations and the `ValueError` of a negative sleep are not modelled. `main` reads both retry inputs as integers.
- `None` for the optional `version` and requirements path is modelled as the empty string: the source tests both for truthiness (action/src/pytester/env_setup.py:57 and 108, and for the version env_setup.py:141 and 154), so `None` and `""` behave alike there. `None` for a package name or setup path is not modelled. There the source raises `TypeError` on `self._repo_path / None`, or passes `None` into the pip command.
- `ActionEnvSetup.EnvSetup.InstallFromPypi` requires the sequence of attempt outcomes to cover every attempt (`retries <= |succeeded|`). The source does not demand this; it is a property of the outcome input.
- `ENV_PREFIX` of the pytester package and `initialize_logger` are not part of this model. The prefix is a parameter, and the logger setup is console styling.
- `action/src/pytester/logger.py`, `action/script/env_setup.py` and `action/script/test_run.py` are not modelled. They are console styling, environment-variable parsing and dynamic import.
- The environment-information block of `env_setup.py` (lines 200-235) is left out as diagnostic shell output only. So is the command-line usage of `heading.py` (lines 22-27).

## Findings

| source | as written | input that shows it | evidently intended | confidence | as-written member | corrected member |
|---|---|---|---|---|---|---|
| action/src/pytester/env_setup.py:145-156 | the source is checked lower-cased (`pkg_src`), but `install_package` receives the original `pkg_args["src"]` | `PKG_SRC = "GitHub"`: the check passes, then a plain PyPI install of the package name is attempted instead of the GitHub install (and "TestPyPI" installs from PyPI without the TestPyPI index) | pass the lower-cased source, as the root `env_setup.py` does | not executed | ActionEnvSetup.MixedCaseSourceInstallsFromPypi | ActionEnvSetup.IntendedDispatchFollowsSource |
| heading.py:14-15 | the error message says "Choose between 1 and 4." | level "5" or "6" is accepted and formatted, so the message names a narrower range than the table | name the range 1 to 6 | not executed | Heading.InvalidMessageUnderstatesLevels | Heading.IntendedMessageMatchesLevels |
