/**
 Model of action/src/pytester/env_setup.py: the action's environment setup.
 An `EnvSetup` object creates a virtual environment, remembers the pip
 runner of that environment and the repository path, and installs the
 package (optionally after its requirements file) and the test suite.
 Registry installs are retried a fixed number of times with a sleep after
 every failed attempt.

 Everything the script does to the outside world (shell commands, sleeps,
 log entries, environment-variable writes, `sys.exit`) is an `Event`
 appended to the object's `trace`. Whether each retried pip attempt
 succeeds is an input: `succeeded[i]` is the outcome of attempt i + 1.
 */
module ActionEnvSetup {
  import opened Common

  /** `os.name`: "nt" on Windows, anything else elsewhere. */
  datatype OsName = Nt | Posix

  /** The separator `str()` of a pathlib path uses on each platform. */
  function Sep(os: OsName): char {
    if os == Nt then '\\' else '/'
  }

  /** `str(base / part)` for a relative component `part`. */
  function Join(base: string, part: string, os: OsName): string {
    base + [Sep(os)] + part
  }

  /** Splits a rendered path at its last separator into the parent and the
      final component. */
  function SplitLast(p: string, os: OsName): (r: Option<(string, string)>)
    ensures r.Some? ==> p == r.value.0 + [Sep(os)] + r.value.1 && Sep(os) !in r.value.1
    ensures r.None? ==> Sep(os) !in p
  {
    if |p| == 0 then None
    else if p[|p| - 1] == Sep(os) then Some((p[..|p| - 1], ""))
    else match SplitLast(p[..|p| - 1], os)
      case None => None
      case Some((parent, name)) => Some((parent, name + [p[|p| - 1]]))
  }

  /** Joining a component that holds no separator can be undone by
      splitting at the last separator. */
  lemma {:induction false} SplitJoin(base: string, part: string, os: OsName)
    requires Sep(os) !in part
    ensures SplitLast(Join(base, part, os), os) == Some((base, part))
  {
    var p := Join(base, part, os);
    if part == [] {
      assert p[..|p| - 1] == base;
    } else {
      var init := part[..|part| - 1];
      assert p[..|p| - 1] == Join(base, init, os);
      SplitJoin(base, init, os);
      assert init + [part[|part| - 1]] == part;
    }
  }

  /** `venv_executable_path`: the executable `name` inside a virtual
      environment, under `Scripts` with an `.exe` suffix on Windows and
      under `bin` without a suffix elsewhere. */
  function VenvExecutablePath(venv: string, name: string, os: OsName): (p: string)
    ensures os == Nt ==> p == venv + "\\Scripts\\" + name + ".exe"
    ensures os == Posix ==> p == venv + "/bin/" + name
  {
    var (dirName, suffix) := if os == Nt then ("Scripts", ".exe") else ("bin", "");
    Join(Join(venv, dirName, os), name + suffix, os)
  }

  /** The executable path splits back into the virtual environment, the
      platform's script directory and the executable's file name. */
  lemma VenvExecutableSplit(venv: string, name: string, os: OsName)
    requires Sep(os) !in name
    ensures var dirName := if os == Nt then "Scripts" else "bin";
      var fileName := if os == Nt then name + ".exe" else name;
      && SplitLast(VenvExecutablePath(venv, name, os), os) == Some((Join(venv, dirName, os), fileName))
      && SplitLast(Join(venv, dirName, os), os) == Some((venv, dirName))
  {
    var dirName := if os == Nt then "Scripts" else "bin";
    var fileName := if os == Nt then name + ".exe" else name;
    assert Sep(os) !in fileName;
    assert Sep(os) !in dirName;
    assert VenvExecutablePath(venv, name, os) == Join(Join(venv, dirName, os), fileName, os);
    SplitJoin(Join(venv, dirName, os), fileName, os);
    SplitJoin(venv, dirName, os);
  }

  /** What the script does to the outside world, in order. */
  datatype Event =
    /** `pyshellman.run` with a command and a log title. */
    | Shell(command: seq<string>, title: string)
    | EnvVarWrite(name: string, value: string)
    /** The object's pip runner run with its default options. The runner
        puts its `pipPreCommand` before `command`, which is recorded without
        it since the prefix is fixed once the object is made. */
    | PipRun(command: seq<string>, title: string)
    /** The pip runner run with `raise_exit_code=False` and
        `log_level_exit_code="info"`: one retried install attempt. */
    | PipAttempt(command: seq<string>, title: string)
    | Sleep(seconds: nat)
    | Critical(title: string, message: string)
    | Section(title: string)
    | Exit(status: ExitStatus)

  predicate IsAttempt(e: Event) { e.PipAttempt? }
  predicate IsSleep(e: Event) { e.Sleep? }
  predicate IsExit(e: Event) { e.Exit? }

  /** The number of events of one kind. */
  function Count(t: seq<Event>, kind: Event -> bool): nat {
    if t == [] then 0 else (if kind(t[0]) then 1 else 0) + Count(t[1..], kind)
  }

  lemma {:induction false} CountConcat(a: seq<Event>, b: seq<Event>, kind: Event -> bool)
    ensures Count(a + b, kind) == Count(a, kind) + Count(b, kind)
  {
    if a == [] {
      assert a + b == b;
    } else {
      assert (a + b)[1..] == a[1..] + b;
      CountConcat(a[1..], b, kind);
    }
  }

  /** The log titles of the install attempts, in order. */
  function AttemptTitles(t: seq<Event>): seq<string> {
    if t == [] then [] else (if t[0].PipAttempt? then [t[0].title] else []) + AttemptTitles(t[1..])
  }

  lemma {:induction false} AttemptTitlesConcat(a: seq<Event>, b: seq<Event>)
    ensures AttemptTitles(a + b) == AttemptTitles(a) + AttemptTitles(b)
  {
    if a == [] {
      assert a + b == b;
    } else {
      assert (a + b)[1..] == a[1..] + b;
      AttemptTitlesConcat(a[1..], b);
    }
  }

  /** Attempts `from + 1` to `to` all fail. */
  predicate FailedFrom(succeeded: seq<bool>, from: int, to: int) {
    forall j :: from <= j < to && 0 <= j < |succeeded| ==> !succeeded[j]
  }

  /** The trace ends with the process exiting. */
  predicate Halts(t: seq<Event>) {
    |t| > 0 && t[|t| - 1].Exit?
  }

  const TestPypiIndexUrl := "https://test.pypi.org/simple"

  /** The requirement pip is asked to install: the bare name when no version
      is given, otherwise pinned with `==`. */
  function Requirement(name: string, version: string): (r: string)
    ensures |r| >= |name| && r[..|name|] == name
    ensures version == "" <==> r == name
    ensures version != "" ==> r[|name|..] == "==" + version
  {
    if version == "" then name else name + "==" + version
  }

  /** How pip reads a requirement back: the text before the first `==` is
      the name, the text after it the pinned version. */
  function ParseRequirement(s: string): (r: (string, string))
    ensures r.0 + "==" + r.1 == s || (r.0 == s && r.1 == "")
  {
    if |s| < 2 then (s, "")
    else if s[0] == '=' && s[1] == '=' then ("", s[2..])
    else var (n, v) := ParseRequirement(s[1..]); ([s[0]] + n, v)
  }

  /** A requirement built from a name without `=` reads back as that name and
      version. */
  lemma {:induction false} RequirementRoundTrip(name: string, version: string)
    requires '=' !in name
    ensures ParseRequirement(Requirement(name, version)) == (name, version)
  {
    if name == [] {
    } else if version == "" {
      NameRoundTrip(name);
    } else {
      var s := Requirement(name, version);
      assert s == name + "==" + version;
      assert s[0] == name[0] && s[1..] == Requirement(name[1..], version);
      RequirementRoundTrip(name[1..], version);
      assert [name[0]] + name[1..] == name;
    }
  }

  lemma {:induction false} NameRoundTrip(name: string)
    requires '=' !in name
    ensures ParseRequirement(name) == (name, "")
  {
    if |name| >= 2 {
      NameRoundTrip(name[1..]);
      assert [name[0]] + name[1..] == name;
    }
  }

  /** The pip command of a registry install: `install` and the requirement,
      followed, for TestPyPI only, by the options that turn dependency
      resolution off and point pip at the TestPyPI index. */
  function PipCommand(src: string, name: string, version: string): (command: seq<string>)
    ensures |command| >= 2 && command[0] == "install" && command[1] == Requirement(name, version)
    ensures src == "testpypi" ==> command[2..] == ["--no-deps", "--index-url", TestPypiIndexUrl]
    ensures src != "testpypi" ==> |command| == 2
  {
    ["install", Requirement(name, version)]
      + if src == "testpypi" then ["--no-deps", "--index-url", TestPypiIndexUrl] else []
  }

  /** The registry name used in log titles and messages. */
  function SourceName(src: string): string {
    if src == "testpypi" then "TestPyPI" else "PyPI"
  }

  function AttemptTitle(srcName: string, attempt: nat): string {
    "Package Installation (" + srcName + ", attempt " + NatToString(attempt) + ")"
  }

  /** The critical log entry written once every attempt has failed; it cites
      the attempt count and the total sleep time. */
  function ExhaustedEntry(srcName: string, retries: int, totalSleepSeconds: int): (e: Event)
    ensures e.Critical?
  {
    Critical(
      "Package Installation (" + srcName + ")",
      ExhaustedHead(srcName) + IntToString(retries)
        + ExhaustedMiddle + IntToString(totalSleepSeconds) + " seconds.")
  }

  /** The part of the exhaustion message between the two counts. */
  const ExhaustedMiddle := " attempts with a total sleep time of "

  /** The part of the exhaustion message before the attempt count. */
  function ExhaustedHead(srcName: string): string {
    "Failed to install package from " + srcName + " after "
  }

  /** Two exhaustion messages for the same source agree only when they cite
      the same attempt count and the same total sleep time. */
  lemma ExhaustedMessageDeterminesCounts(srcName: string, r1: int, t1: int, r2: int, t2: int)
    requires ExhaustedEntry(srcName, r1, t1) == ExhaustedEntry(srcName, r2, t2)
    ensures r1 == r2 && t1 == t2
  {
    TwoIntsDetermined(ExhaustedHead(srcName), r1, t1, r2, t2, ExhaustedMiddle, " seconds.");
  }

  /** The events of the retry loop once `done` attempts have failed: attempt
      `done + 1` is run; success ends the loop, failure sleeps and goes on;
      once `retries` attempts are spent, a critical entry and `exit(1)`. */
  function RetryEvents(command: seq<string>, srcName: string, retries: int, retrySleepSeconds: nat,
                       exhausted: Event, succeeded: seq<bool>, done: nat): (r: seq<Event>)
    requires retries <= |succeeded|
    ensures |r| > 0
    ensures r[0] == if done < retries then PipAttempt(command, AttemptTitle(srcName, done + 1)) else exhausted
    decreases if done < retries then retries - done else 0
  {
    if done >= retries then [exhausted, Exit(Code(1))]
    else
      [PipAttempt(command, AttemptTitle(srcName, done + 1))]
        + if succeeded[done] then []
          else [Sleep(retrySleepSeconds)] + RetryEvents(command, srcName, retries, retrySleepSeconds, exhausted, succeeded, done + 1)
  }

  /** One turn of the retry loop: the attempt alone when it succeeds, the
      attempt and a sleep before the next turn when it fails. */
  lemma RetryStep(command: seq<string>, srcName: string, retries: int, retrySleepSeconds: nat,
                  exhausted: Event, succeeded: seq<bool>, done: nat)
    requires retries <= |succeeded| && done < retries
    ensures succeeded[done] ==>
              RetryEvents(command, srcName, retries, retrySleepSeconds, exhausted, succeeded, done)
              == [PipAttempt(command, AttemptTitle(srcName, done + 1))]
    ensures !succeeded[done] ==>
              RetryEvents(command, srcName, retries, retrySleepSeconds, exhausted, succeeded, done)
              == [PipAttempt(command, AttemptTitle(srcName, done + 1)), Sleep(retrySleepSeconds)]
                 + RetryEvents(command, srcName, retries, retrySleepSeconds, exhausted, succeeded, done + 1)
  {
  }

  /** The retry loop once the attempts are spent. */
  lemma RetryEnd(command: seq<string>, srcName: string, retries: int, retrySleepSeconds: nat,
                 exhausted: Event, succeeded: seq<bool>, done: nat)
    requires retries <= |succeeded| && done >= retries
    ensures RetryEvents(command, srcName, retries, retrySleepSeconds, exhausted, succeeded, done)
      == [exhausted, Exit(Code(1))]
  {
  }

  /** Appending two parts one after the other appends their concatenation. */
  lemma Compose(t0: seq<Event>, t1: seq<Event>, t2: seq<Event>, a: seq<Event>, b: seq<Event>)
    requires t1 == t0 + a && t2 == t1 + b
    ensures t2 == t0 + (a + b)
  {
  }

  /** Appending two events one at a time, then the rest. */
  lemma Shift(t: seq<Event>, e: Event, f: Event, rest: seq<Event>)
    ensures t + ([e, f] + rest) == ((t + [e]) + [f]) + rest
  {
  }

  /** The events of `_install_from_pypi`. */
  function PypiEvents(src: string, name: string, version: string, retries: int, retrySleepSeconds: nat,
                      succeeded: seq<bool>): seq<Event>
    requires retries <= |succeeded|
  {
    RetryEvents(PipCommand(src, name, version), SourceName(src), retries, retrySleepSeconds,
      ExhaustedEntry(SourceName(src), retries, retries * retrySleepSeconds), succeeded, 0)
  }

  /** The titles of `n` consecutive attempts, numbered from `first`. */
  function Titles(srcName: string, first: nat, n: nat): (r: seq<string>)
    ensures |r| == n && forall i :: 0 <= i < n ==> r[i] == AttemptTitle(srcName, first + i)
    decreases n
  {
    if n == 0 then [] else [AttemptTitle(srcName, first)] + Titles(srcName, first + 1, n - 1)
  }

  /** A failed attempt and the sleep after it add one title and one sleep to
      what follows, and no exit. */
  lemma FailedTurn(attempt: Event, pause: Event, rest: seq<Event>)
    requires attempt.PipAttempt? && pause.Sleep?
    ensures AttemptTitles([attempt, pause] + rest) == [attempt.title] + AttemptTitles(rest)
    ensures Count([attempt, pause] + rest, IsSleep) == 1 + Count(rest, IsSleep)
    ensures Count([attempt, pause] + rest, IsExit) == Count(rest, IsExit)
  {
    var t := [attempt, pause] + rest;
    assert t[1..] == [pause] + rest;
    assert t[1..][1..] == rest;
  }

  /** A successful attempt that ends the loop adds its title and nothing
      else. */
  lemma SucceededTurn(attempt: Event)
    requires attempt.PipAttempt?
    ensures AttemptTitles([attempt]) == [attempt.title]
    ensures Count([attempt], IsSleep) == 0 && Count([attempt], IsExit) == 0
  {
    assert [attempt][1..] == [];
  }

  /** The critical entry and the exit that end an exhausted loop add no
      title, no sleep and one exit. */
  lemma ExhaustedTail(exhausted: Event)
    requires exhausted.Critical?
    ensures AttemptTitles([exhausted, Exit(Code(1))]) == []
    ensures Count([exhausted, Exit(Code(1))], IsSleep) == 0
    ensures Count([exhausted, Exit(Code(1))], IsExit) == 1
  {
    var t := [exhausted, Exit(Code(1))];
    assert t[1..] == [Exit(Code(1))] && t[1..][1..] == [];
    assert Count(t[1..], IsSleep) == 0 && Count(t[1..], IsExit) == 1 && AttemptTitles(t[1..]) == [];
  }

  /** When attempt `first + 1` is the first to succeed, the loop runs exactly
      the attempts `done + 1` to `first + 1`, sleeps after each failed one,
      and does not exit. */
  lemma {:induction false} RetryUntilSuccess(command: seq<string>, srcName: string, retries: int,
                                             retrySleepSeconds: nat, exhausted: Event, succeeded: seq<bool>,
                                             done: nat, first: nat)
    requires retries <= |succeeded|
    requires done <= first < retries && succeeded[first]
    requires FailedFrom(succeeded, done, first)
    ensures var t := RetryEvents(command, srcName, retries, retrySleepSeconds, exhausted, succeeded, done);
      && AttemptTitles(t) == Titles(srcName, done + 1, first - done + 1)
      && Count(t, IsSleep) == first - done
      && Count(t, IsExit) == 0
    decreases first - done
  {
    var t := RetryEvents(command, srcName, retries, retrySleepSeconds, exhausted, succeeded, done);
    var attempt := PipAttempt(command, AttemptTitle(srcName, done + 1));
    RetryStep(command, srcName, retries, retrySleepSeconds, exhausted, succeeded, done);
    if done == first {
      SucceededTurn(attempt);
    } else {
      var rest := RetryEvents(command, srcName, retries, retrySleepSeconds, exhausted, succeeded, done + 1);
      RetryUntilSuccess(command, srcName, retries, retrySleepSeconds, exhausted, succeeded, done + 1, first);
      FailedTurn(attempt, Sleep(retrySleepSeconds), rest);
    }
  }

  /** When attempt `first + 1` is the first to succeed, it is the last event
      of the loop. */
  lemma {:induction false} RetryEndsWithSuccess(command: seq<string>, srcName: string, retries: int,
                                                retrySleepSeconds: nat, exhausted: Event, succeeded: seq<bool>,
                                                done: nat, first: nat)
    requires retries <= |succeeded|
    requires done <= first < retries && succeeded[first]
    requires FailedFrom(succeeded, done, first)
    ensures var t := RetryEvents(command, srcName, retries, retrySleepSeconds, exhausted, succeeded, done);
      |t| > 0 && t[|t| - 1] == PipAttempt(command, AttemptTitle(srcName, first + 1))
    decreases first - done
  {
    RetryStep(command, srcName, retries, retrySleepSeconds, exhausted, succeeded, done);
    if done < first {
      RetryEndsWithSuccess(command, srcName, retries, retrySleepSeconds, exhausted, succeeded, done + 1, first);
    }
  }

  /** When every remaining attempt fails, the loop runs all of them, sleeps
      after each (the last one included), and ends with the critical entry
      and `exit(1)`. */
  lemma {:induction false} RetryUntilExhausted(command: seq<string>, srcName: string, retries: int,
                                               retrySleepSeconds: nat, exhausted: Event, succeeded: seq<bool>,
                                               done: nat)
    requires retries <= |succeeded| && exhausted.Critical?
    requires FailedFrom(succeeded, done, retries)
    ensures var t := RetryEvents(command, srcName, retries, retrySleepSeconds, exhausted, succeeded, done);
      var n := if done < retries then retries - done else 0;
      && AttemptTitles(t) == Titles(srcName, done + 1, n)
      && Count(t, IsSleep) == n
      && Count(t, IsExit) == 1
      && |t| >= 2 && t[|t| - 2..] == [exhausted, Exit(Code(1))]
    decreases if done < retries then retries - done else 0
  {
    var t := RetryEvents(command, srcName, retries, retrySleepSeconds, exhausted, succeeded, done);
    if done >= retries {
      RetryEnd(command, srcName, retries, retrySleepSeconds, exhausted, succeeded, done);
      ExhaustedTail(exhausted);
    } else {
      var attempt := PipAttempt(command, AttemptTitle(srcName, done + 1));
      var rest := RetryEvents(command, srcName, retries, retrySleepSeconds, exhausted, succeeded, done + 1);
      RetryStep(command, srcName, retries, retrySleepSeconds, exhausted, succeeded, done);
      RetryUntilExhausted(command, srcName, retries, retrySleepSeconds, exhausted, succeeded, done + 1);
      FailedTurn(attempt, Sleep(retrySleepSeconds), rest);
      assert t[|t| - 2..] == rest[|rest| - 2..];
    }
  }

  /** The loop exits the process exactly when no remaining attempt succeeds. */
  lemma {:induction false} RetryHaltsIffAllFail(command: seq<string>, srcName: string, retries: int,
                                                retrySleepSeconds: nat, exhausted: Event, succeeded: seq<bool>,
                                                done: nat)
    requires retries <= |succeeded|
    ensures Halts(RetryEvents(command, srcName, retries, retrySleepSeconds, exhausted, succeeded, done))
        <==> FailedFrom(succeeded, done, retries)
    decreases if done < retries then retries - done else 0
  {
    if done < retries {
      if succeeded[done] {
        assert !FailedFrom(succeeded, done, retries) by { assert succeeded[done]; }
      } else {
        RetryHaltsIffAllFail(command, srcName, retries, retrySleepSeconds, exhausted, succeeded, done + 1);
        var rest := RetryEvents(command, srcName, retries, retrySleepSeconds, exhausted, succeeded, done + 1);
        var t := RetryEvents(command, srcName, retries, retrySleepSeconds, exhausted, succeeded, done);
        assert t == [PipAttempt(command, AttemptTitle(srcName, done + 1)), Sleep(retrySleepSeconds)] + rest;
        assert Halts(t) <==> Halts(rest);
        if FailedFrom(succeeded, done + 1, retries) {
          forall j | done <= j < retries ensures !succeeded[j] {
            if j > done { assert done + 1 <= j < retries; }
          }
        }
      }
    }
  }

  /** If attempt k is the first to succeed, exactly k attempts are made,
      numbered 1 to k, with k - 1 sleeps between them, and the process does
      not exit. */
  lemma InstallSucceedsOnFirstSuccess(src: string, name: string, version: string, retries: int,
                                      retrySleepSeconds: nat, succeeded: seq<bool>, k: nat)
    requires retries <= |succeeded|
    requires 1 <= k <= retries && succeeded[k - 1]
    requires FailedFrom(succeeded, 0, k - 1)
    ensures var t := PypiEvents(src, name, version, retries, retrySleepSeconds, succeeded);
      && AttemptTitles(t) == Titles(SourceName(src), 1, k)
      && Count(t, IsSleep) == k - 1
      && Count(t, IsExit) == 0
  {
    RetryUntilSuccess(PipCommand(src, name, version), SourceName(src), retries, retrySleepSeconds,
      ExhaustedEntry(SourceName(src), retries, retries * retrySleepSeconds), succeeded, 0, k - 1);
  }

  /** If every attempt fails, exactly `retries` attempts are made (none when
      `retries <= 0`), each followed by a sleep, and the install ends with
      the critical entry citing `retries * retry_sleep_seconds` and
      `exit(1)`. */
  lemma InstallFailsAfterAllAttempts(src: string, name: string, version: string, retries: int,
                                     retrySleepSeconds: nat, succeeded: seq<bool>)
    requires retries <= |succeeded|
    requires FailedFrom(succeeded, 0, retries)
    ensures var t := PypiEvents(src, name, version, retries, retrySleepSeconds, succeeded);
      var n := if retries > 0 then retries else 0;
      && AttemptTitles(t) == Titles(SourceName(src), 1, n)
      && Count(t, IsSleep) == n
      && Count(t, IsExit) == 1
      && t[|t| - 2..] == [ExhaustedEntry(SourceName(src), retries, retries * retrySleepSeconds), Exit(Code(1))]
  {
    RetryUntilExhausted(PipCommand(src, name, version), SourceName(src), retries, retrySleepSeconds,
      ExhaustedEntry(SourceName(src), retries, retries * retrySleepSeconds), succeeded, 0);
  }

  /** With no attempts allowed, nothing is installed and the outcome is
      fatal at once. */
  lemma NoRetriesIsFatal(src: string, name: string, version: string, retries: int,
                         retrySleepSeconds: nat, succeeded: seq<bool>)
    requires retries <= 0 && retries <= |succeeded|
    ensures PypiEvents(src, name, version, retries, retrySleepSeconds, succeeded)
      == [ExhaustedEntry(SourceName(src), retries, retries * retrySleepSeconds), Exit(Code(1))]
  {
  }

  /** Attempt titles are pairwise distinct, since attempt numbers are. */
  lemma AttemptTitlesDistinct(srcName: string, a: nat, b: nat)
    ensures AttemptTitle(srcName, a) == AttemptTitle(srcName, b) ==> a == b
  {
    if AttemptTitle(srcName, a) == AttemptTitle(srcName, b) {
      var prefix := "Package Installation (" + srcName + ", attempt ";
      var sa, sb := NatToString(a), NatToString(b);
      assert AttemptTitle(srcName, a) == prefix + sa + ")";
      assert AttemptTitle(srcName, b) == prefix + sb + ")";
      assert |sa| == |sb|;
      assert sa == AttemptTitle(srcName, a)[|prefix|..|prefix| + |sa|];
      assert sb == AttemptTitle(srcName, b)[|prefix|..|prefix| + |sb|];
      NatToStringInjective(a, b);
    }
  }

  const VenvDir := ".venv"

  /** The events of `EnvSetup.__init__`: the virtual environment is created
      and the path of its Python is exported. */
  function InitEvents(pythonPath: string, os: OsName, envPrefix: string): seq<Event> {
    [ Shell([pythonPath, "-m", "venv", VenvDir, "--upgrade-deps"], "Virtual Environment Setup"),
      EnvVarWrite(envPrefix + "VENV_PYTHON_PATH", VenvExecutablePath(VenvDir, "python", os)) ]
  }

  function RequirementsEvent(repoPath: string, reqPath: string, os: OsName): Event {
    PipRun(["install", "-r", Join(repoPath, reqPath, os)], "Package Requirements Installation")
  }

  function GithubEvent(repoPath: string, path: string, title: string, os: OsName): Event {
    PipRun(["install", Join(repoPath, path, os)], title)
  }

  const PackageFromGithubTitle := "Package Installation (GitHub)"

  /** The events of `install_package`, given the events `pypi` of the
      retried registry install: the requirements file first when one is
      given, then the GitHub install for "github" and the registry install
      for any other source string. */
  function InstallPackageEvents(repoPath: string, os: OsName, src: string, path: string, reqPath: string,
                                pypi: seq<Event>): seq<Event>
  {
    (if reqPath != "" then [RequirementsEvent(repoPath, reqPath, os)] else [])
      + if src == "github" then [GithubEvent(repoPath, path, PackageFromGithubTitle, os)] else pypi
  }

  /** A requirements file is installed before the package, whatever the
      source; "github" then installs once from the repository, without
      attempts, sleeps or exit, and any other source string goes to the
      registry install, which decides whether the process exits. */
  lemma InstallPackageDispatch(repoPath: string, os: OsName, src: string, path: string, reqPath: string,
                               pypi: seq<Event>)
    ensures var t := InstallPackageEvents(repoPath, os, src, path, reqPath, pypi);
      var start := if reqPath != "" then 1 else 0;
      && |t| == start + (if src == "github" then 1 else |pypi|)
      && (reqPath != "" ==> t[0] == RequirementsEvent(repoPath, reqPath, os))
      && (src == "github" ==> t[start..] == [GithubEvent(repoPath, path, PackageFromGithubTitle, os)]
                              && Count(t, IsAttempt) == 0 && Count(t, IsSleep) == 0 && !Halts(t))
      && (src != "github" ==> t[start..] == pypi)
      && (Halts(t) <==> src != "github" && Halts(pypi))
  {
    var t := InstallPackageEvents(repoPath, os, src, path, reqPath, pypi);
    var pre := if reqPath != "" then [RequirementsEvent(repoPath, reqPath, os)] else [];
    if src == "github" {
      var g := [GithubEvent(repoPath, path, PackageFromGithubTitle, os)];
      assert t == pre + g;
      CountConcat(pre, g, IsAttempt);
      CountConcat(pre, g, IsSleep);
      assert pre == [] || pre[1..] == [];
      assert g[1..] == [];
    } else {
      assert t == pre + pypi;
      assert |pypi| > 0 ==> t[|t| - 1] == pypi[|pypi| - 1];
    }
  }

  /** `install_package` exits the process exactly when the source is not
      "github" and every registry attempt fails. */
  lemma PackageHaltsIffAllFail(repoPath: string, os: OsName, src: string, path: string, name: string,
                               version: string, reqPath: string, retries: int, retrySleepSeconds: nat,
                               succeeded: seq<bool>)
    requires retries <= |succeeded|
    ensures Halts(InstallPackageEvents(repoPath, os, src, path, reqPath,
                                       PypiEvents(src, name, version, retries, retrySleepSeconds, succeeded)))
        <==> src != "github" && FailedFrom(succeeded, 0, retries)
  {
    InstallPackageDispatch(repoPath, os, src, path, reqPath,
                           PypiEvents(src, name, version, retries, retrySleepSeconds, succeeded));
    RetryHaltsIffAllFail(PipCommand(src, name, version), SourceName(src), retries, retrySleepSeconds,
      ExhaustedEntry(SourceName(src), retries, retries * retrySleepSeconds), succeeded, 0);
  }

  /** With at least one attempt allowed, the registry install starts with
      attempt 1 of the source's own command. */
  lemma PypiFirstAttempt(src: string, name: string, version: string, retries: int, retrySleepSeconds: nat,
                         succeeded: seq<bool>)
    requires 1 <= retries <= |succeeded|
    ensures var t := PypiEvents(src, name, version, retries, retrySleepSeconds, succeeded);
      |t| > 0 && t[0] == PipAttempt(PipCommand(src, name, version), AttemptTitle(SourceName(src), 1))
  {
    RetryStep(PipCommand(src, name, version), SourceName(src), retries, retrySleepSeconds,
      ExhaustedEntry(SourceName(src), retries, retries * retrySleepSeconds), succeeded, 0);
  }

  const TestsuiteTitle := "Test-Suite Installation (GitHub)"
  const DisplayEnvEvent := PipRun(["list"], "Environment Overview")

  /** The object built by `main`: the pip runner of the new virtual
      environment and the repository path, and the trace of everything done
      so far. */
  class EnvSetup {
    const os: OsName
    /** The command prefix of the pip runner: the environment's Python, `-m pip`. */
    const pipPreCommand: seq<string>
    const repoPath: string
    var trace: seq<Event>

    constructor (pythonPath: string, repoPath: string, os: OsName, envPrefix: string)
      ensures this.os == os && this.repoPath == repoPath
      ensures pipPreCommand == [VenvExecutablePath(VenvDir, "python", os), "-m", "pip"]
      ensures trace == InitEvents(pythonPath, os, envPrefix)
    {
      var venvPythonPath := VenvExecutablePath(VenvDir, "python", os);
      this.os := os;
      trace := [ Shell([pythonPath, "-m", "venv", VenvDir, "--upgrade-deps"], "Virtual Environment Setup"),
                 EnvVarWrite(envPrefix + "VENV_PYTHON_PATH", venvPythonPath) ];
      pipPreCommand := [venvPythonPath, "-m", "pip"];
      this.repoPath := repoPath;
    }

    method InstallPackage(src: string, path: string, name: string, version: string, reqPath: string,
                          retries: int, retrySleepSeconds: nat, succeeded: seq<bool>) returns (exited: bool)
      requires retries <= |succeeded|
      modifies this
      ensures trace == old(trace) + InstallPackageEvents(repoPath, os, src, path, reqPath,
                                      PypiEvents(src, name, version, retries, retrySleepSeconds, succeeded))
      ensures exited <==> src != "github" && FailedFrom(succeeded, 0, retries)
    {
      ghost var t0 := trace;
      if reqPath != "" {
        InstallPkgRequirements(reqPath);
      }
      ghost var t1 := trace;
      if src == "github" {
        InstallFromGithub(path, PackageFromGithubTitle);
        exited := false;
      } else {
        exited := InstallFromPypi(src, name, version, retries, retrySleepSeconds, succeeded);
      }
      Compose(t0, t1, trace, if reqPath != "" then [RequirementsEvent(repoPath, reqPath, os)] else [],
              if src == "github" then [GithubEvent(repoPath, path, PackageFromGithubTitle, os)]
              else PypiEvents(src, name, version, retries, retrySleepSeconds, succeeded));
    }

    method InstallTestsuite(path: string)
      modifies this
      ensures trace == old(trace) + [GithubEvent(repoPath, path, TestsuiteTitle, os)]
    {
      InstallFromGithub(path, TestsuiteTitle);
    }

    method DisplayEnv()
      modifies this
      ensures trace == old(trace) + [DisplayEnvEvent]
    {
      trace := trace + [PipRun(["list"], "Environment Overview")];
    }

    method InstallFromGithub(path: string, logTitle: string)
      modifies this
      ensures trace == old(trace) + [GithubEvent(repoPath, path, logTitle, os)]
    {
      var fullpath := Join(repoPath, path, os);
      trace := trace + [PipRun(["install", fullpath], logTitle)];
    }

    method InstallPkgRequirements(path: string)
      modifies this
      ensures trace == old(trace) + [RequirementsEvent(repoPath, path, os)]
    {
      var fullpath := Join(repoPath, path, os);
      trace := trace + [PipRun(["install", "-r", fullpath], "Package Requirements Installation")];
    }

    /** The retried registry install: at most `retries` attempts, a sleep
        after each failed one, and `exit(1)` after a critical log entry when
        none succeeds. */
    method InstallFromPypi(src: string, name: string, version: string, retries: int,
                           retrySleepSeconds: nat, succeeded: seq<bool>) returns (exited: bool)
      requires retries <= |succeeded|
      modifies this
      ensures trace == old(trace) + PypiEvents(src, name, version, retries, retrySleepSeconds, succeeded)
      ensures exited <==> FailedFrom(succeeded, 0, retries)
      ensures retries <= 0 ==> exited
    {
      var command := PipCommand(src, name, version);
      var srcName := SourceName(src);
      ghost var exhausted := ExhaustedEntry(srcName, retries, retries * retrySleepSeconds);
      ghost var target := old(trace) + PypiEvents(src, name, version, retries, retrySleepSeconds, succeeded);
      var retryCount := 0;
      var installed := false;
      while retryCount < retries
        invariant 0 <= retryCount <= (if retries > 0 then retries else 0)
        invariant FailedFrom(succeeded, 0, retryCount) && !installed
        invariant target == trace + RetryEvents(command, srcName, retries, retrySleepSeconds, exhausted, succeeded, retryCount)
        decreases retries - retryCount
      {
        RetryStep(command, srcName, retries, retrySleepSeconds, exhausted, succeeded, retryCount);
        ghost var rest := RetryEvents(command, srcName, retries, retrySleepSeconds, exhausted, succeeded, retryCount + 1);
        ghost var before := trace;
        var attempt := PipAttempt(command, AttemptTitle(srcName, retryCount + 1));
        trace := trace + [attempt];
        if succeeded[retryCount] {
          installed := true;
          break;
        }
        trace := trace + [Sleep(retrySleepSeconds)];
        Shift(before, attempt, Sleep(retrySleepSeconds), rest);
        retryCount := retryCount + 1;
      }
      if !installed {
        RetryEnd(command, srcName, retries, retrySleepSeconds, exhausted, succeeded, retryCount);
        trace := trace + [ExhaustedEntry(srcName, retries, retries * retrySleepSeconds), Exit(Code(1))];
      }
      exited := !installed;
    }
  }

  /** The environment variables `main` reads. */
  datatype ActionInputs = ActionInputs(
    pythonPath: string, repoPath: string,
    src: string, path: string, name: string, version: string, reqPath: string,
    retries: int, retrySleepSeconds: nat, testsPath: string,
    /** `ENV_PREFIX` of the pytester package, which is not part of this model. */
    envPrefix: string)

  const MainSection := "Package & Test-Suite"

  const InvalidSourcePrefix := "Invalid input for 'pkg-src': Expected one of 'GitHub', 'PyPI', or 'TestPyPI', but got '"

  function InvalidSourceMessage(pkgSrc: string): string {
    InvalidSourcePrefix + pkgSrc + "'."
  }

  /** The events of `install_package` in `main` when `srcArg` is the source
      it is handed. */
  function PackageEvents(inp: ActionInputs, os: OsName, srcArg: string, succeeded: seq<bool>): seq<Event>
    requires inp.retries <= |succeeded|
  {
    InstallPackageEvents(inp.repoPath, os, srcArg, inp.path, inp.reqPath,
      PypiEvents(srcArg, inp.name, inp.version, inp.retries, inp.retrySleepSeconds, succeeded))
  }

  /** The events of `main` around the events `pkg` of `install_package`. */
  function MainEventsWith(inp: ActionInputs, os: OsName, pkg: seq<Event>): seq<Event> {
    [Section(MainSection)]
      + if !IsKnownSource(Lower(inp.src)) then [Exit(Message(InvalidSourceMessage(Lower(inp.src))))]
        else
          InitEvents(inp.pythonPath, os, inp.envPrefix) + pkg
            + if Halts(pkg) then [] else [GithubEvent(inp.repoPath, inp.testsPath, TestsuiteTitle, os), DisplayEnvEvent]
  }

  /** `main` as written: the source is checked lower-cased, but
      `install_package` receives it as the user spelled it. */
  function MainEvents(inp: ActionInputs, os: OsName, succeeded: seq<bool>): seq<Event>
    requires inp.retries <= |succeeded|
  {
    MainEventsWith(inp, os, PackageEvents(inp, os, inp.src, succeeded))
  }

  /** `main` as evidently intended: `install_package` receives the
      lower-cased source that was checked. */
  function MainEventsIntended(inp: ActionInputs, os: OsName, succeeded: seq<bool>): seq<Event>
    requires inp.retries <= |succeeded|
  {
    MainEventsWith(inp, os, PackageEvents(inp, os, Lower(inp.src), succeeded))
  }

  /** `main`: check the source, build the environment, install the package,
      then the test suite, then list the environment. */
  method RunAction(inp: ActionInputs, os: OsName, succeeded: seq<bool>) returns (trace: seq<Event>)
    requires inp.retries <= |succeeded|
    ensures trace == MainEvents(inp, os, succeeded)
    ensures !IsKnownSource(Lower(inp.src)) ==>
      trace == [Section(MainSection), Exit(Message(InvalidSourceMessage(Lower(inp.src))))]
  {
    trace := [Section(MainSection)];
    var pkgSrc := Lower(inp.src);
    if !IsKnownSource(pkgSrc) {
      trace := trace + [Exit(Message(InvalidSourceMessage(pkgSrc)))];
      return;
    }
    var setup := new EnvSetup(inp.pythonPath, inp.repoPath, os, inp.envPrefix);
    var exited := setup.InstallPackage(inp.src, inp.path, inp.name, inp.version, inp.reqPath,
                                       inp.retries, inp.retrySleepSeconds, succeeded);
    PackageHaltsIffAllFail(inp.repoPath, os, inp.src, inp.path, inp.name, inp.version, inp.reqPath,
                           inp.retries, inp.retrySleepSeconds, succeeded);
    if !exited {
      setup.InstallTestsuite(inp.testsPath);
      setup.DisplayEnv();
    }
    trace := trace + setup.trace;
  }

  /** Where the package-install events start in the trace of `main`. */
  function PackageStart(inp: ActionInputs): nat {
    3 + if inp.reqPath != "" then 1 else 0
  }

  /** In `main`, the package install comes after the environment is built
      and, when it does not exit, is followed by the test-suite install and
      then by the environment listing, which end the trace. */
  lemma MainStepOrder(inp: ActionInputs, os: OsName, pkg: seq<Event>)
    requires IsKnownSource(Lower(inp.src))
    ensures var t := MainEventsWith(inp, os, pkg);
      && |t| >= 3 + |pkg|
      && t[0] == Section(MainSection)
      && t[1..3] == InitEvents(inp.pythonPath, os, inp.envPrefix)
      && t[3..3 + |pkg|] == pkg
      && (Halts(pkg) ==> |t| == 3 + |pkg| && Halts(t))
      && (!Halts(pkg) ==> t[3 + |pkg|..] == [GithubEvent(inp.repoPath, inp.testsPath, TestsuiteTitle, os), DisplayEnvEvent])
  {
    var post := if Halts(pkg) then [] else [GithubEvent(inp.repoPath, inp.testsPath, TestsuiteTitle, os), DisplayEnvEvent];
    Layout([Section(MainSection)], InitEvents(inp.pythonPath, os, inp.envPrefix), pkg, post);
  }

  /** Where each of four concatenated parts sits. */
  lemma Layout(a: seq<Event>, b: seq<Event>, c: seq<Event>, d: seq<Event>)
    ensures var t := a + ((b + c) + d);
      && |t| == |a| + |b| + |c| + |d|
      && t[..|a|] == a
      && t[|a|..|a| + |b|] == b
      && t[|a| + |b|..|a| + |b| + |c|] == c
      && t[|a| + |b| + |c|..] == d
      && (|a| > 0 ==> t[0] == a[0])
  {
  }

  /** The first package event of `main`, once the source has passed the
      check: the GitHub install, or the first registry attempt with the
      command and title of the source `install_package` was handed. */
  lemma FirstPackageEvent(inp: ActionInputs, os: OsName, srcArg: string, succeeded: seq<bool>)
    requires IsKnownSource(Lower(inp.src))
    requires 1 <= inp.retries <= |succeeded|
    ensures var t := MainEventsWith(inp, os, PackageEvents(inp, os, srcArg, succeeded));
      && |t| > PackageStart(inp)
      && t[PackageStart(inp)]
         == if srcArg == "github" then GithubEvent(inp.repoPath, inp.path, PackageFromGithubTitle, os)
            else PipAttempt(PipCommand(srcArg, inp.name, inp.version), AttemptTitle(SourceName(srcArg), 1))
  {
    FirstPackageEventOf(inp, os, srcArg,
                        PypiEvents(srcArg, inp.name, inp.version, inp.retries, inp.retrySleepSeconds, succeeded));
    PypiFirstAttempt(srcArg, inp.name, inp.version, inp.retries, inp.retrySleepSeconds, succeeded);
  }

  /** The first package event for any registry trace `pypi`. */
  lemma FirstPackageEventOf(inp: ActionInputs, os: OsName, srcArg: string, pypi: seq<Event>)
    requires IsKnownSource(Lower(inp.src)) && |pypi| > 0
    ensures var t := MainEventsWith(inp, os, InstallPackageEvents(inp.repoPath, os, srcArg, inp.path, inp.reqPath, pypi));
      && |t| > PackageStart(inp)
      && t[PackageStart(inp)]
         == if srcArg == "github" then GithubEvent(inp.repoPath, inp.path, PackageFromGithubTitle, os) else pypi[0]
  {
    var pkg := InstallPackageEvents(inp.repoPath, os, srcArg, inp.path, inp.reqPath, pypi);
    MainStepOrder(inp, os, pkg);
    InstallPackageDispatch(inp.repoPath, os, srcArg, inp.path, inp.reqPath, pypi);
    var start := if inp.reqPath != "" then 1 else 0;
    assert pkg[start] == pkg[start..][0];
  }

  /** As written, every accepted spelling of the source that is not already
      lower-case ("GitHub", "TestPyPI", "PyPI", ...) is installed from PyPI:
      the first package event is a plain PyPI attempt, without the TestPyPI
      index and instead of the GitHub install. */
  lemma MixedCaseSourceInstallsFromPypi(inp: ActionInputs, os: OsName, succeeded: seq<bool>)
    requires IsKnownSource(Lower(inp.src)) && inp.src != Lower(inp.src)
    requires 1 <= inp.retries <= |succeeded|
    ensures var t := MainEvents(inp, os, succeeded);
      && |t| > PackageStart(inp)
      && t[PackageStart(inp)] == PipAttempt(["install", Requirement(inp.name, inp.version)],
                                           AttemptTitle("PyPI", 1))
  {
    assert inp.src != "github" && inp.src != "testpypi";
    FirstPackageEvent(inp, os, inp.src, succeeded);
  }

  /** A concrete instance: "GitHub" passes the source check, yet no GitHub
      install happens and a PyPI attempt is made instead. */
  lemma GithubSpelledGitHubGoesToPypi(inp: ActionInputs, os: OsName, succeeded: seq<bool>)
    requires inp.src == "GitHub" && 1 <= inp.retries <= |succeeded|
    ensures IsKnownSource(Lower(inp.src))
    ensures MainEvents(inp, os, succeeded)[PackageStart(inp)]
      == PipAttempt(["install", Requirement(inp.name, inp.version)], AttemptTitle("PyPI", 1))
  {
    assert Lower(inp.src) == "github";
    MixedCaseSourceInstallsFromPypi(inp, os, succeeded);
  }

  /** As intended, the accepted source decides the install whatever its
      spelling: "github" installs from the repository, "testpypi" and "pypi"
      make their first attempt with their own command and title. */
  lemma IntendedDispatchFollowsSource(inp: ActionInputs, os: OsName, succeeded: seq<bool>)
    requires IsKnownSource(Lower(inp.src))
    requires 1 <= inp.retries <= |succeeded|
    ensures var t := MainEventsIntended(inp, os, succeeded);
      var src := Lower(inp.src);
      && |t| > PackageStart(inp)
      && (src == "github" ==> t[PackageStart(inp)] == GithubEvent(inp.repoPath, inp.path, PackageFromGithubTitle, os))
      && (src != "github" ==>
            t[PackageStart(inp)] == PipAttempt(PipCommand(src, inp.name, inp.version), AttemptTitle(SourceName(src), 1)))
      && (src == "testpypi" ==> t[PackageStart(inp)].command[2..] == ["--no-deps", "--index-url", TestPypiIndexUrl])
  {
    FirstPackageEvent(inp, os, Lower(inp.src), succeeded);
  }
}
