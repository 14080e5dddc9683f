/**
 Model of env_setup.py at the root of the repository: the environment setup
 of the test job. The package source is lower-cased and checked; then pip is
 upgraded, the package is installed (directly from GitHub, or through a
 retried install from PyPI or TestPyPI, the latter after its requirements)
 and the test suite is installed. Every shell call is reported as one log
 entry, and a failed call ends the process with the entry's summary.

 The shell, the file system and the retry library are not modelled: their
 answers are the fields of a `World`, and what the script does is an
 `Outcome`, the ordered events it causes and whether it ended the process.
 */
module EnvSetup {
  import opened Common

  /** What a shell call reports. */
  datatype ShellOutput = ShellOutput(success: bool, summary: string, details: seq<string>)

  datatype Status = Success | Attention | Error | Skip

  datatype LogEntry = LogEntry(status: Status, title: string, summary: string, details: seq<string>)

  /** The shell calls the script makes itself; `cwd` is the resolved
      repository path. */
  datatype ShellCall =
    | PipInstallPackage(name: string, upgrade: bool)
    | PipInstall(command: seq<string>, cwd: string)
    | PipInstallRequirements(path: string, cwd: string)

  /** The keyword arguments of the retried `pip_install_package` call;
      `None` is an argument that is not passed. */
  datatype RetryArgs = RetryArgs(name: string, requirementSpecifier: Option<string>,
                                 installDependencies: Option<bool>, index: Option<string>)

  /** A status and a summary template of the retry logger. */
  datatype LogCase = LogCase(status: Status, summary: string)

  /** The templates handed to the retry logger; the retry library fills in
      the names in braces. */
  datatype RetryLogger = RetryLogger(title: string, details: seq<string>,
                                     accepted: LogCase, retried: LogCase, timedOut: LogCase)

  /** The sleeper of the retried call: a constant pause until a total. */
  datatype Sleeper = Sleeper(sleepSeconds: nat, totalSeconds: nat)

  datatype Event =
    | Run(call: ShellCall)
    /** The retried package install, with its arguments, logger and sleeper. */
    | RetriedRun(args: RetryArgs, logger: RetryLogger, sleeper: Sleeper)
    | Log(entry: LogEntry)
    | Exit(status: ExitStatus)

  /** How the retried install ends: a return value the handler accepts, or a
      `RetryError` carrying the number of tries and the total sleep time
      (as the retry library writes it). */
  datatype RetryResult = Accepted | RetryError(countTries: nat, totalSleepSeconds: string)

  /** The answers of the outside world to the script. */
  datatype World = World(resolvedRepo: string, upgradePip: ShellOutput, packageFromGithub: ShellOutput,
                         resolvedRequirements: string, requirementsIsFile: bool,
                         requirementsInstall: ShellOutput, packageRetry: RetryResult,
                         testsuiteInstall: ShellOutput)

  /** The arguments of `setup_environment`; sleep times in whole seconds. */
  datatype Inputs = Inputs(repoPath: string, testsuiteSetupPath: string, packageSetupPath: string,
                           packageSource: string, packageName: string, packageVersion: string,
                           requirementsPath: string, retrySleepSeconds: nat, retrySleepSecondsTotal: nat)

  /** The events a step causes, and whether it ended the process. */
  datatype Outcome = Outcome(events: seq<Event>, exited: bool)

  /** A step followed by the next one, which only runs when the first did
      not end the process. */
  function AndThen(first: Outcome, next: Outcome): Outcome {
    if first.exited then first else Outcome(first.events + next.events, next.exited)
  }

  /** The process ends only through its last event: an outcome has exited
      exactly when its last event is an exit, and no exit comes earlier. */
  predicate EndsAtExit(o: Outcome) {
    && (o.exited <==> |o.events| > 0 && o.events[|o.events| - 1].Exit?)
    && forall i :: 0 <= i < |o.events| - 1 ==> !o.events[i].Exit?
  }

  lemma AndThenEndsAtExit(first: Outcome, next: Outcome)
    requires EndsAtExit(first) && EndsAtExit(next)
    ensures EndsAtExit(AndThen(first, next))
  {
    if !first.exited {
      var t := first.events + next.events;
      forall i | 0 <= i < |t| - 1
        ensures !t[i].Exit?
      {
        if i >= |first.events| {
          assert t[i] == next.events[i - |first.events|];
        }
      }
      if |next.events| == 0 {
        assert t == first.events;
      } else {
        assert t[|t| - 1] == next.events[|next.events| - 1];
      }
    }
  }

  // ---------------------------------------------------------------------
  // submit_log_shell_output

  /** The summary of a shell call's log entry: the call's own summary, after
      "<prepend> was successful. " or "<prepend> failed. " when a prepend
      is given. */
  function ComposeSummary(out: ShellOutput, prepend: string): (s: string)
    ensures prepend == "" ==> s == out.summary
    ensures |s| >= |out.summary| && s[|s| - |out.summary|..] == out.summary
  {
    var pre := if prepend != "" then prepend + " " + (if out.success then "was successful" else "failed") + ". "
               else "";
    pre + out.summary
  }

  /** Reads back the outcome and the call's summary from an entry's summary. */
  function ParseSummary(prepend: string, s: string): Option<(bool, string)> {
    var ok := prepend + " was successful. ";
    var bad := prepend + " failed. ";
    if |ok| <= |s| && s[..|ok|] == ok then Some((true, s[|ok|..]))
    else if |bad| <= |s| && s[..|bad|] == bad then Some((false, s[|bad|..]))
    else None
  }

  /** With a prepend, the summary tells whether the call succeeded and what
      it reported. */
  lemma SummaryRoundTrip(out: ShellOutput, prepend: string)
    requires prepend != ""
    ensures ParseSummary(prepend, ComposeSummary(out, prepend)) == Some((out.success, out.summary))
  {
    var s := ComposeSummary(out, prepend);
    var ok := prepend + " was successful. ";
    var bad := prepend + " failed. ";
    if out.success {
      assert s == ok + out.summary;
      assert s[..|ok|] == ok;
    } else {
      assert s == bad + out.summary;
      assert s[..|bad|] == bad;
      if |ok| <= |s| {
        assert s[|prepend| + 1] == 'f' && ok[|prepend| + 1] == 'w';
      }
    }
  }

  function EntryStatus(success: bool): (status: Status)
    ensures status == Success || status == Error
  {
    if success then Success else Error
  }

  /** The entry logged for a shell call, then the exit when it failed. */
  function SubmitOutcome(out: ShellOutput, title: string, prepend: string): (r: Outcome)
    ensures r.exited <==> !out.success
    ensures |r.events| > 0 && r.events[0].Log? && r.events[0].entry.title == title
  {
    var summary := ComposeSummary(out, prepend);
    Outcome([Log(LogEntry(EntryStatus(out.success), title, summary, out.details))]
              + (if out.success then [] else [Exit(Message(summary))]),
            !out.success)
  }

  /** Exactly one entry is logged, with status success or error as the call
      succeeded or not, the call's details and the composed summary; the
      process ends, with that summary as its message, exactly when the call
      failed. */
  lemma SubmitExitsOnFailure(out: ShellOutput, title: string, prepend: string)
    ensures var r := SubmitOutcome(out, title, prepend);
      && EndsAtExit(r)
      && |r.events| == (if out.success then 1 else 2)
      && r.events[0] == Log(LogEntry(EntryStatus(out.success), title, ComposeSummary(out, prepend), out.details))
      && (r.events[0].entry.status == Success <==> out.success)
      && (r.exited <==> !out.success)
      && (r.exited <==> r.events[|r.events| - 1] == Exit(Message(ComposeSummary(out, prepend))))
      && Calls(r.events) == []
  {
    var r := SubmitOutcome(out, title, prepend);
    CallsConcat([r.events[0]], r.events[1..]);
    assert r.events == [r.events[0]] + r.events[1..];
  }

  method SubmitLogShellOutput(out: ShellOutput, title: string, prepend: string) returns (r: Outcome)
    ensures r == SubmitOutcome(out, title, prepend)
  {
    var summary := ComposeSummary(out, prepend);
    var events := [Log(LogEntry(if out.success then Success else Error, title, summary, out.details))];
    if !out.success {
      return Outcome(events + [Exit(Message(summary))], true);
    }
    return Outcome(events, false);
  }

  // ---------------------------------------------------------------------
  // The shell calls of a trace

  /** The shell calls among the events, in order. */
  function Calls(t: seq<Event>): seq<Event> {
    if t == [] then []
    else if t[0].Run? || t[0].RetriedRun? then [t[0]] + Calls(t[1..])
    else Calls(t[1..])
  }

  lemma {:induction false} CallsConcat(a: seq<Event>, b: seq<Event>)
    ensures Calls(a + b) == Calls(a) + Calls(b)
  {
    if a == [] {
      assert a + b == b;
    } else {
      assert (a + b)[0] == a[0];
      assert (a + b)[1..] == a[1..] + b;
      CallsConcat(a[1..], b);
      if a[0].Run? || a[0].RetriedRun? {
        assert [a[0]] + (Calls(a[1..]) + Calls(b)) == ([a[0]] + Calls(a[1..])) + Calls(b);
      }
    }
  }

  lemma AndThenCalls(first: Outcome, next: Outcome)
    ensures Calls(AndThen(first, next).events)
            == Calls(first.events) + (if first.exited then [] else Calls(next.events))
  {
    CallsConcat(first.events, next.events);
  }

  /** A shell call followed by the report of its output. */
  function Reported(call: ShellCall, out: ShellOutput, title: string, prepend: string): (r: Outcome)
    ensures |r.events| > 0 && (r.exited <==> !out.success)
  {
    AndThen(Outcome([Run(call)], false), SubmitOutcome(out, title, prepend))
  }

  /** The call is the only shell call; the step ends the process exactly
      when the call failed. */
  lemma ReportedFacts(call: ShellCall, out: ShellOutput, title: string, prepend: string)
    ensures var r := Reported(call, out, title, prepend);
      && EndsAtExit(r)
      && r.events[0] == Run(call)
      && Calls(r.events) == [Run(call)]
      && (r.exited <==> !out.success)
  {
    SubmitExitsOnFailure(out, title, prepend);
    AndThenEndsAtExit(Outcome([Run(call)], false), SubmitOutcome(out, title, prepend));
    AndThenCalls(Outcome([Run(call)], false), SubmitOutcome(out, title, prepend));
    assert Calls([Run(call)]) == [Run(call)] by {
      assert [Run(call)][1..] == [];
    }
  }

  /** A reported call logs exactly one entry, right after the call: the
      call, the entry, and the exit only when the call failed. */
  lemma ReportedLogsOnce(call: ShellCall, out: ShellOutput, title: string, prepend: string)
    ensures var r := Reported(call, out, title, prepend);
      && |r.events| == (if out.success then 2 else 3)
      && r.events[1] == Log(LogEntry(EntryStatus(out.success), title, ComposeSummary(out, prepend), out.details))
      && (forall i :: 0 <= i < |r.events| && r.events[i].Log? ==> i == 1)
  {
    SubmitExitsOnFailure(out, title, prepend);
  }

  // ---------------------------------------------------------------------
  // prepare and install_testsuite

  const UpgradePip := PipInstallPackage("pip", true)

  function PrepareOutcome(world: World): Outcome {
    Reported(UpgradePip, world.upgradePip, "Upgrade pip", "Upgrading pip")
  }

  method Prepare(world: World) returns (r: Outcome)
    ensures r == PrepareOutcome(world)
  {
    var s := SubmitLogShellOutput(world.upgradePip, "Upgrade pip", "Upgrading pip");
    r := Outcome([Run(UpgradePip)] + s.events, s.exited);
  }

  function TestsuiteOutcome(repo: string, testsuiteSetupPath: string, world: World): Outcome {
    Reported(PipInstall([testsuiteSetupPath], repo), world.testsuiteInstall,
             "Install Test-Suite", "Installing test-suite")
  }

  method InstallTestsuite(repo: string, testsuiteSetupPath: string, world: World) returns (r: Outcome)
    ensures r == TestsuiteOutcome(repo, testsuiteSetupPath, world)
  {
    var s := SubmitLogShellOutput(world.testsuiteInstall, "Install Test-Suite", "Installing test-suite");
    r := Outcome([Run(PipInstall([testsuiteSetupPath], repo))] + s.events, s.exited);
  }

  // ---------------------------------------------------------------------
  // install_package

  /** The index named in the retried install's log lines and exit message. */
  function IndexLabel(source: string): (index: string)
    ensures index == "TestPyPI" <==> source == "testpypi"
    ensures index == "TestPyPI" || index == "PyPI"
  {
    if source == "testpypi" then "TestPyPI" else "PyPI"
  }

  /** The retry logger of `get_retry_func`. */
  function RetryLoggerFor(source: string): RetryLogger {
    LoggerTemplates(IndexLabel(source))
  }

  function LoggerTemplates(index: string): RetryLogger {
    RetryLogger(
      "Install Package From " + index + " (attempt {count_tries})",
      ["Command: {value.cmd}", "Executed: {value.executed}", "Exit Code: {value.code}",
       "Output: {value.out}", "Error: {value.err}"],
      LogCase(Success, "Installing package from " + index + " was successful. {value.summary}"),
      LogCase(Attention, "Installing package from " + index + " failed. {value.summary}"
                         + " Installation will be retried in {next_sleep_seconds} seconds."),
      LogCase(Error, "Installing package from " + index + " failed. {value.summary}"
                     + " The retry limit has been reached; action will fail."))
  }

  /** The three cases of the retry logger have distinct statuses, and every
      summary begins by naming the index. */
  lemma RetryLoggerNamesIndex(index: string)
    ensures var l := LoggerTemplates(index);
      var head := "Installing package from " + index;
      && l.accepted.status == Success && l.retried.status == Attention && l.timedOut.status == Error
      && l.accepted.summary[..|head|] == head
      && l.retried.summary[..|head|] == head
      && l.timedOut.summary[..|head|] == head
  {
    var l := LoggerTemplates(index);
    var head := "Installing package from " + index;
    PrefixOf(head, " was successful. {value.summary}");
    PrefixOf(head, " failed. {value.summary}" + " Installation will be retried in {next_sleep_seconds} seconds.");
    PrefixOf(head, " failed. {value.summary}" + " The retry limit has been reached; action will fail.");
  }

  lemma PrefixOf(head: string, rest: string)
    ensures (head + rest)[..|head|] == head
  {
  }

  /** The logger of "testpypi" names TestPyPI; the logger of any other
      source is the PyPI one. */
  lemma RetryLoggerFollowsSource(source: string)
    ensures source != "testpypi" ==> RetryLoggerFor(source) == LoggerTemplates("PyPI")
    ensures RetryLoggerFor(source) == LoggerTemplates("TestPyPI") <==> source == "testpypi"
  {
    if source != "testpypi" {
      var t := LoggerTemplates("TestPyPI").title;
      var p := LoggerTemplates("PyPI").title;
      assert t[21] == 'T' && p[21] == 'P';
    }
  }

  /** The requirement specifier passed with the package name. */
  function Specifier(version: string): Option<string> {
    if version != "" then Some("==" + version) else None
  }

  function RetryArgsFor(source: string, name: string, version: string): RetryArgs {
    if source == "testpypi" then RetryArgs(name, Specifier(version), Some(false), Some("testpypi"))
    else RetryArgs(name, Specifier(version), None, None)
  }

  /** Only a TestPyPI install turns dependencies off and names the
      "testpypi" index; a version is pinned with "==" exactly when it is
      given, and the pinned version reads back from the specifier. */
  lemma RetryArgsBySource(source: string, name: string, version: string)
    ensures var a := RetryArgsFor(source, name, version);
      && a.name == name
      && (a.installDependencies == Some(false) <==> source == "testpypi")
      && (a.index == Some("testpypi") <==> source == "testpypi")
      && (source != "testpypi" ==> a.installDependencies == None && a.index == None)
      && (a.requirementSpecifier.None? <==> version == "")
      && (a.requirementSpecifier.Some? ==>
            a.requirementSpecifier.value[..2] == "==" && a.requirementSpecifier.value[2..] == version)
  {
  }

  function RetriedInstall(source: string, inp: Inputs): Event {
    RetriedRun(RetryArgsFor(source, inp.packageName, inp.packageVersion), RetryLoggerFor(source),
               Sleeper(inp.retrySleepSeconds, inp.retrySleepSecondsTotal))
  }

  /** The exit message of an exhausted retried install. */
  function RetryFailedMessage(index: string, countTries: nat, totalSleepSeconds: string): string {
    "Installing package from " + index + " failed after " + NatToString(countTries)
      + " tries totaling " + totalSleepSeconds + " seconds."
  }

  /** The exit message determines the number of tries and the total sleep
      time it reports. */
  lemma RetryFailedMessageDeterminesCounts(index: string, c1: nat, t1: string, c2: nat, t2: string)
    requires RetryFailedMessage(index, c1, t1) == RetryFailedMessage(index, c2, t2)
    ensures c1 == c2 && t1 == t2
  {
    var head := "Installing package from " + index + " failed after ";
    var r1 := " tries totaling " + t1 + " seconds.";
    var r2 := " tries totaling " + t2 + " seconds.";
    assert RetryFailedMessage(index, c1, t1) == head + NatToString(c1) + r1;
    assert RetryFailedMessage(index, c2, t2) == head + NatToString(c2) + r2;
    DigitsBeforeSpace(head, NatToString(c1), r1, NatToString(c2), r2);
    NatToStringInjective(c1, c2);
    SameMiddle(" tries totaling ", t1, t2, " seconds.");
  }

  lemma SameMiddle(a: string, x: string, y: string, b: string)
    requires a + x + b == a + y + b
    ensures x == y
  {
    assert |x| == |y|;
    assert x == (a + x + b)[|a|..|a| + |x|];
    assert y == (a + y + b)[|a|..|a| + |y|];
  }

  /** The retried install, then the exit when it is exhausted. */
  function RetryOutcome(source: string, inp: Inputs, result: RetryResult): (r: Outcome)
    ensures |r.events| > 0 && (r.exited <==> result.RetryError?)
  {
    Outcome([RetriedInstall(source, inp)]
              + (match result
                 case Accepted => []
                 case RetryError(c, t) => [Exit(Message(RetryFailedMessage(IndexLabel(source), c, t)))]),
            result.RetryError?)
  }

  /** The retried install is the only shell call; the step ends the process
      exactly when the retries are exhausted, with the message naming the
      index, the tries and the total sleep time. */
  lemma RetryOutcomeFacts(source: string, inp: Inputs, result: RetryResult)
    ensures var r := RetryOutcome(source, inp, result);
      && EndsAtExit(r)
      && r.events[0] == RetriedInstall(source, inp)
      && Calls(r.events) == [RetriedInstall(source, inp)]
      && (r.exited <==> result.RetryError?)
      && (result.RetryError? ==>
            r.events[|r.events| - 1] == Exit(Message(RetryFailedMessage(IndexLabel(source), result.countTries, result.totalSleepSeconds))))
  {
    var r := RetryOutcome(source, inp, result);
    CallsConcat([r.events[0]], r.events[1..]);
    assert r.events == [r.events[0]] + r.events[1..];
    assert Calls([r.events[0]]) == [r.events[0]] by {
      assert [r.events[0]][1..] == [];
    }
  }

  /** The entry logged when TestPyPI's requirements file does not exist. */
  function SkipEntry(requirementsPath: string, resolvedRequirements: string): LogEntry {
    LogEntry(Skip, "Install Package Requirements", "No requirements file found.",
             ["Input Path: " + requirementsPath, "Resolved Path: " + resolvedRequirements])
  }

  function RequirementsOutcome(repo: string, requirementsPath: string, world: World): (r: Outcome)
    ensures |r.events| > 0 && (r.exited <==> world.requirementsIsFile && !world.requirementsInstall.success)
  {
    if world.requirementsIsFile then
      Reported(PipInstallRequirements(requirementsPath, repo), world.requirementsInstall,
               "Install Package Requirements", "Installing package requirements")
    else Outcome([Log(SkipEntry(requirementsPath, world.resolvedRequirements))], false)
  }

  function PackageOutcome(source: string, repo: string, inp: Inputs, world: World): (r: Outcome)
    ensures r.exited <==> !PackageSucceeds(source, world)
  {
    if source == "github" then
      Reported(PipInstall([inp.packageSetupPath], repo), world.packageFromGithub,
               "Install Package From GitHub", "Installing package from GitHub")
    else if source == "testpypi" then
      AndThen(RequirementsOutcome(repo, inp.requirementsPath, world), RetryOutcome(source, inp, world.packageRetry))
    else RetryOutcome(source, inp, world.packageRetry)
  }

  method InstallPackage(source: string, repo: string, inp: Inputs, world: World) returns (r: Outcome)
    ensures r == PackageOutcome(source, repo, inp, world)
  {
    if source == "github" {
      var s := SubmitLogShellOutput(world.packageFromGithub, "Install Package From GitHub",
                                    "Installing package from GitHub");
      return Outcome([Run(PipInstall([inp.packageSetupPath], repo))] + s.events, s.exited);
    } else if source == "testpypi" {
      var requirements := InstallRequirements(repo, inp.requirementsPath, world);
      if requirements.exited {
        return requirements;
      }
      var retried := TryRetriedInstall(source, inp, world);
      return Outcome(requirements.events + retried.events, retried.exited);
    }
    r := TryRetriedInstall(source, inp, world);
  }

  /** The requirements file of a TestPyPI install: installed when it is a
      file, otherwise a skip entry. */
  method InstallRequirements(repo: string, requirementsPath: string, world: World) returns (r: Outcome)
    ensures r == RequirementsOutcome(repo, requirementsPath, world)
  {
    if world.requirementsIsFile {
      var s := SubmitLogShellOutput(world.requirementsInstall, "Install Package Requirements",
                                    "Installing package requirements");
      r := Outcome([Run(PipInstallRequirements(requirementsPath, repo))] + s.events, s.exited);
    } else {
      r := Outcome([Log(SkipEntry(requirementsPath, world.resolvedRequirements))], false);
    }
  }

  /** The retried install and its `except RetryError` exit, the same in the
      TestPyPI and the PyPI branch but for the index named. */
  method TryRetriedInstall(source: string, inp: Inputs, world: World) returns (r: Outcome)
    ensures r == RetryOutcome(source, inp, world.packageRetry)
  {
    var events := [RetriedInstall(source, inp)];
    match world.packageRetry
    case Accepted =>
      r := Outcome(events + [], false);
    case RetryError(c, t) =>
      r := Outcome(events + [Exit(Message(RetryFailedMessage(IndexLabel(source), c, t)))], true);
  }

  /** The shell calls of the package step, when none of them fails. */
  function PackageCalls(source: string, repo: string, inp: Inputs, world: World): seq<Event> {
    if source == "github" then [Run(PipInstall([inp.packageSetupPath], repo))]
    else if source == "testpypi" && world.requirementsIsFile then
      [Run(PipInstallRequirements(inp.requirementsPath, repo)), RetriedInstall(source, inp)]
    else [RetriedInstall(source, inp)]
  }

  /** Whether the package step gets through without ending the process. */
  predicate PackageSucceeds(source: string, world: World) {
    if source == "github" then world.packageFromGithub.success
    else if source == "testpypi" then
      (!world.requirementsIsFile || world.requirementsInstall.success) && world.packageRetry.Accepted?
    else world.packageRetry.Accepted?
  }

  /** The package step ends the process exactly when one of its calls fails,
      ends only through its last event, and, when nothing fails, makes the
      calls of `PackageCalls` in that order. */
  lemma PackageFacts(source: string, repo: string, inp: Inputs, world: World)
    ensures var r := PackageOutcome(source, repo, inp, world);
      && EndsAtExit(r)
      && (r.exited <==> !PackageSucceeds(source, world))
      && (PackageSucceeds(source, world) ==> Calls(r.events) == PackageCalls(source, repo, inp, world))
  {
    if source == "github" {
      ReportedFacts(PipInstall([inp.packageSetupPath], repo), world.packageFromGithub,
                    "Install Package From GitHub", "Installing package from GitHub");
    } else {
      RetryOutcomeFacts(source, inp, world.packageRetry);
      if source == "testpypi" {
        var req := RequirementsOutcome(repo, inp.requirementsPath, world);
        if world.requirementsIsFile {
          ReportedFacts(PipInstallRequirements(inp.requirementsPath, repo), world.requirementsInstall,
                        "Install Package Requirements", "Installing package requirements");
        } else {
          assert Calls(req.events) == [] by {
            assert req.events[1..] == [];
          }
        }
        AndThenEndsAtExit(req, RetryOutcome(source, inp, world.packageRetry));
        AndThenCalls(req, RetryOutcome(source, inp, world.packageRetry));
      }
    }
  }

  /** GitHub: one direct install from the setup path, reported; no
      requirements install and no retried install. */
  lemma GithubInstallsOnce(repo: string, inp: Inputs, world: World)
    ensures var r := PackageOutcome("github", repo, inp, world);
      && r.events[0] == Run(PipInstall([inp.packageSetupPath], repo))
      && Calls(r.events) == [Run(PipInstall([inp.packageSetupPath], repo))]
      && (r.exited <==> !world.packageFromGithub.success)
  {
    ReportedFacts(PipInstall([inp.packageSetupPath], repo), world.packageFromGithub,
                  "Install Package From GitHub", "Installing package from GitHub");
  }

  /** PyPI: the retried install is the only shell call; PyPI never installs
      a requirements file. */
  lemma PypiOnlyRetries(repo: string, inp: Inputs, world: World)
    ensures var r := PackageOutcome("pypi", repo, inp, world);
      && r.events[0] == RetriedInstall("pypi", inp)
      && Calls(r.events) == [RetriedInstall("pypi", inp)]
      && (r.exited <==> world.packageRetry.RetryError?)
  {
    RetryOutcomeFacts("pypi", inp, world.packageRetry);
  }

  /** TestPyPI with no requirements file: exactly one skip entry, naming the
      input and the resolved path, and the retried install still follows. */
  lemma TestpypiMissingRequirementsSkips(repo: string, inp: Inputs, world: World)
    requires !world.requirementsIsFile
    ensures var r := PackageOutcome("testpypi", repo, inp, world);
      && |r.events| >= 2
      && r.events[0] == Log(SkipEntry(inp.requirementsPath, world.resolvedRequirements))
      && r.events[0].entry.status == Skip
      && r.events[0].entry.details == ["Input Path: " + inp.requirementsPath,
                                       "Resolved Path: " + world.resolvedRequirements]
      && r.events[1] == RetriedInstall("testpypi", inp)
      && (forall i :: 1 <= i < |r.events| ==> !r.events[i].Log?)
  {
    var skip := Log(SkipEntry(inp.requirementsPath, world.resolvedRequirements));
    var retry := RetryOutcome("testpypi", inp, world.packageRetry);
    assert PackageOutcome("testpypi", repo, inp, world).events == [skip] + retry.events;
    assert retry.events == [RetriedInstall("testpypi", inp)]
                           + (if world.packageRetry.Accepted? then [] else [retry.events[1]]);
  }

  // ---------------------------------------------------------------------
  // setup_environment

  const InvalidSourcePrefix := "Invalid input for 'package-source': Expected one of 'GitHub', 'PyPI', or 'TestPyPI', but got '"

  function InvalidSourceMessage(source: string): string {
    InvalidSourcePrefix + source + "'."
  }

  function SetupOutcome(inp: Inputs, world: World): (r: Outcome)
    ensures |r.events| > 0
    ensures r.exited <==> !IsKnownSource(Lower(inp.packageSource)) || !world.upgradePip.success
                          || !PackageSucceeds(Lower(inp.packageSource), world) || !world.testsuiteInstall.success
  {
    var source := Lower(inp.packageSource);
    if !IsKnownSource(source) then Outcome([Exit(Message(InvalidSourceMessage(source)))], true)
    else
      AndThen(AndThen(PrepareOutcome(world), PackageOutcome(source, world.resolvedRepo, inp, world)),
              TestsuiteOutcome(world.resolvedRepo, inp.testsuiteSetupPath, world))
  }

  method SetupEnvironment(inp: Inputs, world: World) returns (r: Outcome)
    ensures r == SetupOutcome(inp, world)
  {
    var source := Lower(inp.packageSource);
    if !IsKnownSource(source) {
      return Outcome([Exit(Message(InvalidSourceMessage(source)))], true);
    }
    var repo := world.resolvedRepo;
    var prepared := Prepare(world);
    if prepared.exited {
      return prepared;
    }
    var package := InstallPackage(source, repo, inp, world);
    if package.exited {
      return Outcome(prepared.events + package.events, true);
    }
    var testsuite := InstallTestsuite(repo, inp.testsuiteSetupPath, world);
    r := Outcome(prepared.events + package.events + testsuite.events, testsuite.exited);
  }

  /** A source that is not "github", "pypi" or "testpypi" in any case ends
      the process before anything runs; an accepted one starts with the pip
      upgrade. */
  lemma InvalidSourceExitsFirst(inp: Inputs, world: World)
    ensures var r := SetupOutcome(inp, world);
      && |r.events| > 0
      && (!IsKnownSource(Lower(inp.packageSource)) <==> r.events[0].Exit?)
      && (!IsKnownSource(Lower(inp.packageSource)) ==>
            r == Outcome([Exit(Message(InvalidSourceMessage(Lower(inp.packageSource))))], true))
      && (IsKnownSource(Lower(inp.packageSource)) ==> r.events[0] == Run(UpgradePip))
  {
    var source := Lower(inp.packageSource);
    if IsKnownSource(source) {
      var prep := PrepareOutcome(world);
      var pkg := PackageOutcome(source, world.resolvedRepo, inp, world);
      ReportedFacts(UpgradePip, world.upgradePip, "Upgrade pip", "Upgrading pip");
      assert AndThen(prep, pkg).events[0] == Run(UpgradePip);
    }
  }

  /** The setup ends the process exactly when the source is rejected or one
      of the shell calls of the three steps fails, and only through its last
      event. */
  lemma SetupExitsIffSomeStepFails(inp: Inputs, world: World)
    ensures var r := SetupOutcome(inp, world);
      var source := Lower(inp.packageSource);
      && EndsAtExit(r)
      && (r.exited <==> !IsKnownSource(source) || !world.upgradePip.success
                        || !PackageSucceeds(source, world) || !world.testsuiteInstall.success)
  {
    var source := Lower(inp.packageSource);
    if IsKnownSource(source) {
      var prep := PrepareOutcome(world);
      var pkg := PackageOutcome(source, world.resolvedRepo, inp, world);
      var suite := TestsuiteOutcome(world.resolvedRepo, inp.testsuiteSetupPath, world);
      ReportedFacts(UpgradePip, world.upgradePip, "Upgrade pip", "Upgrading pip");
      PackageFacts(source, world.resolvedRepo, inp, world);
      ReportedFacts(PipInstall([inp.testsuiteSetupPath], world.resolvedRepo), world.testsuiteInstall,
                    "Install Test-Suite", "Installing test-suite");
      AndThenEndsAtExit(prep, pkg);
      AndThenEndsAtExit(AndThen(prep, pkg), suite);
    }
  }

  /** When every call succeeds, the shell calls are the pip upgrade, the
      package's calls and the test-suite install, in that order. */
  lemma SetupStepOrder(inp: Inputs, world: World)
    requires IsKnownSource(Lower(inp.packageSource))
    requires world.upgradePip.success && world.testsuiteInstall.success
    requires PackageSucceeds(Lower(inp.packageSource), world)
    ensures Calls(SetupOutcome(inp, world).events)
            == [Run(UpgradePip)]
               + PackageCalls(Lower(inp.packageSource), world.resolvedRepo, inp, world)
               + [Run(PipInstall([inp.testsuiteSetupPath], world.resolvedRepo))]
  {
    var source := Lower(inp.packageSource);
    var prep := PrepareOutcome(world);
    var pkg := PackageOutcome(source, world.resolvedRepo, inp, world);
    var suite := TestsuiteOutcome(world.resolvedRepo, inp.testsuiteSetupPath, world);
    ReportedFacts(UpgradePip, world.upgradePip, "Upgrade pip", "Upgrading pip");
    PackageFacts(source, world.resolvedRepo, inp, world);
    ReportedFacts(PipInstall([inp.testsuiteSetupPath], world.resolvedRepo), world.testsuiteInstall,
                  "Install Test-Suite", "Installing test-suite");
    AndThenCalls(prep, pkg);
    AndThenCalls(AndThen(prep, pkg), suite);
  }

  /** A failed pip upgrade stops the setup: it is the only shell call. */
  lemma FailedUpgradeStopsSetup(inp: Inputs, world: World)
    requires IsKnownSource(Lower(inp.packageSource)) && !world.upgradePip.success
    ensures SetupOutcome(inp, world).exited
    ensures Calls(SetupOutcome(inp, world).events) == [Run(UpgradePip)]
  {
    ReportedFacts(UpgradePip, world.upgradePip, "Upgrade pip", "Upgrading pip");
  }

  /** A failed package step stops the setup before the test-suite install:
      the shell calls are the pip upgrade and the package's own calls. */
  lemma FailedPackageSkipsTestsuite(inp: Inputs, world: World)
    requires IsKnownSource(Lower(inp.packageSource)) && world.upgradePip.success
    requires !PackageSucceeds(Lower(inp.packageSource), world)
    ensures SetupOutcome(inp, world).exited
    ensures Calls(SetupOutcome(inp, world).events)
            == [Run(UpgradePip)] + Calls(PackageOutcome(Lower(inp.packageSource), world.resolvedRepo, inp, world).events)
  {
    var source := Lower(inp.packageSource);
    var prep := PrepareOutcome(world);
    var pkg := PackageOutcome(source, world.resolvedRepo, inp, world);
    ReportedFacts(UpgradePip, world.upgradePip, "Upgrade pip", "Upgrading pip");
    PackageFacts(source, world.resolvedRepo, inp, world);
    AndThenCalls(prep, pkg);
  }
}
