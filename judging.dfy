/** The two halves together: how the way a submission's process ends
    becomes the verdict the runner records, and what the helper makes of the
    argument vector the runner builds for it. */
module Judging {
  import opened Wrappers
  import opened PyString
  import opened CString
  import opened Signals
  import opened Classifier
  import opened SetuidHelper
  import Runner

  /** How the helper's child ends: `execvp` fails, after which the child
      returns 111 (line 84 of the helper), or the submission ends with a wait
      status. */
  datatype ChildRun = ExecFails | Ends(status: WaitStatus)

  function ChildStatus(run: ChildRun): WaitStatus {
    match run
    case ExecFails => Exited(ExecFailed)
    case Ends(w) => w
  }

  /** How the helper process ends: `main` returns a value, or the helper
      itself is killed by a signal. */
  datatype HelperEnd = Returned(value: int) | HelperKilled(signal: int)

  /** `Popen.returncode`: the low eight bits of the value `main` returns, or
      minus the signal that killed the helper. */
  function Returncode(e: HelperEnd): (rc: int)
    ensures e.Returned? ==> 0 <= rc < 0x100
  {
    match e
    case Returned(v) => v % 0x100
    case HelperKilled(s) => -s
  }

  /** The classification of a child run when the helper ends normally. */
  function ChildVerdict(run: ChildRun): Classified
    requires WellFormed(ChildStatus(run))
  {
    ProcessReturncode(Returncode(Returned(HelperReturn(EncodeStatus(ChildStatus(run))))))
  }

  /** A child that exits with code c is classified as the return code c, one
      killed by signal s as the return code s, and one that neither exited
      nor was killed as a run-time error. */
  lemma ChildVerdictByCase(run: ChildRun)
    requires WellFormed(ChildStatus(run))
    ensures match ChildStatus(run)
      case Exited(c) => ChildVerdict(run) == ProcessReturncode(c)
      case Signalled(s, _) => ChildVerdict(run) == ProcessReturncode(s)
      case Other(_) => ChildVerdict(run) == Tag("RTE")
  {
    var w := ChildStatus(run);
    HelperReturnByCase(w);
    var v := HelperReturn(EncodeStatus(w));
    match w
    case Exited(c) => assert v % 0x100 == c;
    case Signalled(s, _) => assert v % 0x100 == s;
    case Other(raw) => StoppedLowByte(raw);
  }

  /** A status that is neither an exit nor a signal ends in 0x7f or 0xff. */
  lemma StoppedLowByte(raw: int)
    requires raw % 0x80 == 0x7f
    ensures raw % 0x100 == 0x7f || raw % 0x100 == 0xff
  {
  }

  /** The runner sees RUN exactly when the child exited with code 0. */
  lemma RunIffCleanExit(run: ChildRun)
    requires WellFormed(ChildStatus(run))
    ensures ChildVerdict(run) == Tag("RUN") <==> ChildStatus(run) == Exited(0)
  {
    ChildVerdictByCase(run);
    var w := ChildStatus(run);
    match w
    case Exited(c) => ClassifierTotal(c);
    case Signalled(s, _) => ClassifierTotal(s);
    case Other(_) =>
  }

  /** A child the helper reaps after SIGKILL, which the kernel sends once the
      child's CPU time reaches the hard limit `timelimit + 1`, is KILL. */
  lemma KilledChildIsKill(core: bool)
    ensures ChildVerdict(Ends(Signalled(SIGKILL, core))) == Tag("KILL")
  {
    ChildVerdictByCase(Ends(Signalled(SIGKILL, core)));
  }

  /** What the helper's `wait(&status)` (line 94) comes back with: the
      child's ending, or the `timelimit + 2` alarm of line 90 firing first
      because the child is still alive (sleeping or blocked, so that its CPU
      limit is never reached). */
  datatype Waited = Reaped(run: ChildRun) | AlarmFirst

  predicate WaitedWellFormed(x: Waited) {
    x.Reaped? ==> WellFormed(ChildStatus(x.run))
  }

  /** The helper's return value as written. `alarm_act` is a zero-initialised
      global, so the handler is installed without `SA_RESTART`: when the
      alarm fires during `wait`, the handler's `kill` ends the child, `wait`
      fails with EINTR and `status` (line 92) is never written. `None` is the
      indeterminate value lines 97-110 then decode. */
  function HelperValue(x: Waited): (v: Option<int>)
    requires WaitedWellFormed(x)
    ensures v.None? <==> x.AlarmFirst?
  {
    match x
    case AlarmFirst => None
    case Reaped(run) => Some(HelperReturn(EncodeStatus(ChildStatus(run))))
  }

  /** The runner's classification of the helper's value as written; `None`
      where that value is indeterminate. */
  function WaitedVerdict(x: Waited): Option<Classified>
    requires WaitedWellFormed(x)
  {
    match HelperValue(x)
    case None => None
    case Some(v) => Some(ProcessReturncode(Returncode(Returned(v))))
  }

  /** As written, a child that outlives the wall-clock alarm gets no
      determined verdict, although a reaped one gets `ChildVerdict`. */
  lemma WallClockTimeoutUndetermined(run: ChildRun)
    requires WellFormed(ChildStatus(run))
    ensures WaitedVerdict(AlarmFirst) == None
    ensures WaitedVerdict(Reaped(run)) == Some(ChildVerdict(run))
  {
  }

  /** The ending the helper reaps when `wait` is repeated after EINTR (or the
      handler is installed with `SA_RESTART`): the SIGKILL its handler sent. */
  function RestartedWait(x: Waited): ChildRun {
    match x
    case AlarmFirst => Ends(Signalled(SIGKILL, false))
    case Reaped(run) => run
  }

  /** With `wait` restarted, a wall-clock timeout is KILL, and every other
      ending keeps the verdict the helper as written gives it. */
  lemma RestartedWaitIsKill(x: Waited)
    requires WaitedWellFormed(x)
    ensures WellFormed(ChildStatus(RestartedWait(x)))
    ensures x.AlarmFirst? ==> ChildVerdict(RestartedWait(x)) == Tag("KILL")
    ensures x.Reaped? ==> WaitedVerdict(x) == Some(ChildVerdict(RestartedWait(x)))
  {
    if x.AlarmFirst? {
      KilledChildIsKill(false);
    }
  }

  /** A child that exits with code c is classified exactly like one killed
      by signal c; so `exit(11)` reads as a segmentation fault. */
  lemma ExitLooksLikeSignal(c: int, core: bool)
    requires 1 <= c < 0x7f
    ensures ChildVerdict(Ends(Exited(c))) == ChildVerdict(Ends(Signalled(c, core)))
    ensures ChildVerdict(Ends(Exited(SIGSEGV))) == Tag("SEG")
  {
    ChildVerdictByCase(Ends(Exited(c)));
    ChildVerdictByCase(Ends(Signalled(c, core)));
    ChildVerdictByCase(Ends(Exited(SIGSEGV)));
  }

  /** A child that exits with code 111 cannot be told from a failed
      `execvp`: both end the runner through `os._exit(0)`. */
  lemma Exit111IsExecFailure()
    ensures ChildVerdict(Ends(Exited(ExecFailed))) == ChildVerdict(ExecFails) == OsExit(0)
  {
    ChildVerdictByCase(ExecFails);
  }

  /** The empty tag is recorded exactly when the helper itself is killed. */
  lemma EmptyTagIffHelperKilled(e: HelperEnd)
    requires e.HelperKilled? ==> e.signal >= 1
    ensures ProcessReturncode(Returncode(e)) == Tag("") <==> e.HelperKilled?
  {
    ClassifierTotal(Returncode(e));
  }

  /** The runner records the empty tag for a negative return code, and the
      sentinel 111 stops it through `os._exit(0)` with nothing recorded. */
  lemma RunnerOnReturncode(cfg: Runner.Config, sub: Runner.Submission, env: Runner.Env, tc: Runner.Testcase)
    requires Runner.HelperRun(cfg, sub, env, tc).Completed?
    ensures var rc := Runner.HelperRun(cfg, sub, env, tc).returncode;
      && (rc < 0 ==> Runner.ExpectedOutcome(cfg, sub, env, tc) == Success(""))
      && (rc == ExecFailed ==> Runner.ExpectedOutcome(cfg, sub, env, tc) == Failure(Runner.Exit(0)))
  {
    ClassifierTotal(Runner.HelperRun(cfg, sub, env, tc).returncode);
  }

  // ---------------------------------------------------------------------
  // The argument vector.

  lemma StrHasNoDelim(n: int)
    ensures Str(n) != [] && '=' !in Str(n)
  {
    if n < 0 {
      assert Str(n)[1..] == Digits(-n);
    }
  }

  /** An argument whose first character is neither '=' nor the first
      character of an option name selects no option and changes nothing. */
  predicate SelectsNothing(arg: string) {
    arg != [] && arg[0] !in "=dmtioe"
  }

  lemma IgnoredArgument(o: Options, arg: string, index: nat)
    requires SelectsNothing(arg)
    ensures ApplyArg(o, arg, index) == Success(o)
    ensures AfterStrtok(arg) == Span(arg)
  {
    assert DelimRun(arg) == 0;
    assert SkipDelims(arg) == arg;
    var name := Span(arg);
    assert name != [] && name[0] == arg[0];
    FirstCharMissesFrom(name, 0);
  }

  /** Arguments 1 to n - 1 that all select nothing leave every option
      variable uninitialised. */
  lemma {:induction false} IgnoredArguments(args: seq<string>, n: nat)
    requires n <= |args|
    requires forall i :: 1 <= i < n ==> SelectsNothing(args[i])
    ensures Parsed(args, n) == Success(Unset)
  {
    if n > 1 {
      IgnoredArguments(args, n - 1);
      IgnoredArgument(Unset, args[n - 1], n - 1);
    }
  }

  /** The runner's argument vector (lines 75-84 of the runner) against the
      helper's parser (lines 43-54): every name starts with "--", so no
      option is set and the child reads uninitialised buffers when it
      reopens its standard streams; `strtok` cuts `argv[8]` back to
      "--executable", which is the program `execvp` is asked to run. */
  lemma RunnerArgvSetsNoOption(cfg: Runner.Config, sub: Runner.Submission, inf: string, outf: string, errf: string)
    ensures var argv := Runner.HelperArgv(cfg, sub, inf, outf, errf);
      && Parsed(argv, |argv|) == Success(Unset)
      && PlanChild(Unset) == Failure(Indeterminate(InFile))
      && ExecTarget(Tokenised(argv, |argv|)) == Success(Some("--executable"))
  {
    var argv := Runner.HelperArgv(cfg, sub, inf, outf, errf);
    RunnerArgumentsSelectNothing(argv);
    IgnoredArguments(argv, |argv|);
    ExecutableFlagCut(sub.execString);
    assert argv[8] == "--executable=" + sub.execString;
    assert Tokenised(argv, |argv|)[8] == AfterStrtok(argv[8]);
  }

  /** `strtok` writes its NUL over the '=' of `--executable=...`. */
  lemma ExecutableFlagCut(exec: string)
    ensures AfterStrtok("--executable=" + exec) == "--executable"
  {
    var exe := "--executable";
    assert "--executable=" + exec == exe + ("=" + exec);
    SpanStopsAtDelim(exe, "=" + exec);
    assert SelectsNothing(exe + ("=" + exec));
    IgnoredArgument(Unset, exe + ("=" + exec), 8);
  }

  lemma RunnerArgumentsSelectNothing(argv: seq<string>)
    requires forall i :: 1 <= i < |argv| ==> argv[i] != [] && argv[i][0] == '-'
    ensures forall i :: 1 <= i < |argv| ==> SelectsNothing(argv[i])
  {
  }

  /** `name=value` for one of the helper's options. */
  function Setting(opt: Opt, value: string): string {
    OptName(opt) + "=" + value
  }

  lemma ApplySetting(o: Options, opt: Opt, v: string, index: nat)
    requires v != [] && '=' !in v
    ensures ApplyArg(o, Setting(opt, v), index) == Assign(o, opt, v, index)
    ensures AfterStrtok(Setting(opt, v)) == OptName(opt)
  {
    var name := OptName(opt);
    assert SplitNameValue(Setting(opt, v)) == Tokens(Some(name), Some(v))
        && AfterStrtok(Setting(opt, v)) == name by {
      SplitJoined(name, v, []);
      assert name + "=" + v + [] == Setting(opt, v);
    }
    OwnNameMatches(opt);
    ApplyTokens(o, Setting(opt, v), name, opt, v, index);
  }

  lemma OwnNameMatches(opt: Opt)
    ensures MatchOption(OptName(opt)) == Some(opt)
  {
    MatchOptionIsPrefixTest(OptName(opt), opt);
  }

  lemma ApplyTokens(o: Options, arg: string, name: string, opt: Opt, v: string, index: nat)
    requires v != []
    requires SplitNameValue(arg) == Tokens(Some(name), Some(v)) && MatchOption(name) == Some(opt)
    ensures ApplyArg(o, arg, index) == Assign(o, opt, v, index)
  {
  }

  /** Of two arguments whose names select the same option, the later one
      wins: once the first has been stored, the second leaves the variables
      (or the fault) as if the first had not been there. */
  lemma LaterSettingWins(o: Options, a1: string, a2: string, i: nat, j: nat)
    requires SplitNameValue(a1).name.Some? && SplitNameValue(a2).name.Some?
    requires MatchOption(SplitNameValue(a1).name.value).Some?
    requires MatchOption(SplitNameValue(a1).name.value) == MatchOption(SplitNameValue(a2).name.value)
    requires ApplyArg(o, a1, i).Success?
    ensures ApplyArg(ApplyArg(o, a1, i).value, a2, j) == ApplyArg(o, a2, j)
  {
    var t1, t2 := SplitNameValue(a1), SplitNameValue(a2);
    var opt := MatchOption(t1.name.value).value;
    assert ApplyArg(o, a1, i) == Success(Store(o, opt, t1.value.value));
    if t2.value.Some? {
      StoreOverwrites(o, opt, t1.value.value, t2.value.value);
    }
  }

  lemma StoreOverwrites(o: Options, opt: Opt, v1: string, v2: string)
    ensures Store(Store(o, opt, v1), opt, v2) == Store(o, opt, v2)
  {
  }

  /** The runner's `maxfilesz`, with or without its `--`, is not the
      helper's `maxfilesize`. */
  lemma ShortenedNameMatchesNothing()
    ensures MatchOption("maxfilesz") == None && MatchOption("--maxfilesz") == None
  {
    MatchOptionIsPrefixTest("maxfilesz", MaxFileSize);
    MatchOptionIsPrefixTest("--maxfilesz", MaxFileSize);
    forall p | p in Opts ensures !(p <= "maxfilesz") && !(p <= "--maxfilesz") {
      var j :| 0 <= j < |Opts| && Opts[j] == p;
      assert Opts[j][0] != '-';
      if j != 3 {
        assert Opts[j][0] != 'm' || Opts[j][1] != 'a';
      }
    }
  }

  /** A setting the helper stores as given: a value that is non-empty,
      holds no '=' and, for a path, fits its buffer. */
  predicate Storable(setting: (Opt, string)) {
    setting.1 != [] && '=' !in setting.1 && (IsPath(setting.0) ==> |setting.1| < MaxPathSize)
  }

  /** The option variables after storing a list of settings in order. */
  function StoreAll(settings: seq<(Opt, string)>): Options {
    if settings == [] then Unset
    else
      var last := settings[|settings| - 1];
      Store(StoreAll(settings[..|settings| - 1]), last.0, last.1)
  }

  lemma StoreAllSnoc(settings: seq<(Opt, string)>, k: nat)
    requires k < |settings|
    ensures StoreAll(settings[..k + 1]) == Store(StoreAll(settings[..k]), settings[k].0, settings[k].1)
  {
    assert settings[..k + 1][..k] == settings[..k];
  }

  /** Parsing continues from argument n, which sets one option. */
  lemma ParsedSetting(args: seq<string>, n: nat, o: Options, setting: (Opt, string), o': Options)
    requires 1 <= n < |args| && Storable(setting)
    requires Parsed(args, n) == Success(o) && args[n] == Setting(setting.0, setting.1)
    requires Store(o, setting.0, setting.1) == o'
    ensures Parsed(args, n + 1) == Success(o')
  {
    ApplySetting(o, setting.0, setting.1, n);
  }

  /** Arguments 1 to |settings| that spell out `settings` store each of
      them, in order. */
  lemma {:induction false} ParsedSettings(args: seq<string>, settings: seq<(Opt, string)>)
    requires |settings| < |args|
    requires forall k :: 0 <= k < |settings| ==>
      Storable(settings[k]) && args[k + 1] == Setting(settings[k].0, settings[k].1)
    ensures Parsed(args, |settings| + 1) == Success(StoreAll(settings))
  {
    if settings != [] {
      var n := |settings|;
      var init := settings[..n - 1];
      ParsedSettings(args, init);
      ParsedSetting(args, n, StoreAll(init), settings[n - 1], StoreAll(settings));
    }
  }

  /** What the runner means to pass: the debug level, the three scratch
      files and the three limits, each under the helper's own name. */
  function IntendedSettings(cfg: Runner.Config, sub: Runner.Submission, inf: string, outf: string, errf: string): seq<(Opt, string)> {
    [(Debug, Str(cfg.debugLevel)), (InFile, inf), (OutFile, outf), (ErrFile, errf),
     (MemLimit, Str(sub.problem.mlimit)), (TimeLimit, Str(sub.problem.tlimit)), (MaxFileSize, Str(cfg.outputLimit))]
  }

  /** The argument vector the helper expects: `name=value` for each
      intended setting, then the submission's executable as `argv[8]`. */
  function CorrectedArgv(cfg: Runner.Config, sub: Runner.Submission, inf: string, outf: string, errf: string): (argv: seq<string>)
    ensures |argv| == NoOpts + 2
  {
    var settings := IntendedSettings(cfg, sub, inf, outf, errf);
    [cfg.shPath] + seq(|settings|, k requires 0 <= k < |settings| => Setting(settings[k].0, settings[k].1)) + [sub.execString]
  }

  /** Paths the helper copies whole: non-empty, without '=' and shorter than
      its 300-byte buffers. */
  predicate CopyablePath(p: string) {
    p != [] && '=' !in p && |p| < MaxPathSize
  }

  /** The intended settings, stored in order, set all seven variables. */
  lemma IntendedStore(d: string, inf: string, outf: string, errf: string, m: string, t: string, l: string)
    requires d != []
    ensures var s := [(Debug, d), (InFile, inf), (OutFile, outf), (ErrFile, errf), (MemLimit, m), (TimeLimit, t), (MaxFileSize, l)];
      StoreAll(s) == Options(Some(d[0] as int - '0' as int), Some(Atoi(m)), Some(Atoi(t)), Some(Atoi(l)), Some(inf), Some(outf), Some(errf))
  {
    var s := [(Debug, d), (InFile, inf), (OutFile, outf), (ErrFile, errf), (MemLimit, m), (TimeLimit, t), (MaxFileSize, l)];
    var dv := Some(d[0] as int - '0' as int);
    var o5 := Options(dv, Some(Atoi(m)), None, None, Some(inf), Some(outf), Some(errf));
    var o6 := Options(dv, Some(Atoi(m)), Some(Atoi(t)), None, Some(inf), Some(outf), Some(errf));
    var o7 := Options(dv, Some(Atoi(m)), Some(Atoi(t)), Some(Atoi(l)), Some(inf), Some(outf), Some(errf));
    IntendedStorePaths(d, inf, outf, errf, m, t, l);
    assert StoreAll(s[..5]) == o5 by { StoreAllSnoc(s, 4); }
    assert StoreAll(s[..6]) == o6 by { StoreAllSnoc(s, 5); }
    assert StoreAll(s[..7]) == o7 by { StoreAllSnoc(s, 6); }
    assert s[..7] == s;
  }

  /** The first four intended settings set the debug level and the three
      paths. */
  lemma IntendedStorePaths(d: string, inf: string, outf: string, errf: string, m: string, t: string, l: string)
    requires d != []
    ensures var s := [(Debug, d), (InFile, inf), (OutFile, outf), (ErrFile, errf), (MemLimit, m), (TimeLimit, t), (MaxFileSize, l)];
      StoreAll(s[..4]) == Options(Some(d[0] as int - '0' as int), None, None, None, Some(inf), Some(outf), Some(errf))
  {
    var s := [(Debug, d), (InFile, inf), (OutFile, outf), (ErrFile, errf), (MemLimit, m), (TimeLimit, t), (MaxFileSize, l)];
    var dv := Some(d[0] as int - '0' as int);
    var o1 := Options(dv, None, None, None, None, None, None);
    var o2 := Options(dv, None, None, None, Some(inf), None, None);
    var o3 := Options(dv, None, None, None, Some(inf), Some(outf), None);
    assert StoreAll(s[..0]) == Unset by { assert s[..0] == []; }
    assert StoreAll(s[..1]) == o1 by { StoreAllSnoc(s, 0); }
    assert StoreAll(s[..2]) == o2 by { StoreAllSnoc(s, 1); }
    assert StoreAll(s[..3]) == o3 by { StoreAllSnoc(s, 2); }
    StoreAllSnoc(s, 3);
  }

  /** The corrected vector sets every option to the value the runner meant
      (the limits read back by `atoi`, the paths copied whole) and
      `execvp` runs the submission's executable. */
  lemma CorrectedArgvRoundTrip(cfg: Runner.Config, sub: Runner.Submission, inf: string, outf: string, errf: string)
    requires CopyablePath(inf) && CopyablePath(outf) && CopyablePath(errf)
    requires IntMin <= sub.problem.mlimit <= IntMax && IntMin <= sub.problem.tlimit <= IntMax
    requires IntMin <= cfg.outputLimit <= IntMax
    requires SelectsNothing(sub.execString) && '=' !in sub.execString
    ensures var argv := CorrectedArgv(cfg, sub, inf, outf, errf);
      && Parsed(argv, |argv|) == Success(Options(
           Some(Str(cfg.debugLevel)[0] as int - '0' as int),
           Some(sub.problem.mlimit), Some(sub.problem.tlimit), Some(cfg.outputLimit),
           Some(inf), Some(outf), Some(errf)))
      && ExecTarget(Tokenised(argv, |argv|)) == Success(Some(sub.execString))
  {
    var argv := CorrectedArgv(cfg, sub, inf, outf, errf);
    var settings := IntendedSettings(cfg, sub, inf, outf, errf);
    IntendedSettingsStored(cfg, sub, inf, outf, errf);
    IntendedSettingsSpelled(cfg, sub, inf, outf, errf);
    ParsedSettings(argv, settings);
    assert argv[8] == sub.execString;
    ExecutableKept(argv);
  }

  /** Arguments 1 to 7 of the corrected vector spell out the intended
      settings, each of which the helper stores as given. */
  lemma IntendedSettingsSpelled(cfg: Runner.Config, sub: Runner.Submission, inf: string, outf: string, errf: string)
    requires CopyablePath(inf) && CopyablePath(outf) && CopyablePath(errf)
    ensures var argv, settings := CorrectedArgv(cfg, sub, inf, outf, errf), IntendedSettings(cfg, sub, inf, outf, errf);
      && |settings| < |argv|
      && forall k :: 0 <= k < |settings| ==>
           Storable(settings[k]) && argv[k + 1] == Setting(settings[k].0, settings[k].1)
  {
    StrHasNoDelim(cfg.debugLevel);
    StrHasNoDelim(sub.problem.mlimit);
    StrHasNoDelim(sub.problem.tlimit);
    StrHasNoDelim(cfg.outputLimit);
  }

  /** Storing the intended settings in order gives every option the value
      the runner meant: the limits as `atoi` reads back their `"%d"`. */
  lemma IntendedSettingsStored(cfg: Runner.Config, sub: Runner.Submission, inf: string, outf: string, errf: string)
    requires IntMin <= sub.problem.mlimit <= IntMax && IntMin <= sub.problem.tlimit <= IntMax
    requires IntMin <= cfg.outputLimit <= IntMax
    ensures StoreAll(IntendedSettings(cfg, sub, inf, outf, errf)) == Options(
      Some(Str(cfg.debugLevel)[0] as int - '0' as int),
      Some(sub.problem.mlimit), Some(sub.problem.tlimit), Some(cfg.outputLimit),
      Some(inf), Some(outf), Some(errf))
  {
    var d, m, t, l := Str(cfg.debugLevel), Str(sub.problem.mlimit), Str(sub.problem.tlimit), Str(cfg.outputLimit);
    StrHasNoDelim(cfg.debugLevel);
    AtoiOfStr(sub.problem.mlimit);
    AtoiOfStr(sub.problem.tlimit);
    AtoiOfStr(cfg.outputLimit);
    assert IntendedSettings(cfg, sub, inf, outf, errf) ==
      [(Debug, d), (InFile, inf), (OutFile, outf), (ErrFile, errf), (MemLimit, m), (TimeLimit, t), (MaxFileSize, l)];
    IntendedStore(d, inf, outf, errf, m, t, l);
  }

  /** An executable name that selects nothing is neither changed by the
      parser nor cut by `strtok`. */
  lemma ExecutableKept(argv: seq<string>)
    requires |argv| == 9 && SelectsNothing(argv[8]) && '=' !in argv[8]
    requires Parsed(argv, 8).Success?
    ensures Parsed(argv, 9) == Parsed(argv, 8)
    ensures ExecTarget(Tokenised(argv, 9)) == Success(Some(argv[8]))
  {
    IgnoredArgument(Parsed(argv, 8).value, argv[8], 8);
    SpanStopsAtDelim(argv[8], []);
    assert argv[8] + [] == argv[8];
  }
}
