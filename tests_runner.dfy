/** `TestsRunner`: runs a submission against every testcase of its problem
    through the setuid helper, records one `TestcaseEval` per testcase and
    removes the scratch files it created.

    The value-level functions below (`TestSpec`, `EvaluateSpec`, `CleanupSpec`,
    `ProcessOne`, `Run`) state what each step does to a `World`: the runner's
    four path fields, the scratch directory and the records saved so far. The
    class `TestsRunner` at the end performs the same steps on its fields. */
module Runner {
  import opened Wrappers
  import opened PyString
  import opened Classifier

  /** `S_IRUSR | S_IWUSR | S_IROTH | S_IWOTH` (0o606) and `S_IRUSR | S_IWUSR`
      (0o600). */
  const SharedMode: int := 0x186
  const PrivateMode: int := 0x180

  const InExt: string := ".in"
  const OutExt: string := ".out"
  const ErrExt: string := ".err"
  const RefExt: string := ".ref"

  datatype Testcase = Testcase(id: int, input: string, output: string)
  datatype TestSet = TestSet(testcases: seq<Testcase>)
  /** A problem's limits, its custom evaluator ("" when there is none) and
      its test sets, in the order the database returns them. */
  datatype Problem = Problem(tlimit: int, mlimit: int, custEval: string, testSets: seq<TestSet>)
  /** The configuration values the runner reads; `debugLevel` is the value of
      `Logger.DEBUG`. */
  datatype Config = Config(absPath: string, shPath: string, jailRoot: string, outputLimit: int, debugLevel: int)
  datatype Submission = Submission(pk: int, problem: Problem, execString: string)
  /** A saved verdict; the submission is identified by its primary key. */
  datatype TestcaseEval = TestcaseEval(submission: int, testcase: Testcase, passStatus: string)

  /** What `Popen` and `communicate` give for one run of the helper: its
      return code and what the child left in the output and error files, or
      the exception either of them raised. */
  datatype Execution = Completed(returncode: int, out: string, err: string) | CommunicateRaised | PopenRaised

  /** The ways the runner stops before finishing: `os._exit`, `sys.exit`, an
      uncaught `KeyError` or `OSError`, an uncaught exception from `Popen`. */
  datatype Halt = Exit(status: int) | SystemExit(code: int) | KeyError(key: string) | OSError(path: string) | SpawnError

  /** The helper run (given the argument vector and the input) and
      `diff -Bb` (given the two files' contents, true when it prints
      nothing), neither of which the model interprets. */
  datatype Env = Env(sandbox: (seq<string>, string) -> Execution, diffEmpty: (string, string) -> bool)

  /** `AsWritten` never resets `chkfile`; `ResetChkfile` sets it back to
      `None` once the reference file has been removed. */
  datatype Policy = AsWritten | ResetChkfile

  /** The runner's path fields, the files of the scratch directory with the
      modes set on them, the saved records and the submission's result. */
  datatype World = World(
    infile: Option<string>, outfile: Option<string>, errfile: Option<string>, chkfile: Option<string>,
    files: map<string, string>, modes: map<string, int>,
    evals: seq<TestcaseEval>, result: string)

  datatype Outcome<T> = Outcome(w: World, r: Result<T, Halt>)

  /** `config.abs_path + str(submission.pk) + ext`: the same four paths for
      every testcase of a submission. */
  function ScratchPath(cfg: Config, sub: Submission, ext: string): string {
    cfg.absPath + Str(sub.pk) + ext
  }

  /** The four scratch paths of a submission are four different files. */
  lemma ScratchPathsDistinct(cfg: Config, sub: Submission)
    ensures var i, o, e, c := ScratchPath(cfg, sub, InExt), ScratchPath(cfg, sub, OutExt),
                              ScratchPath(cfg, sub, ErrExt), ScratchPath(cfg, sub, RefExt);
      i != o && i != e && i != c && o != e && o != c && e != c
  {
    var p := cfg.absPath + Str(sub.pk);
    assert ScratchPath(cfg, sub, OutExt) == p + OutExt;
    assert ScratchPath(cfg, sub, ErrExt) == p + ErrExt;
    assert ScratchPath(cfg, sub, RefExt) == p + RefExt;
    assert (p + OutExt)[|p| + 1] == 'o';
    assert (p + ErrExt)[|p| + 1] == 'e';
    assert (p + RefExt)[|p| + 1] == 'r';
  }

  /** The helper's argument vector (lines 75-84 of the runner). */
  function HelperArgv(cfg: Config, sub: Submission, inf: string, outf: string, errf: string): (argv: seq<string>)
    ensures |argv| == 10 && argv[0] == cfg.shPath
  {
    [cfg.shPath,
     "--debug=" + Str(cfg.debugLevel),
     "--infile=" + inf,
     "--outfile=" + outf,
     "--errfile=" + errf,
     "--memlimit=" + Str(sub.problem.mlimit),
     "--timelimit=" + Str(sub.problem.tlimit),
     "--maxfilesz=" + Str(cfg.outputLimit),
     "--executable=" + sub.execString,
     "--jail=" + cfg.jailRoot]
  }

  /** `write_to_disk(content, path)`: creates or truncates the file. An
      existing file keeps its mode. */
  function WriteToDisk(w: World, path: string, content: string): World {
    w.(files := w.files[path := content])
  }

  function Chmod(w: World, path: string, mode: int): World
    requires path in w.files
  {
    w.(modes := w.modes[path := mode])
  }

  /** `os.remove(path)`, which raises `OSError` for a missing file. */
  function Remove(w: World, path: string): (o: Outcome<()>)
    ensures o.r.Success? <==> path in w.files
    ensures o.r.Failure? ==> o.w == w && o.r.error == OSError(path)
  {
    if path in w.files then Outcome(w.(files := w.files - {path}, modes := w.modes - {path}), Success(()))
    else Outcome(w, Failure(OSError(path)))
  }

  /** `test`: writes the input file, creates the output and error files
      writable by others, runs the helper and classifies its return code. */
  function TestSpec(cfg: Config, sub: Submission, env: Env, tc: Testcase, w: World): (o: Outcome<string>)
    ensures o.w.infile == Some(ScratchPath(cfg, sub, InExt)) && o.w.infile.value in o.w.files
    ensures o.w.outfile == Some(ScratchPath(cfg, sub, OutExt)) && o.w.outfile.value in o.w.files
    ensures o.w.errfile == Some(ScratchPath(cfg, sub, ErrExt)) && o.w.errfile.value in o.w.files
    ensures o.w.outfile.value in o.w.modes && o.w.errfile.value in o.w.modes
    ensures o.w.modes[o.w.outfile.value] == o.w.modes[o.w.errfile.value] == SharedMode
    ensures o.w.files[o.w.infile.value] == tc.input
    ensures o.w.chkfile == w.chkfile && o.w.evals == w.evals && o.w.result == w.result
  {
    var inf, outf, errf := ScratchPath(cfg, sub, InExt), ScratchPath(cfg, sub, OutExt), ScratchPath(cfg, sub, ErrExt);
    ScratchPathsDistinct(cfg, sub);
    var w1 := WriteToDisk(w.(infile := Some(inf)), inf, tc.input);
    var w2 := WriteToDisk(w1.(outfile := Some(outf)), outf, "");
    var w3 := WriteToDisk(w2.(errfile := Some(errf)), errf, "");
    var w4 := Chmod(Chmod(w3, outf, SharedMode), errf, SharedMode);
    match env.sandbox(HelperArgv(cfg, sub, inf, outf, errf), tc.input)
    case PopenRaised => Outcome(w4, Failure(SpawnError))
    case CommunicateRaised => Outcome(w4, Failure(SystemExit(1)))
    case Completed(rc, out, err) =>
      var w5 := w4.(files := w4.files[outf := out][errf := err]);
      match ProcessReturncode(rc)
      case OsExit(s) => Outcome(w5, Failure(Exit(s)))
      case Tag(t) => Outcome(w5, Success(t))
  }

  datatype Evaluated = Evaluated(w: World, status: map<string, string>)

  /** `evaluate` on the default path: writes the expected output with CRLF
      line ends rewritten as the reference file, makes the output file
      private and reads the verdict off `diff`. With a custom evaluator it
      returns an empty map. */
  function EvaluateSpec(cfg: Config, sub: Submission, env: Env, tc: Testcase, w: World): (e: Evaluated)
    requires w.outfile.Some? && w.outfile.value in w.files
    ensures "STATUS" in e.status <==> sub.problem.custEval == ""
    ensures e.w.infile == w.infile && e.w.outfile == w.outfile && e.w.errfile == w.errfile
    ensures e.w.evals == w.evals && e.w.result == w.result
    ensures sub.problem.custEval != "" ==> e.w == w
    ensures sub.problem.custEval == "" ==>
      var ref := ScratchPath(cfg, sub, RefExt);
      && e.w.chkfile == Some(ref)
      && e.w.files == w.files[ref := ReplaceCrlf(tc.output)]
      && e.w.modes == w.modes[w.outfile.value := PrivateMode]
      && (w.outfile.value != ref ==>
            e.status["STATUS"] == (if env.diffEmpty(w.files[w.outfile.value], ReplaceCrlf(tc.output)) then "PASSED" else "FAILED"))
  {
    if sub.problem.custEval != "" then Evaluated(w, map[])
    else
      var ref := ScratchPath(cfg, sub, RefExt);
      ScratchPathsDistinct(cfg, sub);
      var w1 := WriteToDisk(w.(chkfile := Some(ref)), ref, ReplaceCrlf(tc.output));
      var w2 := Chmod(w1, w.outfile.value, PrivateMode);
      var same := env.diffEmpty(w2.files[w.outfile.value], w2.files[ref]);
      Evaluated(w2, map["STATUS" := if same then "PASSED" else "FAILED"])
  }

  /** The removals after a testcase: the input, output and error files, then
      the reference file whenever `chkfile` is set. */
  function CleanupSpec(w: World, policy: Policy): (o: Outcome<()>)
    requires w.infile.Some? && w.outfile.Some? && w.errfile.Some?
    ensures o.w.evals == w.evals && o.w.result == w.result
  {
    var a := Remove(w, w.infile.value);
    if a.r.Failure? then a else
    var b := Remove(a.w, w.outfile.value);
    if b.r.Failure? then b else
    var c := Remove(b.w, w.errfile.value);
    if c.r.Failure? || w.chkfile.None? then c else
    var d := Remove(c.w, w.chkfile.value);
    if d.r.Failure? || policy == AsWritten then d else Outcome(d.w.(chkfile := None), d.r)
  }

  /** One iteration of the inner loop of `run_tests`. */
  function ProcessOne(cfg: Config, sub: Submission, env: Env, policy: Policy, tc: Testcase, w: World): (o: Outcome<()>)
    ensures o.w.result == w.result
    ensures o.w.evals == w.evals ||
      (|o.w.evals| == |w.evals| + 1 && o.w.evals[..|w.evals|] == w.evals &&
       o.w.evals[|w.evals|].submission == sub.pk && o.w.evals[|w.evals|].testcase == tc)
  {
    var t := TestSpec(cfg, sub, env, tc, w);
    if t.r.Failure? then Outcome(t.w, Failure(t.r.error))
    else
      var v :=
        if t.r.value != "RUN" then Outcome(t.w, Success(t.r.value))
        else
          var e := EvaluateSpec(cfg, sub, env, tc, t.w);
          Outcome(e.w, if "STATUS" in e.status then Success(e.status["STATUS"]) else Failure(KeyError("STATUS")));
      if v.r.Failure? then Outcome(v.w, Failure(v.r.error))
      else CleanupSpec(v.w.(evals := v.w.evals + [TestcaseEval(sub.pk, tc, v.r.value)]), policy)
  }

  /** The testcases in test-set-then-testcase order. */
  function Flatten(sets: seq<TestSet>): seq<Testcase> {
    if sets == [] then [] else Flatten(sets[..|sets| - 1]) + sets[|sets| - 1].testcases
  }

  /** Steps applied to the testcases in order, stopping at the first halt. */
  function Fold(step: (Testcase, World) -> Outcome<()>, tcs: seq<Testcase>, w: World): Outcome<()> {
    if tcs == [] then Outcome(w, Success(()))
    else
      var p := Fold(step, tcs[..|tcs| - 1], w);
      if p.r.Failure? then p else step(tcs[|tcs| - 1], p.w)
  }

  function Step(cfg: Config, sub: Submission, env: Env, policy: Policy): (Testcase, World) -> Outcome<()> {
    (tc, w) => ProcessOne(cfg, sub, env, policy, tc, w)
  }

  /** The testcases in order, stopping at the first halt. */
  function Run(cfg: Config, sub: Submission, env: Env, policy: Policy, tcs: seq<Testcase>, w: World): Outcome<()> {
    Fold(Step(cfg, sub, env, policy), tcs, w)
  }

  /** `run_tests`. */
  function RunTestsSpec(cfg: Config, sub: Submission, env: Env, policy: Policy, w: World): Outcome<()> {
    Run(cfg, sub, env, policy, Flatten(sub.problem.testSets), w.(result := "RUN"))
  }

  // ---------------------------------------------------------------------
  // Reference behaviour, stated without the scratch directory.

  /** Whether a testcase gets as far as `diff`: the helper's code classifies
      as RUN and the problem has no custom evaluator. */
  predicate ReachesDiff(cfg: Config, sub: Submission, env: Env, tc: Testcase) {
    && HelperRun(cfg, sub, env, tc).Completed?
    && ProcessReturncode(HelperRun(cfg, sub, env, tc).returncode) == Tag("RUN")
    && sub.problem.custEval == ""
  }

  /** The verdict a testcase should get, or why the runner stops at it:
      the classifier's tag unless it is RUN, otherwise PASSED or FAILED by
      `diff` against the expected output with CRLF rewritten. */
  function ExpectedOutcome(cfg: Config, sub: Submission, env: Env, tc: Testcase): Result<string, Halt> {
    match HelperRun(cfg, sub, env, tc)
    case PopenRaised => Failure(SpawnError)
    case CommunicateRaised => Failure(SystemExit(1))
    case Completed(rc, out, _) =>
      match ProcessReturncode(rc)
      case OsExit(s) => Failure(Exit(s))
      case Tag(t) =>
        if t != "RUN" then Success(t)
        else if sub.problem.custEval != "" then Failure(KeyError("STATUS"))
        else Success(if env.diffEmpty(out, ReplaceCrlf(tc.output)) then "PASSED" else "FAILED")
  }

  datatype Expected = Expected(evals: seq<TestcaseEval>, halt: Option<Halt>)

  /** The records and the halt the testcases should produce. */
  function ExpectedRun(cfg: Config, sub: Submission, env: Env, tcs: seq<Testcase>): Expected {
    if tcs == [] then Expected([], None)
    else
      var p := ExpectedRun(cfg, sub, env, tcs[..|tcs| - 1]);
      if p.halt.Some? then p else ExpectedStep(cfg, sub, env, p, tcs[|tcs| - 1])
  }

  /** One more testcase after records that did not halt. */
  function ExpectedStep(cfg: Config, sub: Submission, env: Env, p: Expected, tc: Testcase): Expected {
    match ExpectedOutcome(cfg, sub, env, tc)
    case Success(v) => Expected(p.evals + [TestcaseEval(sub.pk, tc, v)], None)
    case Failure(h) => Expected(p.evals, Some(h))
  }

  /** None of the submission's scratch files exists. */
  predicate Clean(cfg: Config, sub: Submission, w: World) {
    && ScratchPath(cfg, sub, InExt) !in w.files && ScratchPath(cfg, sub, OutExt) !in w.files
    && ScratchPath(cfg, sub, ErrExt) !in w.files && ScratchPath(cfg, sub, RefExt) !in w.files
    && ScratchPath(cfg, sub, InExt) !in w.modes && ScratchPath(cfg, sub, OutExt) !in w.modes
    && ScratchPath(cfg, sub, ErrExt) !in w.modes && ScratchPath(cfg, sub, RefExt) !in w.modes
  }

  /** The helper run of a testcase. */
  function HelperRun(cfg: Config, sub: Submission, env: Env, tc: Testcase): Execution {
    env.sandbox(HelperArgv(cfg, sub, ScratchPath(cfg, sub, InExt), ScratchPath(cfg, sub, OutExt), ScratchPath(cfg, sub, ErrExt)), tc.input)
  }

  /** What `test` writes into the scratch directory, whatever it held
      before, and what it returns. */
  lemma TestWrites(cfg: Config, sub: Submission, env: Env, tc: Testcase, w: World)
    ensures var t, x := TestSpec(cfg, sub, env, tc, w), HelperRun(cfg, sub, env, tc);
      var inf, outf, errf := ScratchPath(cfg, sub, InExt), ScratchPath(cfg, sub, OutExt), ScratchPath(cfg, sub, ErrExt);
      && t.w.modes == w.modes[outf := SharedMode][errf := SharedMode]
      && t.w.chkfile == w.chkfile && t.w.evals == w.evals && t.w.result == w.result
      && match x
         case PopenRaised => t.r == Failure(SpawnError)
         case CommunicateRaised => t.r == Failure(SystemExit(1))
         case Completed(rc, out, err) =>
           && t.w.files == w.files[inf := tc.input][outf := out][errf := err]
           && t.r == match ProcessReturncode(rc)
                     case OsExit(s) => Failure(Exit(s))
                     case Tag(tag) => Success(tag)
  {
    ScratchPathsDistinct(cfg, sub);
    var inf, outf, errf := ScratchPath(cfg, sub, InExt), ScratchPath(cfg, sub, OutExt), ScratchPath(cfg, sub, ErrExt);
    match HelperRun(cfg, sub, env, tc)
    case PopenRaised =>
    case CommunicateRaised =>
    case Completed(_, out, err) =>
      RewriteTwice(w.files[inf := tc.input], outf, errf, "", "", out, err);
  }

  /** The removals after a testcase whose scratch files were written into a
      clean directory: they restore the directory, unless `chkfile` names a
      reference file this testcase did not write. */
  lemma CleanupRestores(cfg: Config, sub: Submission, base: World, w: World, policy: Policy,
                        hasRef: bool, a: string, b: string, c: string, d: string, mo: int, me: int)
    requires Clean(cfg, sub, base)
    requires w.infile == Some(ScratchPath(cfg, sub, InExt))
    requires w.outfile == Some(ScratchPath(cfg, sub, OutExt))
    requires w.errfile == Some(ScratchPath(cfg, sub, ErrExt))
    requires w.chkfile.None? || w.chkfile == Some(ScratchPath(cfg, sub, RefExt))
    requires hasRef ==> w.chkfile.Some?
    requires var inf, outf, errf, ref := ScratchPath(cfg, sub, InExt), ScratchPath(cfg, sub, OutExt),
                                         ScratchPath(cfg, sub, ErrExt), ScratchPath(cfg, sub, RefExt);
      w.files == if hasRef then base.files[inf := a][outf := b][errf := c][ref := d] else base.files[inf := a][outf := b][errf := c]
    requires w.modes == base.modes[ScratchPath(cfg, sub, OutExt) := mo][ScratchPath(cfg, sub, ErrExt) := me]
    ensures var o := CleanupSpec(w, policy);
      && o.w.evals == w.evals && o.w.result == w.result
      && if w.chkfile.Some? && !hasRef then
           o.r == Failure(OSError(ScratchPath(cfg, sub, RefExt)))
         else
           && o.r.Success? && o.w.files == base.files && o.w.modes == base.modes
           && o.w.chkfile == (if policy == ResetChkfile then None else w.chkfile)
  {
    var ref := ScratchPath(cfg, sub, RefExt);
    RemoveScratch(cfg, sub, base, w, hasRef, a, b, c, d, mo, me);
    if hasRef {
      assert base.files[ref := d] - {ref} == base.files;
    }
  }

  /** The first three removals after a testcase: they leave the reference
      file, if it was written, in an otherwise restored directory. */
  lemma RemoveScratch(cfg: Config, sub: Submission, base: World, w: World,
                      hasRef: bool, a: string, b: string, c: string, d: string, mo: int, me: int)
    requires Clean(cfg, sub, base)
    requires var inf, outf, errf, ref := ScratchPath(cfg, sub, InExt), ScratchPath(cfg, sub, OutExt),
                                         ScratchPath(cfg, sub, ErrExt), ScratchPath(cfg, sub, RefExt);
      w.files == if hasRef then base.files[inf := a][outf := b][errf := c][ref := d] else base.files[inf := a][outf := b][errf := c]
    requires w.modes == base.modes[ScratchPath(cfg, sub, OutExt) := mo][ScratchPath(cfg, sub, ErrExt) := me]
    ensures var x := Remove(w, ScratchPath(cfg, sub, InExt));
      var y := Remove(x.w, ScratchPath(cfg, sub, OutExt));
      var z := Remove(y.w, ScratchPath(cfg, sub, ErrExt));
      && x.r.Success? && y.r.Success? && z.r.Success?
      && z.w == w.(files := if hasRef then base.files[ScratchPath(cfg, sub, RefExt) := d] else base.files, modes := base.modes)
  {
    ScratchPathsDistinct(cfg, sub);
    var inf, outf, errf, ref := ScratchPath(cfg, sub, InExt), ScratchPath(cfg, sub, OutExt),
                                ScratchPath(cfg, sub, ErrExt), ScratchPath(cfg, sub, RefExt);
    if hasRef {
      RemoveThreeAdded(base.files[ref := d], inf, outf, errf, a, b, c);
      assert base.files[inf := a][outf := b][errf := c][ref := d] == base.files[ref := d][inf := a][outf := b][errf := c] by {
        AddedLast(base.files, inf, outf, errf, ref, a, b, c, d);
      }
    } else {
      RemoveThreeAdded(base.files, inf, outf, errf, a, b, c);
    }
    RemoveTwoAdded(base.modes, inf, outf, errf, mo, me);
  }

  /** Writing two different keys twice keeps only the second writes. */
  lemma RewriteTwice<K, V>(m: map<K, V>, a: K, b: K, x: V, y: V, x': V, y': V)
    requires a != b
    ensures m[a := x][b := y][a := x'][b := y'] == m[a := x'][b := y']
  {
  }

  /** Rewriting the first of two written keys. */
  lemma RewriteFirst<K, V>(m: map<K, V>, a: K, b: K, x: V, y: V, x': V)
    requires a != b
    ensures m[a := x][b := y][a := x'] == m[a := x'][b := y]
  {
  }

  /** Removing three fresh keys undoes adding them. */
  lemma RemoveThreeAdded<K, V>(m: map<K, V>, k1: K, k2: K, k3: K, a: V, b: V, c: V)
    requires k1 !in m && k2 !in m && k3 !in m && k1 != k2 && k1 != k3 && k2 != k3
    ensures m[k1 := a][k2 := b][k3 := c] - {k1} - {k2} - {k3} == m
  {
  }

  /** Removing three keys, two of them fresh ones that were added, and one
      absent, leaves the map as it was. */
  lemma RemoveTwoAdded<K, V>(m: map<K, V>, k1: K, k2: K, k3: K, b: V, c: V)
    requires k1 !in m && k2 !in m && k3 !in m && k1 != k2 && k1 != k3 && k2 != k3
    ensures m[k2 := b][k3 := c] - {k1} - {k2} - {k3} == m
  {
  }

  /** A write to a fourth key commutes with three writes to other keys. */
  lemma AddedLast<K, V>(m: map<K, V>, k1: K, k2: K, k3: K, k4: K, a: V, b: V, c: V, d: V)
    requires k4 != k1 && k4 != k2 && k4 != k3
    ensures m[k1 := a][k2 := b][k3 := c][k4 := d] == m[k4 := d][k1 := a][k2 := b][k3 := c]
  {
  }

  /** A testcase whose helper run fails, ends the process or reaches the
      missing `STATUS` key stops the runner before its record is saved. */
  lemma ProcessOneHalts(cfg: Config, sub: Submission, env: Env, policy: Policy, tc: Testcase, w: World)
    requires ExpectedOutcome(cfg, sub, env, tc).Failure?
    ensures var o := ProcessOne(cfg, sub, env, policy, tc, w);
      o.r == Failure(ExpectedOutcome(cfg, sub, env, tc).error) && o.w.evals == w.evals
  {
    TestWrites(cfg, sub, env, tc, w);
  }

  /** A testcase classified other than RUN saves the classifier's tag and
      never writes the reference file. */
  lemma ProcessOneTagged(cfg: Config, sub: Submission, env: Env, policy: Policy, tc: Testcase, w: World, tag: string)
    requires Clean(cfg, sub, w)
    requires w.chkfile.None? || w.chkfile == Some(ScratchPath(cfg, sub, RefExt))
    requires HelperRun(cfg, sub, env, tc).Completed?
    requires ProcessReturncode(HelperRun(cfg, sub, env, tc).returncode) == Tag(tag) && tag != "RUN"
    ensures var o := ProcessOne(cfg, sub, env, policy, tc, w);
      && o.w.evals == w.evals + [TestcaseEval(sub.pk, tc, tag)] && o.w.result == w.result
      && if w.chkfile.Some? then
           o.r == Failure(OSError(ScratchPath(cfg, sub, RefExt)))
         else
           o.r.Success? && o.w.files == w.files && o.w.modes == w.modes && o.w.chkfile.None?
  {
    TestWrites(cfg, sub, env, tc, w);
    var t := TestSpec(cfg, sub, env, tc, w);
    var x := HelperRun(cfg, sub, env, tc);
    var w1 := t.w.(evals := t.w.evals + [TestcaseEval(sub.pk, tc, tag)]);
    CleanupRestores(cfg, sub, w, w1, policy, false, tc.input, x.out, x.err, "", SharedMode, SharedMode);
  }

  /** A testcase that reaches `diff` saves PASSED or FAILED, writes the
      reference file and removes it again. */
  lemma ProcessOneDiffed(cfg: Config, sub: Submission, env: Env, policy: Policy, tc: Testcase, w: World)
    requires Clean(cfg, sub, w)
    requires w.chkfile.None? || w.chkfile == Some(ScratchPath(cfg, sub, RefExt))
    requires ReachesDiff(cfg, sub, env, tc)
    ensures var o, x := ProcessOne(cfg, sub, env, policy, tc, w), HelperRun(cfg, sub, env, tc);
      && o.w.evals == w.evals + [TestcaseEval(sub.pk, tc, if env.diffEmpty(x.out, ReplaceCrlf(tc.output)) then "PASSED" else "FAILED")]
      && o.w.result == w.result
      && o.r.Success? && o.w.files == w.files && o.w.modes == w.modes
      && o.w.chkfile == (if policy == AsWritten then Some(ScratchPath(cfg, sub, RefExt)) else None)
  {
    ScratchPathsDistinct(cfg, sub);
    TestWrites(cfg, sub, env, tc, w);
    var outf, errf := ScratchPath(cfg, sub, OutExt), ScratchPath(cfg, sub, ErrExt);
    var t := TestSpec(cfg, sub, env, tc, w);
    var x := HelperRun(cfg, sub, env, tc);
    var e := EvaluateSpec(cfg, sub, env, tc, t.w);
    var status := e.status["STATUS"];
    var w1 := e.w.(evals := e.w.evals + [TestcaseEval(sub.pk, tc, status)]);
    RewriteFirst(w.modes, outf, errf, SharedMode, SharedMode, PrivateMode);
    CleanupRestores(cfg, sub, w, w1, policy, true, tc.input, x.out, x.err, ReplaceCrlf(tc.output), PrivateMode, SharedMode);
  }

  /** From a clean scratch directory, one testcase saves the record
      `ExpectedOutcome` gives, or stops with its halt before saving. When it
      completes, the scratch directory is as it was. With `chkfile` left set
      by an earlier testcase, a testcase that does not reach `diff` fails on
      the missing reference file after its record is saved. */
  lemma ProcessOneMatchesExpected(cfg: Config, sub: Submission, env: Env, policy: Policy, tc: Testcase, w: World)
    requires Clean(cfg, sub, w)
    requires w.chkfile.None? || w.chkfile == Some(ScratchPath(cfg, sub, RefExt))
    ensures var o, ref := ProcessOne(cfg, sub, env, policy, tc, w), ScratchPath(cfg, sub, RefExt);
      match ExpectedOutcome(cfg, sub, env, tc)
      case Failure(h) => o.r == Failure(h) && o.w.evals == w.evals
      case Success(v) =>
        && o.w.evals == w.evals + [TestcaseEval(sub.pk, tc, v)]
        && o.w.result == w.result
        && if w.chkfile.Some? && !ReachesDiff(cfg, sub, env, tc) then
             o.r == Failure(OSError(ref))
           else
             && o.r.Success? && o.w.files == w.files && o.w.modes == w.modes
             && o.w.chkfile == (if policy == AsWritten && (w.chkfile.Some? || ReachesDiff(cfg, sub, env, tc)) then Some(ref) else None)
  {
    var x := HelperRun(cfg, sub, env, tc);
    if ExpectedOutcome(cfg, sub, env, tc).Failure? {
      ProcessOneHalts(cfg, sub, env, policy, tc, w);
    } else if ReachesDiff(cfg, sub, env, tc) {
      ProcessOneDiffed(cfg, sub, env, policy, tc, w);
    } else {
      ProcessOneTagged(cfg, sub, env, policy, tc, w, ProcessReturncode(x.returncode).tag);
    }
  }

  /** Whatever the scratch directory holds, one testcase saves the record
      `ExpectedOutcome` gives, or stops with its halt before saving. A
      testcase that saves its record then completes or stops on the missing
      reference file, and `chkfile` can only name the reference file. */
  lemma ProcessOneRecords(cfg: Config, sub: Submission, env: Env, policy: Policy, tc: Testcase, w: World)
    requires w.chkfile.None? || w.chkfile == Some(ScratchPath(cfg, sub, RefExt))
    ensures var o, ref := ProcessOne(cfg, sub, env, policy, tc, w), ScratchPath(cfg, sub, RefExt);
      && o.w.result == w.result
      && (o.w.chkfile.None? || o.w.chkfile == Some(ref))
      && match ExpectedOutcome(cfg, sub, env, tc)
         case Failure(h) => o.r == Failure(h) && o.w.evals == w.evals
         case Success(v) =>
           && o.w.evals == w.evals + [TestcaseEval(sub.pk, tc, v)]
           && (o.r.Success? || o.r == Failure(OSError(ref)))
  {
    var ref := ScratchPath(cfg, sub, RefExt);
    if ExpectedOutcome(cfg, sub, env, tc).Failure? {
      ProcessOneHalts(cfg, sub, env, policy, tc, w);
    } else {
      var t := TestSpec(cfg, sub, env, tc, w);
      var rec := TestcaseEval(sub.pk, tc, ExpectedOutcome(cfg, sub, env, tc).value);
      TestWrites(cfg, sub, env, tc, w);
      if t.r.value != "RUN" {
        CleanupKeepsRecords(cfg, sub, t.w.(evals := w.evals + [rec]), policy);
      } else {
        var e := EvaluateSpec(cfg, sub, env, tc, t.w);
        ScratchPathsDistinct(cfg, sub);
        CleanupKeepsRecords(cfg, sub, e.w.(evals := w.evals + [rec]), policy);
      }
    }
  }

  /** The removals after a testcase whose input, output and error files
      exist: they complete, or stop on a missing reference file. */
  lemma CleanupKeepsRecords(cfg: Config, sub: Submission, w: World, policy: Policy)
    requires w.infile == Some(ScratchPath(cfg, sub, InExt)) && w.infile.value in w.files
    requires w.outfile == Some(ScratchPath(cfg, sub, OutExt)) && w.outfile.value in w.files
    requires w.errfile == Some(ScratchPath(cfg, sub, ErrExt)) && w.errfile.value in w.files
    requires w.chkfile.None? || w.chkfile == Some(ScratchPath(cfg, sub, RefExt))
    ensures var o := CleanupSpec(w, policy);
      && o.w.evals == w.evals && o.w.result == w.result
      && (o.r.Success? || o.r == Failure(OSError(ScratchPath(cfg, sub, RefExt))))
      && (o.w.chkfile.None? || o.w.chkfile == Some(ScratchPath(cfg, sub, RefExt)))
  {
    ScratchPathsDistinct(cfg, sub);
  }

  /** Once a testcase stops the runner, later testcases change nothing. */
  lemma {:induction false} FoldHaltSticks(step: (Testcase, World) -> Outcome<()>, tcs: seq<Testcase>, n: nat, w: World)
    requires n <= |tcs|
    requires Fold(step, tcs[..n], w).r.Failure?
    ensures Fold(step, tcs, w) == Fold(step, tcs[..n], w)
    decreases |tcs| - n
  {
    if n < |tcs| {
      var front := tcs[..|tcs| - 1];
      assert front[..n] == tcs[..n];
      FoldHaltSticks(step, front, n, w);
    } else {
      assert tcs[..n] == tcs;
    }
  }

  /** Running one more testcase is one more step after the others. */
  lemma FoldSnoc(step: (Testcase, World) -> Outcome<()>, tcs: seq<Testcase>, tc: Testcase, w: World)
    ensures var p := Fold(step, tcs, w);
      Fold(step, tcs + [tc], w) == if p.r.Failure? then p else step(tc, p.w)
  {
    assert (tcs + [tc])[..|tcs|] == tcs;
  }

  lemma RunSnoc(cfg: Config, sub: Submission, env: Env, policy: Policy, tcs: seq<Testcase>, tc: Testcase, w: World)
    ensures var p := Run(cfg, sub, env, policy, tcs, w);
      Run(cfg, sub, env, policy, tcs + [tc], w) == if p.r.Failure? then p else ProcessOne(cfg, sub, env, policy, tc, p.w)
  {
    FoldSnoc(Step(cfg, sub, env, policy), tcs, tc, w);
  }

  /** Every step leaves the submission's result alone. */
  lemma {:induction false} RunKeepsResult(cfg: Config, sub: Submission, env: Env, policy: Policy, tcs: seq<Testcase>, w: World)
    ensures Run(cfg, sub, env, policy, tcs, w).w.result == w.result
    ensures w.evals <= Run(cfg, sub, env, policy, tcs, w).w.evals
  {
    if tcs != [] {
      RunKeepsResult(cfg, sub, env, policy, tcs[..|tcs| - 1], w);
    }
  }

  /** `run_tests` sets the submission's result to RUN before the first
      testcase, and it is still RUN when the runner finishes or stops; the
      records saved before are kept. */
  lemma RunTestsSetsRun(cfg: Config, sub: Submission, env: Env, policy: Policy, w: World)
    ensures RunTestsSpec(cfg, sub, env, policy, w).w.result == "RUN"
    ensures w.evals <= RunTestsSpec(cfg, sub, env, policy, w).w.evals
  {
    RunKeepsResult(cfg, sub, env, policy, Flatten(sub.problem.testSets), w.(result := "RUN"));
  }

  /** With `chkfile` reset after each removal, the runner saves exactly the
      records `ExpectedRun` lists, one per testcase in order, stops exactly
      where it says, and when it finishes the scratch directory is as it was. */
  lemma {:induction false} CorrectedRunMatchesExpected(cfg: Config, sub: Submission, env: Env, tcs: seq<Testcase>, w: World)
    requires Clean(cfg, sub, w) && w.chkfile.None?
    ensures var o, e := Run(cfg, sub, env, ResetChkfile, tcs, w), ExpectedRun(cfg, sub, env, tcs);
      && o.w.evals == w.evals + e.evals
      && (o.r.Failure? <==> e.halt.Some?)
      && (e.halt.Some? ==> o.r.error == e.halt.value)
      && (o.r.Success? ==> o.w.files == w.files && o.w.modes == w.modes && o.w.chkfile.None?)
  {
    if tcs != [] {
      var front, tc := tcs[..|tcs| - 1], tcs[|tcs| - 1];
      CorrectedRunMatchesExpected(cfg, sub, env, front, w);
      var p := Run(cfg, sub, env, ResetChkfile, front, w);
      if p.r.Success? {
        ProcessOneMatchesExpected(cfg, sub, env, ResetChkfile, tc, p.w);
      }
    }
  }

  /** Under the corrected policy every saved record carries the submission
      and a testcase in order, and when no testcase stops the runner there is
      one record per testcase, with the verdict `ExpectedOutcome` gives. */
  lemma ExpectedRunRecords(cfg: Config, sub: Submission, env: Env, tcs: seq<Testcase>)
    ensures var e := ExpectedRun(cfg, sub, env, tcs);
      && |e.evals| <= |tcs|
      && (e.halt.None? ==> |e.evals| == |tcs|)
      && (e.halt.None? <==> forall k :: 0 <= k < |tcs| ==> ExpectedOutcome(cfg, sub, env, tcs[k]).Success?)
      && forall k :: 0 <= k < |e.evals| ==>
           && e.evals[k].submission == sub.pk && e.evals[k].testcase == tcs[k]
           && ExpectedOutcome(cfg, sub, env, tcs[k]) == Success(e.evals[k].passStatus)
  {
    ExpectedRunCount(cfg, sub, env, tcs);
    ExpectedRunVerdicts(cfg, sub, env, tcs);
  }

  /** How many records `ExpectedRun` lists, and when it halts. */
  lemma {:induction false} ExpectedRunCount(cfg: Config, sub: Submission, env: Env, tcs: seq<Testcase>)
    ensures var e := ExpectedRun(cfg, sub, env, tcs);
      && |e.evals| <= |tcs|
      && (e.halt.None? ==> |e.evals| == |tcs|)
      && (e.halt.None? <==> forall k :: 0 <= k < |tcs| ==> ExpectedOutcome(cfg, sub, env, tcs[k]).Success?)
  {
    if tcs != [] {
      var front, tc := tcs[..|tcs| - 1], tcs[|tcs| - 1];
      ExpectedRunCount(cfg, sub, env, front);
      var p := ExpectedRun(cfg, sub, env, front);
      if p.halt.Some? {
        var k :| 0 <= k < |front| && ExpectedOutcome(cfg, sub, env, front[k]).Failure?;
        assert tcs[k] == front[k];
      } else {
        forall k | 0 <= k < |tcs| - 1 ensures ExpectedOutcome(cfg, sub, env, tcs[k]).Success? {
          assert tcs[k] == front[k];
        }
      }
    }
  }

  /** Each record `ExpectedRun` lists carries the submission, the testcase
      at its position and that testcase's verdict. */
  lemma {:induction false} ExpectedRunVerdicts(cfg: Config, sub: Submission, env: Env, tcs: seq<Testcase>)
    ensures var e := ExpectedRun(cfg, sub, env, tcs);
      |e.evals| <= |tcs| &&
      forall k :: 0 <= k < |e.evals| ==>
        && e.evals[k].submission == sub.pk && e.evals[k].testcase == tcs[k]
        && ExpectedOutcome(cfg, sub, env, tcs[k]) == Success(e.evals[k].passStatus)
  {
    if tcs != [] {
      var front := tcs[..|tcs| - 1];
      ExpectedRunVerdicts(cfg, sub, env, front);
      ExpectedRunCount(cfg, sub, env, tcs);
      forall k | 0 <= k < |tcs| - 1 ensures tcs[k] == front[k] { }
    }
  }

  /** Under the corrected policy, when no testcase stops the runner it
      finishes with one record per testcase and the scratch directory as it
      was. */
  lemma CorrectedRunFinishes(cfg: Config, sub: Submission, env: Env, tcs: seq<Testcase>, w: World)
    requires Clean(cfg, sub, w) && w.chkfile.None?
    requires forall k :: 0 <= k < |tcs| ==> ExpectedOutcome(cfg, sub, env, tcs[k]).Success?
    ensures var o := Run(cfg, sub, env, ResetChkfile, tcs, w);
      && o.r.Success? && o.w.evals == w.evals + ExpectedRun(cfg, sub, env, tcs).evals
      && o.w.files == w.files && o.w.modes == w.modes
  {
    ExpectedRunRecords(cfg, sub, env, tcs);
    CorrectedRunMatchesExpected(cfg, sub, env, tcs, w);
  }

  /** Whatever the scratch directory holds and under either policy, the
      runner saves a prefix of the records `ExpectedRun` lists. It saves all
      of them and ends as `ExpectedRun` says, unless it stops on a missing
      reference file. */
  lemma {:induction false} RunRecords(cfg: Config, sub: Submission, env: Env, policy: Policy, tcs: seq<Testcase>, w: World)
    requires w.chkfile.None? || w.chkfile == Some(ScratchPath(cfg, sub, RefExt))
    ensures var o, e := Run(cfg, sub, env, policy, tcs, w), ExpectedRun(cfg, sub, env, tcs);
      && w.evals <= o.w.evals && o.w.evals <= w.evals + e.evals
      && (o.r.Success? ==> e.halt.None? && o.w.evals == w.evals + e.evals)
      && (o.r.Success? ==> o.w.chkfile.None? || o.w.chkfile == Some(ScratchPath(cfg, sub, RefExt)))
      && (o.r.Failure? && o.r.error != OSError(ScratchPath(cfg, sub, RefExt)) ==>
            e.halt == Some(o.r.error) && o.w.evals == w.evals + e.evals)
  {
    if tcs != [] {
      var front, tc := tcs[..|tcs| - 1], tcs[|tcs| - 1];
      RunRecords(cfg, sub, env, policy, front, w);
      var p := Run(cfg, sub, env, policy, front, w);
      var pe, e := ExpectedRun(cfg, sub, env, front), ExpectedRun(cfg, sub, env, tcs);
      assert Run(cfg, sub, env, policy, tcs, w) == if p.r.Failure? then p else ProcessOne(cfg, sub, env, policy, tc, p.w);
      assert e == if pe.halt.Some? then pe else ExpectedStep(cfg, sub, env, pe, tc);
      if p.r.Failure? {
        ExpectedRunGrows(cfg, sub, env, tcs);
        PrefixExtend(w.evals, pe.evals, e.evals, p.w.evals);
      } else {
        RecordsStep(cfg, sub, env, policy, tc, p.w, w.evals, pe);
      }
    }
  }

  /** One more testcase after a run that saved all of `pe`'s records. */
  lemma RecordsStep(cfg: Config, sub: Submission, env: Env, policy: Policy, tc: Testcase, v: World, done: seq<TestcaseEval>, pe: Expected)
    requires v.chkfile.None? || v.chkfile == Some(ScratchPath(cfg, sub, RefExt))
    requires pe.halt.None? && v.evals == done + pe.evals
    ensures var o, e := ProcessOne(cfg, sub, env, policy, tc, v), ExpectedStep(cfg, sub, env, pe, tc);
      && done <= o.w.evals && o.w.evals == done + e.evals
      && (o.r.Success? ==> e.halt.None? && (o.w.chkfile.None? || o.w.chkfile == Some(ScratchPath(cfg, sub, RefExt))))
      && (o.r.Failure? && o.r.error != OSError(ScratchPath(cfg, sub, RefExt)) ==> e.halt == Some(o.r.error))
  {
    ProcessOneRecords(cfg, sub, env, policy, tc, v);
  }

  lemma PrefixExtend<T>(s: seq<T>, x: seq<T>, y: seq<T>, b: seq<T>)
    requires b <= s + x && x <= y
    ensures b <= s + y
  {
    assert s + x == (s + y)[..|s + x|];
  }

  /** `ExpectedRun` of more testcases extends the records of fewer. */
  lemma ExpectedRunGrows(cfg: Config, sub: Submission, env: Env, tcs: seq<Testcase>)
    requires tcs != []
    ensures ExpectedRun(cfg, sub, env, tcs[..|tcs| - 1]).evals <= ExpectedRun(cfg, sub, env, tcs).evals
  {
  }

  /** Whether some testcase reaches `diff`. */
  predicate AnyReachesDiff(cfg: Config, sub: Submission, env: Env, tcs: seq<Testcase>) {
    tcs != [] && (AnyReachesDiff(cfg, sub, env, tcs[..|tcs| - 1]) || ReachesDiff(cfg, sub, env, tcs[|tcs| - 1]))
  }

  /** The records and the halt of the runner as written: those of
      `ExpectedRun`, except that after some testcase has reached `diff`, the
      first later one that saves a record without reaching it stops the
      runner with `OSError` on the reference file. */
  function ExpectedAsWritten(cfg: Config, sub: Submission, env: Env, tcs: seq<Testcase>): Expected {
    if tcs == [] then Expected([], None)
    else
      var front, tc := tcs[..|tcs| - 1], tcs[|tcs| - 1];
      var p := ExpectedAsWritten(cfg, sub, env, front);
      if p.halt.Some? then p else StaleStep(cfg, sub, env, p, AnyReachesDiff(cfg, sub, env, front), tc)
  }

  /** One more testcase as written, `armed` when `chkfile` is already set:
      `ExpectedStep`, except that a testcase that saves its record without
      reaching `diff` then stops on the reference file. */
  function StaleStep(cfg: Config, sub: Submission, env: Env, p: Expected, armed: bool, tc: Testcase): Expected {
    var q := ExpectedStep(cfg, sub, env, p, tc);
    if q.halt.None? && armed && !ReachesDiff(cfg, sub, env, tc)
    then q.(halt := Some(OSError(ScratchPath(cfg, sub, RefExt))))
    else q
  }

  /** From a clean scratch directory, the runner as written saves exactly
      the records `ExpectedAsWritten` lists and stops exactly where it says;
      when it finishes, the directory is as it was and `chkfile` is set
      exactly when some testcase reached `diff`. */
  lemma {:induction false} AsWrittenRunMatchesExpected(cfg: Config, sub: Submission, env: Env, tcs: seq<Testcase>, w: World)
    requires Clean(cfg, sub, w) && w.chkfile.None?
    ensures var o, a := Run(cfg, sub, env, AsWritten, tcs, w), ExpectedAsWritten(cfg, sub, env, tcs);
      && o.w.evals == w.evals + a.evals
      && (o.r.Failure? <==> a.halt.Some?)
      && (a.halt.Some? ==> o.r.error == a.halt.value)
      && (o.r.Success? ==>
            && o.w.files == w.files && o.w.modes == w.modes
            && o.w.chkfile == if AnyReachesDiff(cfg, sub, env, tcs) then Some(ScratchPath(cfg, sub, RefExt)) else None)
  {
    if tcs != [] {
      var front, tc := tcs[..|tcs| - 1], tcs[|tcs| - 1];
      AsWrittenRunMatchesExpected(cfg, sub, env, front, w);
      var p, pa := Run(cfg, sub, env, AsWritten, front, w), ExpectedAsWritten(cfg, sub, env, front);
      var armed := AnyReachesDiff(cfg, sub, env, front);
      assert Run(cfg, sub, env, AsWritten, tcs, w) == if p.r.Failure? then p else ProcessOne(cfg, sub, env, AsWritten, tc, p.w);
      assert ExpectedAsWritten(cfg, sub, env, tcs) == if pa.halt.Some? then pa else StaleStep(cfg, sub, env, pa, armed, tc);
      if p.r.Success? {
        AsWrittenRecordsStep(cfg, sub, env, tc, p.w, w.evals, pa, armed);
      }
    }
  }

  /** One more testcase after an as-written run that completed in a clean
      directory, with `chkfile` set exactly when `armed`. */
  lemma AsWrittenRecordsStep(cfg: Config, sub: Submission, env: Env, tc: Testcase, v: World,
                             done: seq<TestcaseEval>, pa: Expected, armed: bool)
    requires Clean(cfg, sub, v) && v.chkfile == (if armed then Some(ScratchPath(cfg, sub, RefExt)) else None)
    requires pa.halt.None? && v.evals == done + pa.evals
    ensures var o, a := ProcessOne(cfg, sub, env, AsWritten, tc, v), StaleStep(cfg, sub, env, pa, armed, tc);
      && o.w.evals == done + a.evals
      && (o.r.Failure? <==> a.halt.Some?)
      && (a.halt.Some? ==> o.r.error == a.halt.value)
      && (o.r.Success? ==>
            && o.w.files == v.files && o.w.modes == v.modes
            && o.w.chkfile == if armed || ReachesDiff(cfg, sub, env, tc) then Some(ScratchPath(cfg, sub, RefExt)) else None)
  {
    ProcessOneMatchesExpected(cfg, sub, env, AsWritten, tc, v);
  }

  /** The runner as written against the corrected one: its records are a
      prefix of those `ExpectedRun` lists, it ends as `ExpectedRun` says
      unless it stops on the reference file, and it stops there exactly at
      a testcase that saves its record without reaching `diff` after an
      earlier one has reached it. */
  lemma AsWrittenAgainstExpected(cfg: Config, sub: Submission, env: Env, tcs: seq<Testcase>)
    ensures var a, e, ref := ExpectedAsWritten(cfg, sub, env, tcs), ExpectedRun(cfg, sub, env, tcs), ScratchPath(cfg, sub, RefExt);
      && a.evals <= e.evals
      && (a.halt != Some(OSError(ref)) ==> a == e)
      && (a.halt == Some(OSError(ref)) ==>
            var n := |a.evals|;
            && 1 <= n <= |tcs|
            && AnyReachesDiff(cfg, sub, env, tcs[..n - 1])
            && !ReachesDiff(cfg, sub, env, tcs[n - 1])
            && ExpectedOutcome(cfg, sub, env, tcs[n - 1]).Success?)
  {
    AsWrittenPrefix(cfg, sub, env, tcs);
    AsWrittenStalePosition(cfg, sub, env, tcs);
  }

  /** The as-written records are a prefix of the corrected ones, and equal
      to them with the same halt unless the run stops on the reference file. */
  lemma {:induction false} AsWrittenPrefix(cfg: Config, sub: Submission, env: Env, tcs: seq<Testcase>)
    ensures var a, e := ExpectedAsWritten(cfg, sub, env, tcs), ExpectedRun(cfg, sub, env, tcs);
      && a.evals <= e.evals
      && (a.halt != Some(OSError(ScratchPath(cfg, sub, RefExt))) ==> a == e)
  {
    if tcs != [] {
      var front, tc := tcs[..|tcs| - 1], tcs[|tcs| - 1];
      AsWrittenPrefix(cfg, sub, env, front);
      ExpectedRunGrows(cfg, sub, env, tcs);
      var pa, pe := ExpectedAsWritten(cfg, sub, env, front), ExpectedRun(cfg, sub, env, front);
      if pa.halt.None? {
        StaleStepAgainstStep(cfg, sub, env, pe, AnyReachesDiff(cfg, sub, env, front), tc);
      }
    }
  }

  /** Where the as-written run stops on the reference file: at a testcase
      that saves its record without reaching `diff`, after an earlier one has
      reached it. */
  lemma {:induction false} AsWrittenStalePosition(cfg: Config, sub: Submission, env: Env, tcs: seq<Testcase>)
    ensures var a := ExpectedAsWritten(cfg, sub, env, tcs);
      a.halt == Some(OSError(ScratchPath(cfg, sub, RefExt))) ==>
        var n := |a.evals|;
        && 1 <= n <= |tcs|
        && AnyReachesDiff(cfg, sub, env, tcs[..n - 1])
        && !ReachesDiff(cfg, sub, env, tcs[n - 1])
        && ExpectedOutcome(cfg, sub, env, tcs[n - 1]).Success?
  {
    if tcs != [] {
      var front, tc := tcs[..|tcs| - 1], tcs[|tcs| - 1];
      var ref := ScratchPath(cfg, sub, RefExt);
      AsWrittenStalePosition(cfg, sub, env, front);
      var pa := ExpectedAsWritten(cfg, sub, env, front);
      if pa.halt == Some(OSError(ref)) {
        var n := |pa.evals|;
        assert tcs[..n - 1] == front[..n - 1] && tcs[n - 1] == front[n - 1];
      } else if pa.halt.None? {
        var armed := AnyReachesDiff(cfg, sub, env, front);
        var pe := ExpectedRun(cfg, sub, env, front);
        StaleStepAgainstStep(cfg, sub, env, pa, armed, tc);
        if StaleStep(cfg, sub, env, pa, armed, tc).halt == Some(OSError(ref)) {
          AsWrittenPrefix(cfg, sub, env, front);
          ExpectedRunCount(cfg, sub, env, front);
          assert tcs[..|front|] == front;
        }
      }
    }
  }

  /** One as-written step against the corrected one: the same records, and
      the same halt unless it stops on the reference file. */
  lemma StaleStepAgainstStep(cfg: Config, sub: Submission, env: Env, p: Expected, armed: bool, tc: Testcase)
    ensures var q, a, ref := ExpectedStep(cfg, sub, env, p, tc), StaleStep(cfg, sub, env, p, armed, tc), ScratchPath(cfg, sub, RefExt);
      && a.evals == q.evals
      && (a.halt != Some(OSError(ref)) ==> a == q)
      && (a.halt == Some(OSError(ref)) ==>
            && q.halt.None? && armed && !ReachesDiff(cfg, sub, env, tc)
            && ExpectedOutcome(cfg, sub, env, tc).Success? && |q.evals| == |p.evals| + 1)
  {
  }

  /** As written, once a testcase has reached `diff` (so `chkfile` is set),
      the runner can only finish if every later testcase reaches `diff`
      too; `chkfile` keeps naming the reference file throughout. */
  lemma AsWrittenNeedsDiffAfterFirst(cfg: Config, sub: Submission, env: Env, tcs: seq<Testcase>, w: World)
    requires Clean(cfg, sub, w) && w.chkfile == Some(ScratchPath(cfg, sub, RefExt))
    ensures var o := Run(cfg, sub, env, AsWritten, tcs, w);
      o.r.Success? ==>
        && o.w.chkfile == w.chkfile && o.w.files == w.files && o.w.modes == w.modes
        && forall k :: 0 <= k < |tcs| ==> ReachesDiff(cfg, sub, env, tcs[k])
  {
    var step := Step(cfg, sub, env, AsWritten);
    var inv := (v: World) => v.chkfile == w.chkfile && v.files == w.files && v.modes == w.modes;
    var good := (tc: Testcase) => ReachesDiff(cfg, sub, env, tc);
    forall tc, v | inv(v) && step(tc, v).r.Success? ensures inv(step(tc, v).w) && good(tc) {
      AsWrittenStep(cfg, sub, env, tc, v);
    }
    FoldInvariant(step, inv, good, tcs, w);
  }

  /** A property of the world that every completed step keeps, and that
      holds of every testcase a step completes on, holds at the end of a
      run that completes. */
  lemma {:induction false} FoldInvariant(step: (Testcase, World) -> Outcome<()>, inv: World -> bool, good: Testcase -> bool,
                                         tcs: seq<Testcase>, w: World)
    requires inv(w)
    requires forall tc, v :: inv(v) && step(tc, v).r.Success? ==> inv(step(tc, v).w) && good(tc)
    ensures Fold(step, tcs, w).r.Success? ==> inv(Fold(step, tcs, w).w) && forall k :: 0 <= k < |tcs| ==> good(tcs[k])
  {
    if tcs != [] {
      var front := tcs[..|tcs| - 1];
      FoldInvariant(step, inv, good, front, w);
      forall k | 0 <= k < |tcs| - 1 ensures tcs[k] == front[k] { }
    }
  }

  /** One testcase after `chkfile` is set: it completes only by reaching
      `diff`, and then leaves the scratch directory and `chkfile` as they were. */
  lemma AsWrittenStep(cfg: Config, sub: Submission, env: Env, tc: Testcase, w: World)
    requires Clean(cfg, sub, w) && w.chkfile == Some(ScratchPath(cfg, sub, RefExt))
    ensures var q := ProcessOne(cfg, sub, env, AsWritten, tc, w);
      q.r.Success? ==>
        q.w.chkfile == w.chkfile && q.w.files == w.files && q.w.modes == w.modes && ReachesDiff(cfg, sub, env, tc)
  {
    ProcessOneMatchesExpected(cfg, sub, env, AsWritten, tc, w);
  }

  /** The stale reference file: a testcase that reaches `diff` followed by
      one that does not makes the as-written runner stop with `OSError` on
      the reference file after saving both records. (The corrected runner
      finishes on the same testcases: `CorrectedRunFinishes`.) */
  lemma StaleReferenceFile(cfg: Config, sub: Submission, env: Env, first: Testcase, second: Testcase, w: World)
    requires Clean(cfg, sub, w) && w.chkfile.None?
    requires ReachesDiff(cfg, sub, env, first)
    requires ExpectedOutcome(cfg, sub, env, second).Success? && !ReachesDiff(cfg, sub, env, second)
    ensures var o := Run(cfg, sub, env, AsWritten, [first, second], w);
      && o.r == Failure(OSError(ScratchPath(cfg, sub, RefExt)))
      && o.w.evals == w.evals + ExpectedRun(cfg, sub, env, [first, second]).evals
  {
    var p := ProcessOne(cfg, sub, env, AsWritten, first, w);
    var rec1 := TestcaseEval(sub.pk, first, ExpectedOutcome(cfg, sub, env, first).value);
    var rec2 := TestcaseEval(sub.pk, second, ExpectedOutcome(cfg, sub, env, second).value);
    StaleFirst(cfg, sub, env, first, w);
    StaleSecond(cfg, sub, env, second, p.w);
    FoldPair(Step(cfg, sub, env, AsWritten), first, second, w);
    ExpectedRunPair(cfg, sub, env, first, second);
    AppendTwo(w.evals, rec1, rec2);
  }

  lemma AppendTwo(s: seq<TestcaseEval>, a: TestcaseEval, b: TestcaseEval)
    ensures s + [a] + [b] == s + [a, b]
  {
  }

  /** The first testcase of `StaleReferenceFile` completes and leaves
      `chkfile` set with the scratch directory clean. */
  lemma StaleFirst(cfg: Config, sub: Submission, env: Env, first: Testcase, w: World)
    requires Clean(cfg, sub, w) && w.chkfile.None?
    requires ReachesDiff(cfg, sub, env, first)
    ensures var p := ProcessOne(cfg, sub, env, AsWritten, first, w);
      && p.r.Success? && Clean(cfg, sub, p.w) && p.w.chkfile == Some(ScratchPath(cfg, sub, RefExt))
      && p.w.evals == w.evals + [TestcaseEval(sub.pk, first, ExpectedOutcome(cfg, sub, env, first).value)]
  {
    ProcessOneMatchesExpected(cfg, sub, env, AsWritten, first, w);
  }

  /** The second testcase of `StaleReferenceFile` saves its record and then
      fails on the reference file. */
  lemma StaleSecond(cfg: Config, sub: Submission, env: Env, second: Testcase, w: World)
    requires Clean(cfg, sub, w) && w.chkfile == Some(ScratchPath(cfg, sub, RefExt))
    requires ExpectedOutcome(cfg, sub, env, second).Success? && !ReachesDiff(cfg, sub, env, second)
    ensures var q := ProcessOne(cfg, sub, env, AsWritten, second, w);
      && q.r == Failure(OSError(ScratchPath(cfg, sub, RefExt)))
      && q.w.evals == w.evals + [TestcaseEval(sub.pk, second, ExpectedOutcome(cfg, sub, env, second).value)]
  {
    ProcessOneMatchesExpected(cfg, sub, env, AsWritten, second, w);
  }

  /** Two testcases run one after the other; the second runs only if the
      first completes. */
  lemma FoldPair(step: (Testcase, World) -> Outcome<()>, first: Testcase, second: Testcase, w: World)
    ensures var p := step(first, w);
      Fold(step, [first, second], w) == if p.r.Failure? then p else step(second, p.w)
  {
    FoldSnoc(step, [], first, w);
    FoldSnoc(step, [first], second, w);
    assert [] + [first] == [first] && [first] + [second] == [first, second];
  }

  lemma ExpectedRunPair(cfg: Config, sub: Submission, env: Env, first: Testcase, second: Testcase)
    requires ExpectedOutcome(cfg, sub, env, first).Success? && ExpectedOutcome(cfg, sub, env, second).Success?
    ensures ExpectedRun(cfg, sub, env, [first, second]).evals ==
      [TestcaseEval(sub.pk, first, ExpectedOutcome(cfg, sub, env, first).value),
       TestcaseEval(sub.pk, second, ExpectedOutcome(cfg, sub, env, second).value)]
  {
    assert [first, second][..1] == [first];
    assert [first][..0] == [];
    var rec := TestcaseEval(sub.pk, first, ExpectedOutcome(cfg, sub, env, first).value);
    assert ExpectedRun(cfg, sub, env, []) == Expected([], None);
    assert [] + [rec] == [rec];
    assert ExpectedRun(cfg, sub, env, [first]) == Expected([rec], None);
  }

  /** The runner object: its four path fields, which `test` and `evaluate`
      assign, and the state it acts on, that is the scratch directory, the
      saved records and the submission's result. `policy` selects the
      source's cleanup (`AsWritten`) or the corrected one. */
  class TestsRunner {
    const config: Config
    const submission: Submission
    const policy: Policy
    var infile: Option<string>
    var outfile: Option<string>
    var errfile: Option<string>
    var chkfile: Option<string>
    var files: map<string, string>
    var modes: map<string, int>
    var evals: seq<TestcaseEval>
    var result: string

    function Snapshot(): World
      reads this
    {
      World(infile, outfile, errfile, chkfile, files, modes, evals, result)
    }

    /** `__init__`: no scratch path is set yet. */
    constructor (config: Config, submission: Submission, policy: Policy, world: World)
      ensures this.config == config && this.submission == submission && this.policy == policy
      ensures Snapshot() == world.(infile := None, outfile := None, errfile := None, chkfile := None)
    {
      this.config := config;
      this.submission := submission;
      this.policy := policy;
      infile, outfile, errfile, chkfile := None, None, None, None;
      files, modes, evals, result := world.files, world.modes, world.evals, world.result;
    }

    method RemoveFile(path: string) returns (r: Result<(), Halt>)
      modifies this
      ensures Outcome(Snapshot(), r) == Remove(old(Snapshot()), path)
    {
      if path !in files {
        return Failure(OSError(path));
      }
      files := files - {path};
      modes := modes - {path};
      r := Success(());
    }

    /** `test`. */
    method Test(tc: Testcase, env: Env) returns (r: Result<string, Halt>)
      modifies this
      ensures Outcome(Snapshot(), r) == TestSpec(config, submission, env, tc, old(Snapshot()))
    {
      var inf, outf, errf := ScratchPath(config, submission, InExt), ScratchPath(config, submission, OutExt),
                             ScratchPath(config, submission, ErrExt);
      infile := Some(inf);
      files := files[inf := tc.input];
      outfile := Some(outf);
      files := files[outf := ""];
      errfile := Some(errf);
      files := files[errf := ""];
      modes := modes[outf := SharedMode];
      modes := modes[errf := SharedMode];
      var execution := env.sandbox(HelperArgv(config, submission, inf, outf, errf), tc.input);
      match execution
      case PopenRaised =>
        r := Failure(SpawnError);
      case CommunicateRaised =>
        r := Failure(SystemExit(1));
      case Completed(rc, out, err) =>
        files := files[outf := out][errf := err];
        var retval := ProcessReturncode(rc);
        if retval.OsExit? {
          r := Failure(Exit(retval.status));
        } else {
          r := Success(retval.tag);
        }
    }

    /** `evaluate`. */
    method Evaluate(tc: Testcase, env: Env) returns (status: map<string, string>)
      requires outfile.Some? && outfile.value in files
      modifies this
      ensures Evaluated(Snapshot(), status) == EvaluateSpec(config, submission, env, tc, old(Snapshot()))
    {
      status := map[];
      if submission.problem.custEval == "" {
        var ref := ScratchPath(config, submission, RefExt);
        chkfile := Some(ref);
        files := files[ref := ReplaceCrlf(tc.output)];
        modes := modes[outfile.value := PrivateMode];
        var same := env.diffEmpty(files[outfile.value], files[ref]);
        status := status["STATUS" := if same then "PASSED" else "FAILED"];
      }
    }

    /** The removals at the end of an iteration of `run_tests`. */
    method Cleanup() returns (r: Result<(), Halt>)
      requires infile.Some? && outfile.Some? && errfile.Some?
      modifies this
      ensures Outcome(Snapshot(), r) == CleanupSpec(old(Snapshot()), policy)
    {
      r := RemoveFile(infile.value);
      if r.Failure? { return; }
      r := RemoveFile(outfile.value);
      if r.Failure? { return; }
      r := RemoveFile(errfile.value);
      if r.Failure? || chkfile.None? { return; }
      r := RemoveFile(chkfile.value);
      if r.Success? && policy == ResetChkfile {
        chkfile := None;
      }
    }

    /** The body of the inner loop of `run_tests`: run the testcase, record
        the tag or the evaluated verdict, remove the scratch files. */
    method ProcessTestcase(tc: Testcase, env: Env) returns (r: Result<(), Halt>)
      modifies this
      ensures Outcome(Snapshot(), r) == ProcessOne(config, submission, env, policy, tc, old(Snapshot()))
    {
      var status := Test(tc, env);
      if status.Failure? {
        return Failure(status.error);
      }
      var verdict := status.value;
      if verdict == "RUN" {
        var testStatus := Evaluate(tc, env);
        if "STATUS" !in testStatus {
          return Failure(KeyError("STATUS"));
        }
        verdict := testStatus["STATUS"];
      }
      evals := evals + [TestcaseEval(submission.pk, tc, verdict)];
      r := Cleanup();
    }

    /** `run_tests`: the testcases of each test set in turn, until one of them
        stops the runner. */
    method RunTests(env: Env) returns (r: Result<(), Halt>)
      modifies this
      ensures Outcome(Snapshot(), r) == RunTestsSpec(config, submission, env, policy, old(Snapshot()))
    {
      result := "RUN";
      ghost var w0 := Snapshot();
      ghost var step := Step(config, submission, env, policy);
      var sets := submission.problem.testSets;
      var i := 0;
      while i < |sets|
        invariant 0 <= i <= |sets|
        invariant Fold(step, Flatten(sets[..i]), w0).r.Success?
        invariant Fold(step, Flatten(sets[..i]), w0).w == Snapshot()
      {
        var testcases := sets[i].testcases;
        ghost var done := Flatten(sets[..i]);
        var j := 0;
        assert done + testcases[..0] == done;
        while j < |testcases|
          invariant 0 <= j <= |testcases|
          invariant Fold(step, done + testcases[..j], w0).r.Success?
          invariant Fold(step, done + testcases[..j], w0).w == Snapshot()
        {
          ghost var before := Snapshot();
          r := ProcessTestcase(testcases[j], env);
          assert step(testcases[j], before) == Outcome(Snapshot(), r);
          FoldStep(step, done, testcases, j, w0, before, Snapshot(), r);
          if r.Failure? {
            FoldStopsEarly(step, sets, i, j + 1, w0);
            return;
          }
          j := j + 1;
        }
        FlattenNext(sets, i);
        i := i + 1;
      }
      assert sets[..i] == sets;
      r := Success(());
      UnitSuccess(Fold(step, Flatten(sets), w0).r);
    }
  }

  lemma UnitSuccess(r: Result<(), Halt>)
    requires r.Success?
    ensures r == Success(())
  {
    match r.value { case () => }
  }

  /** One more step of the loop over a test set. */
  lemma FoldStep(step: (Testcase, World) -> Outcome<()>, done: seq<Testcase>, tcs: seq<Testcase>, j: nat,
                 w: World, before: World, after: World, r: Result<(), Halt>)
    requires j < |tcs|
    requires Fold(step, done + tcs[..j], w).r.Success? && Fold(step, done + tcs[..j], w).w == before
    requires step(tcs[j], before) == Outcome(after, r)
    ensures Fold(step, done + tcs[..j + 1], w) == Outcome(after, r)
  {
    TakeOneMore(done, tcs, j);
    FoldSnoc(step, done + tcs[..j], tcs[j], w);
  }

  lemma TakeOneMore(done: seq<Testcase>, tcs: seq<Testcase>, j: nat)
    requires j < |tcs|
    ensures done + tcs[..j + 1] == (done + tcs[..j]) + [tcs[j]]
  {
    assert tcs[..j + 1] == tcs[..j] + [tcs[j]];
  }

  lemma FlattenNext(sets: seq<TestSet>, i: nat)
    requires i < |sets|
    ensures Flatten(sets[..i + 1]) == Flatten(sets[..i]) + sets[i].testcases[..|sets[i].testcases|]
  {
    assert sets[..i + 1][..i] == sets[..i];
    assert sets[i].testcases[..|sets[i].testcases|] == sets[i].testcases;
  }

  /** A halt in the middle of test set i is the outcome of the whole run. */
  lemma FoldStopsEarly(step: (Testcase, World) -> Outcome<()>, sets: seq<TestSet>, i: nat, j: nat, w: World)
    requires i < |sets| && j <= |sets[i].testcases|
    requires Fold(step, Flatten(sets[..i]) + sets[i].testcases[..j], w).r.Failure?
    ensures Fold(step, Flatten(sets), w) == Fold(step, Flatten(sets[..i]) + sets[i].testcases[..j], w)
  {
    FlattenPrefix(sets, i, j);
    FoldHaltSticks(step, Flatten(sets), |Flatten(sets[..i])| + j, w);
  }

  /** The testcases of the first i sets followed by the first j of set i
      begin the flattened sequence. */
  lemma {:induction false} FlattenPrefix(sets: seq<TestSet>, i: nat, j: nat)
    requires i < |sets| && j <= |sets[i].testcases|
    ensures |Flatten(sets[..i])| + j <= |Flatten(sets)|
    ensures Flatten(sets)[..|Flatten(sets[..i])| + j] == Flatten(sets[..i]) + sets[i].testcases[..j]
    decreases |sets|
  {
    var front := sets[..|sets| - 1];
    if i == |sets| - 1 {
      assert sets[..i] == front;
    } else {
      assert front[..i] == sets[..i] && front[i] == sets[i];
      FlattenPrefix(front, i, j);
    }
  }
}
