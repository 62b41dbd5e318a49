/** `setuid_helper.c`: the privileged helper that parses its `name=value`
    arguments, limits its child's resources, runs the submission and turns
    the child's wait status into its own return value. */
module SetuidHelper {
  import opened Wrappers
  import opened CString

  const NoOpts: int := 7
  const MaxPathSize: int := 300

  datatype Opt = Debug | MemLimit | TimeLimit | MaxFileSize | InFile | OutFile | ErrFile

  /** The table `opts[]`, in its order. */
  const Opts: seq<string> := ["debug", "memlimit", "timelimit", "maxfilesize", "infile", "outfile", "errfile"]

  function OptName(o: Opt): (s: string)
    ensures s in Opts
  {
    match o
    case Debug => Opts[0]
    case MemLimit => Opts[1]
    case TimeLimit => Opts[2]
    case MaxFileSize => Opts[3]
    case InFile => Opts[4]
    case OutFile => Opts[5]
    case ErrFile => Opts[6]
  }

  /** The options in the order of `opts[]`. */
  const Order: seq<Opt> := [Debug, MemLimit, TimeLimit, MaxFileSize, InFile, OutFile, ErrFile]

  lemma OrderNamesOpts(k: nat)
    requires k < |Opts|
    ensures k < |Order| && OptName(Order[k]) == Opts[k]
  {
  }

  /** The `if / else if` chain over `opts[]` from entry `k` on: the first
      option whose `strncmp` test succeeds. */
  function MatchFrom(name: string, k: nat): Option<Opt>
    requires k <= |Opts|
    decreases |Opts| - k
  {
    if k == |Opts| then None
    else if Strncmp(name, Opts[k], |Opts[k]|) == 0 then Some(Order[k])
    else MatchFrom(name, k + 1)
  }

  /** The whole chain (lines 47-53). */
  function MatchOption(name: string): Option<Opt> {
    MatchFrom(name, 0)
  }

  /** From entry `k` on, the chain finds an option exactly when a remaining
      name is a prefix of the argument's name, and what it finds is one. */
  lemma {:induction false} MatchFromIsPrefixScan(name: string, k: nat)
    requires '\0' !in name && k <= |Opts|
    ensures MatchFrom(name, k) == None <==> forall j :: k <= j < |Opts| ==> !(Opts[j] <= name)
    ensures MatchFrom(name, k).Some? ==> OptName(MatchFrom(name, k).value) <= name
    decreases |Opts| - k
  {
    if k < |Opts| {
      StrncmpIsPrefixTest(name, Opts[k]);
      OrderNamesOpts(k);
      MatchFromIsPrefixScan(name, k + 1);
    }
  }

  /** Two option names that are both prefixes of one name are the same:
      they already differ in their first two characters. */
  lemma OptNamesPrefixFree(name: string, o1: Opt, o2: Opt)
    requires OptName(o1) <= name && OptName(o2) <= name
    ensures o1 == o2
  {
    var p1, p2 := OptName(o1), OptName(o2);
    assert p1[0] == name[0] == p2[0] && p1[1] == name[1] == p2[1];
  }

  /** A name selects an option exactly when it starts with that option's
      name; no option name is a prefix of another, so the order of the chain
      decides nothing. */
  lemma MatchOptionIsPrefixTest(name: string, o: Opt)
    requires '\0' !in name
    ensures MatchOption(name) == Some(o) <==> OptName(o) <= name
    ensures MatchOption(name) == None <==> forall p :: p in Opts ==> !(p <= name)
  {
    MatchFromIsPrefixScan(name, 0);
    var m := MatchOption(name);
    if OptName(o) <= name {
      var j :| 0 <= j < |Opts| && Opts[j] == OptName(o);
      assert m.Some?;
      OptNamesPrefixFree(name, o, m.value);
    }
    if m == None {
      forall p | p in Opts ensures !(p <= name) {
        var j :| 0 <= j < |Opts| && Opts[j] == p;
      }
    }
  }

  /** A name whose first character starts no remaining option name selects
      nothing, whatever follows it. */
  lemma {:induction false} FirstCharMissesFrom(name: string, k: nat)
    requires name != [] && k <= |Opts|
    requires forall j :: k <= j < |Opts| ==> name[0] != Opts[j][0]
    ensures MatchFrom(name, k) == None
    decreases |Opts| - k
  {
    if k < |Opts| {
      assert CharAt(name, 0) == name[0] && CharAt(Opts[k], 0) == Opts[k][0];
      FirstCharMissesFrom(name, k + 1);
    }
  }

  /** The helper's option variables. `None` is a variable that no argument
      assigned: C leaves it uninitialised. */
  datatype Options = Options(
    debug: Option<int>, memlimit: Option<int>, timelimit: Option<int>, maxfilesize: Option<int>,
    infile: Option<string>, outfile: Option<string>, errfile: Option<string>)

  const Unset: Options := Options(None, None, None, None, None, None, None)

  /** Undefined behaviour at `argv[index]`: in the argument loop, `strncmp`
      on the NULL name of an argument made only of '=', a NULL value used by
      a matched option and a `strcpy` past a 300-byte buffer; at `execvp`, a
      read of `argv[index]` beyond the NULL that ends the vector. */
  datatype Fault = NullName(index: nat) | NullValue(index: nat) | PathOverflow(index: nat) | PastArgv(index: nat)

  /** The effect of one argument on the option variables (lines 45-53). */
  function ApplyArg(o: Options, arg: string, index: nat): (r: Result<Options, Fault>)
    ensures r.Failure? ==> r.error.index == index
  {
    var t := SplitNameValue(arg);
    if t.name.None? then Failure(NullName(index))
    else match MatchOption(t.name.value)
      case None => Success(o)
      case Some(opt) => if t.value.None? then Failure(NullValue(index)) else Assign(o, opt, t.value.value, index)
  }

  /** An argument whose name starts with no option name changes nothing. */
  lemma UnmatchedArgumentIgnored(o: Options, arg: string, index: nat)
    requires '\0' !in arg
    requires SplitNameValue(arg).name.Some?
    requires forall p :: p in Opts ==> !(p <= SplitNameValue(arg).name.value)
    ensures ApplyArg(o, arg, index) == Success(o)
  {
    var name := SplitNameValue(arg).name.value;
    assert '\0' !in name by {
      var k := DelimRun(arg);
      assert name <= arg[k..];
      forall i | 0 <= i < |name| ensures name[i] != '\0' {
        assert name[i] == arg[k + i];
      }
    }
    MatchOptionIsPrefixTest(name, Debug);
  }

  /** The options `strcpy` copies into a 300-byte buffer. */
  predicate IsPath(opt: Opt) {
    opt == InFile || opt == OutFile || opt == ErrFile
  }

  /** What a matched option stores from its (non-NULL) value: `value[0] -
      '0'`, `atoi(value)` or the value itself. */
  function Store(o: Options, opt: Opt, v: string): Options {
    match opt
    case Debug => o.(debug := Some(CharAt(v, 0) as int - '0' as int))
    case MemLimit => o.(memlimit := Some(Atoi(v)))
    case TimeLimit => o.(timelimit := Some(Atoi(v)))
    case MaxFileSize => o.(maxfilesize := Some(Atoi(v)))
    case InFile => o.(infile := Some(v))
    case OutFile => o.(outfile := Some(v))
    case ErrFile => o.(errfile := Some(v))
  }

  /** The assignment a matched option makes; a path of 300 characters or
      more overflows its buffer. */
  function Assign(o: Options, opt: Opt, v: string, index: nat): (r: Result<Options, Fault>)
    ensures r.Failure? <==> IsPath(opt) && |v| >= MaxPathSize
    ensures r.Failure? ==> r.error == PathOverflow(index)
  {
    if IsPath(opt) && |v| >= MaxPathSize then Failure(PathOverflow(index)) else Success(Store(o, opt, v))
  }

  /** The loop over `argv[1..n]` for a given effect of one argument;
      nothing runs after undefined behaviour. */
  function ParseWith(apply: (Options, string, nat) -> Result<Options, Fault>, args: seq<string>, n: nat): Result<Options, Fault>
    requires n <= |args|
  {
    if n <= 1 then Success(Unset)
    else
      var r := ParseWith(apply, args, n - 1);
      if r.Failure? then r else apply(r.value, args[n - 1], n - 1)
  }

  /** The option variables after the loop has seen `argv[1..n]`. */
  function Parsed(args: seq<string>, n: nat): Result<Options, Fault>
    requires n <= |args|
  {
    ParseWith(ApplyArg, args, n)
  }

  lemma {:induction false} FailureSticks(apply: (Options, string, nat) -> Result<Options, Fault>, args: seq<string>, n: nat, m: nat)
    requires n <= m <= |args|
    requires ParseWith(apply, args, n).Failure?
    ensures ParseWith(apply, args, m) == ParseWith(apply, args, n)
    decreases m - n
  {
    if n < m {
      FailureSticks(apply, args, n, m - 1);
    }
  }

  /** A fault names the argument that caused it, when every single step's
      fault does. */
  lemma {:induction false} FaultIndexWith(apply: (Options, string, nat) -> Result<Options, Fault>, args: seq<string>, n: nat)
    requires n <= |args|
    requires forall o, a, i :: apply(o, a, i).Failure? ==> apply(o, a, i).error.index == i
    ensures ParseWith(apply, args, n).Failure? ==> 1 <= ParseWith(apply, args, n).error.index < n
  {
    if n > 1 {
      FaultIndexWith(apply, args, n - 1);
    }
  }

  /** The argument loop stops at argument i, 1 <= i < n, or not at all. */
  lemma FaultIndex(args: seq<string>, n: nat)
    requires n <= |args|
    ensures Parsed(args, n).Failure? ==> 1 <= Parsed(args, n).error.index < n
  {
    FaultIndexWith(ApplyArg, args, n);
  }

  /** One past the last argument the loop tokenised. */
  function Reached(r: Result<Options, Fault>, argc: nat): nat {
    if r.Success? then argc else r.error.index + 1
  }

  /** The argument vector after `strtok` has cut `argv[1..n]` back to their
      names. */
  function Tokenised(args: seq<string>, n: nat): (r: seq<string>)
    ensures |r| == |args|
  {
    seq(|args|, j requires 0 <= j < |args| => if 1 <= j < n then AfterStrtok(args[j]) else args[j])
  }

  lemma TokeniseOneMore(args: seq<string>, i: nat)
    requires 1 <= i < |args|
    ensures Tokenised(args, i)[i := AfterStrtok(args[i])] == Tokenised(args, i + 1)
  {
  }

  /** The argument loop of `main` (lines 41-54). `strtok` cuts every argument
      it tokenises back to its name, in place. The loop stops at the first
      undefined behaviour. */
  method ParseArgs(argv: array<string>) returns (r: Result<Options, Fault>)
    modifies argv
    ensures r == Parsed(old(argv[..]), argv.Length)
    ensures r.Failure? ==> 1 <= r.error.index < argv.Length
    ensures argv[..] == Tokenised(old(argv[..]), Reached(r, argv.Length))
  {
    ghost var args := argv[..];
    assert args == old(argv[..]);
    var options := Unset;
    var i := 1;
    while i < argv.Length
      invariant 1 <= i && (argv.Length == 0 || i <= argv.Length)
      invariant Success(options) == Parsed(args, if argv.Length == 0 then 0 else i)
      invariant argv[..] == Tokenised(args, i)
    {
      var next := ApplyArg(options, argv[i], i);
      TokeniseOneMore(args, i);
      argv[i] := AfterStrtok(argv[i]);
      if next.Failure? {
        r := next;
        assert Parsed(args, i + 1) == r;
        FailureSticks(ApplyArg, args, i + 1, argv.Length);
        assert r == Parsed(args, argv.Length);
        return;
      }
      options := next.value;
      i := i + 1;
    }
    assert argv.Length == 0 || i == argv.Length;
    assert Success(options) == Parsed(args, argv.Length);
    r := Success(options);
  }

  /** The program `execvp` runs: `argv[NO_OPTS + 1]`, whatever options were
      given (line 80). With exactly eight elements that entry is the NULL
      that ends the vector (`None`); with fewer it lies beyond that NULL. */
  function ExecTarget(argv: seq<string>): (p: Result<Option<string>, Fault>)
    ensures p.Failure? <==> |argv| < NoOpts + 1
    ensures p.Failure? ==> p.error == PastArgv(8)
    ensures p == Success(None) <==> |argv| == NoOpts + 1
    ensures p.Success? && p.value.Some? ==> p.value.value == argv[8]
  {
    if |argv| < NoOpts + 1 then Failure(PastArgv(NoOpts + 1))
    else if |argv| == NoOpts + 1 then Success(None)
    else Success(Some(argv[NoOpts + 1]))
  }

  const MiB: int := 0x10_0000
  /** `rlim_t` is a 64-bit unsigned type, the argument of `alarm` a 32-bit
      unsigned one. */
  const RlimModulus: int := 0x1_0000_0000_0000_0000
  const UIntModulus: int := 0x1_0000_0000

  /** What `setrlimit` and `alarm` receive (lines 66-78 and 90). */
  datatype Limits = Limits(
    nproc: int, addressSpace: int, cpuSoft: int, cpuHard: int, fileSize: int, alarmSeconds: int)

  /** Undefined behaviour of the limit arithmetic: reading an option no
      argument assigned, and signed `int` overflow in `<< 20` or `+`. */
  datatype LimitFault = Indeterminate(opt: Opt) | ShiftOverflow(opt: Opt) | AddOverflow(opt: Opt)

  /** `v << 20` on an `int`, defined for a non-negative `v` whose result
      fits. */
  function ShiftMiB(v: int): Option<int> {
    if 0 <= v && v * MiB <= IntMax then Some(v * MiB) else None
  }

  /** Conversion of an `int` to an unsigned type of the given modulus. */
  function ToUnsigned(v: int, modulus: int): int
    requires modulus > 0
  {
    v % modulus
  }

  function ChildLimits(o: Options): Result<Limits, LimitFault> {
    if o.memlimit.None? then Failure(Indeterminate(MemLimit))
    else if o.timelimit.None? then Failure(Indeterminate(TimeLimit))
    else if o.maxfilesize.None? then Failure(Indeterminate(MaxFileSize))
    else
      var m, t, f := o.memlimit.value, o.timelimit.value, o.maxfilesize.value;
      if ShiftMiB(m).None? then Failure(ShiftOverflow(MemLimit))
      else if t + 1 > IntMax then Failure(AddOverflow(TimeLimit))
      else if ShiftMiB(f).None? then Failure(ShiftOverflow(MaxFileSize))
      else if t + 2 > IntMax then Failure(AddOverflow(TimeLimit))
      else Success(Limits(
        nproc := 0,
        addressSpace := ToUnsigned(ShiftMiB(m).value, RlimModulus),
        cpuSoft := ToUnsigned(t, RlimModulus),
        cpuHard := ToUnsigned(t + 1, RlimModulus),
        fileSize := ToUnsigned(ShiftMiB(f).value, RlimModulus),
        alarmSeconds := ToUnsigned(t + 2, UIntModulus)))
  }

  /** What the child is set up with before `execvp`: the files its standard
      streams are reopened on (lines 59-61) and its limits. */
  datatype ChildPlan = ChildPlan(stdin: string, stdout: string, stderr: string, limits: Limits)

  function PlanChild(o: Options): Result<ChildPlan, LimitFault> {
    if o.infile.None? then Failure(Indeterminate(InFile))
    else if o.outfile.None? then Failure(Indeterminate(OutFile))
    else if o.errfile.None? then Failure(Indeterminate(ErrFile))
    else match ChildLimits(o)
      case Failure(f) => Failure(f)
      case Success(l) => Success(ChildPlan(o.infile.value, o.outfile.value, o.errfile.value, l))
  }

  /** `v << 20` is defined exactly for 0 <= v < 2048, where it is v MiB. */
  lemma ShiftMiBRange(v: int)
    ensures ShiftMiB(v).Some? <==> 0 <= v < 2048
    ensures ShiftMiB(v).Some? ==> ShiftMiB(v).value == v * MiB
  {
    if v >= 2048 {
      assert v * MiB >= 2048 * MiB;
    }
  }

  /** The limits are defined exactly when every limit option was given, the
      memory and file-size limits are below 2048 MB and the time limit leaves
      room for `+ 2`. Memory and file size are the MB values in bytes with
      soft == hard, forks are forbidden, and soft CPU < hard CPU < alarm holds
      exactly for a non-negative time limit. */
  lemma ChildLimitsSpec(o: Options)
    requires o.timelimit.Some? ==> IntMin <= o.timelimit.value
    ensures ChildLimits(o).Success? <==>
      o.memlimit.Some? && o.timelimit.Some? && o.maxfilesize.Some? &&
      0 <= o.memlimit.value < 2048 && 0 <= o.maxfilesize.value < 2048 && o.timelimit.value <= IntMax - 2
    ensures ChildLimits(o).Success? ==>
      var l, t := ChildLimits(o).value, o.timelimit.value;
      && l.nproc == 0
      && l.addressSpace == o.memlimit.value * MiB
      && l.fileSize == o.maxfilesize.value * MiB
      && (l.cpuSoft < l.cpuHard < l.alarmSeconds <==> t >= 0)
      && (t >= 0 ==> l.cpuSoft == t && l.cpuHard == t + 1 && l.alarmSeconds == t + 2)
  {
    if o.memlimit.Some? {
      ShiftMiBRange(o.memlimit.value);
    }
    if o.maxfilesize.Some? {
      ShiftMiBRange(o.maxfilesize.value);
    }
  }

  /** The wait-status macros of Linux's `<sys/wait.h>` for a status `wait`
      stores: bits 0-6 hold the terminating signal (0: exited, 0x7f:
      stopped), bit 7 the core-dump flag, bits 8-15 the exit code. */
  function WTermSig(status: int): int {
    status % 0x80
  }

  predicate WIfSignaled(status: int) {
    WTermSig(status) != 0 && WTermSig(status) != 0x7f
  }

  predicate WIfExited(status: int) {
    WTermSig(status) == 0
  }

  function WExitStatus(status: int): int {
    status / 0x100 % 0x100
  }

  /** The helper's return value for the child's wait status (lines 97-110). */
  function HelperReturn(status: int): int {
    if WIfSignaled(status) then WTermSig(status)
    else if WIfExited(status) then WExitStatus(status)
    else status
  }

  /** How a child ended, as the macros tell it apart. */
  datatype WaitStatus = Exited(code: int) | Signalled(signal: int, core: bool) | Other(raw: int)

  predicate WellFormed(w: WaitStatus) {
    match w
    case Exited(c) => 0 <= c < 0x100
    case Signalled(s, _) => 1 <= s < 0x7f
    case Other(raw) => 0 <= raw < 0x10000 && raw % 0x80 == 0x7f
  }

  /** The status word the kernel stores for an ending. */
  function EncodeStatus(w: WaitStatus): (status: int)
    requires WellFormed(w)
    ensures 0 <= status < 0x10000
  {
    match w
    case Exited(c) => c * 0x100
    case Signalled(s, core) => s + (if core then 0x80 else 0)
    case Other(raw) => raw
  }

  function DecodeStatus(status: int): WaitStatus
    requires 0 <= status < 0x10000
  {
    if WIfSignaled(status) then Signalled(WTermSig(status), status / 0x80 % 2 == 1)
    else if WIfExited(status) then Exited(WExitStatus(status))
    else Other(status)
  }

  lemma DecodeEncode(w: WaitStatus)
    requires WellFormed(w)
    ensures DecodeStatus(EncodeStatus(w)) == w
  {
    match w
    case Exited(c) =>
      assert (c * 0x100) % 0x80 == 0;
      assert (c * 0x100) / 0x100 == c;
    case Signalled(s, core) =>
    case Other(raw) =>
  }

  /** The helper returns the signal of a signalled child, the code of an
      exited one and the raw status otherwise. */
  lemma HelperReturnByCase(w: WaitStatus)
    requires WellFormed(w)
    ensures HelperReturn(EncodeStatus(w)) == match w
      case Exited(c) => c
      case Signalled(s, _) => s
      case Other(raw) => raw
  {
    DecodeEncode(w);
  }

  /** A child that exits with code c (1 <= c < 127) is reported exactly like
      one killed by signal c. */
  lemma ExitCollidesWithSignal(c: int)
    requires 1 <= c < 0x7f
    ensures HelperReturn(EncodeStatus(Exited(c))) == HelperReturn(EncodeStatus(Signalled(c, false))) == c
  {
    HelperReturnByCase(Exited(c));
    HelperReturnByCase(Signalled(c, false));
  }
}
