# codechecker judging core in Dafny

A model of the part of codechecker that judges one submission.

- `TestsRunner` (Python) runs the submission against every testcase of its problem. For each testcase it:
  - writes the scratch files;
  - starts the setuid helper;
  - classifies the helper's return code;
  - compares the output with the expected output using `diff -Bb`;
  - saves one `TestcaseEval`;
  - removes the scratch files.
- `setuid_helper` (C) is the helper. It:
  - parses its `name=value` arguments against its table `opts[]`;
  - sets the child's resource limits and a wall-clock alarm;
  - runs `argv[8]`;
  - turns the child's wait status into its own return value.

Modules:

| module | file | models |
|---|---|---|
| `Wrappers` | wrappers.dfy | `Option`, `Result` |
| `Signals` | signals.dfy | the Linux signal numbers (SIGABRT 6, SIGFPE 8, SIGKILL 9, SIGSEGV 11, SIGALRM 14, SIGXCPU 24, SIGXFSZ 25) |
| `Classifier` | classifier.dfy | `process_returncode` |
| `PyString` | pystring.dfy | `str(n)` / `"%d" % n`, and `s.replace('\r\n', '\n')` |
| `CString` | cstring.dfy | `strtok(…, "=")`, `strncmp` and glibc `atoi` (a clamping `strtol` followed by a truncation to 32 bits) |
| `SetuidHelper` | setuid_helper.dfy | the argument loop, as a method over `array<string>` that `strtok` cuts in place; the limit arithmetic; the wait-status macros |
| `Runner` | tests_runner.dfy | `test`, `evaluate`, the clean-up and `run_tests` |
| `Judging` | judging.dfy | the two halves together |

How `Runner` is built:
- It has value-level functions over a `World`: the four path fields, the scratch directory (contents and modes), the saved records and the submission's result.
- It has the class `TestsRunner`. Its methods perform the same steps on their fields, and each method's `ensures` ties it to the matching function.
- The helper run and `diff` are parameters of type `Env`.
- Exceptions and process exits are a `Halt` value.
- Every string is a byte string: a Dafny `char` stands for one byte, a C `char` or an element of a Python 2 `str`. So `|v| >= 300` in `Assign` is the byte bound of `strcpy` into a 300-byte buffer, and the debug level is the byte `value[0] - '0'`.
- Undefined behaviour in the helper is a `Fault` or `LimitFault` value. Examples: NULL pointers from `strtok`, `strcpy` past the 300-byte buffers, signed overflow, and reading an option no argument set.

Behaviour worth noting:
- Removing a scratch file that does not exist raises `OSError` and stops the runner; clean-up failures are fatal (TestsRunner.py:43-47).
- A testcase that stops the runner leaves its scratch files behind.
- The sentinel 111 ends the runner through `os._exit(0)`, with exit status 0.
- A negative return code, meaning the helper itself was killed, is recorded as the empty tag.
- An exception from `Popen` is not caught: it propagates as `SpawnError`. One from `communicate` becomes `sys.exit(1)`.
- The runner passes `--name=value` arguments, which the helper's prefix test never matches (see Findings).

## Model

| member | source | states |
|---|---|---|
| Classifier.ClassifierFollowsTable | codechecker/backend/TestsRunner.py:144-186 | The classifier checks for 111 first (`os._exit(0)`). Then a negative code gives "", 0 gives RUN, a code in the signal table gives its tag (SIGXCPU→TLE, SIGXFSZ→OUTE, SIGSEGV→SEG, SIGFPE→FPE, SIGKILL→KILL, SIGABRT→ABRT), and any other positive code gives RTE. |
| Classifier.ClassifierTotal | codechecker/backend/TestsRunner.py:150-182 | The process ends exactly for 111. Every other code gets a tag from the nine possible ones. The tag is "" exactly for a negative code. 111 is not a signal in the table. |
| Classifier.CodeOfInvertsClassifier | codechecker/backend/TestsRunner.py:156-182 | Every tag except RTE and "" names exactly one return code, and classifying that code gives the tag back. |
| Classifier.ProcessReturncode | codechecker/backend/TestsRunner.py:150-152 | The only way the classifier ends the process is `os._exit` with status 0. |
| PyString.Str | codechecker/backend/TestsRunner.py:55 | `str(n)` is non-empty. It starts with '-' exactly for a negative n, and otherwise it is all digits. |
| PyString.DigitsValueOfDigits | codechecker/backend/TestsRunner.py:80-82 | The digits `"%d"` writes for a natural number read back as that number. |
| PyString.ReplaceCrlfFixesExactlyCrlfFree | codechecker/backend/TestsRunner.py:121-125 | The CRLF rewrite leaves a string unchanged exactly when it has no CR LF. When it has one, the rewrite makes it strictly shorter. |
| PyString.ReplaceCrlfUndoesToCrlf | codechecker/backend/TestsRunner.py:121-125 | For text without CR, writing every line ending as CR LF and then rewriting gives the text back. |
| PyString.ReplaceCrlfNotIdempotent | codechecker/backend/TestsRunner.py:121-125 | The rewrite turns "\r\r\n" into "\r\n", and a second pass gives "\n". |
| CString.StrncmpIsPrefixTest | codechecker/backend/setuid_helper.c:47-53 | `strncmp(name, opt, strlen(opt)) == 0` holds exactly when opt is a prefix of name. |
| CString.SplitNameValue | codechecker/backend/setuid_helper.c:45-46 | The first `strtok` gives NULL exactly for an argument made only of '='. Both tokens are non-empty and contain no '='. There is a value only if there is a name. |
| CString.SplitJoined | codechecker/backend/setuid_helper.c:45-46 | `name=value` followed by anything that starts with '=' splits into that name and that value, so `infile=a=b` gives the value `a`. The argument is cut back to the name. |
| CString.AfterStrtok | codechecker/backend/setuid_helper.c:45 | After `strtok`, the argument reads as a prefix of what it was. |
| CString.Atoi | codechecker/backend/setuid_helper.c:48-50 | `atoi` always gives a value in the 32-bit `int` range. |
| CString.ToInt | codechecker/backend/setuid_helper.c:48-50 | The `long` to `int` conversion is the identity on values that fit an `int`, and its result always fits. |
| CString.DecimalPrefixOfStr | codechecker/backend/setuid_helper.c:48-50 | The sign and digits `strtol` scans in what Python's `"%d"` wrote denote that number, for every integer. This is the value before `strtol` clamps it to the `long` range. |
| CString.AtoiOfStr | codechecker/backend/setuid_helper.c:48-50 | `atoi` reads back every `int`-sized number Python's `"%d"` wrote. |
| SetuidHelper.MatchFromIsPrefixScan | codechecker/backend/setuid_helper.c:47-53 | From entry k of `opts[]` onward, the `else if` chain finds nothing exactly when no remaining option name is a prefix of the name. Whatever it finds is such a prefix. |
| SetuidHelper.OptNamesPrefixFree | codechecker/backend/setuid_helper.c:33-34 | Two option names that are both prefixes of one name are the same option. |
| SetuidHelper.MatchOptionIsPrefixTest | codechecker/backend/setuid_helper.c:47-53 | An argument's name selects option o exactly when o's name is a prefix of it. It selects nothing exactly when no option name is a prefix. |
| SetuidHelper.FirstCharMissesFrom | codechecker/backend/setuid_helper.c:47-53 | A name whose first character starts none of the remaining option names selects nothing. |
| SetuidHelper.UnmatchedArgumentIgnored | codechecker/backend/setuid_helper.c:47-53 | An argument whose name has no option name as a prefix leaves every option variable as it was. |
| SetuidHelper.ApplyArg | codechecker/backend/setuid_helper.c:45-53 | A fault in one turn of the loop names the argument that caused it. |
| SetuidHelper.Assign | codechecker/backend/setuid_helper.c:47-53 | Storing a value faults exactly when a path of 300 or more characters would overflow its buffer. That fault names the argument. |
| SetuidHelper.FailureSticks | codechecker/backend/setuid_helper.c:43-54 | Once the loop hits undefined behaviour, later arguments change nothing. |
| SetuidHelper.FaultIndexWith | codechecker/backend/setuid_helper.c:43-54 | If every step's fault names its argument, the loop's fault names an argument i with 1 ≤ i < n. |
| SetuidHelper.FaultIndex | codechecker/backend/setuid_helper.c:43-54 | The argument loop can only stop at an argument i with 1 ≤ i < argc. |
| SetuidHelper.Tokenised | codechecker/backend/setuid_helper.c:45 | Cutting the arguments in place keeps the vector's length. |
| SetuidHelper.TokeniseOneMore | codechecker/backend/setuid_helper.c:45 | Cutting argument i extends the cut vector by one entry. |
| SetuidHelper.ParseArgs | codechecker/backend/setuid_helper.c:41-54 | The loop over the array, whose turn is `ApplyArg` followed by the cut `strtok` makes in place, yields the option variables `Parsed` gives for the whole vector, or the first fault, at index 1 ≤ i < argc. It leaves `argv` cut by `strtok` up to the argument it stopped at. |
| SetuidHelper.ExecTarget | codechecker/backend/setuid_helper.c:80 | `execvp` is given `argv[8]` whatever the options were. With exactly eight elements (argc == 8) that entry is the NULL that ends the vector. With fewer, the read lies beyond that NULL and is undefined behaviour (`PastArgv(8)`). |
| SetuidHelper.ShiftMiBRange | codechecker/backend/setuid_helper.c:71-77 | `v << 20` on an `int` is defined exactly for 0 ≤ v < 2048, and there it equals v MiB. |
| SetuidHelper.ChildLimitsSpec | codechecker/backend/setuid_helper.c:66-90 | The limits are defined exactly when memlimit, timelimit and maxfilesize were all set, the two size limits are below 2048, and timelimit + 2 fits an `int`. Then: no forks are allowed; memory and file size are the MB values in bytes, with soft equal to hard; soft CPU < hard CPU < alarm holds exactly for a non-negative time limit, and then they are t, t+1 and t+2. |
| SetuidHelper.EncodeStatus | codechecker/backend/setuid_helper.c:94 | A status `wait` stores fits in 16 bits. |
| SetuidHelper.DecodeEncode | codechecker/backend/setuid_helper.c:97-110 | `WIFSIGNALED`, `WTERMSIG`, `WIFEXITED` and `WEXITSTATUS` recover how the child ended, including the core-dump bit. |
| SetuidHelper.HelperReturnByCase | codechecker/backend/setuid_helper.c:97-110 | The helper returns the signal of a signalled child, the exit code of an exited one, and the raw status otherwise. |
| SetuidHelper.ExitCollidesWithSignal | codechecker/backend/setuid_helper.c:97-105 | Exiting with code c (1 ≤ c < 127) and being killed by signal c give the same return value c. |
| Runner.ScratchPathsDistinct | codechecker/backend/TestsRunner.py:55-61 | The `.in`, `.out`, `.err` and `.ref` paths of a submission are four different files. |
| Runner.HelperArgv | codechecker/backend/TestsRunner.py:75-84 | The helper's vector has ten entries, and the helper's own path is `argv[0]`. |
| Runner.Remove | codechecker/backend/TestsRunner.py:43-47 | `os.remove` succeeds exactly when the file exists. Otherwise it raises `OSError` with that path and changes nothing. |
| Runner.TestSpec | codechecker/backend/TestsRunner.py:52-97 | `test` sets `infile`, `outfile` and `errfile` to the submission's paths and creates those files. The input file holds the testcase input. `.out` and `.err` get mode 0o606. It leaves `chkfile`, the records and the result alone. |
| Runner.EvaluateSpec | codechecker/backend/TestsRunner.py:102-141 | The result has a STATUS key exactly when there is no custom evaluator; with one, nothing changes. On the default path, `chkfile` is `.ref` and the file holds the CRLF-rewritten expected output. `.out` becomes 0o600, and STATUS is PASSED exactly when `diff` prints nothing. |
| Runner.CleanupSpec | codechecker/backend/TestsRunner.py:42-47 | The removals keep the saved records and the submission's result. |
| Runner.ProcessOne | codechecker/backend/TestsRunner.py:27-47 | One testcase leaves the result alone. It either saves nothing, or appends one record for this submission and testcase. |
| Runner.TestWrites | codechecker/backend/TestsRunner.py:52-97 | Whatever the scratch directory held, `test` writes the input file, the empty output and error files and their modes. It passes on the helper's return code as classified, or the exception `Popen` or `communicate` raised. |
| Runner.RemoveScratch | codechecker/backend/TestsRunner.py:43-45 | The first three removals undo what `test` created, leaving the reference file if one was written. |
| Runner.CleanupRestores | codechecker/backend/TestsRunner.py:43-47 | Clean-up restores the scratch directory. The exception: `chkfile` names a reference file this testcase did not write, and then it raises `OSError` on that file. |
| Runner.ProcessOneHalts | codechecker/backend/TestsRunner.py:27-40 | Whatever the scratch directory held, a testcase whose expected outcome is a halt stops the runner with that halt and saves no record. |
| Runner.ProcessOneRecords | codechecker/backend/TestsRunner.py:27-47 | Whatever the scratch directory held, one testcase saves exactly the record `ExpectedOutcome` gives, or stops with its halt before saving. After saving, it completes or stops with `OSError` on `.ref`. `chkfile` only ever names `.ref`. |
| Runner.CleanupKeepsRecords | codechecker/backend/TestsRunner.py:42-47 | After `test`, the removals keep the records and the result. They complete, or raise `OSError` on a missing `.ref`. |
| Runner.ProcessOneTagged | codechecker/backend/TestsRunner.py:33-35 | A tag other than RUN is saved unchanged, without calling `evaluate`. The testcase then completes, unless `chkfile` is stale. |
| Runner.ProcessOneDiffed | codechecker/backend/TestsRunner.py:36-47 | A RUN testcase saves PASSED or FAILED according to `diff` on the CRLF-rewritten output, and restores the directory. As written, `chkfile` stays set afterwards. |
| Runner.ProcessOneMatchesExpected | codechecker/backend/TestsRunner.py:27-47 | From a clean directory, one testcase saves exactly the record `ExpectedOutcome` gives, or stops with its halt before saving. |
| Runner.FoldHaltSticks | codechecker/backend/TestsRunner.py:25-47 | Once a testcase stops the runner, later testcases change nothing. |
| Runner.RunKeepsResult | codechecker/backend/TestsRunner.py:25-40 | The loop never changes the submission's result and only appends records. |
| Runner.RunTestsSetsRun | codechecker/backend/TestsRunner.py:20-22 | `run_tests` leaves the result RUN and keeps the records saved before it. |
| Runner.ExpectedRunRecords | codechecker/backend/TestsRunner.py:25-40 | Record k belongs to this submission and to testcase k, in test-set-then-testcase order, and carries that testcase's expected verdict. There is one record per testcase exactly when none halts. |
| Runner.ExpectedRunCount | codechecker/backend/TestsRunner.py:25-40 | There are at most as many records as testcases. When nothing halts there are exactly as many, and nothing halts exactly when every testcase's outcome is a verdict. |
| Runner.ExpectedRunVerdicts | codechecker/backend/TestsRunner.py:27-40 | Record k carries the submission, testcase k and that testcase's verdict. |
| Runner.CorrectedRunMatchesExpected | codechecker/backend/TestsRunner.py:20-47 | With `chkfile` reset, the runner saves exactly the records `ExpectedRun` lists and stops exactly at its halt. When it finishes, the scratch directory is as it was. |
| Runner.RunRecords | codechecker/backend/TestsRunner.py:20-47 | Whatever the scratch directory held, and under either policy, the runner saves a prefix of the records `ExpectedRun` lists. If it finishes, or stops other than with `OSError` on `.ref`, it has saved all of them and ends as `ExpectedRun` says. |
| Runner.RecordsStep | codechecker/backend/TestsRunner.py:27-47 | One more testcase extends the saved records by exactly the next step of `ExpectedRun`, and can only add the `OSError` on `.ref` to its halt. |
| Runner.AsWrittenRunMatchesExpected | codechecker/backend/TestsRunner.py:20-47 | From a clean directory, the runner as written saves exactly the records `ExpectedAsWritten` lists and stops exactly at its halt. That is `ExpectedRun`, except for the `OSError` at the first testcase that saves a record without reaching `diff` after one that reached it. When the runner finishes, the directory is restored and `chkfile` is set exactly when some testcase reached `diff`. |
| Runner.AsWrittenRecordsStep | codechecker/backend/TestsRunner.py:27-47 | One as-written testcase after a completed run does what `StaleStep` says, given whether `chkfile` is set. |
| Runner.AsWrittenAgainstExpected | codechecker/backend/TestsRunner.py:46-47 | The as-written records are a prefix of the corrected ones, and equal to them with the same halt unless the run stops on `.ref`. It stops there exactly at a testcase that saves a verdict without reaching `diff`, when an earlier testcase reached it. |
| Runner.AsWrittenPrefix | codechecker/backend/TestsRunner.py:46-47 | The as-written records are a prefix of those `ExpectedRun` lists, and equal with the same halt unless the run stops on `.ref`. |
| Runner.AsWrittenStalePosition | codechecker/backend/TestsRunner.py:46-47 | The as-written run stops on `.ref` only at a testcase that saves a verdict without reaching `diff`, when an earlier testcase reached it. |
| Runner.StaleStepAgainstStep | codechecker/backend/TestsRunner.py:46-47 | One as-written step saves the same record as the corrected step, and differs only by stopping on `.ref`. That happens when `chkfile` is set and the testcase completes without reaching `diff`. |
| Runner.CorrectedRunFinishes | codechecker/backend/TestsRunner.py:20-47 | With `chkfile` reset and no halting testcase, the runner finishes with one record per testcase and a restored directory. |
| Runner.AsWrittenNeedsDiffAfterFirst | codechecker/backend/TestsRunner.py:46-47 | As written, once `chkfile` is set the runner finishes only if every later testcase reaches `diff`. |
| Runner.AsWrittenStep | codechecker/backend/TestsRunner.py:46-47 | With `chkfile` set, a testcase completes only by reaching `diff`. |
| Runner.StaleReferenceFile | codechecker/backend/TestsRunner.py:46-47 | As written, a testcase that reaches `diff` followed by one that does not stops the runner with `OSError` on `.ref`. It does so after saving both records. |
| Runner.StaleFirst | codechecker/backend/TestsRunner.py:119-125 | A testcase that reaches `diff` leaves `chkfile` set in a clean directory. |
| Runner.StaleSecond | codechecker/backend/TestsRunner.py:46-47 | With `chkfile` set, a testcase that does not reach `diff` saves its record and then raises `OSError`. |
| Runner.FoldPair | codechecker/backend/TestsRunner.py:25-47 | Two testcases run one after the other, and the second runs only if the first completes. |
| Runner.FoldInvariant | codechecker/backend/TestsRunner.py:25-47 | A property of the world that every completed testcase keeps holds after the whole loop completes, and every testcase it ran had the property each step requires. |
| Runner.ExpectedRunPair | codechecker/backend/TestsRunner.py:27-40 | Two testcases that both complete give their two records in order. |
| Runner.TestsRunner.constructor | codechecker/backend/TestsRunner.py:11-15 | A new runner has no scratch path set. |
| Runner.TestsRunner.RemoveFile | codechecker/backend/TestsRunner.py:43-47 | Does what `Remove` states on the runner's directory. |
| Runner.TestsRunner.Test | codechecker/backend/TestsRunner.py:52-97 | Assigns the fields and files as `TestSpec` states and returns its result. |
| Runner.TestsRunner.Evaluate | codechecker/backend/TestsRunner.py:102-141 | Assigns `chkfile`, the files and the modes as `EvaluateSpec` states, and returns its map. |
| Runner.TestsRunner.Cleanup | codechecker/backend/TestsRunner.py:42-47 | Removes the files as `CleanupSpec` states. |
| Runner.TestsRunner.ProcessTestcase | codechecker/backend/TestsRunner.py:27-47 | One iteration of the inner loop, as `ProcessOne` states. |
| Runner.TestsRunner.RunTests | codechecker/backend/TestsRunner.py:20-47 | The nested loops over test sets and testcases, stopping at the first halt, as `RunTestsSpec` states. |
| Runner.FlattenPrefix | codechecker/backend/TestsRunner.py:25-27 | The testcases of the first i sets, followed by the first j of set i, begin the test-set-then-testcase order. |
| Runner.FoldStopsEarly | codechecker/backend/TestsRunner.py:25-47 | A halt inside test set i is the outcome of the whole run. |
| Judging.Returncode | codechecker/backend/TestsRunner.py:88-90 | A helper that returns normally yields a return code between 0 and 255. |
| Judging.ChildVerdictByCase | codechecker/backend/setuid_helper.c:97-110 | An exit with code c is classified as return code c, and a kill by signal s as return code s. A stopped child, whose raw status ends in 0x7f, is RTE. |
| Judging.RunIffCleanExit | codechecker/backend/TestsRunner.py:181-182 | The runner sees RUN exactly when the child exited with code 0. |
| Judging.KilledChildIsKill | codechecker/backend/setuid_helper.c:97-100 | A reaped child killed by SIGKILL is recorded as KILL (TestsRunner.py:171-172). The kernel sends this SIGKILL when the child's CPU time reaches the hard limit `timelimit + 1`. |
| Judging.HelperValue | codechecker/backend/setuid_helper.c:88-110 | The helper's value is indeterminate exactly when the alarm fires during `wait`. `alarm_act` has no `SA_RESTART`, so `wait` fails with EINTR and `status` is never written. |
| Judging.WallClockTimeoutUndetermined | codechecker/backend/setuid_helper.c:88-110 | As written, a child that outlives the `timelimit + 2` alarm gets no determined verdict, while a reaped child gets `ChildVerdict`. |
| Judging.RestartedWaitIsKill | codechecker/backend/setuid_helper.c:88-110 | With `wait` repeated after EINTR, a wall-clock timeout is recorded as KILL. Every reaped ending keeps the verdict the helper as written gives it. |
| Judging.ExitLooksLikeSignal | codechecker/backend/setuid_helper.c:97-105 | Exiting with code c is classified like being killed by signal c, so `exit(11)` reads as SEG. |
| Judging.Exit111IsExecFailure | codechecker/backend/setuid_helper.c:80-84 | A child exiting with 111 cannot be told apart from a failed `execvp`: both end the runner through `os._exit(0)`. |
| Judging.EmptyTagIffHelperKilled | codechecker/backend/TestsRunner.py:154-186 | The empty tag comes exactly from a helper that was itself killed. |
| Judging.RunnerOnReturncode | codechecker/backend/TestsRunner.py:33-35 | A negative return code is recorded as "". The code 111 stops the runner with exit status 0. |
| Judging.IgnoredArgument | codechecker/backend/setuid_helper.c:45-53 | An argument whose first character is neither '=' nor the first character of an option name selects nothing, and `strtok` cuts it at its first '='. |
| Judging.IgnoredArguments | codechecker/backend/setuid_helper.c:43-54 | Arguments that all select nothing leave every option variable unset. |
| Judging.RunnerArgvSetsNoOption | codechecker/backend/TestsRunner.py:75-84 | The runner's vector sets no helper option, so the child reads an uninitialised `infile`. `execvp` is asked to run "--executable". |
| Judging.ShortenedNameMatchesNothing | codechecker/backend/TestsRunner.py:82 | `maxfilesz`, with or without `--`, matches no option name. |
| Judging.ExecutableFlagCut | codechecker/backend/setuid_helper.c:45 | `strtok` cuts `--executable=X` back to `--executable`. |
| Judging.ApplySetting | codechecker/backend/setuid_helper.c:45-53 | `name=value` for an option, with a value that has no '=', stores the value in that option. |
| Judging.LaterSettingWins | codechecker/backend/setuid_helper.c:45-53 | Take two arguments whose names select the same option, the first of them stored. The second then leaves the variables, or the fault, as if the first had not been there. |
| Judging.ParsedSettings | codechecker/backend/setuid_helper.c:43-54 | Arguments that spell out a list of settings store each of them, in order. |
| Judging.IntendedStore | codechecker/backend/setuid_helper.c:47-53 | The seven intended settings, stored in order, set all seven option variables. |
| Judging.IntendedSettingsSpelled | codechecker/backend/setuid_helper.c:37-38 | Arguments 1 to 7 of the corrected vector are `name=value` for the intended settings, and each value is one the helper stores as given. |
| Judging.IntendedSettingsStored | codechecker/backend/setuid_helper.c:47-53 | Storing the intended settings in order gives each option the value the runner meant. `atoi` reads back the limits from their `"%d"`. |
| Judging.IntendedStorePaths | codechecker/backend/setuid_helper.c:47 | The first four intended settings set the debug level and the three paths. |
| Judging.CorrectedArgv | codechecker/backend/setuid_helper.c:37-38 | The corrected vector has the helper's path, the seven settings and the executable: nine entries. |
| Judging.CorrectedArgvRoundTrip | codechecker/backend/setuid_helper.c:41-54 | The corrected vector sets every option to the value the runner meant: the limits are read back by `atoi` and the paths copied whole. `execvp` runs the submission's executable. |
| Judging.ExecutableKept | codechecker/backend/setuid_helper.c:80 | An executable name that selects nothing is neither changed by the parser nor cut by `strtok`. |

## Left out

- `fork`, `setuid`, `freopen`, `setrlimit`, `execvp`, `sigaction`/`alarm`, `wait` and `kill` in the helper are operating-system effects. The model keeps the values passed to them (`PlanChild`, `ChildLimits`, `ExecTarget`), the status decoding, and whether `wait` reaps the child or is interrupted by the alarm (`Waited`).
- `subprocess.Popen`/`communicate` and the shell `diff -Bb` are external processes. They are the parameters `Env.sandbox` and `Env.diffEmpty`, so the whitespace rules of `diff` are not modelled.
- The Django ORM (`TestSet.objects.filter`, `Problem.objects.get`, `save`) is replaced by the submission's test sets as a sequence, and the saved records as a sequence that only grows.
- `Logger`, `print` and the helper's `/tmp/setuid-helper.debug` file are observability only. Reading the helper's `debug` variable when no argument set it is not modelled as a fault.
- `write_to_disk` (misc_utils) is not part of this model. It is taken to create or truncate the file and to keep an existing file's mode.
- The custom-evaluator branch is an empty stub. It is modelled only as returning an empty map, which makes the `STATUS` lookup raise `KeyError`.
- The `--jail` argument, the file-creation mode of new files and the helper's `setuid(1002)` are not modelled.
- Concurrency between submissions is not modelled.
- Runner.HelperArgv: the runner passes `Logger.DEBUG` as the debug level; the model takes it as `Config.debugLevel`.
- Runner.TestsRunner.RunTests: the runner's result field is set to RUN before the loop, but `save()` is not modelled.
- Runner.ProcessOneMatchesExpected: it assumes the submission's four scratch paths are absent at the start (`Clean`), so its restored-directory conclusions do not cover a directory an earlier halt left dirty. For such a start, `ProcessOneRecords` and `RunRecords` state the records and halts.
- Runner.CorrectedRunMatchesExpected: it assumes the submission's four scratch paths are absent at the start (`Clean`), so its restored-directory conclusions do not cover a directory an earlier halt left dirty. For such a start, `ProcessOneRecords` and `RunRecords` state the records and halts.
- Runner.CorrectedRunFinishes: it assumes the submission's four scratch paths are absent at the start (`Clean`), so its restored-directory conclusions do not cover a directory an earlier halt left dirty. For such a start, `ProcessOneRecords` and `RunRecords` state the records and halts.
- Runner.AsWrittenRunMatchesExpected: it assumes the submission's four scratch paths are absent at the start (`Clean`), so its restored-directory conclusions do not cover a directory an earlier halt left dirty. For such a start, `ProcessOneRecords` and `RunRecords` state the records and halts.
- Runner.AsWrittenNeedsDiffAfterFirst: it assumes the submission's four scratch paths are absent at the start (`Clean`), so its restored-directory conclusions do not cover a directory an earlier halt left dirty. For such a start, `ProcessOneRecords` and `RunRecords` state the records and halts.
- Runner.CleanupSpec: its `ensures` states only what the removals keep; what they remove is stated by `CleanupRestores`.
- Runner.ProcessOne: its `ensures` states only the shape of the records; the verdict is stated by `ProcessOneMatchesExpected`.

## Findings

| source | as written | input that shows it | evidently intended | confidence | as-written member | corrected member |
|---|---|---|---|---|---|---|
| codechecker/backend/TestsRunner.py:46-47 | `chkfile` is set by `evaluate` and never reset, so every later clean-up removes `.ref` again | a testcase that passes through `diff`, followed by one the helper reports as TLE: the second clean-up raises `OSError` on the missing `.ref` and the runner stops | remove `.ref` only for the testcase that wrote it, then reset `chkfile` | not executed | Runner.StaleReferenceFile | Runner.CorrectedRunMatchesExpected |
| codechecker/backend/TestsRunner.py:75-84 | the arguments are `--debug=…`, `--infile=…`, …, `--maxfilesz=…`, `--executable=…`, and the helper tests for names starting with `debug`, `infile`, …, `maxfilesize` | any submission: no option is set, the child reopens its streams on uninitialised buffers, and `execvp` runs "--executable" | pass `debug=…`, `infile=…`, …, `maxfilesize=…` and the executable itself as `argv[8]` | not executed | Judging.RunnerArgvSetsNoOption | Judging.CorrectedArgvRoundTrip |
| codechecker/backend/setuid_helper.c:88-94 | `alarm_act` is a zero-initialised global, so the alarm handler is installed without `SA_RESTART`. When the alarm fires during `wait(&status)`, the handler kills the child, `wait` fails with EINTR, and lines 97-110 decode the never-written `status` | a submission that sleeps for more than `timelimit + 2` seconds: sleeping uses no CPU time, so the hard CPU limit `timelimit + 1` cannot end it first | repeat `wait` after EINTR (or set `SA_RESTART`), so that the helper reports the child's SIGKILL and the runner records KILL | not executed | Judging.WallClockTimeoutUndetermined | Judging.RestartedWaitIsKill |
