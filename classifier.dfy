/** `TestsRunner.process_returncode`: the verdict tag for the return code of
    the setuid helper. */
module Classifier {
  import opened Wrappers
  import opened Signals

  /** The code by which the helper reports that `execvp` failed in its child. */
  const ExecFailed: int := 111

  /** Either the process ends through `os._exit(status)`, or a tag is
      returned. */
  datatype Classified = OsExit(status: int) | Tag(tag: string)

  function ProcessReturncode(returncode: int): (r: Classified)
    ensures r.OsExit? ==> r.status == 0
  {
    if returncode == ExecFailed then OsExit(0)
    else if returncode > 0 then
      if returncode == SIGXCPU then Tag("TLE")
      else if returncode == SIGXFSZ then Tag("OUTE")
      else if returncode == SIGSEGV then Tag("SEG")
      else if returncode == SIGFPE then Tag("FPE")
      else if returncode == SIGKILL then Tag("KILL")
      else if returncode == SIGABRT then Tag("ABRT")
      else Tag("RTE")
    else if returncode == 0 then Tag("RUN")
    else Tag("")
  }

  /** The signals the classifier recognises and their tags. */
  const SignalTags: seq<(int, string)> :=
    [(SIGXCPU, "TLE"), (SIGXFSZ, "OUTE"), (SIGSEGV, "SEG"),
     (SIGFPE, "FPE"), (SIGKILL, "KILL"), (SIGABRT, "ABRT")]

  function Lookup(table: seq<(int, string)>, code: int): Option<string> {
    if table == [] then None
    else if table[0].0 == code then Some(table[0].1)
    else Lookup(table[1..], code)
  }

  /** The tags of all outcomes that `run_tests` can record from the
      classifier. */
  const Tags: set<string> := {"RUN", "TLE", "OUTE", "SEG", "FPE", "KILL", "ABRT", "RTE", ""}

  /** Inverse of the classifier on the tags that name one code. */
  function CodeOf(tag: string): Option<int> {
    if tag == "RUN" then Some(0)
    else if tag == "TLE" then Some(SIGXCPU)
    else if tag == "OUTE" then Some(SIGXFSZ)
    else if tag == "SEG" then Some(SIGSEGV)
    else if tag == "FPE" then Some(SIGFPE)
    else if tag == "KILL" then Some(SIGKILL)
    else if tag == "ABRT" then Some(SIGABRT)
    else None
  }

  /** The classifier agrees with the signal table: the sentinel 111 comes
      first, then the table for positive codes, RTE for every other positive
      code, RUN for 0 and the empty tag for a negative code. */
  lemma ClassifierFollowsTable(returncode: int)
    ensures ProcessReturncode(returncode) ==
      if returncode == ExecFailed then OsExit(0)
      else if returncode < 0 then Tag("")
      else if returncode == 0 then Tag("RUN")
      else match Lookup(SignalTags, returncode)
        case Some(t) => Tag(t)
        case None => Tag("RTE")
  {
    LookupSignalTags(returncode);
  }

  lemma LookupSignalTags(code: int)
    ensures Lookup(SignalTags, code) ==
      if code == SIGXCPU then Some("TLE")
      else if code == SIGXFSZ then Some("OUTE")
      else if code == SIGSEGV then Some("SEG")
      else if code == SIGFPE then Some("FPE")
      else if code == SIGKILL then Some("KILL")
      else if code == SIGABRT then Some("ABRT")
      else None
  {
    var t0 := SignalTags;
    var t1 := [(SIGXFSZ, "OUTE"), (SIGSEGV, "SEG"), (SIGFPE, "FPE"), (SIGKILL, "KILL"), (SIGABRT, "ABRT")];
    var t2 := [(SIGSEGV, "SEG"), (SIGFPE, "FPE"), (SIGKILL, "KILL"), (SIGABRT, "ABRT")];
    var t3 := [(SIGFPE, "FPE"), (SIGKILL, "KILL"), (SIGABRT, "ABRT")];
    var t4 := [(SIGKILL, "KILL"), (SIGABRT, "ABRT")];
    var t5 := [(SIGABRT, "ABRT")];
    assert t0[1..] == t1 && t1[1..] == t2 && t2[1..] == t3 && t3[1..] == t4 && t4[1..] == t5 && t5[1..] == [];
    assert Lookup(t5, code) == if code == SIGABRT then Some("ABRT") else None;
    assert Lookup(t4, code) == if code == SIGKILL then Some("KILL") else Lookup(t5, code);
    assert Lookup(t3, code) == if code == SIGFPE then Some("FPE") else Lookup(t4, code);
    assert Lookup(t2, code) == if code == SIGSEGV then Some("SEG") else Lookup(t3, code);
    assert Lookup(t1, code) == if code == SIGXFSZ then Some("OUTE") else Lookup(t2, code);
    assert Lookup(t0, code) == if code == SIGXCPU then Some("TLE") else Lookup(t1, code);
  }

  /** The classifier is total on the non-negative codes other than 111, and
      it is the sentinel alone that ends the process. */
  lemma ClassifierTotal(returncode: int)
    ensures ProcessReturncode(returncode).OsExit? <==> returncode == ExecFailed
    ensures returncode != ExecFailed ==> ProcessReturncode(returncode).tag in Tags
    ensures returncode != ExecFailed ==> (ProcessReturncode(returncode).tag == "" <==> returncode < 0)
    ensures Lookup(SignalTags, ExecFailed).None?
  {
    LookupSignalTags(ExecFailed);
  }

  /** Every tag other than RTE and the empty tag identifies its return code,
      and classifying that code gives the tag back. */
  lemma CodeOfInvertsClassifier(returncode: int, tag: string)
    ensures ProcessReturncode(returncode) == Tag(tag) && CodeOf(tag).Some? ==> CodeOf(tag).value == returncode
    ensures CodeOf(tag).Some? ==> ProcessReturncode(CodeOf(tag).value) == Tag(tag)
    ensures CodeOf(tag).None? && tag in Tags ==> tag == "RTE" || tag == ""
  {
  }
}
