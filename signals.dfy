/** Linux signal numbers (x86 and ARM) that the judging core refers to. */
module Signals {
  const SIGABRT: int := 6
  const SIGFPE: int := 8
  const SIGKILL: int := 9
  const SIGSEGV: int := 11
  const SIGALRM: int := 14
  const SIGXCPU: int := 24
  const SIGXFSZ: int := 25
}
