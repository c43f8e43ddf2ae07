/** checkInput and printCommandLineError from the program's entry point:
    the command line either names one file to draw, or asks for one of the
    test suites with `test all`, `test white` or `test black`. */
module CommandLine {

  /** Whether the command line is accepted, and whether the usage message
      is printed to the error stream. */
  datatype Verdict = Verdict(ok: bool, usagePrinted: bool)

  /** The suites `test` may name. */
  const Suites: set<string> := {"all", "white", "black"}

  /** checkInput on `argv`, whose length is `argc`. A rejected command line
      prints the usage message unless the check runs under test. An empty
      `argv` (argc 0) passes every check. */
  function CheckInput(argv: seq<string>, testing: bool): (v: Verdict)
    ensures v.ok <==>
      || |argv| == 0
      || |argv| == 2
      || (|argv| == 3 && argv[1] == "test" && argv[2] in Suites)
    ensures v.usagePrinted <==> !v.ok && !testing
  {
    if |argv| == 1 || |argv| > 3 then Reject(testing)
    else if |argv| == 3 && argv[1] != "test" then Reject(testing)
    else if |argv| == 3 && argv[2] != "all" && argv[2] != "white" && argv[2] != "black" then Reject(testing)
    else Verdict(true, false)
  }

  /** printCommandLineError followed by `return 0`: the usage message goes
      to the error stream unless the check runs under test. */
  function Reject(testing: bool): (v: Verdict)
    ensures !v.ok
    ensures v.usagePrinted <==> !testing
  {
    Verdict(false, !testing)
  }

  /** The repository's command-line checks: one argument, four arguments, a
      wrong second word and a wrong suite are rejected; the three suites are
      accepted. Under test nothing is printed. */
  lemma CommandLineSamples(prog: string, x: string, y: string, z: string)
    ensures !CheckInput([prog], true).ok
    ensures !CheckInput([prog, x, y, z], true).ok
    ensures !CheckInput([prog, "testwrong", z], true).ok
    ensures CheckInput([prog, "test", "all"], true).ok
    ensures CheckInput([prog, "test", "white"], true).ok
    ensures CheckInput([prog, "test", "black"], true).ok
    ensures !CheckInput([prog, "test", "testwrong"], true).ok
    ensures !CheckInput([prog], true).usagePrinted && CheckInput([prog], false).usagePrinted
  {
  }
}
