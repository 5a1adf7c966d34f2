/**
 * The three toolchain invocations of rerun: `go get` (install), `go test`
 * and `go build`.  Each builds its command line by conditional appends and
 * turns the command's combined output and exit status into an outcome.
 * Running the command is not modelled: its combined stdout/stderr text and
 * whether it exited with an error are inputs (CmdResult).
 */
module Toolchain {
  import opened Base

  /** What running a command produced: its combined output and whether it failed. */
  datatype CmdResult = CmdResult(output: string, runFailed: bool)

  /** The result of `install`: the three named results and what was printed. */
  datatype InstallOutcome = InstallOutcome(
    cmdline: seq<string>,
    installed: bool,
    errorOutput: string,
    failed: bool,          // err != nil
    printed: Option<string>)

  /** The result of `test` or `gobuild`. */
  datatype CheckOutcome = CheckOutcome(
    cmdline: seq<string>,
    passed: bool,
    printed: Option<string>)

  // ---------------------------------------------------------------------
  // Command lines
  // ---------------------------------------------------------------------

  /** `go get [-race] buildpath` */
  function InstallCmd(race: bool, buildpath: string): (cmd: seq<string>)
    ensures |cmd| >= 3 && cmd[..2] == ["go", "get"] && cmd[|cmd| - 1] == buildpath
  {
    ["go", "get"] + (if race then ["-race"] else []) + [buildpath]
  }

  /** `go test [-race] -v buildpath` */
  function TestCmd(race: bool, buildpath: string): (cmd: seq<string>)
    ensures |cmd| >= 4 && cmd[..2] == ["go", "test"] && cmd[|cmd| - 1] == buildpath
    ensures cmd[|cmd| - 2] == "-v"
  {
    ["go", "test"] + (if race then ["-race"] else []) + ["-v", buildpath]
  }

  /** `go build [-tags T] [-race] -v buildpath`; the tags come first, and only when non-empty. */
  function BuildCmd(tags: string, race: bool, buildpath: string): (cmd: seq<string>)
    ensures |cmd| >= 4 && cmd[..2] == ["go", "build"] && cmd[|cmd| - 1] == buildpath
    ensures cmd[|cmd| - 2] == "-v"
    ensures tags != "" ==> cmd[2] == "-tags" && cmd[3] == tags
    ensures race ==> cmd[|cmd| - 3] == "-race" && (tags != "" ==> |cmd| - 3 > 3)
  {
    ["go", "build"]
    + (if tags != "" then ["-tags", tags] else [])
    + (if race then ["-race"] else [])
    + ["-v", buildpath]
  }

  // ---------------------------------------------------------------------
  // Reading a command line back: the inverse of the three builders
  // ---------------------------------------------------------------------

  /** The meaning of a `go` command line: subcommand, flags and target. */
  datatype Invocation = Invocation(
    subcommand: string,
    tags: string,
    race: bool,
    verbose: bool,
    target: string)

  /**
   * Reads `go <sub> <options> <target>`: options are `-tags T`, `-race`
   * and `-v`; the last word is always the target.
   */
  function ParseCommand(cmd: seq<string>): Option<Invocation>
  {
    if |cmd| < 3 || cmd[0] != "go" then None
    else ParseOptions(cmd[2..], Invocation(cmd[1], "", false, false, ""))
  }

  function ParseOptions(rest: seq<string>, acc: Invocation): Option<Invocation>
    decreases |rest|
  {
    if |rest| == 0 then None
    else if |rest| == 1 then Some(acc.(target := rest[0]))
    else if rest[0] == "-tags" && |rest| >= 3 then ParseOptions(rest[2..], acc.(tags := rest[1]))
    else if rest[0] == "-race" then ParseOptions(rest[1..], acc.(race := true))
    else if rest[0] == "-v" then ParseOptions(rest[1..], acc.(verbose := true))
    else None
  }

  /** The install command line says exactly: get, race iff raceDetector, no tags, not verbose. */
  lemma {:induction false} InstallCmdMeaning(race: bool, buildpath: string)
    ensures ParseCommand(InstallCmd(race, buildpath)) == Some(Invocation("get", "", race, false, buildpath))
  {
    var acc := Invocation("get", "", false, false, "");
    if race {
      assert InstallCmd(race, buildpath)[2..] == ["-race", buildpath];
      assert ParseOptions(["-race", buildpath], acc) == ParseOptions([buildpath], acc.(race := true));
    } else {
      assert InstallCmd(race, buildpath)[2..] == [buildpath];
    }
  }

  /** The test command line says exactly: test, race iff raceDetector, no tags, verbose. */
  lemma {:induction false} TestCmdMeaning(race: bool, buildpath: string)
    ensures ParseCommand(TestCmd(race, buildpath)) == Some(Invocation("test", "", race, true, buildpath))
  {
    var acc := Invocation("test", "", false, false, "");
    var v := ["-v", buildpath];
    assert ParseOptions(v, acc.(race := race)) == ParseOptions([buildpath], acc.(race := race, verbose := true));
    if race {
      assert TestCmd(race, buildpath)[2..] == ["-race"] + v;
      assert (["-race"] + v)[1..] == v;
    } else {
      assert TestCmd(race, buildpath)[2..] == v;
    }
  }

  /** The build command line says exactly: build, the given tags, race iff raceDetector, verbose. */
  lemma {:induction false} BuildCmdMeaning(tags: string, race: bool, buildpath: string)
    ensures ParseCommand(BuildCmd(tags, race, buildpath)) == Some(Invocation("build", tags, race, true, buildpath))
  {
    var acc := Invocation("build", "", false, false, "");
    var v := ["-v", buildpath];
    var r := (if race then ["-race"] else []) + v;
    assert ParseOptions(v, acc.(tags := tags, race := race)) == ParseOptions([buildpath], acc.(tags := tags, race := race, verbose := true));
    if race {
      assert r[1..] == v;
      assert ParseOptions(r, acc.(tags := tags)) == ParseOptions(v, acc.(tags := tags, race := true));
    } else {
      assert r == v;
    }
    if tags != "" {
      assert BuildCmd(tags, race, buildpath)[2..] == ["-tags", tags] + r;
      assert (["-tags", tags] + r)[2..] == r;
    } else {
      assert BuildCmd(tags, race, buildpath)[2..] == r;
    }
  }

  // ---------------------------------------------------------------------
  // Outcomes
  // ---------------------------------------------------------------------

  /**
   * `install`: any output at all means failure.  The output is printed only
   * when it differs from the previous error text, and is handed back as the
   * new error text ("" after a clean run).  The named result `installed` is
   * never assigned, so it is always false.
   */
  function Install(race: bool, buildpath: string, lastError: string, res: CmdResult): (r: InstallOutcome)
    ensures r.cmdline == InstallCmd(race, buildpath)
    ensures !r.installed
    ensures r.failed <==> res.output != "" || res.runFailed
    ensures r.errorOutput == res.output
    ensures r.printed.Some? <==> res.output != "" && res.output != lastError
    ensures r.printed.Some? ==> r.printed.value == res.output
  {
    var cmdline := InstallCmd(race, buildpath);
    if |res.output| > 0 then
      InstallOutcome(cmdline, false, res.output,
                     true, if res.output != lastError then Some(res.output) else None)
    else
      InstallOutcome(cmdline, false, "", res.runFailed, None)
  }

  /** `test`: passes iff the command exits cleanly; on failure prints the output and a newline. */
  function Test(race: bool, buildpath: string, res: CmdResult): (r: CheckOutcome)
    ensures r.cmdline == TestCmd(race, buildpath)
    ensures r.passed <==> !res.runFailed
    ensures r.printed.Some? <==> !r.passed
    ensures r.printed.Some? ==> r.printed.value == res.output + "\n"
  {
    var passed := !res.runFailed;
    CheckOutcome(TestCmd(race, buildpath), passed, if !passed then Some(res.output + "\n") else None)
  }

  /** `gobuild`: passes iff the command exits cleanly; on failure prints the output and a newline. */
  function GoBuild(tags: string, race: bool, buildpath: string, res: CmdResult): (r: CheckOutcome)
    ensures r.cmdline == BuildCmd(tags, race, buildpath)
    ensures r.passed <==> !res.runFailed
    ensures r.printed.Some? <==> !r.passed
    ensures r.printed.Some? ==> r.printed.value == res.output + "\n"
  {
    var passed := !res.runFailed;
    CheckOutcome(BuildCmd(tags, race, buildpath), passed, if !passed then Some(res.output + "\n") else None)
  }
}
