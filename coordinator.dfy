/**
 * The coordination logic of rerun's `rerun`: check that the target is a
 * `main` package, run the initial pass (test, optional build, install,
 * restart request), then, for every changed `.go` file, rebuild the watcher
 * from the current import graph and install again.
 *
 * What the program does is recorded as a trace of Steps.  The results of the
 * toolchain commands and the import graph at each rescan are inputs; the
 * infinite event loop is modelled over the changes observed so far.
 */
module Coordinator {
  import opened Base
  import opened Toolchain
  import opened ImportGraph

  /** The command-line flags. */
  datatype Config = Config(
    doTests: bool,        // --test
    doBuild: bool,        // --build
    neverRun: bool,       // --no-run
    raceDetector: bool,   // --race
    buildTags: string)    // --build-tags

  /** What the coordinator does, in order. */
  datatype Step =
    | Launch(binName: string, binPath: string) // `go run(binName, binPath, args)`: the restart handler is started
    | Exec(cmdline: seq<string>)                // a toolchain command is run
    | Print(text: string)                       // command output shown to the user
    | Restart                                   // `runch <- true`
    | Rescan                                    // the watcher is closed and a new one built

  datatype RerunError = ImportFailed(path: string) | NotMain(name: string)

  /** The toolchain's answers for one round of test, build and install. */
  datatype Outcomes = Outcomes(tests: CmdResult, build: CmdResult, install: CmdResult)

  /** One filesystem event: the changed file, the import graph when rescanning, and the toolchain's answers. */
  datatype Change = Change(name: string, graph: Graph, results: Outcomes)

  /** The steps of a pass and the error text it hands to the next install. */
  datatype Pass = Pass(steps: seq<Step>, errorOutput: string)

  /**
   * Which event loop: the code as written, where a change never gets past
   * install (see OnChangeAsWritten), or the evidently intended one, where a
   * clean install goes on to test, build and restart (OnChange).
   */
  datatype Variant = AsWritten | Intended

  // ---------------------------------------------------------------------
  // Setting up
  // ---------------------------------------------------------------------

  /** The target must resolve and be a `main` package. */
  function CheckPackage(graph: Graph, buildpath: string): (r: Result<Package, RerunError>)
    ensures r.Ok? <==> buildpath in graph && graph[buildpath].name == "main"
    ensures r.Ok? ==> r.value == graph[buildpath]
    ensures buildpath !in graph ==> r == Err(ImportFailed(buildpath))
    ensures buildpath in graph && graph[buildpath].name != "main" ==> r == Err(NotMain(graph[buildpath].name))
  {
    if buildpath !in graph then Err(ImportFailed(buildpath))
    else if graph[buildpath].name != "main" then Err(NotMain(graph[buildpath].name))
    else Ok(graph[buildpath])
  }

  /** The last element of the import path (`path.Split`): the binary's name. */
  function BinName(buildpath: string): (name: string)
    decreases |buildpath|
    ensures |name| <= |buildpath| && name == buildpath[|buildpath| - |name|..]
    ensures '/' !in name
    ensures |name| < |buildpath| ==> buildpath[|buildpath| - |name| - 1] == '/'
  {
    if buildpath == [] || buildpath[|buildpath| - 1] == '/' then []
    else BinName(buildpath[..|buildpath| - 1]) + [buildpath[|buildpath| - 1]]
  }

  /** Where the binary is looked for: $GOBIN when set, otherwise the package's bin directory. */
  function BinDir(gobin: string, pkg: Package): (dir: string)
    ensures gobin != "" ==> dir == gobin
    ensures gobin == "" ==> dir == pkg.binDir
  {
    if gobin != "" then gobin else pkg.binDir
  }

  /**
   * The installed binary, `filepath.Join(dir, binName)`, with the two parts
   * joined by one '/' (the cleaning done by `filepath.Join` is not modelled).
   */
  function BinPath(gobin: string, pkg: Package, binName: string): (path: string)
    ensures |path| == |BinDir(gobin, pkg)| + 1 + |binName|
    ensures path[..|BinDir(gobin, pkg)|] == BinDir(gobin, pkg)
    ensures path[|path| - |binName| - 1] == '/' && path[|path| - |binName|..] == binName
  {
    BinDir(gobin, pkg) + "/" + binName
  }

  /** A name without '/' joined under a directory is the last element of the result. */
  lemma {:induction false} BinNameAfterSlash(dir: string, name: string)
    requires '/' !in name
    ensures BinName(dir + "/" + name) == name
    decreases |name|
  {
    var path := dir + "/" + name;
    if name == [] {
      assert path[|path| - 1] == '/';
    } else {
      var init := name[..|name| - 1];
      assert path[..|path| - 1] == dir + "/" + init;
      assert '/' !in init by {
        assert forall k :: 0 <= k < |init| ==> init[k] == name[k];
      }
      BinNameAfterSlash(dir, init);
      assert init + [name[|name| - 1]] == name;
    }
  }

  /** The binary that is launched is named after the last element of the import path. */
  lemma BinPathNamesBinary(gobin: string, pkg: Package, buildpath: string)
    ensures BinName(BinPath(gobin, pkg, BinName(buildpath))) == BinName(buildpath)
  {
    BinNameAfterSlash(BinDir(gobin, pkg), BinName(buildpath));
  }

  /**
   * The index of the '.' where `filepath.Ext` stops scanning backward from
   * the end: the last '.' after the last '/', or -1 when there is none.
   */
  function LastDot(path: string): (i: int)
    decreases |path|
    ensures -1 <= i < |path|
    ensures i >= 0 ==> path[i] == '.'
  {
    if path == [] || path[|path| - 1] == '/' then -1
    else if path[|path| - 1] == '.' then |path| - 1
    else LastDot(path[..|path| - 1])
  }

  /** `filepath.Ext`: the suffix of the last path element from its final '.', or "" when it has none. */
  function Ext(path: string): (e: string)
    ensures |e| <= |path| && e == path[|path| - |e|..]
    ensures e != [] ==> e[0] == '.'
  {
    var i := LastDot(path);
    if i < 0 then [] else path[i..]
  }

  /** After the '.' that LastDot finds there is neither another '.' nor a '/'. */
  lemma {:induction false} LastDotIsLast(path: string, k: int)
    requires LastDot(path) >= 0 && LastDot(path) < k < |path|
    ensures path[k] != '.' && path[k] != '/'
    decreases |path|
  {
    if k < |path| - 1 {
      LastDotIsLast(path[..|path| - 1], k);
    }
  }

  /** An extension is a '.' followed by characters that are neither '.' nor '/'. */
  lemma ExtShape(path: string)
    ensures var e := Ext(path); e != [] ==> e[0] == '.' && '/' !in e && '.' !in e[1..]
  {
    var e := Ext(path);
    if e != [] {
      var i := LastDot(path);
      forall j | 0 < j < |e|
        ensures e[j] != '.' && e[j] != '/'
      {
        LastDotIsLast(path, i + j);
      }
      assert e[0] == '.';
    }
  }

  /** No extension means every '.' in the path lies in a directory name: a '/' follows it. */
  lemma {:induction false} NoExtNoDot(path: string, k: nat)
    requires Ext(path) == [] && k < |path| && path[k] == '.'
    ensures '/' in path[k + 1..]
    decreases |path|
  {
    var last := path[|path| - 1];
    if last == '/' {
      assert path[k + 1..][|path| - k - 2] == '/';
    } else {
      var init := path[..|path| - 1];
      assert k < |init|;
      NoExtNoDot(init, k);
      assert path[k + 1..] == init[k + 1..] + [last];
    }
  }

  /** Only changes to Go source files wake the loop: names ending in ".go". */
  predicate Relevant(c: Change)
  {
    |c.name| >= 3 && c.name[|c.name| - 3..] == ".go"
  }

  /** The loop's test `filepath.Ext(name) == ".go"` holds exactly for the names Relevant accepts. */
  lemma GoExtension(c: Change)
    ensures Ext(c.name) == ".go" <==> Relevant(c)
  {
    var name := c.name;
    var n := |name|;
    if Relevant(c) {
      assert name[n - 1] == 'o' && name[n - 2] == 'g' && name[n - 3] == '.' by {
        assert name[n - 3..][2] == 'o' && name[n - 3..][1] == 'g' && name[n - 3..][0] == '.';
      }
      assert LastDot(name[..n - 1][..n - 2]) == n - 3;
      assert LastDot(name[..n - 1]) == n - 3;
    }
  }

  function PrintOf(printed: Option<string>): seq<Step>
  {
    if printed.Some? then [Print(printed.value)] else []
  }

  /** A toolchain command run, followed by what it printed. */
  function Checked(cmdline: seq<string>, printed: Option<string>): seq<Step>
  {
    [Exec(cmdline)] + PrintOf(printed)
  }

  // ---------------------------------------------------------------------
  // What the steps say
  // ---------------------------------------------------------------------

  /** The toolchain commands run, in order. */
  function Commands(steps: seq<Step>): seq<seq<string>>
    decreases |steps|
  {
    if steps == [] then []
    else
      var last := steps[|steps| - 1];
      Commands(steps[..|steps| - 1]) + (if last.Exec? then [last.cmdline] else [])
  }

  /** The texts printed, in order. */
  function Printed(steps: seq<Step>): seq<string>
    decreases |steps|
  {
    if steps == [] then []
    else
      var last := steps[|steps| - 1];
      Printed(steps[..|steps| - 1]) + (if last.Print? then [last.text] else [])
  }

  lemma {:induction false} CommandsConcat(a: seq<Step>, b: seq<Step>)
    ensures Commands(a + b) == Commands(a) + Commands(b)
    decreases |b|
  {
    if b == [] {
      assert a + b == a;
    } else {
      var b' := b[..|b| - 1];
      assert (a + b)[..|a + b| - 1] == a + b';
      CommandsConcat(a, b');
    }
  }

  lemma {:induction false} PrintedConcat(a: seq<Step>, b: seq<Step>)
    ensures Printed(a + b) == Printed(a) + Printed(b)
    decreases |b|
  {
    if b == [] {
      assert a + b == a;
    } else {
      var b' := b[..|b| - 1];
      assert (a + b)[..|a + b| - 1] == a + b';
      PrintedConcat(a, b');
    }
  }

  lemma OneStep(x: Step)
    ensures Commands([x]) == if x.Exec? then [x.cmdline] else []
    ensures Printed([x]) == if x.Print? then [x.text] else []
  {
    assert [x][..0] == [];
    assert [] + (if x.Exec? then [x.cmdline] else []) == if x.Exec? then [x.cmdline] else [];
    assert [] + (if x.Print? then [x.text] else []) == if x.Print? then [x.text] else [];
  }

  lemma CheckedSays(cmdline: seq<string>, printed: Option<string>)
    ensures Commands(Checked(cmdline, printed)) == [cmdline]
    ensures Printed(Checked(cmdline, printed)) == (if printed.Some? then [printed.value] else [])
  {
    CommandsConcat([Exec(cmdline)], PrintOf(printed));
    PrintedConcat([Exec(cmdline)], PrintOf(printed));
    OneStep(Exec(cmdline));
    if printed.Some? {
      OneStep(Print(printed.value));
    } else {
      assert [Exec(cmdline)] + PrintOf(printed) == [Exec(cmdline)];
    }
  }

  /** Commands of a pass followed by two segments. */
  lemma ThreeCommands(a: seq<Step>, b: seq<Step>, c: seq<Step>)
    ensures Commands(a + (b + c)) == Commands(a) + Commands(b) + Commands(c)
  {
    CommandsConcat(a, b + c);
    CommandsConcat(b, c);
  }

  /** Prints of a pass followed by two segments. */
  lemma ThreePrinted(a: seq<Step>, b: seq<Step>, c: seq<Step>)
    ensures Printed(a + (b + c)) == Printed(a) + Printed(b) + Printed(c)
  {
    PrintedConcat(a, b + c);
    PrintedConcat(b, c);
  }

  lemma NoCommands(s: seq<Step>)
    requires forall k :: 0 <= k < |s| ==> !s[k].Exec?
    ensures Commands(s) == []
    decreases |s|
  {
    if s != [] {
      NoCommands(s[..|s| - 1]);
    }
  }

  /** Commands of three segments between two that run no command. */
  lemma CommandsAround(before: seq<Step>, a: seq<Step>, b: seq<Step>, c: seq<Step>, after: seq<Step>)
    requires forall k :: 0 <= k < |before| ==> !before[k].Exec?
    requires forall k :: 0 <= k < |after| ==> !after[k].Exec?
    ensures Commands(before + a + b + c + after) == Commands(a) + Commands(b) + Commands(c)
  {
    var ca, cb, cc := Commands(a), Commands(b), Commands(c);
    NoCommands(before);
    NoCommands(after);
    CommandsConcat(before, a);
    assert [] + ca == ca;
    CommandsConcat(before + a, b);
    CommandsConcat(before + a + b, c);
    CommandsConcat(before + a + b + c, after);
    assert ca + cb + cc + [] == ca + cb + cc;
  }

  // ---------------------------------------------------------------------
  // The initial pass
  // ---------------------------------------------------------------------

  /** A command of the initial pass, run only when `run` holds. */
  function Stage(run: bool, cmdline: seq<string>, printed: Option<string>): (s: seq<Step>)
    ensures forall k :: 0 <= k < |s| ==> s[k].Exec? || s[k].Print?
    ensures Restart !in s
    ensures forall d, n :: Launch(d, n) !in s
  {
    if run then Checked(cmdline, printed) else []
  }

  lemma StageCommands(run: bool, cmdline: seq<string>, printed: Option<string>)
    ensures Commands(Stage(run, cmdline, printed)) == if run then [cmdline] else []
  {
    if run {
      CheckedSays(cmdline, printed);
    }
  }

  /**
   * Start the restart handler unless --no-run; run the tests if --test; run
   * the build if --build and the tests did not fail; install; request a
   * start if the tests did not fail, running is allowed and install
   * reported no error.
   */
  function InitialPass(cfg: Config, buildpath: string, binName: string, binPath: string, o: Outcomes): (r: Pass)
    ensures (Restart in r.steps) <==>
              && (!cfg.doTests || !o.tests.runFailed)
              && !cfg.neverRun
              && o.install.output == "" && !o.install.runFailed
    ensures Restart in r.steps ==> r.steps[|r.steps| - 1] == Restart
    ensures (Launch(binName, binPath) in r.steps) <==> !cfg.neverRun
    ensures !cfg.neverRun ==> r.steps[0] == Launch(binName, binPath)
    ensures r.errorOutput == o.install.output
  {
    var launch := if !cfg.neverRun then [Launch(binName, binPath)] else [];
    var t := Test(cfg.raceDetector, buildpath, o.tests);
    var noRun := cfg.doTests && !t.passed;
    var b := GoBuild(cfg.buildTags, cfg.raceDetector, buildpath, o.build);
    var i := Install(cfg.raceDetector, buildpath, "", o.install);
    var testing := Stage(cfg.doTests, t.cmdline, t.printed);
    var building := Stage(cfg.doBuild && !noRun, b.cmdline, b.printed);
    var installing := Stage(true, i.cmdline, i.printed);
    var restart := if !noRun && !cfg.neverRun && !i.failed then [Restart] else [];
    Pass(launch + testing + building + installing + restart, i.errorOutput)
  }

  /** The commands of the initial pass: tests first, then the build only if they did not fail, install last. */
  lemma {:induction false} InitialPassCommands(cfg: Config, buildpath: string, binName: string, binPath: string, o: Outcomes)
    ensures Commands(InitialPass(cfg, buildpath, binName, binPath, o).steps)
         == (if cfg.doTests then [TestCmd(cfg.raceDetector, buildpath)] else [])
          + (if cfg.doBuild && !(cfg.doTests && o.tests.runFailed)
             then [BuildCmd(cfg.buildTags, cfg.raceDetector, buildpath)] else [])
          + [InstallCmd(cfg.raceDetector, buildpath)]
  {
    var launch := if !cfg.neverRun then [Launch(binName, binPath)] else [];
    var t := Test(cfg.raceDetector, buildpath, o.tests);
    var noRun := cfg.doTests && !t.passed;
    var b := GoBuild(cfg.buildTags, cfg.raceDetector, buildpath, o.build);
    var i := Install(cfg.raceDetector, buildpath, "", o.install);
    var s1 := Stage(cfg.doTests, t.cmdline, t.printed);
    var s2 := Stage(cfg.doBuild && !noRun, b.cmdline, b.printed);
    var s3 := Stage(true, i.cmdline, i.printed);
    var restart := if !noRun && !cfg.neverRun && !i.failed then [Restart] else [];
    assert InitialPass(cfg, buildpath, binName, binPath, o).steps == launch + s1 + s2 + s3 + restart;
    CommandsAround(launch, s1, s2, s3, restart);
    StageCommands(cfg.doTests, t.cmdline, t.printed);
    StageCommands(cfg.doBuild && !noRun, b.cmdline, b.printed);
    StageCommands(true, i.cmdline, i.printed);
    assert Commands(s3) == [InstallCmd(cfg.raceDetector, buildpath)];
  }

  // ---------------------------------------------------------------------
  // One change
  // ---------------------------------------------------------------------

  /**
   * After a successful install (rerun.go:300-314): the tests if --test,
   * stopping if they fail; the build if --build; a restart request unless
   * --no-run.
   */
  function Rebuild(cfg: Config, buildpath: string, o: Outcomes): seq<Step>
  {
    var t := Test(cfg.raceDetector, buildpath, o.tests);
    var testing := if cfg.doTests then Checked(t.cmdline, t.printed) else [];
    if cfg.doTests && !t.passed then testing
    else
      var b := GoBuild(cfg.buildTags, cfg.raceDetector, buildpath, o.build);
      testing
      + (if cfg.doBuild then Checked(b.cmdline, b.printed) else [])
      + (if !cfg.neverRun then [Restart] else [])
  }

  /** After an install, a restart is requested iff the tests (if run) pass and running is allowed. */
  lemma RebuildRestart(cfg: Config, buildpath: string, o: Outcomes)
    ensures (Restart in Rebuild(cfg, buildpath, o)) <==> (!cfg.doTests || !o.tests.runFailed) && !cfg.neverRun
  {
  }

  /** A restart request at the end adds no command. */
  lemma CommandsThenRestart(a: seq<Step>, b: seq<Step>, restart: seq<Step>)
    requires restart == [] || restart == [Restart]
    ensures Commands(a + b + restart) == Commands(a) + Commands(b)
  {
    CommandsConcat(a, b);
    CommandsConcat(a + b, restart);
    OneStep(Restart);
    assert Commands(restart) == [];
    assert Commands(a + b) + [] == Commands(a + b);
  }

  /** The commands after an install: the tests if --test, then the build if --build and the tests did not fail. */
  lemma RebuildCommands(cfg: Config, buildpath: string, o: Outcomes)
    ensures Commands(Rebuild(cfg, buildpath, o))
         == (if cfg.doTests then [TestCmd(cfg.raceDetector, buildpath)] else [])
          + (if cfg.doBuild && !(cfg.doTests && o.tests.runFailed)
             then [BuildCmd(cfg.buildTags, cfg.raceDetector, buildpath)] else [])
  {
    if cfg.doTests && o.tests.runFailed {
      TestsStopRebuild(cfg, buildpath, o);
      assert [TestCmd(cfg.raceDetector, buildpath)] + [] == [TestCmd(cfg.raceDetector, buildpath)];
    } else {
      TestsLetRebuildOn(cfg, buildpath, o);
    }
  }

  lemma TestsStopRebuild(cfg: Config, buildpath: string, o: Outcomes)
    requires cfg.doTests && o.tests.runFailed
    ensures Commands(Rebuild(cfg, buildpath, o)) == [TestCmd(cfg.raceDetector, buildpath)]
  {
    var t := Test(cfg.raceDetector, buildpath, o.tests);
    assert Rebuild(cfg, buildpath, o) == Checked(t.cmdline, t.printed);
    CheckedSays(t.cmdline, t.printed);
  }

  lemma TestsLetRebuildOn(cfg: Config, buildpath: string, o: Outcomes)
    requires !(cfg.doTests && o.tests.runFailed)
    ensures Commands(Rebuild(cfg, buildpath, o))
         == (if cfg.doTests then [TestCmd(cfg.raceDetector, buildpath)] else [])
          + (if cfg.doBuild then [BuildCmd(cfg.buildTags, cfg.raceDetector, buildpath)] else [])
  {
    var t := Test(cfg.raceDetector, buildpath, o.tests);
    var b := GoBuild(cfg.buildTags, cfg.raceDetector, buildpath, o.build);
    var testing := if cfg.doTests then Checked(t.cmdline, t.printed) else [];
    var building := if cfg.doBuild then Checked(b.cmdline, b.printed) else [];
    var restart := if !cfg.neverRun then [Restart] else [];
    CheckedSays(t.cmdline, t.printed);
    CheckedSays(b.cmdline, b.printed);
    assert Rebuild(cfg, buildpath, o) == testing + building + restart;
    CommandsThenRestart(testing, building, restart);
  }

  /** What runs after the install: nothing when it failed, Rebuild otherwise. */
  function Rebuilt(cfg: Config, buildpath: string, o: Outcomes): seq<Step>
  {
    if o.install.output != "" || o.install.runFailed then [] else Rebuild(cfg, buildpath, o)
  }

  /**
   * A relevant change, as evidently intended: rescan, then install; when
   * install reported no error, Rebuild.  The install output is the error
   * text for the next change.
   */
  function OnChange(cfg: Config, buildpath: string, errorOutput: string, c: Change): (r: Pass)
    ensures |r.steps| >= 2 && r.steps[..2] == [Rescan, Exec(InstallCmd(cfg.raceDetector, buildpath))]
    ensures r.errorOutput == c.results.install.output
  {
    var i := Install(cfg.raceDetector, buildpath, errorOutput, c.results.install);
    Pass([Rescan] + Checked(i.cmdline, i.printed) + Rebuilt(cfg, buildpath, c.results), i.errorOutput)
  }

  /** A change requests a restart iff install is clean, the tests pass (if run) and running is allowed. */
  lemma ChangeRestarts(cfg: Config, buildpath: string, errorOutput: string, c: Change)
    ensures (Restart in OnChange(cfg, buildpath, errorOutput, c).steps) <==>
              && c.results.install.output == "" && !c.results.install.runFailed
              && (!cfg.doTests || !c.results.tests.runFailed)
              && !cfg.neverRun
  {
    var i := Install(cfg.raceDetector, buildpath, errorOutput, c.results.install);
    assert Restart !in [Rescan] + Checked(i.cmdline, i.printed);
    RebuildRestart(cfg, buildpath, c.results);
  }

  /** One relevant change in the given loop. */
  function ChangeStep(v: Variant, cfg: Config, buildpath: string, errorOutput: string, c: Change): (r: Pass)
    ensures |r.steps| >= 2 && r.steps[..2] == [Rescan, Exec(InstallCmd(cfg.raceDetector, buildpath))]
    ensures r.errorOutput == c.results.install.output
  {
    if v == AsWritten then OnChangeAsWritten(cfg, buildpath, errorOutput, c)
    else OnChange(cfg, buildpath, errorOutput, c)
  }

  /** What follows the install in a change: nothing as written; Rebuild after a clean install as intended. */
  function AfterInstall(v: Variant, cfg: Config, buildpath: string, o: Outcomes): seq<Step>
  {
    if v == AsWritten then [] else Rebuilt(cfg, buildpath, o)
  }

  /** Both loops: a rescan, the install command and its output, then what follows the install. */
  lemma ChangeStepShape(v: Variant, cfg: Config, buildpath: string, errorOutput: string, c: Change)
    ensures var i := Install(cfg.raceDetector, buildpath, errorOutput, c.results.install);
            ChangeStep(v, cfg, buildpath, errorOutput, c).steps
            == [Rescan] + Checked(i.cmdline, i.printed) + AfterInstall(v, cfg, buildpath, c.results)
  {
    var i := Install(cfg.raceDetector, buildpath, errorOutput, c.results.install);
    var head := [Rescan] + Checked(i.cmdline, i.printed);
    if v == AsWritten {
      assert OnChangeAsWritten(cfg, buildpath, errorOutput, c).steps == head;
      assert head + [] == head;
    }
  }

  /** What a change does to the pass so far: nothing unless it is relevant. */
  function Next(v: Variant, cfg: Config, buildpath: string, prev: Pass, c: Change): Pass
  {
    if !Relevant(c) then prev
    else
      var next := ChangeStep(v, cfg, buildpath, prev.errorOutput, c);
      Pass(prev.steps + next.steps, next.errorOutput)
  }

  /** The changes seen so far, in order. */
  function AfterChanges(v: Variant, cfg: Config, buildpath: string, errorOutput: string, cs: seq<Change>): Pass
    decreases |cs|
  {
    if cs == [] then Pass([], errorOutput)
    else Next(v, cfg, buildpath, AfterChanges(v, cfg, buildpath, errorOutput, cs[..|cs| - 1]), cs[|cs| - 1])
  }

  lemma AfterChangesSnoc(v: Variant, cfg: Config, buildpath: string, errorOutput: string, cs: seq<Change>, c: Change)
    ensures AfterChanges(v, cfg, buildpath, errorOutput, cs + [c])
         == Next(v, cfg, buildpath, AfterChanges(v, cfg, buildpath, errorOutput, cs), c)
  {
    assert (cs + [c])[..|cs|] == cs;
  }

  lemma AfterChangesStep(v: Variant, cfg: Config, buildpath: string, errorOutput: string, cs: seq<Change>, k: nat)
    requires k < |cs|
    ensures AfterChanges(v, cfg, buildpath, errorOutput, cs[..k + 1])
         == Next(v, cfg, buildpath, AfterChanges(v, cfg, buildpath, errorOutput, cs[..k]), cs[k])
  {
    assert cs[..k + 1][..k] == cs[..k];
  }

  /** The import graph the current watcher was built from: that of the last relevant change. */
  function CurrentGraph(graph: Graph, cs: seq<Change>): Graph
    decreases |cs|
  {
    if cs == [] then graph
    else if Relevant(cs[|cs| - 1]) then cs[|cs| - 1].graph
    else CurrentGraph(graph, cs[..|cs| - 1])
  }

  lemma CurrentGraphSnoc(graph: Graph, cs: seq<Change>, c: Change)
    ensures CurrentGraph(graph, cs + [c]) == if Relevant(c) then c.graph else CurrentGraph(graph, cs)
  {
    assert (cs + [c])[..|cs|] == cs;
  }

  lemma CurrentGraphStep(graph: Graph, cs: seq<Change>, k: nat)
    requires k < |cs|
    ensures CurrentGraph(graph, cs[..k + 1]) == if Relevant(cs[k]) then cs[k].graph else CurrentGraph(graph, cs[..k])
  {
    var s := cs[..k + 1];
    assert s[..|s| - 1] == cs[..k];
    assert s[|s| - 1] == cs[k];
  }

  function RelevantOnly(cs: seq<Change>): (r: seq<Change>)
    decreases |cs|
    ensures forall k :: 0 <= k < |r| ==> Relevant(r[k])
  {
    if cs == [] then []
    else RelevantOnly(cs[..|cs| - 1]) + (if Relevant(cs[|cs| - 1]) then [cs[|cs| - 1]] else [])
  }

  // ---------------------------------------------------------------------
  // Properties of the watch loop
  // ---------------------------------------------------------------------

  /** With --no-run neither loop ever requests a restart, whatever the changes and results. */
  lemma {:induction false} NoRunNeverRestarts(v: Variant, cfg: Config, buildpath: string, errorOutput: string, cs: seq<Change>)
    requires cfg.neverRun
    ensures Restart !in AfterChanges(v, cfg, buildpath, errorOutput, cs).steps
    decreases |cs|
  {
    if cs != [] {
      var prev := AfterChanges(v, cfg, buildpath, errorOutput, cs[..|cs| - 1]);
      NoRunNeverRestarts(v, cfg, buildpath, errorOutput, cs[..|cs| - 1]);
      if v == AsWritten {
        AsWrittenNeverRestarts(cfg, buildpath, prev.errorOutput, cs[|cs| - 1]);
      } else {
        ChangeRestarts(cfg, buildpath, prev.errorOutput, cs[|cs| - 1]);
      }
    }
  }

  /** As written, the loop never requests a restart, whatever the flags, changes and results. */
  lemma {:induction false} ChangesNeverRestart(cfg: Config, buildpath: string, errorOutput: string, cs: seq<Change>)
    ensures Restart !in AfterChanges(AsWritten, cfg, buildpath, errorOutput, cs).steps
    decreases |cs|
  {
    if cs != [] {
      var prev := AfterChanges(AsWritten, cfg, buildpath, errorOutput, cs[..|cs| - 1]);
      ChangesNeverRestart(cfg, buildpath, errorOutput, cs[..|cs| - 1]);
      AsWrittenNeverRestarts(cfg, buildpath, prev.errorOutput, cs[|cs| - 1]);
    }
  }

  /** Changes to files that are not Go sources have no effect at all. */
  lemma {:induction false} IrrelevantChangesIgnored(v: Variant, cfg: Config, buildpath: string, errorOutput: string, cs: seq<Change>)
    ensures AfterChanges(v, cfg, buildpath, errorOutput, cs) == AfterChanges(v, cfg, buildpath, errorOutput, RelevantOnly(cs))
    decreases |cs|
  {
    if cs != [] {
      var init := cs[..|cs| - 1];
      var c := cs[|cs| - 1];
      IrrelevantChangesIgnored(v, cfg, buildpath, errorOutput, init);
      if Relevant(c) {
        assert RelevantOnly(cs) == RelevantOnly(init) + [c];
        AfterChangesSnoc(v, cfg, buildpath, errorOutput, RelevantOnly(init), c);
      } else {
        assert RelevantOnly(cs) == RelevantOnly(init) + [];
        assert RelevantOnly(init) + [] == RelevantOnly(init);
      }
    }
  }

  /** The first steps of a change: a rescan, the install command and its output. */
  lemma RescanSays(cmdline: seq<string>, printed: Option<string>)
    ensures Commands([Rescan] + Checked(cmdline, printed)) == [cmdline]
    ensures Printed([Rescan] + Checked(cmdline, printed)) == (if printed.Some? then [printed.value] else [])
  {
    CommandsConcat([Rescan], Checked(cmdline, printed));
    PrintedConcat([Rescan], Checked(cmdline, printed));
    CheckedSays(cmdline, printed);
    OneStep(Rescan);
    assert [] + [cmdline] == [cmdline];
    assert [] + Printed(Checked(cmdline, printed)) == Printed(Checked(cmdline, printed));
  }

  /** What a relevant change runs: the install command, then, as intended only, the commands of Rebuild when it was clean. */
  lemma ChangeCommands(v: Variant, cfg: Config, buildpath: string, prev: Pass, c: Change)
    requires Relevant(c)
    ensures Commands(Next(v, cfg, buildpath, prev, c).steps)
         == Commands(prev.steps) + [InstallCmd(cfg.raceDetector, buildpath)] + Commands(AfterInstall(v, cfg, buildpath, c.results))
  {
    var i := Install(cfg.raceDetector, buildpath, prev.errorOutput, c.results.install);
    var head := [Rescan] + Checked(i.cmdline, i.printed);
    var rebuilt := AfterInstall(v, cfg, buildpath, c.results);
    ChangeStepShape(v, cfg, buildpath, prev.errorOutput, c);
    assert Next(v, cfg, buildpath, prev, c).steps == prev.steps + (head + rebuilt);
    ThreeCommands(prev.steps, head, rebuilt);
    RescanSays(i.cmdline, i.printed);
  }

  /**
   * As written whatever the flags, and as intended without --test and
   * --build, every relevant change runs exactly one command: the install.
   */
  lemma {:induction false} OneInstallPerChange(v: Variant, cfg: Config, buildpath: string, errorOutput: string, cs: seq<Change>)
    requires v == AsWritten || (!cfg.doTests && !cfg.doBuild)
    ensures var cmds := Commands(AfterChanges(v, cfg, buildpath, errorOutput, cs).steps);
            && |cmds| == |RelevantOnly(cs)|
            && forall k :: 0 <= k < |cmds| ==> cmds[k] == InstallCmd(cfg.raceDetector, buildpath)
    decreases |cs|
  {
    if cs != [] {
      var init := cs[..|cs| - 1];
      var c := cs[|cs| - 1];
      OneInstallPerChange(v, cfg, buildpath, errorOutput, init);
      var prev := AfterChanges(v, cfg, buildpath, errorOutput, init);
      assert AfterChanges(v, cfg, buildpath, errorOutput, cs) == Next(v, cfg, buildpath, prev, c);
      if Relevant(c) {
        InstallOnly(v, cfg, buildpath, prev, c);
        assert RelevantOnly(cs) == RelevantOnly(init) + [c];
      } else {
        assert RelevantOnly(cs) == RelevantOnly(init) + [];
      }
    }
  }

  /** As written, or without --test and --build, a relevant change adds the install command and nothing else. */
  lemma InstallOnly(v: Variant, cfg: Config, buildpath: string, prev: Pass, c: Change)
    requires v == AsWritten || (!cfg.doTests && !cfg.doBuild)
    requires Relevant(c)
    ensures Commands(Next(v, cfg, buildpath, prev, c).steps) == Commands(prev.steps) + [InstallCmd(cfg.raceDetector, buildpath)]
  {
    ChangeCommands(v, cfg, buildpath, prev, c);
    RebuildCommands(cfg, buildpath, c.results);
    var rebuilt := AfterInstall(v, cfg, buildpath, c.results);
    assert Commands(rebuilt) == [];
    assert Commands(prev.steps) + [InstallCmd(cfg.raceDetector, buildpath)] + [] == Commands(prev.steps) + [InstallCmd(cfg.raceDetector, buildpath)];
  }

  /**
   * What a relevant change prints: the install output, when it differs from
   * the last error text, then, as intended only, what Rebuild prints when
   * install was clean.
   */
  lemma ChangePrints(v: Variant, cfg: Config, buildpath: string, prev: Pass, c: Change)
    requires Relevant(c)
    ensures Printed(Next(v, cfg, buildpath, prev, c).steps)
         == Printed(prev.steps)
          + (if c.results.install.output != "" && c.results.install.output != prev.errorOutput
             then [c.results.install.output] else [])
          + Printed(AfterInstall(v, cfg, buildpath, c.results))
  {
    var i := Install(cfg.raceDetector, buildpath, prev.errorOutput, c.results.install);
    var head := [Rescan] + Checked(i.cmdline, i.printed);
    var rebuilt := AfterInstall(v, cfg, buildpath, c.results);
    ChangeStepShape(v, cfg, buildpath, prev.errorOutput, c);
    assert Next(v, cfg, buildpath, prev, c).steps == prev.steps + (head + rebuilt);
    ThreePrinted(prev.steps, head, rebuilt);
    RescanSays(i.cmdline, i.printed);
  }

  /** A change that fails with the text `out`: a relevant file and an install printing `out`. */
  ghost predicate FailsWith(c: Change, out: string)
  {
    Relevant(c) && c.results.install.output == out
  }

  /**
   * The same error text from consecutive installs is printed once: a run of
   * changes that all fail with `out` prints `out` at most once, and not at
   * all when it was already the last error shown.
   */
  lemma {:induction false} RepeatedErrorPrintedOnce(v: Variant, cfg: Config, buildpath: string, errorOutput: string, cs: seq<Change>, out: string)
    requires out != "" && |cs| > 0
    requires forall k :: 0 <= k < |cs| ==> FailsWith(cs[k], out)
    ensures Printed(AfterChanges(v, cfg, buildpath, errorOutput, cs).steps) == (if out == errorOutput then [] else [out])
    ensures AfterChanges(v, cfg, buildpath, errorOutput, cs).errorOutput == out
    decreases |cs|
  {
    var init := cs[..|cs| - 1];
    var c := cs[|cs| - 1];
    assert FailsWith(c, out);
    var prev := AfterChanges(v, cfg, buildpath, errorOutput, init);
    assert AfterChanges(v, cfg, buildpath, errorOutput, cs) == Next(v, cfg, buildpath, prev, c);
    ChangePrints(v, cfg, buildpath, prev, c);
    assert AfterInstall(v, cfg, buildpath, c.results) == [];
    assert Printed([]) == [];
    if init != [] {
      RepeatedErrorPrintedOnce(v, cfg, buildpath, errorOutput, init, out);
      assert Printed(prev.steps) + [] == Printed(prev.steps);
    } else {
      assert prev == Pass([], errorOutput);
      assert [] + [out] == [out];
    }
  }

  /**
   * A clean install resets the remembered error text, so an error seen
   * before it is printed again when it comes back.
   */
  lemma CleanInstallRearmsReport(v: Variant, cfg: Config, buildpath: string, errorOutput: string, cs: seq<Change>,
                                 clean: Change, failing: Change)
    requires Relevant(clean) && clean.results.install.output == ""
    requires Relevant(failing) && failing.results.install.output != ""
    ensures Printed(AfterChanges(v, cfg, buildpath, errorOutput, cs + [clean] + [failing]).steps)
         == Printed(AfterChanges(v, cfg, buildpath, errorOutput, cs + [clean]).steps) + [failing.results.install.output]
  {
    var p1 := AfterChanges(v, cfg, buildpath, errorOutput, cs + [clean]);
    AfterChangesSnoc(v, cfg, buildpath, errorOutput, cs, clean);
    AfterChangesSnoc(v, cfg, buildpath, errorOutput, cs + [clean], failing);
    ChangePrints(v, cfg, buildpath, p1, failing);
    assert AfterInstall(v, cfg, buildpath, failing.results) == [];
    assert Printed([]) == [];
  }

  // ---------------------------------------------------------------------
  // rerun
  // ---------------------------------------------------------------------

  /**
   * One change to a Go file: close the watcher and build a new one from the
   * current import graph, then install with the last error text.
   */
  method HandleChange(v: Variant, cfg: Config, buildpath: string, errorOutput: string, c: Change)
    returns (steps: seq<Step>, nextError: string, watched: seq<string>)
    ensures Pass(steps, nextError) == ChangeStep(v, cfg, buildpath, errorOutput, c)
    ensures WatchesExactly(c.graph, buildpath, watched)
  {
    var watcher := GetWatcher(c.graph, buildpath);
    watched := watcher.dirs;
    var next := ChangeStep(v, cfg, buildpath, errorOutput, c);
    steps, nextError := next.steps, next.errorOutput;
  }

  /** One event from the watcher: ignored unless it names a Go file, handled as a change otherwise. */
  method OnEvent(v: Variant, cfg: Config, buildpath: string, prev: Pass, watched: seq<string>, c: Change)
    returns (next: Pass, nowWatched: seq<string>)
    ensures next == Next(v, cfg, buildpath, prev, c)
    ensures Relevant(c) ==> WatchesExactly(c.graph, buildpath, nowWatched)
    ensures !Relevant(c) ==> nowWatched == watched
  {
    GoExtension(c);
    if Ext(c.name) != ".go" {
      return prev, watched;
    }
    var steps, errorOutput;
    steps, errorOutput, nowWatched := HandleChange(v, cfg, buildpath, prev.errorOutput, c);
    next := Pass(prev.steps + steps, errorOutput);
  }

  /**
   * The event loop of `rerun`: watch the packages reachable from the
   * target; on each change to a Go file, rebuild the watcher from the
   * current import graph, then install with the last error text.
   */
  method WatchChanges(v: Variant, cfg: Config, graph: Graph, buildpath: string, errorOutput0: string, changes: seq<Change>)
    returns (later: seq<Step>, errorOutput: string, watched: seq<string>)
    ensures Pass(later, errorOutput) == AfterChanges(v, cfg, buildpath, errorOutput0, changes)
    ensures WatchesExactly(CurrentGraph(graph, changes), buildpath, watched)
  {
    var pass := Pass([], errorOutput0);
    var watcher := GetWatcher(graph, buildpath);
    watched := watcher.dirs;

    var k := 0;
    while k < |changes|
      invariant 0 <= k <= |changes|
      invariant pass == AfterChanges(v, cfg, buildpath, errorOutput0, changes[..k])
      invariant WatchesExactly(CurrentGraph(graph, changes[..k]), buildpath, watched)
    {
      AfterChangesStep(v, cfg, buildpath, errorOutput0, changes, k);
      CurrentGraphStep(graph, changes, k);
      pass, watched := OnEvent(v, cfg, buildpath, pass, watched, changes[k]);
      k := k + 1;
    }
    assert changes[..k] == changes;
    later, errorOutput := pass.steps, pass.errorOutput;
  }

  /**
   * `rerun` over the changes observed so far: reject a target that does not
   * resolve or is not `main`; otherwise the initial pass, then the event
   * loop starting from the initial install's error text.  `graph` is the
   * import graph when rerun starts, `watchGraph` the one after the initial
   * install, which may have fetched missing imports.
   */
  method Rerun(v: Variant, cfg: Config, graph: Graph, watchGraph: Graph, buildpath: string, gobin: string,
               initial: Outcomes, changes: seq<Change>)
    returns (err: Option<RerunError>, steps: seq<Step>, watched: seq<string>)
    ensures CheckPackage(graph, buildpath).Err? ==>
              err == Some(CheckPackage(graph, buildpath).error) && steps == [] && watched == []
    ensures CheckPackage(graph, buildpath).Ok? ==>
              var pkg := CheckPackage(graph, buildpath).value;
              var binName := BinName(buildpath);
              var init := InitialPass(cfg, buildpath, binName, BinPath(gobin, pkg, binName), initial);
              && err == None
              && steps == init.steps + AfterChanges(v, cfg, buildpath, init.errorOutput, changes).steps
              && WatchesExactly(CurrentGraph(watchGraph, changes), buildpath, watched)
  {
    var checked := CheckPackage(graph, buildpath);
    if checked.Err? {
      return Some(checked.error), [], [];
    }
    var binName := BinName(buildpath);
    var init := InitialPass(cfg, buildpath, binName, BinPath(gobin, checked.value, binName), initial);
    var later, errorOutput;
    later, errorOutput, watched := WatchChanges(v, cfg, watchGraph, buildpath, init.errorOutput, changes);
    err := None;
    steps := init.steps + later;
  }

  // ---------------------------------------------------------------------
  // The restart that never comes
  // ---------------------------------------------------------------------

  /**
   * A relevant change as written in rerun.go: the result `installed` of
   * `install` is never assigned, so it is always false and the loop
   * continues before Rebuild.
   */
  function OnChangeAsWritten(cfg: Config, buildpath: string, errorOutput: string, c: Change): (r: Pass)
    ensures |r.steps| >= 2 && r.steps[..2] == [Rescan, Exec(InstallCmd(cfg.raceDetector, buildpath))]
    ensures r.errorOutput == c.results.install.output
  {
    var i := Install(cfg.raceDetector, buildpath, errorOutput, c.results.install);
    var steps := [Rescan] + Checked(i.cmdline, i.printed);
    if !i.installed then Pass(steps, i.errorOutput)
    else Pass(steps + Rebuild(cfg, buildpath, c.results), i.errorOutput)
  }

  /** As written, no change ever requests a restart, and install is the only command run. */
  lemma AsWrittenNeverRestarts(cfg: Config, buildpath: string, errorOutput: string, c: Change)
    ensures Restart !in OnChangeAsWritten(cfg, buildpath, errorOutput, c).steps
    ensures Commands(OnChangeAsWritten(cfg, buildpath, errorOutput, c).steps) == [InstallCmd(cfg.raceDetector, buildpath)]
  {
    var i := Install(cfg.raceDetector, buildpath, errorOutput, c.results.install);
    var steps := [Rescan] + Checked(i.cmdline, i.printed);
    assert OnChangeAsWritten(cfg, buildpath, errorOutput, c).steps == steps;
    assert Restart !in steps;
    RescanSays(i.cmdline, i.printed);
  }

  /** A clean change with running allowed and no tests: restarted as intended, not as written. */
  lemma CleanChangeNotRestarted(cfg: Config, buildpath: string, errorOutput: string, c: Change)
    requires c.results.install == CmdResult("", false) && !cfg.neverRun && !cfg.doTests
    ensures Restart !in OnChangeAsWritten(cfg, buildpath, errorOutput, c).steps
    ensures Restart in OnChange(cfg, buildpath, errorOutput, c).steps
  {
    AsWrittenNeverRestarts(cfg, buildpath, errorOutput, c);
    ChangeRestarts(cfg, buildpath, errorOutput, c);
  }
}
