# rerun, modelled in Dafny

rerun is a development-loop supervisor for Go programs. Given the import path
of a `main` package, it:

- installs the package with `go get`;
- optionally runs its tests (`--test`) and a `go build` (`--build`);
- starts the installed binary (unless `--no-run`);
- watches the source directories of the package and of every package it imports, transitively.

When a `.go` file changes, it rebuilds the watch set and installs again. A
restart handler stops the running child (interrupt, kill when the interrupt
cannot be sent, wait for exit) before it starts the next one.

The project models that core in four modules over a shared `Base` module
(`Option`, `Result`):

- `Toolchain` (toolchain.dfy) covers `install`, `test` and `gobuild`.
  - It models the exact `go` command lines they build.
  - A parser reads a command line back, and the lemmas prove that each
    builder's line means what the flags asked for.
  - It models what each outcome reports and prints, given the command's
    combined output and whether it exited with an error.
- `ImportGraph` (import_graph.dfy) covers `getWatcher` and `addToWatcher`.
  - `build.Import` is replaced by a map from import path to package. A path
    missing from the map is an import that does not resolve.
  - The walk is a recursive method over a `Watcher` class (the directories
    registered) and a `Visited` class (the shared `watching` map).
  - It is proved to watch exactly the directories of the packages reachable
    from the target through resolved, non-Goroot packages, each one once.
- `Supervisor` (supervisor.dfy) covers the request handler of `run`.
  - The `Runner` class holds the process handle, the `restarting` flag and
    the trace of the process-control actions taken.
  - It is proved to keep at most one live child, the held one.
  - It is proved never to start a child while another is still live.
- `Coordinator` (coordinator.dfy) covers `rerun`.
  - `rerun` checks the target package, names the binary and runs the
    initial pass: test, build, install, restart request.
  - It then enters the event loop: filter by `filepath.Ext`, rescan, install.
    As written, the loop goes no further (see "## Findings").
  - The program's effects are a sequence of `Step`s: launch the handler, run
    a command, print, request a restart, rescan.
  - The toolchain's results and the import graph at each rescan are inputs.
  - The endless loop is modelled over the changes observed so far.

The code never sets the result `installed` that the event loop tests (see
"## Findings"). So, as written, a change never leads to tests, a build or a
restart. Yet the code after the `continue` (rerun.go:300-314) runs the
tests, the build and the restart request, just as the initial pass does
(rerun.go:237-253). So a change is meant to lead to the same sequence.

The event loop and `Rerun` therefore take a `Variant`:

- `AsWritten` runs each change through `OnChangeAsWritten`, which is what
  the code does.
- `Intended` runs each change through `OnChange`, the corrected step.

Every loop lemma is stated for both, except where its row says otherwise.

## Model

| member | source | states |
|---|---|---|
| Toolchain.InstallCmdMeaning | rerun.go:53-59 | the install command line reads back as `go get`, with `-race` exactly when the race detector is on, no tags, not verbose, and the import path as its target |
| Toolchain.TestCmdMeaning | rerun.go:83-89 | the test command line reads back as `go test`, with `-race` exactly when the race detector is on, verbose, and the import path as its target |
| Toolchain.BuildCmdMeaning | rerun.go:109-119 | the build command line reads back as `go build`, with exactly the given build tags (none when empty), `-race` exactly when the race detector is on, verbose, and the import path as its target |
| Toolchain.Install | rerun.go:53-81 | install fails iff the command printed anything or exited with an error; the new error text is the output ("" after a clean run); the output is printed iff it is non-empty and differs from the previous error text; `installed` is always false |
| Toolchain.Test | rerun.go:83-107 | the tests pass iff the command exits without error; the output and a newline are printed iff they fail |
| Toolchain.GoBuild | rerun.go:109-137 | the build passes iff the command exits without error; the output and a newline are printed iff it fails |
| ImportGraph.AddToWatcher | rerun.go:196-211 | the walk marks the import path iff it resolves and is not in Goroot; every newly marked package is reachable from it and has all its eligible imports marked; each marked package is marked once; its directory is watched once, in marking order |
| ImportGraph.WalkedFromEmpty | rerun.go:190-211 | a walk that started from an empty map, marked only reachable packages and left each of them closed under imports has marked exactly the packages reachable from the root |
| ImportGraph.IneligibleReachesNothing | rerun.go:197-203 | a target that does not resolve or is in Goroot reaches nothing, so nothing is watched |
| ImportGraph.GetWatcher | rerun.go:190-194 | a fresh watcher watches the directories of a duplicate-free list of exactly the packages reachable from the target through resolved, non-Goroot packages |
| Supervisor.HandlerActions | rerun.go:163-187 | a held process is interrupted, then killed only when the interrupt cannot be sent, then waited on; a start happens only on a relaunch request, only as the last action, and only after the wait |
| Supervisor.StopClearsLive | rerun.go:167-174 | after the stop sequence no child is live, and the stop sequence starts nothing |
| Supervisor.HandlerKeepsOneLive | rerun.go:163-187 | handling any request keeps the only live child the held one, and keeps every start after the moment no child was live |
| Supervisor.StartAfterStop | rerun.go:175-186 | a start appended after a stop that left nothing live happens while no child is live |
| Supervisor.Runner.constructor | rerun.go:143-144 | the handler starts with no process, `restarting` false and an empty trace, so the invariant holds |
| Supervisor.Runner.Handle | rerun.go:163-187 | one received request appends exactly its handler actions to the trace, updates the handle, sets `restarting`, and keeps the at-most-one-live, stop-before-start invariant |
| Supervisor.Runner.Run | rerun.go:163-187 | handling a sequence of requests appends their actions in order and keeps the invariant throughout |
| Coordinator.CheckPackage | rerun.go:216-223 | the target is accepted iff it resolves and its package is named `main`; otherwise the error says the import failed or names the wrong package name |
| Coordinator.BinDir | rerun.go:226-231 | the binary's directory is `$GOBIN` when it is set (non-empty), and the package's bin directory otherwise |
| Coordinator.BinPath | rerun.go:226-231 | the binary's path starts with that directory, then a '/', then ends with the binary name |
| Coordinator.BinPathNamesBinary | rerun.go:225-231 | the last element of the binary's path is the binary name, the last element of the import path |
| Coordinator.BinName | rerun.go:225 | the binary name is the part of the import path after its last '/': a suffix of the path with no '/', preceded by '/' when it is not the whole path |
| Coordinator.Ext | rerun.go:264 | the extension is a suffix of the name and starts with '.' when non-empty |
| Coordinator.ExtShape | rerun.go:264 | a non-empty extension is a '.' followed by characters that are neither '.' nor '/' |
| Coordinator.NoExtNoDot | rerun.go:264 | a name without an extension has a '/' after each of its dots |
| Coordinator.GoExtension | rerun.go:263-266 | the loop's test that the extension is ".go" holds exactly for the names that end in ".go" |
| Coordinator.InitialPass | rerun.go:233-253 | the handler is launched first, with the binary's name and path, iff running is allowed; a restart is requested, as the last step, iff running is allowed, the tests (if run) passed and install printed nothing and exited cleanly; the error text carried on is install's output |
| Coordinator.InitialPassCommands | rerun.go:237-250 | the initial pass runs the tests if asked, then the build if asked and the tests did not fail, then install, and no other command |
| Coordinator.RebuildRestart | rerun.go:300-314 | after a clean install a restart is requested iff the tests (if run) pass and running is allowed |
| Coordinator.RebuildCommands | rerun.go:300-309 | after a clean install the commands are the tests if asked, then the build if asked and the tests did not fail |
| Coordinator.OnChange | rerun.go:279-314 | the corrected step: a change starts with a rescan and the install command, and carries install's output on as the error text |
| Coordinator.ChangeRestarts | rerun.go:293-314 | the corrected step requests a restart iff install is clean, the tests (if run) pass and running is allowed |
| Coordinator.ChangeStep | rerun.go:279-298 | in both loops, a change starts with a rescan and the install command, and carries install's output on as the error text |
| Coordinator.ChangesNeverRestart | rerun.go:293-298 | as written, no sequence of changes ever requests a restart, whatever the flags and the toolchain's results |
| Coordinator.NoRunNeverRestarts | rerun.go:311-314 | with `--no-run`, no sequence of changes ever requests a restart, in either loop |
| Coordinator.IrrelevantChangesIgnored | rerun.go:262-266 | in either loop, events on files that are not Go sources change nothing: the outcome equals that of the relevant events alone |
| Coordinator.ChangeCommands | rerun.go:293-309 | a relevant change runs the install command and, only in the corrected loop after a clean install, the tests and build of Rebuild; nothing else |
| Coordinator.OneInstallPerChange | rerun.go:293-298 | as written, whatever the flags, the commands of any sequence of changes are exactly one install per relevant change; the same holds in the corrected loop without `--test` and `--build` |
| Coordinator.ChangePrints | rerun.go:293-298 | a relevant change prints install's output when it is non-empty and differs from the last error text; only the corrected loop then adds what the tests and build print after a clean install |
| Coordinator.RepeatedErrorPrintedOnce | rerun.go:293-298 | in either loop, a run of changes that all fail with the same compiler output prints it at most once, and not at all when it was the last error already shown |
| Coordinator.CleanInstallRearmsReport | rerun.go:293-298 | in either loop, after a clean install the next failing install's output is printed, even when it repeats an earlier error |
| Coordinator.HandleChange | rerun.go:268-298 | one change rebuilds the watcher from the current import graph, so it watches exactly what the target reaches there, and performs the steps of the chosen loop's change |
| Coordinator.OnEvent | rerun.go:260-298 | an event on a file that is not a Go source leaves the pass and the watch set unchanged; any other event is handled as a change and leaves the watch set exact for its graph |
| Coordinator.WatchChanges | rerun.go:255-315 | the loop's steps and error text are those of the changes in order, and the watcher watches exactly what the target reaches in the graph of the last relevant change |
| Coordinator.Rerun | rerun.go:213-315 | a target that does not resolve or is not `main` is rejected with no steps; otherwise the steps are the initial pass followed by the event loop seeded with install's error text; the first watcher is built from the import graph after the initial install, and the watch set is exact |
| Coordinator.OnChangeAsWritten | rerun.go:293-298 | as written, a change rescans and installs, and carries install's output on as the error text |
| Coordinator.AsWrittenNeverRestarts | rerun.go:293-298 | as written, no change ever requests a restart, and install is the only command a change runs |
| Coordinator.CleanChangeNotRestarted | rerun.go:293-298 | a change with a clean install, running allowed and no tests is not restarted as written, but is restarted as intended |

## Left out

- Running commands and buffering their output are not modelled. Each command's combined output and error are inputs (`CmdResult`).
- Logging (`logln`, `logf`, "tests passed", "build passed", "change -->") is not modelled; only what reaches standard output is kept as `Print` steps.
- fsnotify is reduced to the list of directories a watcher watches. These are not modelled: its event and error channels, `Close`, and the goroutines that drain a retired watcher's channels.
- A failure of `fsnotify.NewWatcher` is not modelled, nor the return of `rerun` with that error.
- The watchdog goroutine of `run` is not modelled, nor its data race on `proc` and `restarting`. Concurrency has no meaning in this sequential model. The watchdog skips its work while `restarting` is set (rerun.go:148-150). The first request sets `restarting` (rerun.go:165), and the reset is deferred until `run` returns, which it never does (rerun.go:166). So from the first request on, the watchdog neither waits on a child that quit nor relaunches it. It can only act before that first request.
- The `runch` channel is not modelled; the requests the handler receives are an input sequence.
- Supervisor.Runner.Handle: the deferred reset of `restarting` is left out, because it only runs when `run` returns, which it never does.
- Starting the child is not modelled. Its `Start` answer, a handle or none, is an input of each request, and so is whether the interrupt could be sent.
- `os.Getenv("GOBIN")` is a parameter of `Rerun`. Coordinator.BinPath joins the directory and the binary name with one '/': the cleaning done by `filepath.Join` (repeated or trailing separators, `.` and `..`, an empty name) is left out.
- Flag parsing in `main`, the usage check, and the forwarding of the program's arguments are not modelled.
- The endless event loop is modelled over a finite sequence of changes: the outcome is that of the changes observed so far.
- The import graph is an input at three points: when `rerun` starts, after the initial install, and at each rescan. How `go get` changes it is not modelled.
- `filepath.Ext` is modelled for '/'-separated paths only.

## Findings

| source | as written | input that shows it | evidently intended | confidence | as-written member | corrected member |
|---|---|---|---|---|---|---|
| rerun.go:293-298 | `installed` is only ever assigned from `install`'s first result, which `install` never sets, so it is always false and the loop always continues before the tests, the build and the restart request | a change to a `.go` file after which `go get` prints nothing and exits cleanly, without `--test` and without `--no-run`: no restart is requested, and the running program stays the old one | `installed` is true when install reported no error, so the tests, the build and the restart request of rerun.go:300-314 follow, as they do in the initial pass | high; not executed | Coordinator.CleanChangeNotRestarted | Coordinator.ChangeRestarts |
