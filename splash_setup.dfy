/** Splashscreen coordination in the shared Tauri crate
    (packages/tauri-core/src/lib.rs): two completion flags, one per setup
    task. `set_complete` raises the named flag, rejects any other task name,
    and on every successful call after which both flags are up it destroys the
    splashscreen and shows the main window. The window block is compiled
    only into desktop builds (`#[cfg(desktop)]`); the model is the desktop
    build. The window operations are returned as an action; the mutex that
    serializes calls and the log lines are not modelled. */
module SplashSetup {
  import opened Common

  datatype Flags = Flags(frontendTask: bool, backendTask: bool)

  /** `SetupState::new()`. */
  const Initial: Flags := Flags(false, false)

  /** The labels of the windows `set_complete` looks up. */
  const SplashWindowLabel: string := "splashscreen"
  const MainWindowLabel: string := "main"

  /** What `set_complete` does to the windows: nothing, or destroy the window
      labelled `SplashWindowLabel` and show the one labelled `MainWindowLabel`. */
  datatype WindowAction = NoWindowChange | DestroySplashShowMain

  /** The result of one `set_complete` call: its return value, the flags
      after it, and the window action it performed. */
  datatype Outcome = Outcome(result: Result<(), string>, flags: Flags, action: WindowAction)

  function ActionFor(flags: Flags): WindowAction
  {
    if flags.frontendTask && flags.backendTask then DestroySplashShowMain else NoWindowChange
  }

  /** One `set_complete(task)` call on the state `flags`. */
  function Step(flags: Flags, task: string): Outcome
  {
    match task
    case "frontend" =>
      var next := flags.(frontendTask := true);
      Outcome(Ok(()), next, ActionFor(next))
    case "backend" =>
      var next := flags.(backendTask := true);
      Outcome(Ok(()), next, ActionFor(next))
    case _ => Outcome(Err("Invalid task"), flags, NoWindowChange)
  }

  predicate KnownTask(task: string)
  {
    task == "frontend" || task == "backend"
  }

  // ---------------------------------------------------------------------------
  // What one call promises
  // ---------------------------------------------------------------------------

  /** `"frontend"` raises only the frontend flag and `"backend"` only the
      backend flag; both calls succeed. */
  lemma KnownTaskSetsOnlyItsFlag(flags: Flags)
    ensures Step(flags, "frontend").result == Ok(())
    ensures Step(flags, "frontend").flags == Flags(true, flags.backendTask)
    ensures Step(flags, "backend").result == Ok(())
    ensures Step(flags, "backend").flags == Flags(flags.frontendTask, true)
  {
  }

  /** Any other task name is rejected with "Invalid task" and changes nothing. */
  lemma UnknownTaskRejected(flags: Flags, task: string)
    requires !KnownTask(task)
    ensures Step(flags, task) == Outcome(Err("Invalid task"), flags, NoWindowChange)
  {
  }

  /** A call succeeds exactly when the task name is known. */
  lemma StepOkIffKnown(flags: Flags, task: string)
    ensures Step(flags, task).result.Ok? <==> KnownTask(task)
  {
  }

  /** Flags never go from true back to false. */
  lemma StepMonotone(flags: Flags, task: string)
    ensures flags.frontendTask ==> Step(flags, task).flags.frontendTask
    ensures flags.backendTask ==> Step(flags, task).flags.backendTask
  {
  }

  /** The windows change exactly on a successful call after which both flags
      are up. */
  lemma ActionIffBothDone(flags: Flags, task: string)
    ensures var o := Step(flags, task);
      o.action == DestroySplashShowMain <==> o.result.Ok? && o.flags.frontendTask && o.flags.backendTask
  {
  }

  /** Once both flags are up, every later successful call repeats the action. */
  lemma ActionRepeats(task: string)
    requires KnownTask(task)
    ensures Step(Flags(true, true), task).action == DestroySplashShowMain
  {
  }

  // ---------------------------------------------------------------------------
  // Sequences of calls
  // ---------------------------------------------------------------------------

  /** The flags after the calls `tasks`, in order. */
  function Run(flags: Flags, tasks: seq<string>): Flags
    decreases |tasks|
  {
    if tasks == [] then flags else Run(Step(flags, tasks[0]).flags, tasks[1..])
  }

  /** A flag is up after a run exactly when it was up before or its task
      occurs in the run: order, repetitions and invalid names do not matter. */
  lemma {:induction false} RunRaisesCalledFlags(flags: Flags, tasks: seq<string>)
    ensures Run(flags, tasks) == Flags(flags.frontendTask || "frontend" in tasks, flags.backendTask || "backend" in tasks)
    decreases |tasks|
  {
    if tasks != [] {
      RunRaisesCalledFlags(Step(flags, tasks[0]).flags, tasks[1..]);
      assert tasks == [tasks[0]] + tasks[1..];
    }
  }

  lemma {:induction false} RunSplit(flags: Flags, tasks: seq<string>, k: nat)
    requires k < |tasks|
    ensures Run(flags, tasks[..k + 1]) == Step(Run(flags, tasks[..k]), tasks[k]).flags
    decreases k
  {
    if k > 0 {
      assert tasks[..k + 1][1..] == tasks[1..][..k];
      assert tasks[..k][1..] == tasks[1..][..k - 1];
      RunSplit(Step(flags, tasks[0]).flags, tasks[1..], k - 1);
    }
  }

  /** Starting from a fresh state, call `k` of a run shows the main window
      exactly when that call is valid and both task names have occurred up
      to and including it. */
  lemma ActionAtCall(tasks: seq<string>, k: nat)
    requires k < |tasks|
    ensures Step(Run(Initial, tasks[..k]), tasks[k]).action == DestroySplashShowMain <==>
      KnownTask(tasks[k]) && "frontend" in tasks[..k + 1] && "backend" in tasks[..k + 1]
  {
    RunSplit(Initial, tasks, k);
    RunRaisesCalledFlags(Initial, tasks[..k + 1]);
    ActionIffBothDone(Run(Initial, tasks[..k]), tasks[k]);
  }

  // ---------------------------------------------------------------------------
  // The managed state
  // ---------------------------------------------------------------------------

  class SetupState {
    var frontendTask: bool
    var backendTask: bool

    function State(): Flags
      reads this
    {
      Flags(frontendTask, backendTask)
    }

    /** `SetupState::new()`: both flags down. */
    constructor New()
      ensures State() == Initial
    {
      frontendTask := false;
      backendTask := false;
    }

    /** `set_complete(task)`: its result, new state and window action are
        those of `Step`. */
    method SetComplete(task: string) returns (result: Result<(), string>, action: WindowAction)
      modifies this
      ensures Step(old(State()), task) == Outcome(result, State(), action)
    {
      match task {
        case "frontend" =>
          frontendTask := true;
        case "backend" =>
          backendTask := true;
        case _ =>
          return Err("Invalid task"), NoWindowChange;
      }
      if frontendTask && backendTask {
        action := DestroySplashShowMain;
      } else {
        action := NoWindowChange;
      }
      result := Ok(());
    }

    /** `default_backend_setup`: marks the backend task complete, discards
        the result of `set_complete`, and always returns `Ok`. */
    method DefaultBackendSetup() returns (result: Result<(), ()>, action: WindowAction)
      modifies this
      ensures result == Ok(())
      ensures State() == old(State()).(backendTask := true)
      ensures action == ActionFor(State())
    {
      var _, a := SetComplete("backend");
      action := a;
      result := Ok(());
    }
  }
}
