/** The WeCare app's own copy of the splashscreen coordination
    (apps/wecare/src-tauri/src/lib.rs). Its `set_complete` is the same state
    machine as the shared crate's, so its class is proved against the same
    `Step`, and every fact proved about `Step` holds for it. */
module WecareSetup {
  import opened Common
  import opened SplashSetup

  class SetupState {
    var frontendTask: bool
    var backendTask: bool

    function State(): Flags
      reads this
    {
      Flags(frontendTask, backendTask)
    }

    /** The state `run` hands to the builder: both flags down. */
    constructor ()
      ensures State() == Initial
    {
      frontendTask := false;
      backendTask := false;
    }

    method SetComplete(task: string) returns (result: Result<(), string>, action: WindowAction)
      modifies this
      ensures Step(old(State()), task) == Outcome(result, State(), action)
    {
      match task {
        case "frontend" =>
          frontendTask := true;
        case "backend" =>
          backendTask := true;
        case _ =>
          return Err("Invalid task"), NoWindowChange;
      }
      if frontendTask && backendTask {
        action := DestroySplashShowMain;
      } else {
        action := NoWindowChange;
      }
      result := Ok(());
    }

    /** `setup`: marks the backend task complete and returns `Ok` whatever
        `set_complete` returned. */
    method Setup() returns (result: Result<(), ()>, action: WindowAction)
      modifies this
      ensures result == Ok(())
      ensures State() == old(State()).(backendTask := true)
      ensures action == ActionFor(State())
    {
      var _, a := SetComplete("backend");
      action := a;
      result := Ok(());
    }
  }
}
