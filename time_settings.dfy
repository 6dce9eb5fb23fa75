/**
 * `TimeSettings`: an environment component holding the step length, the
 * number of steps per frame and the paused flag, whose setter announces
 * every assignment on the environment's event system.
 */
module Timing {
  import opened Wrappers
  import opened Events
  import opened Simulation

  /** The default step length, 1/60. */
  const DefaultDt: real := 1.0 / 60.0

  class TimeSettings {
    /** The EnvironmentComponent part: its `environment` back-reference. */
    const base: Component
    /** Step length; stored as given, without validation. */
    var dt: real
    /** Steps per frame; stored as given, without validation. */
    var stepsPerFrame: int
    var paused: bool

    /** `TimeSettings(dt, steps_per_frame, paused)`: stores the fields and raises nothing. */
    constructor (dt: real, stepsPerFrame: int, paused: bool)
      ensures this.dt == dt && this.stepsPerFrame == stepsPerFrame && this.paused == paused
      ensures fresh(base) && base.kind == EnvironmentComponent && base.environment == null && !base.isSetUp
    {
      this.dt := dt;
      this.stepsPerFrame := stepsPerFrame;
      this.paused := paused;
      base := new Component(EnvironmentComponent);
    }

    /** `TimeSettings()` with its defaults. */
    constructor Default()
      ensures dt == DefaultDt && stepsPerFrame == 1 && !paused
      ensures fresh(base) && base.kind == EnvironmentComponent && base.environment == null
    {
      dt := DefaultDt;
      stepsPerFrame := 1;
      paused := false;
      base := new Component(EnvironmentComponent);
    }

    /** The event system of the environment this component is attached to. */
    function Bus(): EventSystem?
      reads base
    {
      if base.environment == null then null else base.environment.events
    }

    /**
     * The `paused` setter: stores the value, then raises PauseEvent or
     * UnpauseEvent, even when the value did not change. Without an
     * environment the store happens and the raise fails.
     */
    method SetPaused(value: bool) returns (r: Outcome)
      modifies this`paused, Bus()
      ensures paused == value
      ensures Bus() == null ==> r == Fail(AttributeError)
      ensures Bus() != null ==>
        && r == Pass
        && Bus().raised == old(Bus().raised) + [Event(if value then Pause else Unpause)]
        && Bus().listeners == old(Bus().listeners)
    {
      paused := value;
      var bus := Bus();
      if bus == null {
        return Fail(AttributeError);
      }
      if value {
        var _ := bus.RaiseEvent(Event(Pause));
      } else {
        var _ := bus.RaiseEvent(Event(Unpause));
      }
      r := Pass;
    }
  }
}
