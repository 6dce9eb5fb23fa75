/**
 * `DefaultUpdater`: the frame loop. Unless paused, it advances the
 * environment `steps_per_frame` times; then it renders once.
 */
module Updater {
  import opened Wrappers
  import opened Events
  import opened Simulation
  import opened Timing

  /** `n` copies of `e`. */
  function Repeat(e: Event, n: nat): (r: seq<Event>)
    ensures |r| == n && forall i :: 0 <= i < n ==> r[i] == e
  {
    if n == 0 then [] else Repeat(e, n - 1) + [e]
  }

  /**
   * The events one frame raises: `steps_per_frame` advances (none when paused
   * or when the count is not positive), then exactly one render, last.
   */
  function FrameEvents(paused: bool, stepsPerFrame: int): (r: seq<Event>)
    ensures |r| == 1 + (if paused || stepsPerFrame <= 0 then 0 else stepsPerFrame)
    ensures r[|r| - 1] == Event(EventType.Render)
    ensures forall i :: 0 <= i < |r| - 1 ==> r[i] == Event(AdvanceTimeStep)
  {
    (if paused || stepsPerFrame <= 0 then [] else Repeat(Event(AdvanceTimeStep), stepsPerFrame))
      + [Event(EventType.Render)]
  }

  class DefaultUpdater {
    const environment: SimEnvironment
    const timeSettings: TimeSettings

    constructor (environment: SimEnvironment, timeSettings: TimeSettings)
      ensures this.environment == environment && this.timeSettings == timeSettings
    {
      this.environment := environment;
      this.timeSettings := timeSettings;
    }

    /**
     * `update`: the advances of one frame, then the render. A failing
     * advance ends the frame early, as the exception would.
     */
    method Update() returns (r: Outcome)
      requires environment.MarkedWellFormed()
      modifies environment`toBeDestroyed, environment`simObjects
      modifies environment.toBeDestroyed`components, environment.toBeDestroyed`environment
      modifies ComponentsOf(environment.toBeDestroyed), environment.events
      ensures r == Pass ==>
        environment.events.raised == old(environment.events.raised) + FrameEvents(timeSettings.paused, timeSettings.stepsPerFrame)
      ensures r == Pass && !timeSettings.paused && timeSettings.stepsPerFrame > 0 ==>
        && environment.toBeDestroyed == {}
        && environment.simObjects == old(environment.simObjects) - old(environment.toBeDestroyed)
      ensures r == Pass && (timeSettings.paused || timeSettings.stepsPerFrame <= 0) ==>
        environment.simObjects == old(environment.simObjects) && environment.toBeDestroyed == old(environment.toBeDestroyed)
    {
      if !timeSettings.paused {
        var i := 0;
        while i < timeSettings.stepsPerFrame
          invariant 0 <= i && (if timeSettings.stepsPerFrame > 0 then i <= timeSettings.stepsPerFrame else i == 0)
          invariant environment.MarkedWellFormed()
          invariant environment.events.raised == old(environment.events.raised) + Repeat(Event(AdvanceTimeStep), i)
          invariant i > 0 ==> environment.toBeDestroyed == {}
          invariant environment.simObjects == old(environment.simObjects) - (if i == 0 then {} else old(environment.toBeDestroyed))
          invariant i == 0 ==> environment.toBeDestroyed == old(environment.toBeDestroyed)
          invariant i == 0 ==> forall o :: o in environment.toBeDestroyed ==> o.components == old(o.components)
        {
          r := environment.Advance();
          if r.Fail? {
            return;
          }
          i := i + 1;
        }
        assert Repeat(Event(AdvanceTimeStep), i)
          == if timeSettings.stepsPerFrame <= 0 then [] else Repeat(Event(AdvanceTimeStep), timeSettings.stepsPerFrame);
      }
      var _ := environment.Render();
      r := Pass;
    }
  }

  /** `DefaultUpdater(environment)`: the TimeSettings lookup must succeed, or ValueError. */
  method NewDefaultUpdater(environment: SimEnvironment, found: Option<TimeSettings>) returns (r: Result<DefaultUpdater>)
    ensures found.None? <==> r.Err?
    ensures r.Err? ==> r.error == ValueError
    ensures r.Ok? ==> r.value.environment == environment && r.value.timeSettings == found.value
  {
    if found.None? {
      return Err(ValueError);
    }
    var u := new DefaultUpdater(environment, found.value);
    r := Ok(u);
  }
}
