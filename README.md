# Sophysics2D, modelled in Dafny

Sophysics2D is a small 2D physics sandbox built on a component kernel.
A `SimEnvironment` holds `SimObject`s and environment-level components.
Each `SimObject` owns a `Transform` and any number of components.
Components are set up when they join a set-up environment and torn down with a two-hook `destroy`.
They talk to each other over an event bus that dispatches on an event's exact type.
A physics manager runs a fixed sequence of phases per step around an external physics backend.
It folds the answers of collision listeners into a veto.
Forces, a merge-on-collision listener, a trail renderer and reference frames react to the physics events.
The scene can be saved to a dictionary and loaded back with per-field validation.
The repository also keeps three older generations of the kernel (`Engine`, `Sophysics2D`, `Projects/MyLibraries/Sophysics2D`).
Their containers, registries and search algorithms differ from the current one.

This project models that behaviour in Dafny and proves it against contracts.
State that the source updates in place becomes classes with `modifies` clauses.
Pure validation and arithmetic become functions with named results.
Lemmas relate the operations: inverses, round trips, preserved invariants, and "exactly once".

| module | file | models |
|---|---|---|
| `Wrappers` | `wrappers.dfy` | the Python exceptions raised, `Option`, `Result`, and `Outcome` for a statement that passes or raises |
| `Values` | `values.dfy` | Python/JSON values: bool as an int, NaN and infinities explicit, dicts and lists |
| `Vectors` | `vectors.dfy` | 2D vectors over `real`, squared distances |
| `Helpers` | `helper_functions.dfy` | `sophysics_engine/helper_functions.py`, and the same code in `Sophysics2D/helperFunctions.py` |
| `Events` | `event_system.dfy` | `sophysics_engine/event_system.py`, and the same code in `Engine/Sophysics2DEventSystem.py` |
| `Simulation` | `simulation.dfy` | `component.py`, `component_container.py`, `simulation.py`, `monobehavior.py`, `global_behavior.py` |
| `Timing` | `time_settings.dfy` | `sophysics_engine/time_settings.py` |
| `Updater` | `env_updater.dfy` | `defaults/env_updater.py` |
| `Physics` | `physics.dfy` | `sophysics_engine/physics.py` over an abstract backend space |
| `Forces` | `forces.dfy` | `defaults/constant_acceleration.py` and `defaults/attraction.py` |
| `Merging` | `merge_on_collision.dfy` | `application/merge_on_collision.py` |
| `Trails` | `trail_renderer.dfy` | `application/trail_renderer.py` |
| `ReferenceFrames` | `reference_frame.dfy` | `application/reference_frame.py` |
| `Rendering` | `rendering.dfy` | `sophysics_engine/rendering.py` |
| `Borders` | `border_factory.dfy` | `defaults/border_factory.py`, and the same code in `Engine/Sophysics2D.py:211-258` |
| `Saving` | `save_simulation.dfy` | `application/save_simulation.py` |
| `Loader` | `simulation_loader.dfy` | `application/simulation_loader.py` |
| `EngineCore` | `engine_core.dfy` | `Engine/Sophysics2DCore.py` and `Engine/Sophysics2D.py` |
| `Sophysics2DCore` | `sophysics2d_core.dfy` | `Sophysics2D/Sophysics2DCore.py` and `Sophysics2D/Sophysics2D.py` |
| `ProjectsCore` | `projects_core.dfy` | `Projects/MyLibraries/Sophysics2D/Sophysics2DCore.py` and `Sophysics2D.py` |

Some conventions hold throughout the model:

- **Listeners.** A listener is an identity: the object whose bound method it is, and which of its handlers.
- **Dispatch.** Dispatch over a Python set visits the set's elements in an order the model leaves open. The call log records that order.
- **Lookups.** An environment lookup such as `get_component(TimeSettings)` reaches a method as a parameter holding its answer.
- **Backend.** The pymunk backend is a `Space` holding bodies and shapes. Its `Step` is opaque, and its results arrive as parameters.
- **Force classes.** `ConstantAcceleration` appears in three generations with the same setter and the same `F = m·a`. `Forces.ConstantAcceleration` models all of them. The second generation names the method `update` where the others name it `exert`.

Where the code and its docstrings disagree, the model follows the code:

- **`get_component`, second generation.** The docstring of `get_component` in `Sophysics2D/Sophysics2DCore.py` promises the first match. The loop has no `break`, so it returns the last match, and `Sophysics2DCore.LastMatchWins` states that.
- **`Transform` in the current kernel.** The class keeps the default sim-object teardown, which removes it from its owner's set. That is the root of the `SimObject.destroy` finding below.

## Model

| member | source | states |
|---|---|---|
| Helpers.ValidateNumber | sophysics_engine/helper_functions.py:7-14 | passes exactly for an int or a float (a bool counts as an int); anything else is a TypeError |
| Helpers.ValidatePositiveNumber | sophysics_engine/helper_functions.py:17-26 | TypeError exactly for a non-number; a finite number passes iff it is not below zero and is a ValueError otherwise; passing implies passing `validate_number` |
| Helpers.ValidatePositiveAcceptsZero | sophysics_engine/helper_functions.py:25-26 | zero (int, float and `False`) is accepted as a "positive" number |
| Helpers.ValidatePositiveNonFinite | sophysics_engine/helper_functions.py:25-26 | NaN and +inf pass the sign check, -inf is a ValueError |
| Helpers.IntervalsIntersectIff | sophysics_engine/helper_functions.py:30-36 | for well-formed inclusive intervals the test holds exactly when they share a point (both directions) |
| Helpers.IntervalsIntersectSymmetric | Sophysics2D/helperFunctions.py:28-35 | swapping the two intervals does not change the answer |
| Helpers.Clamp | sophysics_engine/helper_functions.py:39-45 | the result is never below the minimum, lies within the bounds when they are ordered, equals the value when it is already within them, and is one of the three inputs |
| Helpers.ClampIdempotent | sophysics_engine/helper_functions.py:39-45 | clamping a clamped value again changes nothing |
| Events.Subscribe | sophysics_engine/event_system.py:21-31 | the registry after `add_listener`: the type's set gains the listener, every other type's set is unchanged |
| Events.Unsubscribe | sophysics_engine/event_system.py:33-37 | the registry after a successful `remove_listener`: the type's set loses the listener, every other type's set is unchanged |
| Events.Enumerate | sophysics_engine/event_system.py:48 | iterating over a set lists each element exactly once |
| Events.EnumerationSize | sophysics_engine/event_system.py:48 | such a listing has as many entries as the set has elements |
| Events.CallsOf | sophysics_engine/event_system.py:48-49 | the call log of a dispatch has one call per listener, in listing order, each with the raised event |
| Events.DispatchExactlyOnce | sophysics_engine/event_system.py:39-49 | dispatch calls each listener registered for the event's exact type exactly once, and a listener of any other type (the superclass included) never |
| Events.SubscribeIdempotent | Engine/Sophysics2DEventSystem.py:27-30 | adding the same listener twice leaves a single registration (the listeners form a set) |
| Events.UnsubscribeUndoesSubscribe | sophysics_engine/event_system.py:21-37 | removing a newly added listener restores its type's set |
| Events.EventSystem.constructor | sophysics_engine/event_system.py:18-19 | a new event system has no listeners and has raised and called nothing |
| Events.EventSystem.AddListener | sophysics_engine/event_system.py:21-31 | a non-callable is a TypeError and changes nothing; a callable is added to its type's set, creating the set when missing |
| Events.EventSystem.RemoveListener | sophysics_engine/event_system.py:33-37 | succeeds exactly when the listener is registered for that type, then removes only it; otherwise a KeyError with nothing changed |
| Events.EventSystem.RaiseEvent | sophysics_engine/event_system.py:39-49 | records the event and calls, in some order, each listener of the event's exact type once; an unknown type calls nobody; the registry is unchanged |
| Events.EventSystem.Announce | sophysics_engine/event_system.py:39-43 | the event is recorded as raised before any listener is called |
| Events.EventSystem.RaiseEventInOrder | sophysics_engine/event_system.py:39-49 | for a given enumeration of the event's listeners, records the event and calls each listener once in that order; the registry is unchanged |
| Events.EventSystem.CallEach | sophysics_engine/event_system.py:48-49 | the loop calls every listener of the set exactly once and logs those calls in order |
| Timing.TimeSettings.constructor | sophysics_engine/time_settings.py:18-23 | stores `dt`, `steps_per_frame` and `paused` as given, without validation, and starts unattached |
| Timing.TimeSettings.Default | sophysics_engine/time_settings.py:18 | the defaults: `dt` = 1/60, one step per frame, not paused |
| Timing.TimeSettings.SetPaused | sophysics_engine/time_settings.py:29-35 | stores the flag, then raises PauseEvent or UnpauseEvent even when the value is unchanged; without an environment the store happens and the raise is an AttributeError |
| Updater.FrameEvents | defaults/env_updater.py:12-17 | one frame raises `steps_per_frame` advances (none when paused or when the count is not positive) and then exactly one render, last |
| Updater.DefaultUpdater.Update | defaults/env_updater.py:12-17 | the events raised are exactly `FrameEvents`; with the corrected object teardown, after at least one advance the destruction queue is empty and its objects have left the scene; without an advance the scene is unchanged |
| Updater.NewDefaultUpdater | defaults/env_updater.py:8-10 | a missing TimeSettings is a ValueError; otherwise the updater holds the environment and the settings found |
| Borders.Corners | defaults/border_factory.py:34-38 | four corners, in the factory's order, each on the top or bottom edge and on the left or right edge |
| Borders.Sides | defaults/border_factory.py:43-52 | four segments, each from a corner to the next around the loop, of mass 1 and the given elasticity |
| Borders.GetBorderObject | defaults/border_factory.py:11-58 | a ValueError exactly when `up < down`, `right < left`, or the layer is negative (the renderer's layer setter, sophysics_engine/rendering.py:256-258); otherwise a SimObject with the closed renderer over the corners, then a static body of the four sides, then the extra components |
| Borders.DegenerateBorderAccepted | defaults/border_factory.py:29-32 | equal bounds are accepted: a border may be a line or a point |
| Borders.BorderIsClosedLoop | defaults/border_factory.py:35-52 | the segments of an accepted border chain end to start round a closed loop, each axis-aligned, inside the bounds, with mass 1 and the given elasticity |
| Merging.Merge | application/merge_on_collision.py:18-25 | the merged mass is the sum; mass times the new velocity is the total momentum and mass times the new position the mass-weighted sum of positions; a zero total mass is a ZeroDivisionError |
| Merging.MergeWithMasslessAtRest | application/merge_on_collision.py:22-25 | merging with a massless body of the same position and velocity changes nothing |
| Merging.MergeOnCollision.Begin | application/merge_on_collision.py:8-34 | always vetoes the collision; the lighter side (or the first to run at equal mass) only schedules its own object for destruction and keeps its mass; the heavier side takes the merged mass (on the body and on one of its shapes), velocity and position |
| Events.EventSystem.ClearListeners | sophysics_engine/simulation.py:145 | the `clear_listeners` the environment's teardown calls: afterwards no listener is registered for any event type |
| Updater.DefaultUpdater.constructor | defaults/env_updater.py:8-10 | holds the environment and its TimeSettings |
| Merging.MergeOnCollision.constructor | application/merge_on_collision.py:7 | a collision listener not yet attached to a body or an object |
| Simulation.AttachTo | sophysics_engine/component_container.py:20-31 | a non-component is a TypeError; otherwise the result is the old set plus exactly that component |
| Simulation.AttachTwice | sophysics_engine/component_container.py:31 | attaching the same instance again changes nothing: the container is a set |
| Simulation.RemoveFrom | sophysics_engine/component_container.py:33-37 | succeeds exactly when the component is attached, and then removes only it; otherwise a KeyError |
| Simulation.GetComponents | sophysics_engine/component_container.py:51-58 | lists every attached instance of the class, each once |
| Simulation.TryGetComponent | sophysics_engine/component_container.py:60-70 | None exactly when no attached component is an instance of the class; otherwise one that is |
| Simulation.GetComponent | sophysics_engine/component_container.py:39-49 | a ValueError exactly when no instance is attached; otherwise an attached instance of the class |
| Simulation.HasComponent | sophysics_engine/component_container.py:72-76 | true exactly when some attached component is an instance of the class |
| Simulation.Component.constructor | sophysics_engine/component.py:13-14 | a new component is not set up, has run no hook and has no container |
| Simulation.Component.Setup | sophysics_engine/component.py:23-31 | sets the flag (a second call is not refused); a MonoBehavior or GlobalBehavior then adds its update handler to EnvironmentUpdateEvent and runs `_start`, or is an AttributeError without an event system (sophysics_engine/monobehavior.py:8-11) |
| Simulation.Component.Destroy | sophysics_engine/component.py:33-38 | runs `_on_destroy` then `_after_destroy`: a plain component detaches itself from its container and clears the back-reference; a behaviour runs `_end` and unsubscribes; an exception in `_on_destroy` skips `_after_destroy` (sophysics_engine/simulation.py:257-297) |
| Simulation.Component.DetachFromSimObject | sophysics_engine/simulation.py:294-295 | the default `_on_destroy` of a sim-object component: without a sim object an AttributeError, otherwise it leaves that object's set and its back-reference is cleared |
| Simulation.Component.EndAndUnsubscribe | sophysics_engine/monobehavior.py:34-36 | a behaviour's teardown runs `_end`, then removes its update handler: a KeyError exactly when the handler is not registered, an AttributeError without an event system |
| Simulation.Component.SetPosition | sophysics_engine/simulation.py:317-320 | the Transform position setter stores the value |
| Simulation.SimObject.New | sophysics_engine/simulation.py:152-161 | an environment component among the arguments is an AttributeError; otherwise the object holds exactly the given components plus a Transform, a fresh one only when none was given, and has its tag and no environment |
| Simulation.SimObject.AttachEnvironment | sophysics_engine/simulation.py:170-177 | stores the environment reference |
| Simulation.SimObject.RemoveEnvironment | sophysics_engine/simulation.py:179-183 | clears the environment reference |
| Simulation.SimObject.AttachComponent | sophysics_engine/simulation.py:198-206 | an environment component is an AttributeError that changes nothing; otherwise the component points back here, is added, and is set up exactly when the environment is already set up |
| Simulation.SimObject.DestroyOwned | sophysics_engine/simulation.py:219-220 | one step of the teardown loop: a Transform or plain component detaches itself from the set; a MonoBehavior stays in the set and only unsubscribes |
| Simulation.SimObject.DestroyComponents | sophysics_engine/simulation.py:219-220 | over a snapshot of the set, every component runs its destroy hooks once and loses its back-reference, and no destroyed MonoBehavior remains subscribed |
| Simulation.SimObject.Destroy | sophysics_engine/simulation.py:212-223 | the corrected teardown: without an environment it fails; on success the component set is empty and the object has left its environment's set |
| Simulation.SimObject.DestroyAsWritten | sophysics_engine/simulation.py:212-223 | the loop as written iterates over the live set that any non-MonoBehavior teardown (the Transform's, say) shrinks, so an object holding such a component always fails and stays in its environment, with a RuntimeError when it holds no MonoBehavior; only an object of MonoBehaviors alone is cleared and leaves |
| Simulation.SimObject.RemoveComponent | sophysics_engine/simulation.py:208-210 | clears the component's back-reference, then removes it: a KeyError when it was not attached, an AttributeError for an environment component |
| Simulation.SimEnvironment.New | sophysics_engine/simulation.py:19-38 | attaches the objects, then the components, then sets everything up; it succeeds exactly when no component is a sim-object component (otherwise the AttributeError of attaching it), and then every component is set up, every behaviour is subscribed, and the flag is raised |
| Simulation.SimEnvironment.Empty | sophysics_engine/simulation.py:25-32 | the allocation: no objects, no components, nothing scheduled, a fresh empty event system, not set up |
| Simulation.SimEnvironment.AttachSimObjects | sophysics_engine/simulation.py:34-35 | before set-up, each object is attached and nothing is set up or raised |
| Simulation.SimEnvironment.AttachComponents | sophysics_engine/simulation.py:37 | before set-up, the components are attached in order and point back here; it fails exactly when one is a sim-object component, with AttributeError, leaving attached only those before the first such |
| Simulation.SimEnvironment.SetupAll | sophysics_engine/simulation.py:91-102 | every environment component and every object component is set up once (behaviours subscribed, `_start` run once) before the flag is raised; no subscription is lost and nothing is raised |
| Simulation.SimEnvironment.SetupSimObjects | sophysics_engine/simulation.py:98-100 | the components of every attached object are set up, each behaviour once |
| Simulation.SimEnvironment.SetupEnvironmentComponents | sophysics_engine/simulation.py:95-96 | every environment component is set up, each behaviour once |
| Simulation.SimEnvironment.SetupOne | sophysics_engine/component.py:23-31 | one `setup` call against this environment's event system |
| Simulation.SimEnvironment.SetupComponentsOf | sophysics_engine/simulation.py:66-67 | every component of one object is set up |
| Simulation.SimEnvironment.AttachSimObject | sophysics_engine/simulation.py:58-67 | the object points here and is added; its components are set up exactly when the environment is already set up, and otherwise untouched |
| Simulation.SimEnvironment.RemoveSimObject | sophysics_engine/simulation.py:69-74 | clears the object's environment, then removes it: a KeyError when it was not attached |
| Simulation.SimEnvironment.AttachComponent | sophysics_engine/simulation.py:77-85 | a sim-object component is an AttributeError that changes nothing; otherwise the component points here, is added, and is set up when the environment is set up |
| Simulation.SimEnvironment.RemoveComponent | sophysics_engine/simulation.py:87-89 | clears the back-reference, then removes the component: a KeyError when it was not attached |
| Simulation.SimEnvironment.DestroyAfterStep | sophysics_engine/simulation.py:104-108 | adds the object to the destruction schedule; scheduling twice is the same as once |
| Simulation.SimEnvironment.DestroyMarked | sophysics_engine/simulation.py:110-114 | with the corrected object teardown: every scheduled object is destroyed and leaves the scene, and then the schedule is empty; on failure the schedule is kept |
| Simulation.SimEnvironment.Advance | sophysics_engine/simulation.py:116-121 | raises AdvanceTimeStepEvent, then destroys the scheduled objects with the corrected object teardown |
| Simulation.SimEnvironment.Update | sophysics_engine/simulation.py:123-127 | raises EnvironmentUpdateEvent: each subscribed behaviour's handler is called exactly once, and an unsubscribed one never |
| Simulation.SimEnvironment.Render | sophysics_engine/simulation.py:129-133 | raises RenderEvent and reaches each render listener once |
| Simulation.SimEnvironment.DestroyContents | sophysics_engine/simulation.py:139-143 | with the corrected object teardown: every object is destroyed and leaves; every environment component runs its destroy hooks and loses its back-reference; only GlobalBehaviors stay in the component set |
| Simulation.SimEnvironment.DestroySimObjects | sophysics_engine/simulation.py:139-140 | over a copy of the set, each object is destroyed with the corrected object teardown and the set ends empty |
| Simulation.SimEnvironment.DestroyAttached | sophysics_engine/global_behavior.py:34-36 | one environment component's teardown: a plain one leaves the set, a GlobalBehavior unsubscribes and stays |
| Simulation.SimEnvironment.DestroyEnvironmentComponents | sophysics_engine/simulation.py:142-143 | over a copy of the set, each environment component is destroyed; only GlobalBehaviors remain in the set |
| Simulation.SimEnvironment.Destroy | sophysics_engine/simulation.py:135-145 | the corrected teardown: objects and components destroyed as above, and then no listener is registered for any event type |
| Simulation.SimEnvironment.DestroyAsWritten | sophysics_engine/simulation.py:135-145 | as written the teardown always fails: with any objects attached, none of which holds a MonoBehavior, the first object's own destroy raises RuntimeError and every object stays; past both loops the missing `clear_listeners` raises AttributeError |
| Simulation.DestroyThenUpdate | sophysics_engine/monobehavior.py:13-36 | once a MonoBehavior's teardown has passed, the next EnvironmentUpdateEvent does not call its handler |
| Physics.AndAnswers | sophysics_engine/physics.py:311-316 | the fold is true exactly when no answer is an explicit false; an answer of None counts as acceptance |
| Physics.AnswersOf | sophysics_engine/physics.py:312-313 | one answer per listener, in the order the listeners are visited |
| Physics.VetoAbsorbs | sophysics_engine/physics.py:314 | once one listener has answered false, no later answer can make the fold true again |
| Physics.AbstainNeutral | sophysics_engine/physics.py:314 | listeners that answer None never change the fold |
| Physics.FoldOfEnumeration | sophysics_engine/physics.py:304-316 | whatever order the set is visited in, the fold accepts exactly when no listener of the set vetoes |
| Physics.RigidBody.constructor | sophysics_engine/physics.py:144-164 | a fresh, unset-up component with a fresh backend body of the given type, no transform, no space, no listeners; every shape points back at the body |
| Physics.RigidBody.AttachShape | sophysics_engine/physics.py:241-252 | a non-shape is a TypeError; a shape points at the body and joins the set, and joins the space only once the component is set up |
| Physics.RigidBody.RemoveShape | sophysics_engine/physics.py:254-265 | a non-shape is a TypeError; when set up the shape leaves the space; the shape is detached and removed from the set |
| Physics.RigidBody.Setup | sophysics_engine/physics.py:166-182 | marks the component set up; without a sim object or event system it is an AttributeError, without a PhysicsManager a ValueError; otherwise the body and all shapes join the manager's space, the body moves to the transform, and both synchronisation listeners are subscribed |
| Physics.RigidBody.SyncTransform | sophysics_engine/physics.py:190-196 | the transform takes the body's position and angle; no transform is an AttributeError |
| Physics.RigidBody.SyncBody | sophysics_engine/physics.py:198-205 | the body takes the transform's position and rotation; a missing transform or space is an AttributeError |
| Physics.RigidBody.SyncRoundTrip | sophysics_engine/physics.py:190-205 | synchronising the body from the transform and back leaves the transform unchanged |
| Physics.RigidBody.SetMass | sophysics_engine/physics.py:274-278 | a negative mass is a ValueError and changes nothing; otherwise the body takes the mass |
| Physics.RigidBody.SetVelocity | sophysics_engine/physics.py:225-239 | the first two items become the velocity; fewer than two cannot be unpacked and change nothing |
| Physics.RigidBody.ApplyForce | sophysics_engine/physics.py:280-287 | the first two items are applied to the body, in order after earlier forces; fewer than two is an IndexError |
| Physics.RigidBody.AttachCollisionListener | sophysics_engine/physics.py:289-296 | a non-listener is a TypeError; otherwise the listener joins the set |
| Physics.RigidBody.RemoveCollisionListener | sophysics_engine/physics.py:298-302 | a non-listener is a TypeError; otherwise it leaves the set, and removing one that is not there is a KeyError |
| Physics.RigidBody.CollisionFold | sophysics_engine/physics.py:304-330 | every listener is called exactly once with the other body, whatever the earlier answers were, and the result is true exactly when none of them vetoes |
| Physics.RigidBody.FoldOver | sophysics_engine/physics.py:311-315 | the loop delivers the callback to each listener once and computes the fold of their answers |
| Physics.RigidBody.CollisionNotify | sophysics_engine/physics.py:332-344 | every listener is called exactly once with the other body |
| Physics.RigidBody.OnDestroy | sophysics_engine/physics.py:353-358 | both synchronisation listeners are unsubscribed and the body and its shapes leave the space |
| Physics.CollisionListener.constructor | sophysics_engine/physics.py:78-81 | a fresh unset-up component with no rigid body and nothing received |
| Physics.CollisionListener.Setup | sophysics_engine/physics.py:83-85 | registers with the sim object's RigidBody and keeps a reference to it; no RigidBody is a ValueError; the set-up flag is left alone because the base setup is not called |
| Physics.CollisionListener.OnDestroy | sophysics_engine/physics.py:134-135 | the listener leaves its rigid body's set, and the call fails exactly when it was not in it; without a rigid body it is an AttributeError |
| Physics.Force.constructor | sophysics_engine/physics.py:47-49 | a fresh unset-up component with no rigid body |
| Physics.Force.Setup | sophysics_engine/physics.py:51-55 | marks set up, takes the RigidBody and subscribes the exert handler to the exert-forces event |
| Physics.Force.OnDestroy | sophysics_engine/physics.py:67-70 | the exert handler is no longer subscribed, the call fails exactly when it was not subscribed, and the rigid body reference is dropped |
| Physics.StepPhases | sophysics_engine/physics.py:454-460 | a step has five phases: four event announcements around one backend step in the middle |
| Physics.PhysicsManager.constructor | sophysics_engine/physics.py:387-392 | no event system, no TimeSettings, a fresh empty space |
| Physics.PhysicsManager.Setup | sophysics_engine/physics.py:437-442 | marks set up, takes TimeSettings and the event system, and subscribes to the advance-timestep event; no environment is an AttributeError, no TimeSettings a ValueError |
| Physics.PhysicsManager.AdvanceTimestep | sophysics_engine/physics.py:454-460 | raises sync-body and exert-forces, steps the space by dt, then raises sync-transform and post-physics-update, in that order; the listeners are unchanged; without TimeSettings it stops after the first two events |
| Physics.PhysicsManager.Announce | sophysics_engine/physics.py:456 | one event is raised and recorded; no listener is added or removed |
| Physics.PhysicsManager.ResolveAsWritten | sophysics_engine/physics.py:401-413 | the handler as written: body2's listeners hear of the collision only when body1's listeners all accepted |
| Physics.PhysicsManager.Resolve | sophysics_engine/physics.py:399-413 | every listener of both bodies hears of the collision exactly once per body it listens on, and the result is true exactly when no listener of either body vetoes |
| Physics.PhysicsManager.Begin | sophysics_engine/physics.py:401-406 | built on the corrected fold: a new contact goes ahead exactly when no listener of either body vetoes, and body2's listeners always hear of it |
| Physics.PhysicsManager.PreSolve | sophysics_engine/physics.py:408-413 | as Begin, built on the corrected fold, for each step of a continuing contact |
| Physics.PhysicsManager.NotifyBoth | sophysics_engine/physics.py:415-429 | every listener of body1 hears of body2, then every listener of body2 hears of body1 |
| Physics.PhysicsManager.OnDestroy | sophysics_engine/physics.py:462-464 | unsubscribes from the advance-timestep event, then leaves the environment |
| EngineCore.Component.constructor | Engine/Sophysics2DCore.py:19-20 | a component starts not set up, attached to nothing |
| EngineCore.Component.Setup | Engine/Sophysics2DCore.py:29-37 | the base setup marks the component set up |
| EngineCore.Component.OnDestroy | Engine/Sophysics2DCore.py:39-46 | the base on_destroy does nothing beyond being called once |
| EngineCore.SimObject.New | Engine/Sophysics2DCore.py:270-280 | an environment component among the arguments is an AttributeError; otherwise the object holds exactly the given components plus a Transform, a fresh one at the origin only when none was given, all pointing back at it, with its tag and no environment |
| EngineCore.SimObject.AttachComponent | Engine/Sophysics2DCore.py:319-327 | an environment component lacks attach_sim_object, an AttributeError that changes nothing; a sim-object component points back here, joins the set, and is set up through the base hook when the environment already is |
| EngineCore.SimObject.Destroy | Engine/Sophysics2DCore.py:333-344 | the base on_destroy runs once on every component, which all stay attached; the object then leaves its environment, failing with AttributeError without one and KeyError when the environment does not hold it |
| EngineCore.Environment.constructor | Engine/Sophysics2DCore.py:350-370 | an environment not yet set up, with no objects, components or scheduled objects |
| EngineCore.Environment.AttachSimObject | Engine/Sophysics2DCore.py:389-398 | the object points here and joins the set; its components are set up, through the base hook, when the environment is |
| EngineCore.Environment.RemoveSimObject | Engine/Sophysics2DCore.py:400-405 | the back-reference is cleared and the object leaves the set; an absent object is a KeyError |
| EngineCore.Environment.AttachComponent | Engine/Sophysics2DCore.py:408-416 | a sim-object component lacks attach_environment, an AttributeError that changes nothing; otherwise it points here, joins the set, and is set up through the base hook when the environment is |
| EngineCore.Environment.SetUpEach | Engine/Sophysics2DCore.py:428-433 | every component of the set ends up set up, through the base hook only |
| EngineCore.Environment.SetupAll | Engine/Sophysics2DCore.py:422-435 | every environment component and every component of every sim object is set up through the base hook, then the environment |
| EngineCore.Environment.DestroyAfterStep | Engine/Sophysics2DCore.py:437-441 | the object joins the schedule; scheduling it twice is the same as once |
| EngineCore.Environment.DestroySimObjects | Engine/Sophysics2DCore.py:443-448 | each scheduled object is destroyed, with base hooks, exactly once and leaves the environment, the schedule is emptied, and the destroyed objects keep their components |
| EngineCore.Manager.constructor | Engine/Sophysics2DCore.py:118-122 | a manager with no manageables whose declared type is Manageable when none is given |
| EngineCore.Manager.AttachManageable | Engine/Sophysics2DCore.py:131-138 | succeeds exactly for an instance of the declared type, which joins the set; anything else is a TypeError that changes nothing |
| EngineCore.Manager.RemoveManageable | Engine/Sophysics2DCore.py:140-141 | the manageable leaves the set; it succeeds exactly when it was there, otherwise a KeyError |
| EngineCore.Manager.UpdateManageables | Engine/Sophysics2DCore.py:143-145 | the base update fails exactly when there is a manageable, since no manageable defines the method it calls |
| EngineCore.Manageable.constructor | Engine/Sophysics2DCore.py:152-156 | a fresh manageable of the given manager class, with no manager; a renderer is active on its layer and records whether its `render` also takes the render manager |
| EngineCore.Manageable.Setup | Engine/Sophysics2DCore.py:165-168 | finds the manager (AttributeError without an environment, ValueError without a manager), stores it, registers with it, and is set up exactly when the registration passes the manager's type check |
| EngineCore.Manageable.OnDestroy | Engine/Sophysics2DCore.py:170-172 | leaves the manager's set, failing exactly when it was not registered; without a manager it is an AttributeError |
| EngineCore.SetupThenDestroy | Engine/Sophysics2DCore.py:165-172 | setting a manageable up and destroying it leaves its manager's registry as it was |
| EngineCore.MarkedExactly | Engine/Sophysics2DCore.py:984-986 | the flagged layers are listed each once, in increasing order, and no unflagged layer is listed |
| EngineCore.RenderManager.constructor | Engine/Sophysics2DCore.py:938-967 | a render manager for renderers, with no renderers and one unset flag per layer |
| EngineCore.RenderManager.UpdateManageables | Engine/Sophysics2DCore.py:969-986 | as written: the layers modified last time are cleared; the pass fails exactly when some active renderer is on a layer with no surface (IndexError) or has a `render` that also expects the render manager (TypeError, every circle renderer); otherwise each active renderer is drawn once and flags its layer, and exactly the flagged layers are blitted, in layer order |
| EngineCore.RenderManager.UpdateManageablesCorrected | Engine/Sophysics2DCore.py:969-986 | as intended, the manager is passed along: only a renderer on a layer with no surface fails (IndexError); otherwise each active renderer is drawn once, flags its layer, and exactly the flagged layers are blitted in layer order |
| EngineCore.RenderManager.DrawActive | Engine/Sophysics2DCore.py:978-981 | the layer is looked up before the call, so a missing surface is an IndexError and, when only the surface is passed, a renderer expecting the manager is a TypeError; fails exactly when some active renderer hits either; otherwise each active renderer is drawn once and a layer ends up flagged exactly when some active renderer is on it |
| EngineCore.RenderManager.ClearLayers | Engine/Sophysics2DCore.py:999-1006 | exactly the flagged layers are cleared, in layer order, and every flag is reset |
| EngineCore.RenderManager.FlaggedLayers | Engine/Sophysics2DCore.py:983-986 | the blitted layers are exactly the flagged ones, in layer order |
| EngineCore.NewRenderManager | Engine/Sophysics2DCore.py:938-991 | an invalid scale is rejected first, then fewer than one layer is a ValueError; otherwise one flag per layer and no renderers |
| EngineCore.CircleRenderer.New | Engine/Sophysics2D.py:11-15 | the radius is checked first and then the layer (a ValueError below zero); an active renderer for the render manager with that radius and layer, whose `render` takes the manager (Engine/Sophysics2D.py:36), is made exactly when both pass |
| EngineCore.CircleRenderer.SetRadius | Engine/Sophysics2D.py:24-27 | the radius changes exactly when it passes the positive-number check, whose error is returned otherwise |
| EngineCore.RigidBody.constructor | Engine/Sophysics2DCore.py:568-588 | the given shapes, or one default circle of mass 1 and elasticity 0.5 when none are given |
| EngineCore.RigidBody.Setup | Engine/Sophysics2DCore.py:590-606 | marks itself set up; without an environment an AttributeError, without a PhysicsManager a ValueError; otherwise its body and shapes join the manager's space, the body moves to the object's transform position (an AttributeError when there is no transform), and both synchronisation listeners are subscribed |
| EngineCore.RigidBody.OnDestroyAsWritten | Engine/Sophysics2DCore.py:778-783 | as written, the destroyed body is still subscribed to both synchronisation events |
| EngineCore.RigidBody.OnDestroy | Engine/Sophysics2DCore.py:778-783 | as intended, both synchronisation listeners are unsubscribed and the body and shapes leave the space |
| EngineCore.DestroyThenSyncAsWritten | Engine/Sophysics2DCore.py:778-783 | after the written on_destroy, the next synchronisation event still calls the destroyed body |
| EngineCore.DestroyThenSync | Engine/Sophysics2DCore.py:778-783 | after the intended on_destroy, the destroyed body is no longer called |
| EngineCore.CircleRenderPassAsWritten | Engine/Sophysics2DCore.py:978-981 | one layer holding one circle renderer: the written pass fails with TypeError |
| EngineCore.CircleRenderPassCorrected | Engine/Sophysics2DCore.py:978-981 | the same scene with the intended pass succeeds and blits layer 0 |
| EngineCore.EngineStepPhases | Engine/Sophysics2DCore.py:873-878 | the Engine step is the first four phases of the current step and has no post-physics event |
| EngineCore.PhysicsManager.constructor | Engine/Sophysics2DCore.py:812-817 | the given dt, no event system, a fresh empty space |
| EngineCore.PhysicsManager.Setup | Engine/Sophysics2DCore.py:862-864 | marks itself set up and takes the environment's event system |
| EngineCore.PhysicsManager.AdvanceTimestep | Engine/Sophysics2DCore.py:873-878 | raises the two pre-step events, steps the space by dt, raises the sync-transform event; the listeners are unchanged |
| EngineCore.DefaultEnvironment.constructor | Engine/Sophysics2D.py:119-122 | an environment with no manager references, before its setup |
| EngineCore.DefaultEnvironment.Setup | Engine/Sophysics2D.py:124-130 | fetches the render manager, then the physics manager, before the base setup; either missing is a ValueError that leaves the environment not set up; the base setup reaches base hooks only |
| EngineCore.DefaultEnvironment.Advance | Engine/Sophysics2D.py:132-134 | one physics step, then every scheduled object is destroyed, with base hooks, and leaves the environment |
| EngineCore.DefaultEnvironment.Render | Engine/Sophysics2D.py:136-141 | as written, rendering always fails: render_scene does not exist |
| EngineCore.DefaultEnvironment.RenderCorrected | Engine/Sophysics2D.py:136-141 | as intended, the corrected render pass, which succeeds exactly when every active renderer's layer exists, drawing each active renderer once |
| Sophysics2DCore.FirstIndex | Sophysics2D/Sophysics2DCore.py:144 | the position of the first occurrence: it holds the value and no earlier position does |
| Sophysics2DCore.RemoveFirst | Sophysics2D/Sophysics2DCore.py:144 | removing a present value takes away exactly one copy of it |
| Sophysics2DCore.ListRemove | Sophysics2D/Sophysics2DCore.py:140-144 | `list.remove` fails with ValueError exactly when the value is absent; otherwise one copy goes and the rest stays |
| Sophysics2DCore.RemoveUndoesAppend | Sophysics2D/Sophysics2DCore.py:127-144 | removing a component just attached, when it was not there before, restores the list |
| Sophysics2DCore.DoubleAttachSurvivesOneRemoval | Sophysics2D/Sophysics2DCore.py:127-144 | attaching twice stores two copies, and one removal leaves the other attached |
| Sophysics2DCore.Component.constructor | Sophysics2D/Sophysics2DCore.py:14-15 | a component starts not started, attached to nothing, at the origin with no rotation |
| Sophysics2DCore.Component.Start | Sophysics2D/Sophysics2DCore.py:24-30 | the base start marks the component started |
| Sophysics2DCore.LastMatchUnique | Sophysics2D/Sophysics2DCore.py:172-181 | the component a lookup finds is determined by the list and the class |
| Sophysics2DCore.LastMatchWins | Sophysics2D/Sophysics2DCore.py:172-181 | of two matching components the later one is found, although the docstring of get_component says the first |
| Sophysics2DCore.OfClassExactly | Sophysics2D/Sophysics2DCore.py:158-170 | get_components keeps exactly the instances of the class |
| Sophysics2DCore.TryGetComponent | Sophysics2D/Sophysics2DCore.py:172-181 | None exactly when no component is an instance of the class; otherwise the last instance |
| Sophysics2DCore.GetComponent | Sophysics2D/Sophysics2DCore.py:146-156 | the last instance, or a ValueError exactly when there is none |
| Sophysics2DCore.GetComponents | Sophysics2D/Sophysics2DCore.py:158-170 | every instance of the class in list order, duplicates kept, and nothing else |
| Sophysics2DCore.HasComponent | Sophysics2D/Sophysics2DCore.py:183-187 | true exactly when some component is an instance of the class |
| Sophysics2DCore.SimObject.constructor | Sophysics2D/Sophysics2DCore.py:216-225 | every component points back at the object; the transform is the last Transform given, or a new one appended when none was given |
| Sophysics2DCore.SimObject.AttachComponent | Sophysics2D/Sophysics2DCore.py:231-239 | the component is appended and points back here; it is started, through the base hook, when the environment has started |
| Sophysics2DCore.SimObject.RemoveComponent | Sophysics2D/Sophysics2DCore.py:241-243 | the back-reference is cleared even when the removal fails; removal takes the first copy and fails with ValueError exactly when absent |
| Sophysics2DCore.Environment.constructor | Sophysics2D/Sophysics2DCore.py:250-259 | the objects and components in the given order, each pointing back here, nothing started |
| Sophysics2DCore.Environment.AttachObject | Sophysics2D/Sophysics2DCore.py:268-274 | the object points here and is appended; its components are not started |
| Sophysics2DCore.Environment.AttachComponent | Sophysics2D/Sophysics2DCore.py:276-284 | the component points here and is appended, and is started through the base hook when the environment has started |
| Sophysics2DCore.Environment.RemoveComponent | Sophysics2D/Sophysics2DCore.py:286-288 | the back-reference is cleared; removal takes the first copy and fails with ValueError exactly when absent |
| Sophysics2DCore.Environment.Start | Sophysics2D/Sophysics2DCore.py:290-303 | starts every environment component, then every component of every object in order, a duplicate twice, then the environment, each through the base hook |
| Sophysics2DCore.Environment.StartObjects | Sophysics2D/Sophysics2DCore.py:298-300 | starts the components object by object through the base hook, and nothing already started is unstarted |
| Sophysics2DCore.Environment.StartEach | Sophysics2D/Sophysics2DCore.py:295-296 | starts each component of the list in order, through the base hook |
| Sophysics2DCore.AttachAfterStart | Sophysics2D/Sophysics2DCore.py:268-274 | an object attached after start keeps its components unstarted |
| Sophysics2DCore.Manager.constructor | Sophysics2D/Sophysics2DCore.py:67-71 | an empty registry whose declared type is Manageable when none is given |
| Sophysics2DCore.Manager.AttachManageable | Sophysics2D/Sophysics2DCore.py:80-87 | succeeds exactly for an instance of the declared type, which is appended; otherwise a TypeError that changes nothing |
| Sophysics2DCore.StartManageable | Sophysics2D/Sophysics2DCore.py:111-114 | finds the manager (AttributeError without an environment, ValueError without a manager), registers with it, and is started exactly when the registration passes the type check |
| Sophysics2DCore.ForceSteps | Sophysics2D/Sophysics2DCore.py:444-445 | one force update per attached force, in order |
| Sophysics2DCore.PostSteps | Sophysics2D/Sophysics2DCore.py:712-713 | one transform synchronisation per registered rigidbody, in order |
| Sophysics2DCore.PreStepsSyncEach | Sophysics2D/Sophysics2DCore.py:441-445 | every rigidbody's body is synchronised before the space steps, and no transform is synchronised then |
| Sophysics2DCore.RigidBody.constructor | Sophysics2D/Sophysics2DCore.py:406-427 | the given shapes, each bound to the body, or one default circle of mass 1 and elasticity 0.5 when none are given; no forces, no listeners |
| Sophysics2DCore.RigidBody.Start | Sophysics2D/Sophysics2DCore.py:429-439 | without an environment an AttributeError, without a RigidBodyManager a ValueError; otherwise it registers and is started, keeps the object's transform, its body and every shape join that manager's space, and the body moves to the transform's position (an AttributeError when there is no transform) |
| Sophysics2DCore.RigidBody.SyncBody | Sophysics2D/Sophysics2DCore.py:463-470 | the body takes the kept transform's position and rotation; without a transform it is an AttributeError and the body stays put |
| Sophysics2DCore.RigidBody.SyncTransform | Sophysics2D/Sophysics2DCore.py:455-461 | the transform takes the body's position and angle |
| Sophysics2DCore.RigidBody.AttachShape | Sophysics2D/Sophysics2DCore.py:507-518 | the shape is bound and appended, and joins the space only once started |
| Sophysics2DCore.RigidBody.RemoveShape | Sophysics2D/Sophysics2DCore.py:520-532 | the shape is unbound even when absent; removal takes the first copy (ValueError when absent) and, once started, the shape leaves the space |
| Sophysics2DCore.RigidBody.AttachForce | Sophysics2D/Sophysics2DCore.py:546-553 | only a Force is appended; anything else is a TypeError |
| Sophysics2DCore.RigidBody.RemoveForce | Sophysics2D/Sophysics2DCore.py:555-559 | removal takes the first copy and fails with ValueError exactly when absent |
| Sophysics2DCore.RigidBody.AttachCollisionListener | Sophysics2D/Sophysics2DCore.py:570-577 | only a CollisionListener is appended; anything else is a TypeError |
| Sophysics2DCore.RigidBody.RemoveCollisionListener | Sophysics2D/Sophysics2DCore.py:579-584 | a non-listener is a TypeError; otherwise the first copy goes, a ValueError exactly when absent |
| Sophysics2DCore.Answers | Sophysics2D/Sophysics2DCore.py:640-646 | one answer per listener, in order |
| Sophysics2DCore.RigidBodyManager.constructor | Sophysics2D/Sophysics2DCore.py:619-623 | the given dt, no rigidbodies, a fresh space |
| Sophysics2DCore.RigidBodyManager.Update | Sophysics2D/Sophysics2DCore.py:705-713 | each rigidbody's update (body sync, then its forces), one space step by dt, then each rigidbody's post-update, in that order; afterwards every transform holds the position and angle of the last body synced to it; it fails with AttributeError, before the step, exactly when a registered rigidbody has no transform |
| Sophysics2DCore.RigidBodyManager.UpdateEach | Sophysics2D/Sophysics2DCore.py:441-445 | each rigidbody's update, in registry order: every body ends at the position and rotation of the last transform synced to it; it stops with AttributeError at the first rigidbody without a transform, having logged only those before it |
| Sophysics2DCore.RigidBodyManager.PostUpdateEach | Sophysics2D/Sophysics2DCore.py:447-453 | each rigidbody's post-update, in registry order: every transform ends at the position and angle of the last body synced to it |
| Sophysics2DCore.RigidBodyManager.Resolve | Sophysics2D/Sophysics2DCore.py:632-666 | every listener of body1 and then of body2 is asked, and the collision goes ahead exactly when none answers false |
| Sophysics2DCore.VetoStillAsksBoth | Sophysics2D/Sophysics2DCore.py:632-648 | a veto from body1 rejects the collision, yet every listener of body2 is still asked |
| Sophysics2DCore.DefaultEnvironment.constructor | Sophysics2D/Sophysics2D.py:119-122 | both manager references start as None |
| Sophysics2DCore.DefaultEnvironment.Start | Sophysics2D/Sophysics2DCore.py:290-303 | the inherited start runs, reaching base hooks only, and leaves the manager references as they were |
| Sophysics2DCore.DefaultEnvironment.Advance | Sophysics2D/Sophysics2D.py:132-134 | runs the RigidBodyManager's update, so every transform ends at its body's new position and angle; without a manager reference, or with a registered rigidbody without a transform, it is an AttributeError |
| Sophysics2DCore.StartThenAdvance | Sophysics2D/Sophysics2D.py:118-134 | a default environment that has been started still cannot advance, because its `_setup` is never called |
| Sophysics2DCore.PixelRadius | Sophysics2D/Sophysics2D.py:33-38 | the pixel radius is undefined exactly at a zero scale |
| Sophysics2DCore.PixelRadiusRoundTrip | Sophysics2D/Sophysics2D.py:33-43 | a pixel radius stored and read back at a non-zero scale is unchanged |
| Sophysics2DCore.CircleRenderer.New | Sophysics2D/Sophysics2D.py:11-16 | a negative radius or a negative layer is a ValueError; otherwise a renderer with that radius |
| Sophysics2DCore.CircleRenderer.constructor | Sophysics2D/Sophysics2D.py:11-16 | a renderer with the given checked radius |
| Sophysics2DCore.CircleRenderer.SetRadius | Sophysics2D/Sophysics2D.py:26-30 | the radius changes exactly when it is not negative; otherwise a ValueError |
| Sophysics2DCore.CircleRenderer.SetPixelRadius | Sophysics2D/Sophysics2D.py:39-42 | a non-negative pixel radius is stored in world units and reads back unchanged |
| Sophysics2DCore.GetBorderObjectAsWritten | Sophysics2D/Sophysics2D.py:211-259 | no call succeeds: invalid bounds or layer are a ValueError and every other call a TypeError |
| Sophysics2DCore.GetCircleBodyAsWritten | Sophysics2D/Sophysics2D.py:194-208 | no call succeeds: the renderer's checks fail first, and otherwise the SimObject call is a TypeError |
| ProjectsCore.PyCompareFinite | Projects/MyLibraries/Sophysics2D/Sophysics2DCore.py:295-297 | on finite numbers Python's comparisons are the ones on their values |
| ProjectsCore.PyLessEqIsNotGreater | Projects/MyLibraries/Sophysics2D/Sophysics2DCore.py:295-298 | without NaN, "not a < b" is "a >= b"; with NaN every comparison is false |
| ProjectsCore.Component.constructor | Projects/MyLibraries/Sophysics2D/Sophysics2DCore.py:13-14 | a component attached to nothing |
| ProjectsCore.FirstOfClass | Projects/MyLibraries/Sophysics2D/Sophysics2DCore.py:81-90 | the first instance of the class in list order, or none exactly when there is no instance |
| ProjectsCore.OfClass | Projects/MyLibraries/Sophysics2D/Sophysics2DCore.py:92-104 | only instances of the class, and every instance of the class |
| ProjectsCore.FirstIsHeadOfAll | Projects/MyLibraries/Sophysics2D/Sophysics2DCore.py:81-104 | get_component finds the head of what get_components lists, and fails exactly when that list is empty |
| ProjectsCore.SuppliedTransformListedTwice | Projects/MyLibraries/Sophysics2D/Sophysics2DCore.py:140-146 | a Transform passed to the SimObject constructor ends up in the list twice |
| ProjectsCore.SimObject.New | Projects/MyLibraries/Sophysics2D/Sophysics2DCore.py:140-158 | a non-component among the arguments fails with the first such argument's error (AttributeError for a built-in value, TypeError for any other object); otherwise the supplied components plus the transform, which is the first Transform given or a new one, all pointing at the object |
| ProjectsCore.SimObject.Empty | Projects/MyLibraries/Sophysics2D/Sophysics2DCore.py:62-63 | an object with no components |
| ProjectsCore.SimObject.AttachComponent | Projects/MyLibraries/Sophysics2D/Sophysics2DCore.py:153-158 | a component is appended and points here; a built-in value is an AttributeError and any other object a TypeError, both leaving the list unchanged |
| ProjectsCore.SimObject.GetComponent | Projects/MyLibraries/Sophysics2D/Sophysics2DCore.py:81-90 | the first instance of the class, or a ValueError exactly when there is none |
| ProjectsCore.SimObject.TryGetComponent | Projects/MyLibraries/Sophysics2D/Sophysics2DCore.py:106-113 | the first instance, or None when there is none |
| ProjectsCore.SimObject.GetComponents | Projects/MyLibraries/Sophysics2D/Sophysics2DCore.py:92-104 | every instance of the class in list order |
| ProjectsCore.SimObject.HasComponent | Projects/MyLibraries/Sophysics2D/Sophysics2DCore.py:115-119 | true exactly when some component is an instance of the class |
| ProjectsCore.FirstOfClassAt | Projects/MyLibraries/Sophysics2D/Sophysics2DCore.py:87-89 | the loop returns the first instance it meets |
| ProjectsCore.OfClassSnoc | Projects/MyLibraries/Sophysics2D/Sophysics2DCore.py:100-102 | filtering a list grown by one component adds that component exactly when it matches |
| ProjectsCore.OrderedFinite | Projects/MyLibraries/Sophysics2D/Sophysics2DCore.py:294-298 | on finite edges, a volume accepts exactly top >= bottom and right >= left |
| ProjectsCore.NaNEdgeAccepted | Projects/MyLibraries/Sophysics2D/Sophysics2DCore.py:294-298 | a NaN edge passes the ordering checks, since no comparison with NaN is true |
| ProjectsCore.IntersectsBoundingBox | Projects/MyLibraries/Sophysics2D/Sophysics2DCore.py:261-274 | a non-box is a TypeError; on finite edges the boxes intersect exactly when their intervals overlap on both axes |
| ProjectsCore.IntersectsIffCommonPoint | Projects/MyLibraries/Sophysics2D/Sophysics2DCore.py:261-274 | two well-ordered finite boxes intersect exactly when some point lies in both |
| ProjectsCore.IntersectsSymmetric | Projects/MyLibraries/Sophysics2D/Sophysics2DCore.py:261-274 | the answer does not depend on which box asks |
| ProjectsCore.CheckVolume | Projects/MyLibraries/Sophysics2D/Sophysics2DCore.py:288-298 | passes exactly for four numbers in order; a non-number is a TypeError, a misordering a ValueError |
| ProjectsCore.BoundingVolume.New | Projects/MyLibraries/Sophysics2D/Sophysics2DCore.py:281-304 | the volume is built exactly when the checks pass, with those edges; otherwise the checks' error |
| ProjectsCore.BoundingVolume.Init | Projects/MyLibraries/Sophysics2D/Sophysics2DCore.py:300-304 | the four edges are stored as given |
| ProjectsCore.BoundingVolume.SetTop | Projects/MyLibraries/Sophysics2D/Sophysics2DCore.py:310-318 | a non-number is a TypeError, a top below bottom a ValueError, both leaving the edge; a valid volume stays valid |
| ProjectsCore.BoundingVolume.SetBottom | Projects/MyLibraries/Sophysics2D/Sophysics2DCore.py:324-333 | a non-number is a TypeError, a bottom above top a ValueError; a valid volume stays valid |
| ProjectsCore.BoundingVolume.SetLeft | Projects/MyLibraries/Sophysics2D/Sophysics2DCore.py:339-348 | a non-number is a TypeError, a left beyond right a ValueError; a valid volume stays valid |
| ProjectsCore.BoundingVolume.SetRight | Projects/MyLibraries/Sophysics2D/Sophysics2DCore.py:354-363 | a non-number is a TypeError, a right before left a ValueError; a valid volume stays valid |
| ProjectsCore.PyAdd | Projects/MyLibraries/Sophysics2D/Sophysics2D.py:104 | the sum of two finite numbers is their real sum; a single infinity dominates |
| ProjectsCore.CircleEdgesHoldDisc | Projects/MyLibraries/Sophysics2D/Sophysics2D.py:56-70 | a circle's box is well ordered for every accepted radius and, for a finite radius, holds the whole disc |
| ProjectsCore.BorderCollidesWith | Projects/MyLibraries/Sophysics2D/Sophysics2D.py:25-38 | a non-collider is a TypeError; otherwise whether the other collider reaches any border |
| ProjectsCore.BorderMissesOnlyInside | Projects/MyLibraries/Sophysics2D/Sophysics2D.py:25-38 | on finite edges a border misses a collider exactly when it lies strictly inside the border |
| ProjectsCore.CollidesWithCircle | Projects/MyLibraries/Sophysics2D/Sophysics2D.py:92-104 | a TypeError unless the other collider is a circle |
| ProjectsCore.CirclesCollideIff | Projects/MyLibraries/Sophysics2D/Sophysics2D.py:92-104 | two circles collide exactly when the centre distance is at most the sum of the radii, whichever circle asks |
| ProjectsCore.CheckCollision | Projects/MyLibraries/Sophysics2D/Sophysics2D.py:14-90 | a non-collider is a TypeError (not for the base Collider); on a collision both colliders are notified, the checker first, and otherwise nobody is |
| ProjectsCore.CircleBorderAgree | Projects/MyLibraries/Sophysics2D/Sophysics2D.py:14-90 | a circle and a border agree on whether they collide, whichever checks |
| ProjectsCore.BorderOtherDisagree | Projects/MyLibraries/Sophysics2D/Sophysics2D.py:14-23 | a border and a collider of another subclass can disagree, so the pair order decides whether anyone is notified |
| ProjectsCore.Collider.constructor | Projects/MyLibraries/Sophysics2D/Sophysics2DCore.py:395-397 | a collider with no listeners |
| ProjectsCore.Collider.AttachCollisionListener | Projects/MyLibraries/Sophysics2D/Sophysics2DCore.py:403-411 | only a CollisionListener is appended; anything else is a TypeError |
| ProjectsCore.Collider.OnCollision | Projects/MyLibraries/Sophysics2D/Sophysics2DCore.py:419-431 | a non-collider is a TypeError that notifies nobody; otherwise every listener is notified, in attach order |
| ProjectsCore.ColliderManager.constructor | Projects/MyLibraries/Sophysics2D/Sophysics2DCore.py:438-441 | a manager with no colliders |
| ProjectsCore.ColliderManager.AttachCollider | Projects/MyLibraries/Sophysics2D/Sophysics2DCore.py:443-450 | only a collider is appended; anything else is a TypeError |
| ProjectsCore.ColliderManager.Update | Projects/MyLibraries/Sophysics2D/Sophysics2DCore.py:452-462 | every unordered pair of distinct attached colliders is checked exactly once, never a collider against itself, even when a collider was attached twice; each check is called on the collider attached first, with the later one as argument |
| ProjectsCore.ColliderManager.CheckRow | Projects/MyLibraries/Sophysics2D/Sophysics2DCore.py:457-462 | the inner loop checks the row's collider against every other not yet paired with it, keeps the pairs distinct, and every new check is called on the collider attached first |
| ProjectsCore.Renderer.constructor | Projects/MyLibraries/Sophysics2D/Sophysics2DCore.py:559-564 | the layer is stored as given |
| ProjectsCore.SearchAsWritten | Projects/MyLibraries/Sophysics2D/Sophysics2DCore.py:617-651 | the index the written binary search computes is within the list |
| ProjectsCore.GetIndexAsWritten | Projects/MyLibraries/Sophysics2D/Sophysics2DCore.py:617-651 | the loop computes that index, and 0 for an empty list |
| ProjectsCore.AsWrittenMisplacesLayer | Projects/MyLibraries/Sophysics2D/Sophysics2DCore.py:617-653 | inserting layer 4 into layers 1, 3, 5, 7 puts it first, breaking the order |
| ProjectsCore.UpperBound | Projects/MyLibraries/Sophysics2D/Sophysics2DCore.py:617-651 | on a sorted list, the index after every layer not above the target and before every layer above it |
| ProjectsCore.InsertAtBoundKeepsSorted | Projects/MyLibraries/Sophysics2D/Sophysics2DCore.py:653 | inserting at that index keeps a sorted list sorted |
| ProjectsCore.RenderManager.constructor | Projects/MyLibraries/Sophysics2D/Sophysics2DCore.py:585-599 | a manager with no renderers |
| ProjectsCore.RenderManager.AttachRendererAsWritten | Projects/MyLibraries/Sophysics2D/Sophysics2DCore.py:610-653 | a non-renderer is a TypeError; otherwise the renderer is inserted at the written search's index |
| ProjectsCore.RenderManager.AttachRenderer | Projects/MyLibraries/Sophysics2D/Sophysics2DCore.py:610-653 | the renderer is inserted once and nothing else moves; a list sorted by layer stays sorted, with equal layers in attach order |
| ProjectsCore.InsertFacts | Projects/MyLibraries/Sophysics2D/Sophysics2DCore.py:653 | an insertion adds exactly one copy of the renderer |
| ProjectsCore.PyDouble | Projects/MyLibraries/Sophysics2D/Sophysics2D.py:216 | twice a finite number is finite and twice its value |
| ProjectsCore.PyHalf | Projects/MyLibraries/Sophysics2D/Sophysics2D.py:222 | half a finite number is a float of half its value, and half an accepted number is accepted |
| ProjectsCore.DiameterRoundTrip | Projects/MyLibraries/Sophysics2D/Sophysics2D.py:211-222 | a finite diameter that is set reads back unchanged |
| ProjectsCore.CircleRenderer.New | Projects/MyLibraries/Sophysics2D/Sophysics2D.py:176-183 | the radius is validated and its error returned; the layer is not checked |
| ProjectsCore.CircleRenderer.Init | Projects/MyLibraries/Sophysics2D/Sophysics2D.py:179-183 | the radius and layer are stored |
| ProjectsCore.CircleRenderer.SetRadius | Projects/MyLibraries/Sophysics2D/Sophysics2D.py:192-196 | the radius changes exactly when it passes validation |
| ProjectsCore.CircleRenderer.Diameter | Projects/MyLibraries/Sophysics2D/Sophysics2D.py:211-216 | twice the finite radius |
| ProjectsCore.CircleRenderer.SetDiameter | Projects/MyLibraries/Sophysics2D/Sophysics2D.py:218-222 | a valid diameter sets the radius to its half, and a finite one reads back unchanged |
| ProjectsCore.CheckStrokeWidth | Projects/MyLibraries/Sophysics2D/Sophysics2D.py:138-145 | passes exactly for a non-negative int; a non-int is a TypeError, a negative int a ValueError |
| ProjectsCore.BoundaryRenderer.New | Projects/MyLibraries/Sophysics2D/Sophysics2D.py:111-121 | the stroke width is checked first, then the boundary must be a BoundingVolume (TypeError) |
| ProjectsCore.BoundaryRenderer.Init | Projects/MyLibraries/Sophysics2D/Sophysics2D.py:111-121 | the boundary, stroke width and layer are stored |
| ProjectsCore.BoundaryRenderer.SetStrokeWidth | Projects/MyLibraries/Sophysics2D/Sophysics2D.py:138-145 | the width changes exactly when it passes the checks |
| ProjectsCore.CircleCollider.New | Projects/MyLibraries/Sophysics2D/Sophysics2D.py:42-45 | the radius is validated and its error returned |
| ProjectsCore.CircleCollider.Init | Projects/MyLibraries/Sophysics2D/Sophysics2D.py:44-45 | the radius is stored |
| ProjectsCore.CircleCollider.SetRadius | Projects/MyLibraries/Sophysics2D/Sophysics2D.py:51-54 | the radius changes exactly when it passes validation |
| ProjectsCore.BorderCollider.New | Projects/MyLibraries/Sophysics2D/Sophysics2D.py:10-12 | built exactly when the volume checks pass, with those edges |
| ProjectsCore.BorderCollider.Init | Projects/MyLibraries/Sophysics2D/Sophysics2D.py:10-12 | the collider over the given volume |
| ProjectsCore.GetBorderObject | Projects/MyLibraries/Sophysics2D/Sophysics2D.py:289-301 | succeeds exactly when the edges, the stroke width and the extras are valid, each failure with its own error; the collider and the renderer's separate volume have the same edges and come first |
| ProjectsCore.GetCircleBody | Projects/MyLibraries/Sophysics2D/Sophysics2D.py:274-286 | succeeds exactly when the radius and the extras are valid; renderer and collider share the radius and come first |
| ProjectsCore.Assemble | Projects/MyLibraries/Sophysics2D/Sophysics2D.py:286 | the SimObject call fails exactly when an extra is not a component, with the first such extra's error; the first two components come first |
| ProjectsCore.SuppliedPrefix | Projects/MyLibraries/Sophysics2D/Sophysics2D.py:286 | the first two arguments stay first among the supplied components |
| Forces.NewtonForce | defaults/constant_acceleration.py:54-58 | F = m·a: zero acceleration gives zero force, and dividing the force by a non-zero mass gives back the acceleration |
| Forces.ConstantAcceleration.Default | defaults/constant_acceleration.py:15-28 | the default acceleration is (0, 0) and the Force part starts without a rigid body |
| Forces.ConstantAcceleration.SetAcceleration | defaults/constant_acceleration.py:34-48 | the first two items become the acceleration and the rest are ignored; fewer than two cannot be unpacked and change nothing |
| Forces.ConstantAcceleration.Exert | defaults/constant_acceleration.py:50-60 | exactly one force, mass times acceleration, is applied to the rigid body; without one the mass lookup is an AttributeError |
| Forces.NewConstantAcceleration | defaults/constant_acceleration.py:15-28 | the constructor runs the setter, so it fails exactly when fewer than two items are given |
| Forces.PullIsNewtonian | defaults/attraction.py:63-75 | the pull points from the body towards the attractor and its length is G·m1·m2/d² |
| Forces.AttractionManager.constructor | defaults/attraction.py:9-13 | the coefficient and an empty registry |
| Forces.AttractionManager.AddAttractor | defaults/attraction.py:19-20 | the attractor joins the set; adding twice keeps one entry |
| Forces.AttractionManager.RemoveAttractor | defaults/attraction.py:22-23 | the attractor leaves the set; it succeeds exactly when it was there, otherwise a KeyError |
| Forces.Attraction.constructor | defaults/attraction.py:30-37 | whether it attracts, no manager, a Force part without a rigid body |
| Forces.Attraction.Setup | defaults/attraction.py:39-44 | the Force setup, then the AttractionManager; only an attractor registers itself, and a failure registers nothing |
| Forces.Attraction.Exert | defaults/attraction.py:46-79 | sums the pulls of every registered attractor, skipping itself and any attractor at its own position, and applies the total exactly once |
| Forces.Attraction.OnDestroy | defaults/attraction.py:81-85 | an attractor leaves the registry (AttributeError before setup, KeyError if absent); then the exert handler is unsubscribed and the rigid body dropped |
| Forces.TotalPull | defaults/attraction.py:47-77 | a missing position or mass is an AttributeError |
| Forces.SumPulls | defaults/attraction.py:47-77 | the loop computes the accumulated pull |
| Forces.SelfContributesNothing | defaults/attraction.py:50-51 | an attractor never pulls itself |
| Forces.CoincidentContributesNothing | defaults/attraction.py:56-58 | an attractor at exactly the body's position contributes nothing, so there is no division by zero |
| ReferenceFrames.ReferenceFrameManager.constructor | application/reference_frame.py:20-23 | a GlobalBehavior with no origin body |
| ReferenceFrames.ReferenceFrameManager.PhysicsUpdate | application/reference_frame.py:25-34 | the frames listed are exactly the subscribers of both events, each once; without an origin nothing happens; an origin that lost its sim object is forgotten; otherwise both events are raised in order, every frame captures the origin's position and velocity, every frame with its own distinct body is shifted by exactly that much, and when the origin has a frame it ends at rest at the world origin |
| ReferenceFrames.ReferenceFrameManager.Recenter | application/reference_frame.py:33-34 | each event calls every subscriber once, in the given enumeration of the event's listeners; the frames shift by the origin's captured state, and the origin's own frame ends at the world origin with zero velocity |
| ReferenceFrames.ReferenceFrameManager.Dispatch | application/reference_frame.py:33-34 | the calculate-offset event is fully handled before the update-values event, so every frame subtracts the origin's state from before the shift, and the origin, if it has a frame, ends at rest at the world origin |
| ReferenceFrames.ReferenceFrameManager.CaptureOrigin | application/reference_frame.py:33 | raising the first event calls each subscriber once, in order, and makes every frame hold the origin's position and velocity |
| ReferenceFrames.ReferenceFrameManager.ShiftFrames | application/reference_frame.py:34 | raising the second event calls each subscriber once, in order, and moves every frame's own transform and body by its offsets |
| ReferenceFrames.ReferenceFrameManager.CalculateOffsets | application/reference_frame.py:57-61 | the handler run over all frames leaves each holding the origin's position and velocity; a frame whose origin chain is broken fails with an AttributeError |
| ReferenceFrames.ReferenceFrameManager.ApplyOffsets | application/reference_frame.py:63-65 | the handler run over all frames with pairwise distinct targets subtracts from each exactly its own offsets |
| ReferenceFrames.ReferenceFrameManager.ApplyAt | application/reference_frame.py:63-65 | one frame's handler changes only its own transform's position and its own body's velocity, and nothing on failure |
| ReferenceFrames.RecenterProperties | application/reference_frame.py:57-65 | the vector identities behind the shift: a vector minus itself is zero, and subtracting one vector from two keeps their difference, so frames keep their relative positions |
| ReferenceFrames.AcquireManager | application/reference_frame.py:43-48 | the environment's existing manager is reused; otherwise a fresh manager with no origin is attached to the environment |
| ReferenceFrames.ReferenceFrame.constructor | application/reference_frame.py:37 | a MonoBehavior with no body and no manager yet |
| ReferenceFrames.ReferenceFrame.Start | application/reference_frame.py:38-55 | finds its RigidBody (a ValueError without one), zeroes both offsets, gets or creates the manager, and subscribes both handlers |
| ReferenceFrames.ReferenceFrame.HandleCalculateOffset | application/reference_frame.py:57-61 | copies the origin's position and velocity into the offsets; without an origin it is an AttributeError and nothing changes |
| ReferenceFrames.ReferenceFrame.HandleUpdateValues | application/reference_frame.py:63-65 | subtracts the position offset from its transform and the velocity offset from its body, or an AttributeError that changes nothing |
| ReferenceFrames.ReferenceFrame.OnDestroy | application/reference_frame.py:67-73 | unsubscribes both handlers; it succeeds exactly when both were subscribed, otherwise a KeyError, and the update handler stays subscribed |
| Rendering.Reciprocal | sophysics_engine/rendering.py:166 | Python's `1 / v`: a ZeroDivisionError exactly at zero, a TypeError for a non-number, the real reciprocal otherwise, nan for nan and zero for infinity |
| Rendering.ReciprocalInvolutive | sophysics_engine/rendering.py:166-172 | setting `pixels_per_unit` and reading it back gives the value of a non-zero finite number again |
| Rendering.ZeroScaleAccepted | sophysics_engine/rendering.py:155-172 | a scale of zero passes `validate_positive_number`, and then `pixels_per_unit` divides by zero |
| Rendering.ValidateScale | sophysics_engine/rendering.py:155-172 | the intended guard: a finite number passes exactly when it is strictly positive, and everything it passes also passes `validate_positive_number` |
| Rendering.StrictScaleHasReciprocal | sophysics_engine/rendering.py:161-172 | under the strict guard every accepted scale has a reciprocal |
| Rendering.Center | sophysics_engine/rendering.py:179-181 | the centre of the display rect is the integer half of each side |
| Rendering.ScreenToWorldInvertsWorldToScreen | sophysics_engine/rendering.py:174-194 | converting a world point to the screen and back gives it again, for any non-zero scale and any camera offset |
| Rendering.WorldToScreenInvertsScreenToWorld | sophysics_engine/rendering.py:174-194 | converting a screen point to the world and back gives it again |
| Rendering.OriginOnScreen | sophysics_engine/rendering.py:174-182 | the world origin is drawn at the display centre moved left by the camera's x offset and down by its y offset |
| Rendering.LayerIndex | sophysics_engine/rendering.py:124 | a list index is valid exactly from -n to n-1, and a negative one counts from the end |
| Rendering.ModifiedIndices | sophysics_engine/rendering.py:107-118 | exactly the layers whose flag is set, in increasing order |
| Rendering.ActiveLayers | sophysics_engine/rendering.py:235-240 | exactly the layers some active renderer draws on |
| Rendering.Camera.constructor | sophysics_engine/rendering.py:41-72 | the display, position and scale as given, `n` layers all unmodified, nothing cleared or blitted |
| Rendering.NewCamera | sophysics_engine/rendering.py:41-105 | the scale is checked first, then the layer count (a ValueError below one), and the display last (an AttributeError when it is not a surface); a camera is made exactly when all three pass, with every layer unmodified |
| Rendering.Camera.Setup | sophysics_engine/rendering.py:74-75 | subscribes the render handler and nothing else; the base setup is not called |
| Rendering.Camera.OnDestroy | sophysics_engine/rendering.py:196-197 | unsubscribes the render handler; it succeeds exactly when it was subscribed, otherwise a KeyError that changes nothing |
| Rendering.Camera.SetDisplay | sophysics_engine/rendering.py:141-146 | a surface is stored; anything else is a TypeError that changes nothing |
| Rendering.Camera.SetUnitsPerPixel | sophysics_engine/rendering.py:155-159 | the outcome is `validate_positive_number`'s; an accepted value is stored as given, and a stored zero makes `pixels_per_unit` divide by zero |
| Rendering.Camera.PixelsPerUnit | sophysics_engine/rendering.py:161-166 | its product with a finite scale is one; a ZeroDivisionError exactly when the scale is zero |
| Rendering.Camera.SetPixelsPerUnit | sophysics_engine/rendering.py:168-172 | a rejected value changes nothing; zero passes the guard and divides by zero; a positive value is stored as its reciprocal, so reading `pixels_per_unit` gives it back |
| Rendering.Camera.ToWorld | sophysics_engine/rendering.py:184-194 | a zero scale sends every screen point to the world origin |
| Rendering.Camera.ToScreen | sophysics_engine/rendering.py:174-182 | a ZeroDivisionError exactly when the scale is zero; otherwise `ToWorld` maps the result back to the world point |
| Rendering.ToScreenInvertsToWorld | sophysics_engine/rendering.py:174-194 | for a non-zero scale every screen point is the image of the world point `ToWorld` gives |
| Rendering.Camera.GetLayerForRendering | sophysics_engine/rendering.py:120-125 | marks exactly the indexed layer, with negative indices from the end; an out-of-range index is an IndexError that marks nothing |
| Rendering.Camera.ClearLayerSurfaces | sophysics_engine/rendering.py:107-118 | clears exactly the modified layers, in order, and leaves every flag unset |
| Rendering.Camera.BlitModifiedLayers | sophysics_engine/rendering.py:91-94 | blits exactly the modified layers, in order |
| Rendering.Camera.DrawRenderers | sophysics_engine/rendering.py:235-242 | the renderers' handlers are called in turn; succeeds exactly when every active renderer's layer exists, and then every renderer was called once, in order, and a layer is marked exactly when it was marked before or an active renderer draws on it; otherwise an IndexError at the first active renderer without a layer, the last one called |
| Rendering.Camera.DrawNext | sophysics_engine/rendering.py:235-242 | one handler call, logged after those of the renderers before it: an inactive renderer does nothing, an active one marks its layer, or fails with IndexError exactly when that layer does not exist, and is then the first such renderer |
| Rendering.FirstMissingAfterPrefix | sophysics_engine/rendering.py:235-242 | once every active renderer before it has a layer, an active renderer without one is the first such |
| Rendering.Camera.RenderScene | sophysics_engine/rendering.py:80-94 | the renderers listed are exactly the event's subscribers, each once; clears the modified layers, raises one CameraRenderEvent and calls the subscribers in that order; on success every subscriber was called once and exactly the layers the active renderers drew on are blitted; an IndexError stops the dispatch after the first active renderer without a layer, so only the subscribers up to it were called, and nothing is blitted |
| Rendering.Renderer.constructor | sophysics_engine/rendering.py:206-216 | active, on the given layer, not yet attached |
| Rendering.Renderer.SetIsActive | sophysics_engine/rendering.py:222-227 | a bool is stored; anything else is a TypeError that changes nothing |
| Rendering.Renderer.SetLayer | sophysics_engine/rendering.py:255-260 | a negative layer is a ValueError that changes nothing; any other is stored |
| Rendering.Renderer.Setup | sophysics_engine/rendering.py:229-233 | subscribes the camera-render handler and then marks the component set up; without an environment it is an AttributeError that changes nothing |
| Rendering.Renderer.HandleRenderEvent | sophysics_engine/rendering.py:235-242 | an inactive renderer does nothing; an active one marks its own layer, or raises IndexError when that layer does not exist |
| Rendering.Renderer.OnDestroy | sophysics_engine/rendering.py:262-264 | unsubscribes the camera-render handler; it succeeds exactly when it was subscribed, otherwise a KeyError that changes nothing |
| Trails.BoundedAppend | application/trail_renderer.py:27-52 | a deque with a `maxlen`: the point goes at the back and the oldest points fall off the front until at most `maxLen` remain |
| Trails.BoundedAppendEvicts | application/trail_renderer.py:27-52 | appending to a queue that is not full only adds; appending to a full one evicts exactly the oldest point; the new point is the newest; a bound of zero keeps the queue empty |
| Trails.NextPointsBounded | application/trail_renderer.py:40-52 | a post-physics step never grows the queue past its bound, and it either keeps the queue or records the current position as the newest point; the first point is always recorded |
| Trails.SpacedAppend | application/trail_renderer.py:49-52 | recording a point at least the point distance from the last one keeps the queue spaced |
| Trails.SpacedSuffix | application/trail_renderer.py:27 | dropping the oldest points keeps the queue spaced |
| Trails.NextPointsKeepsSpacing | application/trail_renderer.py:40-52 | every post-physics step keeps consecutive recorded points at least the point distance apart, compared squared |
| Trails.TrailRenderer.constructor | application/trail_renderer.py:18-29 | stores the squared point distance and the bound; the queue starts empty and the renderer active on its layer |
| Trails.NewTrailRenderer | application/trail_renderer.py:18-29 | a negative bound is a ValueError from the deque, then a negative layer one from the layer setter; otherwise an empty, valid trail |
| Trails.TrailRenderer.HandlePostPhysics | application/trail_renderer.py:40-52 | an inactive trail keeps its points; an active one follows the recording rule with the object's current position; the bound is preserved |
| Trails.TrailRenderer.ResetTrail | application/trail_renderer.py:54-55 | forgets every point |
| Trails.TrailRenderer.Setup | application/trail_renderer.py:31-35 | the Renderer setup, then the reset handler and the post-physics handler, in that order |
| Trails.TrailRenderer.OnDestroy | application/trail_renderer.py:75-80 | removes the reset handler, the post-physics handler and then the camera-render handler; it succeeds exactly when all three were subscribed, otherwise a KeyError, and on success none is left |
| Saving.FirstExact | application/save_simulation.py:70-76 | the first renderer whose class is exactly CircleRenderer, and None exactly when there is none |
| Saving.GetBodyDict | application/save_simulation.py:60-97 | None exactly for an object without a rigid body; a ValueError exactly when it has no Attraction; an AttributeError exactly when no renderer is exactly a CircleRenderer; otherwise the entry built from the first such renderer |
| Saving.WithBodies | application/save_simulation.py:44-48 | the objects that carry a rigid body, and every such object |
| Saving.SavedBodies | application/save_simulation.py:42-48 | on success, one entry per object that carries a rigid body |
| Saving.SavedBodiesAreBodyDicts | application/save_simulation.py:42-97 | the saved entries are, in order, the body dicts of the objects that carry a rigid body |
| Saving.GetSimulationDict | application/save_simulation.py:20-57 | a missing TimeSettings is a ValueError and a missing camera an AttributeError; success exactly when both exist, a ReferenceFrameManager exists and every body saves; the dict has exactly the four keys `origin_id`, `time_settings`, `camera_settings` and `bodies` |
| Saving.SavedKeysAreBuilderKeywords | application/save_simulation.py:79-89 | a saved body's parameters are exactly the keyword arguments of the celestial body builder |
| Saving.SavedBodyPassesCheck | application/save_simulation.py:79-95 | a saved body whose values lie in the loader's ranges passes the loader's body check and loads under the same name |
| Saving.SavedIds | application/save_simulation.py:92-95 | every saved entry is a dict whose `id` is its rigid body's identity |
| Saving.OriginRoundTrip | application/save_simulation.py:37-65 | when the origin is one of the saved bodies, the loader's id match on the saved dict picks the entry saved for that object |
| Saving.NoOriginRoundTrip | application/save_simulation.py:37-39 | with no origin the saved id is `id(None)`, which no saved body has, so the loader restores no origin |
| Loader.IsPositiveNumber | application/simulation_loader.py:180-191 | exactly the finite ints and floats (bools included) that are not below zero |
| Loader.ZeroIsPositiveNumber | application/simulation_loader.py:180-191 | zero, `False` and 0.0 pass the "positive" check; nan, infinity and strings do not |
| Loader.IsVectorCompatible | application/simulation_loader.py:193-204 | true exactly for a list of two finite numbers; `math.isfinite` raises TypeError on a non-number it reaches, and the `and` never reaches the second item after a non-finite first one |
| Loader.ValidateBodyParameters | application/simulation_loader.py:139-178 | passes exactly when the parameters are valid condition by condition; a non-dict is a TypeError, a missing name a KeyError, a non-string name a TypeError, and an error that is none of those comes from the colour conversion |
| Loader.BodyCheck | application/simulation_loader.py:117-126 | a non-dict entry is an AttributeError from `.get` and a missing `parameters` a KeyError |
| Loader.BodyCheckPasses | application/simulation_loader.py:117-178 | an entry passes exactly when it is a dict whose parameters are valid and name exactly the body builder's keywords |
| Loader.TrailOptionsNeverLoad | application/simulation_loader.py:122-175 | the optional trail keys pass validation but are not keywords of the builder, so an entry carrying one never loads |
| Loader.PyEqualsSymmetric | application/simulation_loader.py:130 | Python equality on decoded JSON values is symmetric |
| Loader.IntIdsEqual | application/simulation_loader.py:130 | two integer ids are equal exactly when they are the same number |
| Loader.OriginIndex | application/simulation_loader.py:115-132 | the index of the last entry whose id equals `origin_id`, and none exactly when no entry matches |
| Loader.NoOriginIdNoOrigin | application/simulation_loader.py:72-132 | without an `origin_id` no body becomes the origin |
| Loader.OriginIndexStep | application/simulation_loader.py:130-132 | each matching entry overwrites the origin chosen so far |
| Loader.TimeWarnings | application/simulation_loader.py:216-238 | a warning for each field that is present and rejected, and only for those |
| Loader.ValidTimeSettingsDoNotWarn | application/simulation_loader.py:216-238 | saved time settings raise no warning exactly when `dt` is not negative |
| Loader.BuildBody | application/celestial_body.py:13-82 | a fresh object tagged with the name, with a transform at the initial position, a dynamic rigid body moving at the initial velocity whose one shape has the mass and elasticity 0, and an Attraction |
| Loader.OriginOfExtend | application/simulation_loader.py:128-132 | building one more body does not move an origin already chosen |
| Loader.BuiltFromExtend | application/simulation_loader.py:117-128 | building the next entry extends the record of built entries by one |
| Loader.SimulationLoader.constructor | application/simulation_loader.py:33-51 | holds the components `setup` looks up, with no warning shown and no scale factor yet |
| Loader.SimulationLoader.SetTimeSettings | application/simulation_loader.py:216-238 | every present field is applied when it has the right type and range and warned about otherwise, whatever the other fields hold; `paused` goes through the announcing setter |
| Loader.SimulationLoader.SetStepFields | application/simulation_loader.py:217-232 | `dt` and `steps_per_frame` follow the accept-or-keep rule |
| Loader.SimulationLoader.SetPausedField | application/simulation_loader.py:234-238 | a bool is stored through the setter, anything else present gives one warning |
| Loader.SimulationLoader.SetCamera | application/simulation_loader.py:240-255 | a present `units_per_pixel` is stored when it is an int or float above zero and warned about otherwise; a present position is converted, and only a ValueError from the conversion becomes a warning |
| Loader.SimulationLoader.ClearCurrentSimulation | application/simulation_loader.py:206-214 | with the corrected object teardown: destroys exactly the objects that carry an Attraction and keeps the rest attached |
| Loader.SimulationLoader.ClearOne | application/simulation_loader.py:210-214 | one pass of the clearing loop destroys the object, with the corrected teardown, exactly when it carries an Attraction |
| Loader.SimulationLoader.DestroyAttached | application/simulation_loader.py:214 | one object's corrected destroy removes it alone from the scene |
| Loader.SimulationLoader.BuildBodies | application/simulation_loader.py:117-132 | fails exactly when some entry fails, with the first failing entry's error; otherwise one fresh separate object per entry, in order, and the origin is the rigid body of the last matching entry |
| Loader.SimulationLoader.BuildNext | application/simulation_loader.py:117-132 | one pass over an entry that passed builds one more object and keeps the origin rule |
| Loader.SimulationLoader.BuildEntry | application/simulation_loader.py:122-128 | an entry that passed becomes a fresh object tagged with its name that shares no component with those built before |
| Loader.SimulationLoader.AttachAll | application/simulation_loader.py:134-135 | every built object joins the scene and points back to it, and nothing else changes |
| Loader.SimulationLoader.LoadBodies | application/simulation_loader.py:113-137 | a failing entry leaves the scene and the origin as they were; otherwise every built body is attached and the origin is the rigid body of the last entry whose id equals `origin_id`, or none |
| Loader.SimulationLoader.ApplySettings | application/simulation_loader.py:72-81 | a present `time_settings` is applied, then a present `camera_settings`; a value that is not a dict stops it with an AttributeError |
| Loader.SimulationLoader.LoadSceneBodies | application/simulation_loader.py:83-97 | a missing `bodies` is a KeyError and one that is not a list a TypeError; then the bodies load, and a present scale factor must pass the positive check and is stored |
| Loader.SimulationLoader.LoadFromDict | application/simulation_loader.py:69-91 | the scene is cleared, with the corrected object teardown, and the settings applied before any body is read, so a load that fails on its bodies has already destroyed the old bodies and changed the settings; the origin changes only when the bodies load |
| Loader.SimulationLoader.LoadSimulation | application/simulation_loader.py:56-67 | with the corrected object teardown: unparsable JSON is a ValueError warning; a ValueError, TypeError or KeyError becomes exactly one warning and any other error propagates; a complete load announces SimulationParametersChangedEvent |

## Left out

- **Physics backend.** pymunk is not modelled beyond an abstract space: a set of bodies with position, angle and velocity, a set of shapes, and an opaque `Step`. Integration, moments of inertia, arbitration and shape reindexing are not modelled.
- **Drawing.** Nothing that draws is modelled. This covers pygame surfaces, fills, blits and `gfxdraw`, and the `render` bodies of the circle, polygon, arrow, selection, boundary and trail renderers. A layer is its index, and clearing or blitting a layer is logged by index.
- **Engine `RenderManager.update`.** The first generation's `RenderManager.update` is modelled as the flag bookkeeping and the order in which active renderers are reached. The drawing calls are not.
- **Engine `PolyRenderer`.** The first generation's polygon renderer (Engine/Sophysics2D.py:51-116) has no class of its own. It is a `Manageable` of kind Renderer built with `takesManager` set, since its `render` also takes the render manager, so the render pass treats it as it treats a circle renderer.
- **EngineCore.DefaultEnvironment.RenderCorrected:** it runs the corrected render pass, `EngineCore.RenderManager.UpdateManageablesCorrected`. As written, any active circle or polygon renderer makes the pass fail with TypeError (`EngineCore.RenderManager.UpdateManageables`).
- **ProjectsCore.RenderManager:** layers are unbounded integers in the model. In the source a layer is whatever the caller passes, so a float or other non-integer layer is not modelled.
- **Sophysics2DCore.RigidBodyManager.UpdateEach:** each force's `update()` is recorded in the manager's step log, not applied, since the second generation's forces are not modelled beyond their attachment. The backend's `reindex_shapes_for_body` is not modelled.
- **Sophysics2D `RenderManager`.** Its drawing and its `world_to_screen` are not modelled. The coordinate pair is modelled once, for the current `Camera`.
- **Sophysics2D `post_solve` and `separate`.** The second generation's handlers only call every listener in turn and have nothing to fold. The fold-free dispatch is modelled for the current kernel (`Physics.PhysicsManager.NotifyBoth`).
- **Floating point.** Arithmetic is over `real`. Rounding, `-0.0` and overflow are not modelled.
  - NaN and the infinities are modelled as values where validators meet them (`Values`).
  - They are not modelled inside vector arithmetic.
- **`normalize()` and `distance_to`.** These are parameters of the attraction model rather than a square root.
- **Forces.PullIsNewtonian:** the direction and magnitude of each pull are proved on the assumption that the `unit` parameter really returns a unit vector.
- **Forces.TotalPull:** states only the error cases. The sum itself is what `Forces.SumPulls` computes and `Forces.Attraction.Exert` applies.
- **ReferenceFrames.ReferenceFrameManager.PhysicsUpdate:** the shift is stated for frames whose transforms and bodies are pairwise distinct. Two frames on one body subtract twice in the source, and the model says nothing about that case.
- **ReferenceFrames.ReferenceFrameManager.PhysicsUpdate:** one list of frames stands for the subscribers of both events, as `_start` subscribes both handlers and `_on_destroy` removes both. A frame subscribed to only one of the two events is not modelled.
- **ReferenceFrames.ReferenceFrameManager.PhysicsUpdate:** the call log in subscriber order is stated by `ReferenceFrames.ReferenceFrameManager.Recenter`, which it calls, and not repeated in its own contract.
- **Simulation.SimEnvironment.DestroyMarked:** uses the corrected `Simulation.SimObject.Destroy`. As written, the first scheduled object's `destroy` raises RuntimeError (`Simulation.SimObject.DestroyAsWritten`), so the schedule is never emptied.
- **Simulation.SimEnvironment.Advance:** destroys the scheduled objects with the corrected `Simulation.SimObject.Destroy`. As written, a non-empty schedule makes `advance` raise RuntimeError after the event.
- **Simulation.SimEnvironment.DestroyContents:** uses the corrected `Simulation.SimObject.Destroy`. As written, the first object's `destroy` raises RuntimeError before any environment component is torn down.
- **Simulation.SimEnvironment.DestroySimObjects:** uses the corrected `Simulation.SimObject.Destroy`. As written, the first object's `destroy` raises RuntimeError.
- **Simulation.SimEnvironment.DestroyMarked:** a scheduled object must be attached to this environment or to none, and each of its components must point back to it. An object scheduled in one environment while attached to another, or one holding a component since attached to another object, is not modelled.
- **Simulation.SimEnvironment.Advance:** the same restriction on the schedule as `DestroyMarked`.
- **EngineCore.Environment.DestroySimObjects:** a scheduled object must be attached to this environment or to none. An object scheduled in one environment while attached to another is not modelled.
- **Updater.DefaultUpdater.Update:** advances with the corrected `Simulation.SimObject.Destroy`. As written, a step with a scheduled object raises RuntimeError.
- **Loader.SimulationLoader.ClearCurrentSimulation:** uses the corrected `Simulation.SimObject.Destroy`. As written, the first object carrying an Attraction raises RuntimeError out of the clearing loop.
- **Loader.SimulationLoader.ClearOne:** uses the corrected `Simulation.SimObject.Destroy`; as written that object's `destroy` raises RuntimeError.
- **Loader.SimulationLoader.DestroyAttached:** is the corrected `Simulation.SimObject.Destroy`; as written it raises RuntimeError.
- **Loader.SimulationLoader.LoadFromDict:** clears the scene with the corrected `Simulation.SimObject.Destroy`. As written, a scene holding an Attraction body raises RuntimeError while clearing.
- **Loader.SimulationLoader.LoadSimulation:** built on `LoadFromDict` with the corrected teardown. As written, the RuntimeError from clearing a scene with an Attraction body is not one of the caught errors and propagates.
- **Physics.PhysicsManager.Begin:** built on the corrected `Physics.PhysicsManager.Resolve`. As written (`Physics.PhysicsManager.ResolveAsWritten`), body2's listeners are not asked once body1's answer is False.
- **Physics.PhysicsManager.PreSolve:** built on the corrected `Physics.PhysicsManager.Resolve`, with the same difference as `Begin`.
- **EngineCore.Environment.SetUpEach:** calls the base `setup` hook, which only sets the flag. Subclass hooks are not dispatched: `CollisionListener.setup` leaves its flag false, and `Manageable.setup` (`EngineCore.Manageable.Setup`) registers with its manager or raises ValueError.
- **EngineCore.Environment.SetupAll:** sets up through the base hook only, as `SetUpEach`.
- **EngineCore.Environment.AttachSimObject:** sets up through the base hook only, as `SetUpEach`.
- **EngineCore.Environment.AttachComponent:** sets up through the base hook only, as `SetUpEach`.
- **EngineCore.SimObject.AttachComponent:** sets up through the base hook only, as `SetUpEach`.
- **EngineCore.SimObject.Destroy:** runs the base `on_destroy`, which only counts. `Manageable.on_destroy` (`EngineCore.Manageable.OnDestroy`), which leaves its manager or raises AttributeError when never set up, is not dispatched.
- **EngineCore.Environment.DestroySimObjects:** destroys through the base hooks only, as `EngineCore.SimObject.Destroy`.
- **EngineCore.DefaultEnvironment.Setup:** sets up through the base hook only, as `SetUpEach`.
- **EngineCore.DefaultEnvironment.Advance:** destroys through the base hooks only, as `EngineCore.SimObject.Destroy`.
- **Sophysics2DCore.Environment.Start:** calls the base `start` hook, which only sets the flag. Subclass hooks are not dispatched: `CollisionListener.start` leaves its flag false, and `Manageable.start` (`Sophysics2DCore.StartManageable`) registers with its manager or raises ValueError.
- **Sophysics2DCore.Environment.StartObjects:** starts through the base hook only, as `Sophysics2DCore.Environment.Start`.
- **Sophysics2DCore.Environment.StartEach:** starts through the base hook only, as `Sophysics2DCore.Environment.Start`.
- **Sophysics2DCore.Environment.AttachComponent:** starts through the base hook only, as `Sophysics2DCore.Environment.Start`.
- **Sophysics2DCore.SimObject.AttachComponent:** starts through the base hook only, as `Sophysics2DCore.Environment.Start`.
- **Sophysics2DCore.DefaultEnvironment.Start:** starts through the base hook only, as `Sophysics2DCore.Environment.Start`.
- **Loader.SimulationLoader.SetTimeSettings:** `dt` is a `real` here. An accepted infinite `dt`, which the source stores, leaves the model's `dt` unchanged.
- **Rendering.Camera.ToWorld:** only stated for a finite stored scale.
- **Rendering.Camera.ToScreen:** only stated for a finite stored scale.
- **Weak references.** The first generation's event system holds listeners in a `WeakSet`, so a bound method may vanish once collected. Listeners here are never collected.
- **Set iteration order.** Python's set iteration order is left open: a loop over a set visits some enumeration of it.
- **Never called.** `ReferenceFrameManager._physics_update` is modelled (`ReferenceFrames.ReferenceFrameManager.PhysicsUpdate`), but nothing in the kernel calls it. `GlobalBehavior` only drives `_update`.
- **Other loader steps.** The loader's `setup`, `_on_destroy` and the warning window are not modelled. Warnings are a log of `Warning` values.
  - `__set_scale_factor` stores the scale factor and is otherwise not modelled. Its loop over velocity renderers and body creators touches UI components.
- **File and JSON I/O.** Reading the file and `json.loads` are not modelled. The decoded value, or its absence, is a parameter. Writing the saved dictionary with `json.dumps` is not modelled either.
- **`pygame.Color` and `pygame.Vector2`.** Conversions of a loaded colour and camera position are parameters (`colour`, `toVector`).
- **The body builder.** `get_celestial_body` is modelled only for the parts the loader and the reference frames rely on: the transform, the rigid body, its one shape and the Attraction. The renderers, the controller and the merge listener it also attaches are not modelled.
- **The oldest generation's other classes.** Its `RigidBody`, `Force`, `SimEnvironment` and `DefaultEnvironment` are not modelled; the physics protocol is modelled for the later generations. Its `start` dispatch is not modelled either.
- **Oldest-generation pixel sizes.** The pixel radius and pixel diameter of its circle renderer depend on the missing camera. They are not modelled.
- **Console output.** The `print` in the oldest generation's default `on_collision` is not modelled. The call itself is recorded.
- **UI and wiring.** GUI panels, mouse and keyboard handlers, display setup, config loading and the demo applications are not part of this model. They hold UI wiring rather than kernel logic.

## Findings

| source | as written | input that shows it | evidently intended | confidence | as-written member | corrected member |
|---|---|---|---|---|---|---|
| sophysics_engine/physics.py:401-413 | `begin` and `pre_solve` combine the two bodies with a short-circuiting `and`, so body2's listeners are never asked once body1's fold is false | two bodies with `MergeOnCollision`, body1 the lighter: body1 schedules its own destruction and answers False, body2's `begin` is never called, so body1's mass is lost instead of merged into body2 | every listener on both bodies is asked and the answers are and-ed, as the second generation does (`Sophysics2D/Sophysics2DCore.py:640-648`) | medium, not executed | `Physics.PhysicsManager.ResolveAsWritten` | `Physics.PhysicsManager.Resolve` |
| sophysics_engine/simulation.py:212-223 | `SimObject.destroy` iterates over `self.components` while each component's teardown removes itself from that set | any sim object: its Transform's teardown removes it mid-iteration and Python raises RuntimeError, so the object never leaves the environment | iterate over a snapshot, then clear the set and leave the environment | high, not executed | `Simulation.SimObject.DestroyAsWritten` | `Simulation.SimObject.Destroy` |
| sophysics_engine/simulation.py:135-145 | `SimEnvironment.destroy` ends with `event_system.clear_listeners()`, which `EventSystem` does not define | an environment with no sim objects whose components tear down cleanly: the last call raises AttributeError | every registration is dropped | high, not executed | `Simulation.SimEnvironment.DestroyAsWritten` | `Simulation.SimEnvironment.Destroy` |
| Projects/MyLibraries/Sophysics2D/Sophysics2DCore.py:617-653 | the binary search in `attach_renderer` returns 0 when its range empties | renderers on layers 1, 3, 5, 7 and a new renderer on layer 4: the index is 0 and the list is no longer sorted | the upper bound of the layer, which keeps the list sorted and equal layers in attach order | high, not executed | `ProjectsCore.AsWrittenMisplacesLayer` | `ProjectsCore.UpperBound` |
| Engine/Sophysics2DCore.py:778-783 | `RigidBody.on_destroy` calls `add_listener` for both synchronisation events | destroy a set-up rigid body, then raise the body-synchronisation event: the destroyed body is still called | `remove_listener` for both events | high, not executed | `EngineCore.DestroyThenSyncAsWritten` | `EngineCore.DestroyThenSync` |
| Engine/Sophysics2DCore.py:978-981 | `update_manageables` calls `renderer.render(surface)` with one argument, but the only renderers, `CircleRenderer` and `PolyRenderer`, define `render(self, surface, render_manager)` (Engine/Sophysics2D.py:36, :111) | a render manager with one layer and one circle renderer on layer 0: the pass raises TypeError | pass the render manager too, as the second generation does (`render(surface, camera)`) | high, not executed | `EngineCore.CircleRenderPassAsWritten` | `EngineCore.CircleRenderPassCorrected` |
| Engine/Sophysics2D.py:136-141 | `DefaultEnvironment.render` calls `render_manager.render_scene()`, which the first generation's `RenderManager` does not define | any call of `render` on a set-up default environment raises AttributeError | run the render manager's pass, `update_manageables`, itself corrected to hand each renderer the render manager (the row above) | high, not executed | `EngineCore.DefaultEnvironment.Render` | `EngineCore.DefaultEnvironment.RenderCorrected` |
| sophysics_engine/rendering.py:155-172 | the scale setters accept 0, since `validate_positive_number` only rejects negatives | `camera.units_per_pixel = 0`, then `camera.pixels_per_unit`: ZeroDivisionError | a scale must be strictly positive | high, not executed | `Rendering.ZeroScaleAccepted` | `Rendering.ValidateScale` |
| Sophysics2D/Sophysics2D.py:211-259 | `get_border_object` calls `SimObject(tag, components=...)`, but this generation's `SimObject` takes only `components` | any valid bounds, e.g. up 1, down 0, left 0, right 1: TypeError, so no border is ever built | the border object of the current factory | high, not executed | `Sophysics2DCore.GetBorderObjectAsWritten` | `Borders.GetBorderObject` |
