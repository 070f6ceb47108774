# Developer console, diagnostics overlay and player input of a Bevy 2D template

This project models the logic of three systems of a small Bevy application. The engine is replaced by plain values.

- **Diagnostics overlay** (`diagnostics.dfy`, module `Diagnostics`). The app has a `DiagnosticsState` that starts `Disabled`. Pressing F2 requests the other state through `NextState`. The engine's state transition applies the request. On entering `Enabled`, `spawn_driver` builds one overlay tree: a container with four text leaves ("FPS: --", "Entities: --", "Memory: --", "Render: --"). The tree is scoped to `Enabled`, so it is despawned on exit. Each frame while `Enabled`, `update_driver` rewrites the FPS, entity-count and memory texts from the diagnostics store. The module has two layers:
  - pure values: `World`, plus `Transition`, `Update`, `Frame` and `Run`, which step it;
  - a class `DiagnosticsUi` whose methods update the same state in place, each proved to match the pure function.

  The invariant `Valid` holds in every reachable world: exactly one tree while `Enabled`, none otherwise, and any pending request names the other state.
- **Console helpers** (`console.dfy`, module `Console`).
  - `Console::log` appends one `PrintConsoleLine` event.
  - The startup system logs a greeting.
  - The `log <msg> [num]` command replies `msg` `num` times. `num` defaults to 1.
  - The resize system sizes the console from the single window. It fails, changing nothing, when there is not exactly one window.
- **Player input** (`player.dfy`, module `Player`). Held WASD or arrow keys become a raw intent with components in {-1, 0, 1}. The intent is normalised and written to the controller of every `Player` entity.

`ecs.dfy` holds `Option`, `Result`, `Outcome` and `Single`, the model of `Query::single`. `input.dfy` models `ButtonInput<KeyCode>` as two key sets: the keys held and the keys just pressed.

Things passed in as parameters:
- the diagnostics store contents;
- the windows the query sees;
- the parsed command;
- the keyboard state;
- the number formatting (`NumberFormat`);
- `normalize_or_zero`.

A negative `num` prints nothing and raises no error: the driver takes `num` as an `i64` and iterates over `0..num` (`LogRepliesNonPositive`).

## Model

| member | source | states |
|---|---|---|
| Diagnostics.Flip | src/debug/diagnostics.rs:67-71 | the toggled state always differs from the current one |
| Diagnostics.ToggleRequest | src/debug/diagnostics.rs:66-74 | on a fresh F2 press the pending request is the state other than the current one; otherwise the pending request is left as it was |
| Diagnostics.DiagnosticsUi.Toggle | src/debug/diagnostics.rs:61-75 | writes only the `NextState` field, to `ToggleRequest` of the current state |
| Diagnostics.DiagnosticsUi.constructor | src/debug/diagnostics.rs:27-33 | the app starts `Disabled`, with nothing pending and no overlay |
| Diagnostics.InitialWorldIsValid | src/debug/diagnostics.rs:29-33 | the initial world is `Disabled`, has no overlay and satisfies the invariant |
| Diagnostics.DiagnosticsUi.SpawnDriver | src/debug/diagnostics.rs:77-136 | adds exactly one tree with the four placeholder texts and leaves existing trees alone |
| Diagnostics.DiagnosticsUi.DespawnScoped | src/debug/diagnostics.rs:79-80 | leaving `Enabled` removes every tree, because each one is spawned scoped to `Enabled` |
| Diagnostics.DiagnosticsUi.ApplyTransition | src/debug/diagnostics.rs:45-48 | the state transition follows `Transition`: exit despawns, the state switches, entering `Enabled` spawns |
| Diagnostics.EnteringEnabledSpawnsOverlay | src/debug/diagnostics.rs:77-136 | entering `Enabled` leaves exactly one tree, whose four leaves read "FPS: --", "Entities: --", "Memory: --", "Render: --" |
| Diagnostics.LeavingEnabledDespawnsOverlays | src/debug/diagnostics.rs:28-33 | after a transition out of `Enabled` no overlay leaf remains, whatever existed before |
| Diagnostics.OverlayExistsIffEnabled | src/debug/diagnostics.rs:45-54 | in a valid world a tree exists if and only if the state is `Enabled` |
| Diagnostics.TransitionPreservesValid | src/debug/diagnostics.rs:45-48 | a state transition keeps the invariant and clears the pending request |
| Diagnostics.UpdatePreservesValid | src/debug/diagnostics.rs:49-55 | the `Update` systems keep the invariant |
| Diagnostics.FramePreservesValid | src/debug/diagnostics.rs:45-55 | a whole frame keeps the invariant |
| Diagnostics.RunPreservesValid | src/debug/diagnostics.rs:45-55 | every sequence of frames keeps the invariant (by induction on the frames) |
| Diagnostics.ReachableOverlaysScopedToEnabled | src/debug/diagnostics.rs:77-80 | in every world reachable from start-up there is no overlay unless `Enabled`, and never more than one tree |
| Diagnostics.FrameWithoutF2LeavesNothingPending | src/debug/diagnostics.rs:66-74 | in a valid world, a frame without a fresh F2 press ends with no pending request |
| Diagnostics.TwoTogglesRestoreState | src/debug/diagnostics.rs:66-74 | after two F2 presses and one more frame, the state is back where it started with nothing pending; from `Disabled` the world is exactly as before, with no overlay left |
| Diagnostics.FpsLine | src/debug/diagnostics.rs:167 | the FPS text starts with "FPS: " |
| Diagnostics.EntitiesLine | src/debug/diagnostics.rs:178 | the entity text starts with "Entities: " |
| Diagnostics.MemoryLine | src/debug/diagnostics.rs:188-190 | the memory text starts with "Total Memory: " and ends with " GB" |
| Diagnostics.MemorySentinelIsDistinct | src/debug/diagnostics.rs:183-195 | "Memory: N/A" differs from the "Memory: --" placeholder and from every formatted total |
| Diagnostics.FpsTextNeverReturnsToPlaceholder | src/debug/diagnostics.rs:163-170 | once the FPS text has left "FPS: --", no update brings it back, provided the formatter never yields "--" |
| Diagnostics.UpdateWritesOnlyWithSingleMatchAndSample | src/debug/diagnostics.rs:163-195 | a leaf text changes only when its query matched exactly one entity and the store had what that leaf reads; when both hold, the FPS and entity texts become the formatted samples |
| Diagnostics.UpdateMemoryText | src/debug/diagnostics.rs:183-195 | the memory leaf of the single tree becomes "Memory: N/A" when the diagnostic is absent, stays unchanged while it has no value, and becomes the formatted "Total Memory: … GB" once it has one |
| Diagnostics.UpdateSkipsWithoutSingleMatch | src/debug/diagnostics.rs:164-184 | when the markers do not match exactly one entity, `update_driver` writes nothing |
| Diagnostics.UpdateWithoutSamplesIsIdentity | src/debug/diagnostics.rs:163-195 | with no samples, and with a memory diagnostic that has no value, an update changes no text |
| Diagnostics.UpdateNeverWritesRender | src/debug/diagnostics.rs:197-213 | `update_driver` never changes the number of trees or any render text |
| Diagnostics.UpdateOnlyWhileEnabled | src/debug/diagnostics.rs:49-54 | the `Update` systems never change the state, and change no text unless `Enabled` |
| Diagnostics.DiagnosticsUi.UpdateDriver | src/debug/diagnostics.rs:139-214 | the four in-place leaf queries together give exactly `UpdateOverlays` of the old trees |
| Diagnostics.DiagnosticsUi.RunUpdate | src/debug/diagnostics.rs:49-55 | the `Update` schedule follows `Update`: `toggle` always runs, `update_driver` only while `Enabled` |
| Diagnostics.DiagnosticsUi.RunFrame | src/debug/diagnostics.rs:45-55 | a frame (transition, then `Update`) follows `Frame` and keeps the invariant |
| Console.Repeat | src/debug/console.rs:107-109 | `0..n` repeated: exactly `n` copies of the message for `n > 0`, none for `n <= 0` |
| Console.LogReplies | src/debug/console.rs:103-113 | every reply is the parsed message, and there is none without a parsed command; a parsed command without a count gives exactly one reply, with count `n` exactly `n` replies for `n > 0` and none for `n <= 0` |
| Console.LogRepliesPositive | src/debug/console.rs:104-109 | `log msg n` with `n > 0` replies exactly `n` times, each reply being `msg` |
| Console.LogRepliesDefault | src/debug/console.rs:105 | `log msg` without a count replies exactly once |
| Console.LogRepliesNonPositive | src/debug/console.rs:105-109 | a count of zero or less gives no reply and no error |
| Console.LogHelloTwice | src/debug/console.rs:103-113 | `log hello 2` replies "hello", "hello" |
| Console.ConsoleEvents.Log | src/debug/console.rs:26-29 | `Console::log` appends exactly one event carrying the line |
| Console.ConsoleEvents.StartupDriver | src/debug/console.rs:87-90 | start-up appends exactly one line, "My Bevy Is Ready" |
| Console.ConsoleEvents.LogCommandDriver | src/debug/console.rs:103-113 | the command's loop appends exactly `LogReplies` of the taken command, in order |
| Console.ConsoleConfiguration.constructor | src/debug/console.rs:34-52 | backquote toggle key, position (50, 50), history of 20, prompt "> ", title "MAGIC WORDS", 4 suggestions, keyboard blocked, mouse not blocked |
| Console.ConsoleConfiguration.ResizeDriver | src/debug/console.rs:77-85 | with one window, sets width and height from it, whatever they were; otherwise fails and leaves them; touches no other field |
| Player.Axis | src/demo/player.rs:67-78 | an axis is +1 for the positive key alone, -1 for the negative key alone, and 0 when both or neither are held |
| Player.RawIntentBounded | src/demo/player.rs:66-78 | each raw-intent component is -1, 0 or 1; with no key held the intent is zero |
| Player.OppositeKeysCancel | src/demo/player.rs:67-78 | holding both keys of an opposing pair zeroes that axis |
| Player.CollectIntent | src/demo/player.rs:66-78 | the step-by-step `+=`/`-=` gives the raw intent: y is +1 exactly when up is held and down is not, -1 the other way round; likewise for x with right and left |
| Player.MovementController.constructor | src/demo/player.rs:52-55 | a new controller has the given maximum speed and a zero intent; the zero intent is taken to be the component's default, which is defined in src/demo/movement.rs |
| Player.DirectionalInputDriver | src/demo/player.rs:61-88 | every controller on a `Player` entity gets the same normalised intent; other controllers keep theirs; no maximum speed changes |

## Left out

- UI layout, colours, fonts and background of the overlay tree are not modelled; only its structure and its four texts are.
- Console widget behaviour is not modelled: rendering, scroll-back, the input-history ring, autocomplete and the visibility toggle. They live inside the console library and are not visible in this code.
- The console colours (`background_color`, `foreground_color`) and `arg_completions` are not modelled, because they are display settings of the console library.
- Scheduling order (`ConsoleSet` before/after/in-set) is not modelled, because it is scheduler configuration. The model fixes one frame order: the state transition, then the `Update` systems. Within `Update`, `toggle` and `update_driver` touch disjoint data, so their order does not matter.
- Argument parsing of `LogCommand` belongs to the parser library and is not modelled. The driver takes its result, an `Option<Result<LogCommand, ParseError>>`, as input.
- Whatever `ConsoleCommand::take` itself prints on a parse error belongs to the console library and is not modelled. The driver code emits nothing for it.
- Console.LogCommandDriver: a large count is modelled as that many appends. Memory and time limits are not modelled.
- Number formatting (`{:.1}`, `{:.0}`) is a parameter (`NumberFormat`) and not modelled.
- Diagnostics.MemoryLine: the bytes-to-gigabytes division is exact real division, so `f64` rounding is not modelled.
- Smoothing of diagnostic samples is not modelled. Smoothed and latest values arrive as optional inputs.
- `normalize_or_zero` is a function parameter and not modelled.
- `f32` arithmetic is modelled as `real`: window sizes, console sizes and intents.
- Diagnostics.Transition: a pending request for the current state only clears the request, with no exit or enter. This follows the engine's identity-transition rule; `toggle` never makes such a request (`Valid`).
- `raw_commands_driver` is left out because it only writes debug output to stdout.
- `write_to_console_driver` is left out because it is empty.
- The commented-out render-diagnostic code is left out. The render text therefore stays at its placeholder (`UpdateNeverWritesRender`).
- Bevy's entity storage is reduced to the data these systems touch: overlay trees, windows, and controllers tagged as player or not.
- Player.MovementController.constructor: the zero default intent is assumed, because src/demo/movement.rs, where `MovementController` and its `Default` are defined, is not part of this model.
- Player.DirectionalInputDriver requires distinct controllers, as the engine's storage guarantees: no two entities share a component.
- `src/demo/store.rs`, `assets.rs`, `level.rs` and `mod.rs`, and `src/debug/dev_only.rs` and `mod.rs`, are not part of this model. They cover asset loading, audio and plugin registration.
