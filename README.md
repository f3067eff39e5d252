# Elgato Key Light terminal controller — Dafny model

This project models the core of a terminal controller for one Elgato Key
Light. The application holds the light's power flag, brightness (0–100) and
raw colour temperature (143–344). Key presses step these values, clamp them
into range, and push the whole state to the device over its HTTP API
(`http://<ip>:9123/elgato/lights`). The loop stops when the user quits.

- `keylight.dfy`, module `KeyLight` (src/keylight.rs). It holds the wire
  records `Light` and `Lights`, the endpoint URL, and the two device
  exchanges. `FetchLightStatus` and `SetLight` are methods over an abstract
  `Reply`, which is either no reply at all or a success/failure status with a
  body that did or did not decode. They return an `Outcome`: a light, an
  error returned to the caller, or a panic. The functions `FetchOutcome` and
  `PushOutcome` specify those methods.
- `control.dfy`, module `Control` (src/app.rs). The class `App` has the fields
  the source mutates in place: `running`, `on`, `brightness` and
  `temperature`. It also has two model-only fields:
  - `pushed` records the light of every push attempted, in order.
  - `fault` records the device failure that aborted the process.
  The device is the constant `replies: nat -> Reply`, which gives the reply
  to the k-th push of the session. Every method is proved to move `State()`
  the way the value-level specification says. That specification is
  `Snapshot` with `Pushed`, `Step`, `Handle`, `Session` and `Consumed`. The
  lemmas state the source's promises about those functions.

## Model

| member | source | states |
|---|---|---|
| KeyLight.NewLight | src/keylight.rs:13-19 | power is encoded as 0 or 1, 1 exactly when on; brightness and temperature are copied |
| KeyLight.NewLights | src/keylight.rs:30-35 | the push body is a wrapper with `numberOfLights == 1` holding exactly the given light |
| KeyLight.FirstLight | src/keylight.rs:48-52 | the kept light is the first of the decoded list; none when the list is empty |
| KeyLight.Url | src/keylight.rs:39 | the endpoint is `http://`, then the address, then `:9123/elgato/lights` |
| KeyLight.UrlInjective | src/keylight.rs:56 | distinct addresses give distinct endpoints, so the address is recoverable from the URL |
| KeyLight.FetchOutcome | src/keylight.rs:38-53 | fetch succeeds iff the status is a success, the body decodes and the list is non-empty, and then yields `lights[0]`; every failure panics, with the failure kind given per case |
| KeyLight.PushOutcome | src/keylight.rs:55-75 | push succeeds under the same condition and yields the reply's `lights[0]`; an unreachable device or an undecodable body is returned as an error, a failure status or an empty list panics |
| KeyLight.FetchAndPushAgree | src/keylight.rs:42-73 | fetch and push accept exactly the same replies, keep the same light, and report the same failure kind |
| KeyLight.PayloadRoundTrip | src/keylight.rs:13-35 | reading back the push body by the client's own rule gives the pushed light, and its flag decodes to the power sent |
| KeyLight.FetchLightStatus | src/keylight.rs:38-53 | issues `GET` on the endpoint and returns exactly `FetchOutcome` of the reply |
| KeyLight.SetLight | src/keylight.rs:55-75 | issues `PUT` on the same endpoint with the one-light wrapper and returns exactly `PushOutcome` of the reply |
| Control.Classify | src/app.rs:137-153 | arm order resolved: quit keys (Esc, `q` with any modifiers, Ctrl+`c`/`C`) win; Left/Right step brightness by -1/+1 with Shift alone, else -10/+10; Up/Down step temperature by +1/-1 with Shift alone, else +10/-10; Space/Enter toggle; anything else does nothing |
| Control.Clamp | src/app.rs:156 | the result lies in [lo, hi], equals x inside the range, and saturates at the bound it crossed |
| Control.Initial | src/app.rs:29-37 | not running, `on` iff the device reported 1, brightness and temperature copied without clamping, nothing pushed |
| Control.Pushed | src/app.rs:175-180 | while running, exactly one light equal to the current state is appended to the push log, and the process aborts iff the device's reply is not accepted; when not running nothing changes; the reply never changes power, brightness or temperature; an abort once recorded is never cleared |
| Control.Current | src/app.rs:177 | the pushed light carries the power flag as 1 exactly when on (0 otherwise), and the brightness and temperature unchanged |
| Control.Step | src/app.rs:137-153 | a brightness key sets brightness to `clamp(old + delta, 0, 100)` and a temperature key sets temperature to `clamp(old + delta, 143, 344)`, each leaving the other two light fields alone; Space/Enter flips `on` and leaves brightness and temperature alone; a quit key clears `running` and changes nothing else; an unbound key changes nothing; the push log either stays as it is or gains exactly the new state, and it gains it exactly when running and the key changes the light; an abort is never cleared |
| Control.Handle | src/app.rs:125-135 | any event other than a key press leaves the state unchanged; the push log gains the new state exactly when running and the event is a light-changing key press |
| Control.Session | src/app.rs:40-47 | a state that is not running or has aborted is left as it is, `running` is never set back to true, and earlier pushes are kept |
| Control.PushFault | src/app.rs:178 | the push is fatal exactly when its outcome is not a light, whether `set_light` returned an error or panicked |
| Control.StepClamps | src/app.rs:155-162 | a brightness step lands in [0,100] and a temperature step in [143,344] for any start value and delta; the other fields and `running` are unchanged |
| Control.StepKeepsRange | src/app.rs:137-166 | one key event keeps brightness and temperature in range |
| Control.ToggleInvolution | src/app.rs:150-166 | one toggle flips `on`; two toggles with nothing in between restore it and leave the other fields alone |
| Control.QuitThenSilent | src/app.rs:171-176 | quit clears `running` and changes nothing else, and no later key pushes |
| Control.UnboundKeyIsNoOp | src/app.rs:152 | a key bound to nothing leaves all fields and the push log unchanged |
| Control.InitialRoundTrip | src/app.rs:33-35 | `App::new` on `Light::new(on, b, t)` recovers exactly `on`, `b` and `t` |
| Control.SessionKeepsRange | src/app.rs:40-47 | a session that starts in range ends in range |
| Control.SessionStops | src/app.rs:40-47 | the loop reads events in order and stops only when the input runs out, right after the first quit key, or after a failed push; reading a quit key leaves `running` false, and a stop with `running` still true follows a light-changing event whose push failed; no event before the last one read is a quit key |
| Control.SessionPushCount | src/app.rs:40-47 | the session keeps earlier pushes and adds exactly one per event read that changes the light |
| Control.StoppedSessionIsInert | src/app.rs:42 | once stopped or aborted, no event is read and nothing changes |
| Control.CountMutating | src/app.rs:137-153 | the number of light-changing events is at most the number of events, and is zero exactly when none of them changes the light |
| Control.Consumed | src/app.rs:42-45 | the loop reads at most as many events as are delivered |
| Control.App.constructor | src/app.rs:29-37 | the new state is `Initial(light)` |
| Control.App.SetLight | src/app.rs:175-180 | the new state is `Pushed(old state)`: the current light is appended only while running |
| Control.App.ChangeBrightness | src/app.rs:155-158 | brightness becomes `clamp(old + change, 0, 100)`, `on`, `temperature` and `running` are unchanged, then the push happens |
| Control.App.ChangeTemperature | src/app.rs:160-163 | temperature becomes `clamp(old + change, 143, 344)`, `on`, `brightness` and `running` are unchanged, then the push happens |
| Control.App.SetOn | src/app.rs:165-168 | `on` takes the given value, the other fields are unchanged, then the push happens |
| Control.App.Quit | src/app.rs:171-173 | `running` becomes false and nothing else changes |
| Control.App.OnKeyEvent | src/app.rs:137-153 | the new state is `Step(old state, key)` |
| Control.App.HandleEvent | src/app.rs:125-135 | only key presses reach `on_key_event`; every other event leaves the state unchanged |
| Control.App.Run | src/app.rs:40-47 | sets `running`, then the final state is `Session` of the events and the number read is `Consumed`; when it stops early the application has quit or aborted |

## Left out

- Drawing (`App::draw`) is not modelled. That includes the Kelvin conversion, which uses `f64` and `floor`, and the colour library call. It is floating-point terminal rendering.
- HTTP transport and JSON are not modelled. That covers the request builder, the `Content-Type` header, the one-second timeout and serde encoding and decoding. A `Reply` stands for their result: `NoReply` covers an unreachable device, a timeout and a request that cannot be built from the address. `body == None` covers a body that does not decode.
- Reading events from the terminal is not modelled: `Run` takes the events as a sequence. When the sequence runs out, the real loop blocks waiting for input; the model returns instead. An error from drawing or reading the terminal (the `?` at src/app.rs:43 and src/app.rs:126) ends `run` with `Err` in the source; the model has no counterpart for it.
- The process exit is not modelled. During the session, a failed push (the `expect` at src/app.rs:178 or a panic inside `set_light`) is represented by `App.fault`, which ends the loop; at start-up, the panics of `fetch_light_status` are the `Panic` outcome of `FetchOutcome`. The message text and the debug `print!` in fetch are left out.
- src/main.rs is not part of this model. It does the argument parsing, the terminal set-up and the call order fetch → `App::new` → `run`.
- Control.App.ChangeBrightness: the source adds in `i32`, so a device-reported brightness within 10 of the `i32` limits would overflow before the clamp. The model's fields are unbounded integers and do not model that overflow.
- Control.App.ChangeTemperature: same `i32` overflow omission as for brightness.
- Control.Pushed: the device is modelled as a reply per push index, which can be any reply. The model does not relate the reply's light to the light sent, because the source discards the reply.
