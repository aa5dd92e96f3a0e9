# Gamepad proxy: event translation model

This project models the gamepad proxy of `run_controller_cli.py`: the `gamepad_proxy`
coroutine polls pygame for pad events and forwards each one to the emulated Switch
controller. Axis motion on axes 0–3 becomes `set_h` or `set_v` on the left or right
stick. Button down and button up on pad buttons 0–13 become `button_press` and
`button_release` of a named Switch button. Every other event is dropped without a
word. Nothing in the loop `while gamepad_loop` clears its flag.

Layout:

- `wrappers.dfy`: module `Wrappers`, the `Option` type.
- `mapping.dfy`: module `Mapping`, the button and axis tables as pure lookups. Each table has its inverse and an injectivity lemma.
- `translation.dfy`: module `Translation`. `Event` is a polled pad event and `Op` a controller operation. `Translate` dispatches one event. `Trace` gives the operations a batch issues, in order. The lemmas are about both.
- `controller.dfy`: module `Controller`. It holds the emulated controller as classes (`StickState`, `ControllerState`) and their abstract value (`Snapshot`, `Apply`, `Run`). It also holds the proxy loop as methods: `HandleEvent` is the literal if-chains, `HandleBatch` the `for event in ...` loop, and `GamepadProxy` the `while gamepad_loop` loop.

The axis value is an opaque type parameter `V`. It is passed through unchanged, as the
code does. No floating-point reasoning is needed.

`button_press`, `button_release`, `set_h` and `set_v` belong to `joycontrol.controller_state`,
which is not part of this model. The model assumes that `set_h`/`set_v` store the given
value as the stick coordinate, and that press and release add the button to, or remove it
from, the set of held buttons. `ControllerState.history` is a ghost log of every
operation issued on the controller, oldest first.

### What the proxy does not do

- The raw event value goes straight to `set_h`/`set_v`, with no rescaling and no sign inversion (run_controller_cli.py:81,84,87,90).
- No `send()` is issued after an axis event, or after any other event.
- An unmapped axis or button index is not an error. No branch matches, so nothing happens.
- The loop has no exit path of its own: nothing in it clears `gamepad_loop` (run_controller_cli.py:71-72). An exception raised by the awaited `button_press`/`button_release` would still end it; the model does not cover that.
- The button-up branches print "Down". This is console output only and is not modelled.

## Model

| member | source | states |
|---|---|---|
| Mapping.ButtonOf | run_controller_cli.py:93-179 | exactly the indices 0..13 are mapped, and index i names the i-th of y, b, a, x, l, r, zl, zr, minus, plus, l_stick, r_stick, home, capture |
| Mapping.IndexOf | run_controller_cli.py:94-134 | every Switch button of the table is reached by some index in 0..13 (inverse of the table) |
| Mapping.ButtonOfInjective | run_controller_cli.py:94-134 | two indices that reach the same button are equal |
| Mapping.PadButtonNamesDistinct | run_controller_cli.py:94-134 | the fourteen names of the table are pairwise distinct |
| Mapping.AxisTarget | run_controller_cli.py:78-90 | exactly axes 0..3 are mapped; axes 0, 1 drive the left stick and 2, 3 the right; even axes horizontal, odd vertical |
| Mapping.AxisOf | run_controller_cli.py:79-90 | each of the four stick coordinates is driven by some axis in 0..3 (inverse of the axis table) |
| Mapping.AxisTargetInjective | run_controller_cli.py:79-90 | two axes that drive the same coordinate are equal |
| Translation.Translate | run_controller_cli.py:78-179 | an event yields an operation iff it is axis motion on 0..3 or a button edge on 0..13; axis events yield stick operations carrying the event value unchanged on the tabled coordinate; button-down yields a press and button-up a release of the button the one shared table gives |
| Translation.ButtonEdgeNames | run_controller_cli.py:93-179 | for i in 0..13, button-down presses the button named by the i-th of y, b, a, x, l, r, zl, zr, minus, plus, l_stick, r_stick, home, capture, and button-up releases that same button |
| Translation.Trace | run_controller_cli.py:75-179 | a batch never issues more operations than it has events |
| Translation.TraceAppend | run_controller_cli.py:72-75 | handling two batches in sequence issues the two traces in sequence |
| Translation.TraceIsImageOfMapped | run_controller_cli.py:75-179 | the trace has one operation per mapped event, and its k-th operation is the translation of the k-th mapped event (arrival order kept) |
| Translation.UnmappedIsSkipped | run_controller_cli.py:78-179 | removing an unmapped event from a batch does not change what the batch issues |
| Translation.UnmappedBatchIssuesNothing | run_controller_cli.py:75-179 | a batch of unmapped events issues no operation |
| Translation.MappedBatchIssuesOneEach | run_controller_cli.py:75-179 | a batch of mapped events issues exactly one operation per event, position by position |
| Translation.AxisBatchOnlyMovesSticks | run_controller_cli.py:78-90 | axis events issue only stick operations |
| Translation.ButtonBatchOnlyTouchesButtons | run_controller_cli.py:93-179 | button events issue only press/release operations |
| Translation.DownUpPair | run_controller_cli.py:93-179 | a down/up pair on index i in 0..13 presses and then releases the same button; on any other index it issues nothing |
| Translation.FlattenSnoc | run_controller_cli.py:72-75 | the events of one more poll come after those of the earlier polls |
| Translation.FlattenPrefixStep | run_controller_cli.py:72-75 | the events of the first n+1 polls are those of the first n followed by poll n |
| Controller.Apply | run_controller_cli.py:78-179 | a stick operation writes only its own coordinate and keeps the held set; press adds and release removes exactly its button and nothing else changes |
| Controller.RunAppend | run_controller_cli.py:75 | applying two operation sequences in turn is applying their concatenation |
| Controller.NextPoll | run_controller_cli.py:72-75 | after n polls, handling poll n extends the trace by that poll's batch and advances the state by its operations |
| Controller.BatchAfterBatch | run_controller_cli.py:72-75 | the state after two batches is the state after the first, advanced by the second batch's operations |
| Controller.SticksKeepHeld | run_controller_cli.py:78-90 | stick operations never change which buttons are held |
| Controller.ButtonsKeepSticks | run_controller_cli.py:93-179 | press/release operations never change a stick coordinate |
| Controller.AxisBatchKeepsHeld | run_controller_cli.py:78-90 | a batch of axis events leaves the held buttons unchanged |
| Controller.ButtonBatchKeepsSticks | run_controller_cli.py:93-179 | a batch of button events leaves all four stick coordinates unchanged |
| Controller.DownUpRoundTrip | run_controller_cli.py:93-179 | a down/up pair on a button that was not held gives back the controller state from before |
| Controller.StickState.SetH | run_controller_cli.py:81 | `set_h` stores the given horizontal coordinate and keeps the vertical one |
| Controller.StickState.SetV | run_controller_cli.py:84 | `set_v` stores the given vertical coordinate and keeps the horizontal one |
| Controller.ControllerState.ButtonPress | run_controller_cli.py:96 | `button_press` adds the button to the held set |
| Controller.ControllerState.ButtonRelease | run_controller_cli.py:140 | `button_release` removes the button from the held set |
| Controller.Issue | run_controller_cli.py:81-179 | issuing an operation changes the controller as `Apply` says and appends it to the log |
| Controller.HandleEvent | run_controller_cli.py:77-179 | the literal independent if-chains issue exactly the event's translation (one operation or none) and nothing else |
| Controller.HandleBatch | run_controller_cli.py:75-179 | a polled batch, handled in arrival order, appends exactly `Trace(events)` to the log and moves the state by it |
| Controller.GamepadProxy | run_controller_cli.py:71-179 | over any number of polls the loop flag stays set, every batch is handled, and the log grows by the trace of all polled events in order |

## Left out

- pygame initialisation and joystick enumeration (run_controller_cli.py:62-69): device I/O. The polled batches are a parameter.
- `print` diagnostics (run_controller_cli.py:80-178): console output.
- The bodies of `button_press`, `button_release`, `set_h`, `set_v`: `joycontrol.controller_state` is not part of this model. Their effects are the assumptions stated above. Whatever they do beyond that is not modelled, including any transmission they trigger.
- Exceptions raised by `button_press`/`button_release` or `set_h`/`set_v`: their code is not part of this model, so the model's operations never fail.
- `await` and cooperative scheduling with the command-line task: concurrency. Each call is one atomic step.
- Controller.GamepadProxy: the source loop never ends. The model handles any finite prefix of the polls and proves the flag is still set after it. It does not model an infinite run.
- `_register_commands_with_controller_state`, `_main` and the argument parsing (run_controller_cli.py:181-261): CLI glue, Bluetooth server setup, SPI flash and NFC file reading, transport close, and OS checks.
- The commented-out `clock.tick(60)` (run_controller_cli.py:73): it is not executed.
