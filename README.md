# Output drivers: mp3 playback and Tasmota relay

This project models the decision logic of two interchangeable digital-output
drivers and proves properties of that model in Dafny.

- **mp3 playback driver.** Switching the pin on starts a background loop. The
  loop decodes an mp3 file and sends its frames to the process-wide audio
  player. Switching the pin off asks the loop to stop.
  - `Mp3Session` (`mp3_session.dfy`) holds the decision core as pure
    functions:
    - `OnStep`, `OffStep` and `RunStep` act on a `Controller` snapshot. The
      snapshot records: whether the audio context exists, whether a session
      is registered (the cancellation channel is non-nil), the cached state,
      the runs launched but not started, and the cancellation requests sent.
    - `Policy` is the loop's decision at each checkpoint.
    - `LoopExit` and `RunExit` say how a run ends.
  - `Mp3` (`mp3_driver.dfy`) holds the class `Driver`. Its methods `On`,
    `Off`, `Write` and `Run` update its fields in place. Each method is proved
    to leave the fields exactly as the matching step leaves the snapshot.
    `Run` is the source's `for` loop, driven by an explicit script:
    - an `Opening` outcome (the open fails, the decoder fails, or both succeed);
    - a finite sequence of `Checkpoint`s. Each one is a cancellation, or a
      read that gives a frame (with the player's write outcome), an end of
      stream (with the outcome of rebuilding the decoder) or a read error.
- **Tasmota relay driver** (`tasmota.dfy`, module `Tasmota`). The class
  `Tasmota` caches the relay state. It commits a new state only after the plug
  has accepted the relay command. The command transport is an oracle
  `execute: Command -> Option<CommandError>`. The module also holds the
  factory's `ValidateParameters` and `NewDriver`.
- `Hal` (`hal.dfy`) holds the shared `Option`, `Result` and `Capability` types.

Behaviour of the code worth knowing:

- `run` never writes `state`. After a natural end of stream or a failed
  opening, the state stays on until `Off`, even though the session is gone
  (`NaturalEndKeepsLastStateTrue`, `OpenFailureKeepsLastStateTrue`).
- `run` creates the channel only after the file and the decoder have opened
  (mp3/driver.go:50). So the guard in `On` does not see a run that was
  launched but has not registered yet (`DoubleOnLaunchesTwoRuns`).

Modelling choices:

- The process-wide audio context is the constant field `ctxReady`.
- Launching the background goroutine is the counter `pendingRuns`: `On` adds
  one and `Run` consumes one.
- The channel is tracked by two counters: `cancelsSent` counts the requests
  `Off` sends and `cancelsTaken` counts the requests the loop takes. A
  request is waiting (`Outstanding`) while the first exceeds the second.
- The channel is unbuffered and the loop polls it before each read, so the
  loop meets a `Cancel` checkpoint exactly when a request is waiting
  (`Observes`). It then takes the request and clears the session.
- `Run` opens, registers the session and plays the loop through its script.
  A script that runs out leaves the loop `StillPlaying` with the session
  registered. `Play` continues such a loop: after `Off` its next checkpoint
  is the `Cancel` that ends it (`OffEndsSession`).

## Model

| member | source | states |
|---|---|---|
| `Mp3Session.OnWithoutContext` | mp3/driver.go:117-120 | With no audio context, On returns the context error and changes neither the state nor the session |
| `Mp3Session.OnWhileRegistered` | mp3/driver.go:121-126 | With a session registered, On returns "previous invoke is still running" and leaves the state and the session as they were |
| `Mp3Session.OnAccepted` | mp3/driver.go:117-130 | On succeeds iff the context exists and no session is registered. It then launches exactly one run and sets the state to true. A refused On changes nothing |
| `Mp3Session.OffAlwaysStops` | mp3/driver.go:131-137 | Off always returns nil and leaves the state false. It sends a cancellation request iff a session is registered, which leaves a request waiting, and is a pure state reset otherwise |
| `Mp3Session.OffIdempotentWhenIdle` | mp3/driver.go:131-137 | With no session, a second Off does nothing more than the first |
| `Mp3Session.ConsistentPreservedByOnOff` | mp3/driver.go:117-137 | On and Off keep the invariant that a session or launched run exists only when the audio context does |
| `Mp3Session.ConsistentPreservedByRun` | mp3/driver.go:33-87 | A run keeps the same invariant, and that at most one request waits, only while a session is registered |
| `Mp3Session.ConsistentPreservedByPlay` | mp3/driver.go:51-86 | Playing the registered loop keeps the same invariant |
| `Mp3Session.DoubleOnLaunchesTwoRuns` | mp3/driver.go:124-128 | The guard looks only at the registered session, so two On calls before the first run registers both succeed and launch two runs |
| `Mp3Session.NoCancelNeverCancelled` | mp3/driver.go:52-56 | A loop that meets no cancellation never ends as cancelled |
| `Mp3Session.CancelledIffTaken` | mp3/driver.go:52-56 | The registered loop ends cancelled iff a request was waiting and it reached a checkpoint; it then has taken exactly that request |
| `Mp3Session.OffEndsSession` | mp3/driver.go:131-137 | Off against a registered session leaves a request waiting; the loop's next checkpoint takes it, after which the session is gone, no request waits, the state is off and On is accepted |
| `Mp3Session.RunLeavesStateAlone` | mp3/driver.go:33-87 | A run never writes the cached state, the context or the cancellation counts. It consumes exactly its own launch |
| `Mp3Session.Policy` | mp3/driver.go:52-84 | The loop keeps going exactly on a frame, or on an end of stream with looping on and a successful rebuild. It never stops with an opening error, and it stops as a natural end exactly at an end of stream with looping off |
| `Mp3Session.LoopExitNeverOpening` | mp3/driver.go:51-86 | Once the session is registered, the loop never ends with an open or decoder error |
| `Mp3Session.OpenFailureNeverRegisters` | mp3/driver.go:34-50 | A run ends with an open or decoder error iff the opening failed. The session is then left exactly as it was, because the run never registered one |
| `Mp3Session.EveryExitClearsSession` | mp3/driver.go:50-80 | After the loop plays a script, the session is still registered iff the loop is still playing. Cancellation, end of stream without looping, rebuild failure and read error all clear it |
| `Mp3Session.LaterOnAccepted` | mp3/driver.go:53-80 | Once a run has ended, whatever the reason, the next On passes the guard. A run that registers replaces any earlier session |
| `Mp3Session.LoopingNeverEndsAtEof` | mp3/driver.go:60-75 | With looping on, the loop never ends as a natural end of stream |
| `Mp3Session.EofDecision` | mp3/driver.go:60-75 | At an end of stream the loop ends iff looping is off. With looping on it continues with the rebuilt decoder, or ends with a rebuild error if the rebuild fails |
| `Mp3Session.WriteFailureTolerated` | mp3/driver.go:82-84 | Whether the player accepts a frame never changes how the loop ends |
| `Mp3Session.FirstStopDecides` | mp3/driver.go:51-86 | The loop ends with the decision of the first checkpoint that stops it. Every earlier checkpoint keeps it playing |
| `Mp3Session.StillPlayingIffNoStop` | mp3/driver.go:51-86 | The loop is still playing at the end of a script iff no checkpoint in it stops the loop |
| `Mp3Session.LoopingPlaysUntilCancelled` | mp3/driver.go:51-75 | With looping on and successful rebuilds, frames and ends of stream keep the loop playing, and a later cancellation ends it as cancelled |
| `Mp3Session.NaturalEndKeepsLastStateTrue` | mp3/driver.go:60-65 | After On and a run of frames ending in an end of stream without looping, the session is gone and On is accepted again, but the state is still true |
| `Mp3Session.OpenFailureKeepsLastStateTrue` | mp3/driver.go:34-45 | After On and a run whose opening fails, On has already reported success and the state stays true. No session exists, so On is accepted again |
| `Mp3.Driver.constructor` | mp3/driver.go:20-26 | A new driver has no session, no launched run and the state off |
| `Mp3.Driver.On` | mp3/driver.go:117-130 | Updates the fields exactly as `OnStep` updates the snapshot, and returns its error |
| `Mp3.Driver.Off` | mp3/driver.go:131-137 | Updates the fields exactly as `OffStep` updates the snapshot, and returns nil |
| `Mp3.Driver.LastState` | mp3/driver.go:139-141 | Reports the cached state of the snapshot |
| `Mp3.Driver.Write` | mp3/driver.go:111-116 | Write(true) behaves as On and Write(false) as Off |
| `Mp3.Driver.Run` | mp3/driver.go:33-50 | Opens, registers the session and plays the script. It ends with `RunExit` and leaves the fields as `RunStep` says |
| `Mp3.Driver.Play` | mp3/driver.go:51-86 | The loop over the script ends with `LoopExit` and leaves the fields as `PlayStep` says. The loop invariant carries the unplayed rest of the script, and takes a waiting request at the first checkpoint |
| `Mp3.Driver.DigitalOutputPins` | mp3/driver.go:100-102 | Exactly one output pin, the driver itself |
| `Mp3.Driver.DigitalOutputPin` | mp3/driver.go:104-109 | Fails with an invalid-pin error iff the index is not 0, and otherwise returns the driver itself |
| `Mp3.Driver.Pins` | mp3/driver.go:146-153 | Succeeds iff the capability is digital output, and then returns exactly one pin, the driver. Otherwise reports the unsupported capability |
| `Mp3.Driver.Number` | mp3/driver.go:97-99 | The driver's number is a valid pin index, and it names the driver's only output pin |
| `Tasmota.Tasmota.constructor` | tasmota/tasmota.go:22-32 | A new driver keeps the given address and reports `LastState() == false` |
| `Tasmota.Tasmota.On` | tasmota/tasmota.go:37-45 | Sends relay state 1. If the command fails, returns its error with the state unchanged. Otherwise the state becomes true |
| `Tasmota.Tasmota.Off` | tasmota/tasmota.go:47-55 | Sends relay state 0. If the command fails, returns its error with the state unchanged. Otherwise the state becomes false |
| `Tasmota.Tasmota.LastState` | tasmota/tasmota.go:98-100 | Reports the relay state of the last accepted command; a new driver and every command keep it so (constructor, On, Off) |
| `Tasmota.Tasmota.Write` | tasmota/tasmota.go:91-96 | Write(b) sends the relay command for b and commits b exactly when the command succeeds, as On does for true and Off for false |
| `Tasmota.Tasmota.DigitalOutputPins` | tasmota/tasmota.go:80-82 | Exactly one output pin, the driver itself |
| `Tasmota.Tasmota.DigitalOutputPin` | tasmota/tasmota.go:84-89 | Fails with an invalid-pin error iff the index is not 0, and otherwise returns the driver itself |
| `Tasmota.Tasmota.Pins` | tasmota/tasmota.go:105-112 | Succeeds iff the capability is digital output, and then returns exactly one pin, the driver. Otherwise reports the unsupported capability |
| `Tasmota.Tasmota.Number` | tasmota/tasmota.go:77-79 | The driver's number is a valid pin index, and it names the driver's only output pin |
| `Tasmota.ValidateParameters` | tasmota/tasmota.go:156-172 | Valid iff "Address" is present and holds a string. When valid there are no failures. When invalid the failures have only the "Address" key, with exactly one message: "required" if the key is absent, "not a string" (carrying the received value) otherwise |
| `Tasmota.NewDriver` | tasmota/tasmota.go:174-182 | Fails exactly when validation fails, carrying its failures: only the "Address" key, with one message. Otherwise it yields a fresh driver for the given address string, with its state off |

## Left out

- Concurrency: the goroutine that runs `run`, the unbuffered channel rendezvous, and the mutex taken by `On` are not modelled. The model is sequential:
  - a launched run is the counter `pendingRuns`;
  - a request Off sends is the counter `cancelsSent`;
  - the loop's receipt of a request is a `Cancel` checkpoint, counted by `cancelsTaken`.

  The source's races are therefore not modelled: `Off` reads the channel without the lock, and a send can reach a channel the loop has just closed.
- `Mp3.Driver.Off`: does not block. It records the send, and the loop's receipt is the `Cancel` that must open the next `Play` script. The model therefore requires that no request is waiting when `Off` starts, which stands for the source's `Off` still being blocked.
- `Mp3.Driver.Run`: requires that no request is waiting when a run registers, and that the run's first script has no cancellation. In the source, a second launched run can replace the channel a blocked `Off` is sending on. That is part of the concurrency left out.
- Audio decoding, the player, `os.Open`, `Seek` and the 8-byte frame buffer are foreign libraries and I/O. They are replaced by the `Opening` outcome and by `Checkpoint` read results. The error returned by `Seek` on rewind is ignored by the source and has no outcome of its own.
- Looping playback is bounded by the length of each script: a script that runs out ends with `StillPlaying`, and `Play` continues from there.
- The Tasmota command transport (`Execute`, the TCP connection factory, `SetFactory`) and `Info` with its JSON decoding are network and serialisation code. `Execute` is the oracle `execute`.
- `Metadata`, `Name` and `Close` of both drivers, and the factory's metadata, parameter list and once-only singleton, are library glue with no logic.
- Log output and the wording of error and failure messages are not modelled. Errors and failures are opaque constructors. `hal.ToErrorString` formatting is not modelled: `NewDriver` returns the failures map itself.
- Configuration values of Go's `interface{}` type are the datatype `Value`, with string, integer, boolean and nil cases standing for all dynamic types.
- The mp3 driver's factory is not part of this model. The `Driver` constructor takes the configuration and the context readiness directly.
