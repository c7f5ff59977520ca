/**
 * The decision core of the mp3 playback driver, on values.
 *
 * A `Controller` is a snapshot of one driver's fields: whether the
 * process-wide audio context exists, whether a playback session is
 * registered (the cancellation channel is non-nil), the cached on/off
 * state, how many background runs have been launched but have not started
 * yet, and how many cancellation requests have been sent on the channel
 * and taken from it by the loop.
 *
 * `OnStep`, `OffStep`, `RunStep` and `PlayStep` say what each operation
 * does to that snapshot.  The background loop is driven by a finite script
 * of checkpoints: at each one the loop either takes a cancellation request
 * or reads a frame, and `Policy` decides whether it keeps playing.  The
 * channel is unbuffered and the loop polls it first, so the loop meets a
 * `Cancel` exactly when a request is waiting (`Observes`).
 */
module Mp3Session {
  import opened Hal

  /** The driver's configuration, fixed at construction. */
  datatype Config = Config(loop: bool, file: string)

  /** The errors On and the pin surface report; their wording is not modelled. */
  datatype Error =
    | ContextNotInitialized
    | PreviousInvokeRunning
    | InvalidPin(pin: int)
    | UnsupportedCapability(cap: Capability)

  /** How opening the file and building the first decoder went. */
  datatype Opening = OpenFailed | DecoderFailed | Opened

  /**
   * What one read of the decoder gave.  A frame carries whether the player
   * accepted it; an end of stream carries whether rebuilding the decoder
   * after the rewind would succeed (only consulted when looping).
   */
  datatype ReadResult = Frame(writeOk: bool) | EndOfStream(rebuildOk: bool) | ReadFailed

  /** What the loop meets at one checkpoint. */
  datatype Checkpoint = Cancel | Read(result: ReadResult)

  /**
   * Why a run ended; `StillPlaying` means the script ran out while the loop
   * was still going, so the session is still registered.
   */
  datatype Exit =
    | OpenError
    | DecoderError
    | Cancelled
    | StreamEnded
    | RebuildError
    | ReadError
    | StillPlaying

  /** The loop's decision at one checkpoint: `None` keeps playing. */
  function Policy(loop: bool, c: Checkpoint): (r: Option<Exit>)
    ensures r.None? <==>
      c.Read? && (c.result.Frame? || (loop && c.result.EndOfStream? && c.result.rebuildOk))
    ensures r.Some? ==> r.value !in {OpenError, DecoderError, StillPlaying}
    ensures r == Some(StreamEnded) <==> !loop && c.Read? && c.result.EndOfStream?
  {
    match c
    case Cancel => Some(Cancelled)
    case Read(Frame(_)) => None
    case Read(EndOfStream(rebuildOk)) =>
      if !loop then Some(StreamEnded)
      else if rebuildOk then None
      else Some(RebuildError)
    case Read(ReadFailed) => Some(ReadError)
  }

  /** How the loop ends on a script, once the session is registered. */
  function LoopExit(loop: bool, script: seq<Checkpoint>): Exit
    decreases |script|
  {
    if script == [] then StillPlaying
    else match Policy(loop, script[0])
      case Some(e) => e
      case None => LoopExit(loop, script[1..])
  }

  /** How a whole run ends, opening included. */
  function RunExit(loop: bool, opening: Opening, script: seq<Checkpoint>): Exit
  {
    match opening
    case OpenFailed => OpenError
    case DecoderFailed => DecoderError
    case Opened => LoopExit(loop, script)
  }

  datatype Controller = Controller(
    ctxReady: bool,
    sessionActive: bool,
    state: bool,
    pendingRuns: nat,
    cancelsSent: nat,
    cancelsTaken: nat)

  /** A cancellation request has been sent and the loop has not taken it yet. */
  predicate Outstanding(c: Controller)
  {
    c.cancelsTaken < c.cancelsSent
  }

  /**
   * A session or a launched run exists only once the audio context does;
   * at most one request waits, and only while a session is registered.
   */
  predicate Consistent(c: Controller)
  {
    ((c.sessionActive || c.pendingRuns > 0) ==> c.ctxReady) &&
    c.cancelsTaken <= c.cancelsSent <= c.cancelsTaken + 1 &&
    (Outstanding(c) ==> c.sessionActive)
  }

  /**
   * The rendezvous seen from the loop: with a request waiting, its next
   * checkpoint takes it; with none waiting, it never meets a cancellation.
   */
  predicate Observes(c: Controller, script: seq<Checkpoint>)
  {
    if Outstanding(c) then script != [] ==> script[0] == Cancel
    else Cancel !in script
  }

  /** The new snapshot and the error an operation returns. */
  datatype Reply = Reply(next: Controller, err: Option<Error>)

  /** On: two guards, then launch one run and set the state. */
  function OnStep(c: Controller): Reply
  {
    if !c.ctxReady then Reply(c, Some(ContextNotInitialized))
    else if c.sessionActive then Reply(c, Some(PreviousInvokeRunning))
    else Reply(c.(state := true, pendingRuns := c.pendingRuns + 1), None)
  }

  /**
   * Off: signal the registered session, if any, and clear the state.  The
   * send blocks until the loop takes it, so no second Off starts while a
   * request is still waiting.
   */
  function OffStep(c: Controller): Reply
    requires !Outstanding(c)
  {
    var sent := if c.sessionActive then c.cancelsSent + 1 else c.cancelsSent;
    Reply(c.(state := false, cancelsSent := sent), None)
  }

  /**
   * The registered loop going through a script: it takes a cancellation
   * if it meets one, and clears the session on every exit.
   */
  function PlayStep(c: Controller, loop: bool, script: seq<Checkpoint>): Controller
    requires c.sessionActive && Observes(c, script)
  {
    var exit := LoopExit(loop, script);
    var taken := if exit == Cancelled then c.cancelsTaken + 1 else c.cancelsTaken;
    c.(sessionActive := exit == StillPlaying, cancelsTaken := taken)
  }

  /**
   * What a launched run may meet: once it registers its channel, no request
   * is waiting yet, so its first stretch of the loop meets no cancellation.
   */
  predicate RunAllowed(c: Controller, opening: Opening, script: seq<Checkpoint>)
  {
    c.pendingRuns > 0 && (opening == Opened ==> !Outstanding(c) && Cancel !in script)
  }

  /**
   * One launched run up to its exit or the end of the script: a failed
   * opening leaves the session alone, otherwise the session is registered
   * and the loop plays through the script.
   */
  function RunStep(c: Controller, loop: bool, opening: Opening, script: seq<Checkpoint>): Controller
    requires RunAllowed(c, opening, script)
  {
    var started := c.(pendingRuns := c.pendingRuns - 1);
    if opening != Opened then started
    else PlayStep(started.(sessionActive := true), loop, script)
  }

  // ---------------------------------------------------------------------
  // The start/stop guard

  lemma OnWithoutContext(c: Controller)
    requires !c.ctxReady
    ensures OnStep(c) == Reply(c, Some(ContextNotInitialized))
  {
  }

  lemma OnWhileRegistered(c: Controller)
    requires c.ctxReady && c.sessionActive
    ensures OnStep(c) == Reply(c, Some(PreviousInvokeRunning))
  {
  }

  /** On succeeds exactly when both guards pass, and then launches exactly one run. */
  lemma OnAccepted(c: Controller)
    ensures OnStep(c).err.None? <==> c.ctxReady && !c.sessionActive
    ensures OnStep(c).err.None? ==>
      OnStep(c).next.state &&
      OnStep(c).next.pendingRuns == c.pendingRuns + 1 &&
      OnStep(c).next.sessionActive == c.sessionActive &&
      OnStep(c).next.cancelsSent == c.cancelsSent &&
      OnStep(c).next.cancelsTaken == c.cancelsTaken
    ensures OnStep(c).err.Some? ==> OnStep(c).next == c
  {
  }

  /** Off never fails, always clears the state and signals only a registered session. */
  lemma OffAlwaysStops(c: Controller)
    requires Consistent(c) && !Outstanding(c)
    ensures OffStep(c).err.None?
    ensures !OffStep(c).next.state
    ensures OffStep(c).next.sessionActive == c.sessionActive
    ensures OffStep(c).next.pendingRuns == c.pendingRuns
    ensures OffStep(c).next.cancelsSent == c.cancelsSent + 1 <==> c.sessionActive
    ensures Outstanding(OffStep(c).next) <==> c.sessionActive
    ensures !c.sessionActive ==> OffStep(c).next == c.(state := false)
  {
  }

  /** Without a session, Off is a pure reset: doing it twice is doing it once. */
  lemma OffIdempotentWhenIdle(c: Controller)
    requires !c.sessionActive && !Outstanding(c)
    ensures OffStep(OffStep(c).next) == OffStep(c)
  {
  }

  lemma ConsistentPreservedByOnOff(c: Controller)
    requires Consistent(c)
    ensures Consistent(OnStep(c).next)
    ensures !Outstanding(c) ==> Consistent(OffStep(c).next)
  {
  }

  lemma ConsistentPreservedByRun(c: Controller, loop: bool, opening: Opening, script: seq<Checkpoint>)
    requires Consistent(c) && RunAllowed(c, opening, script)
    ensures Consistent(RunStep(c, loop, opening, script))
  {
    if opening == Opened {
      CancelledIffTaken(c.(pendingRuns := c.pendingRuns - 1, sessionActive := true), loop, script);
    }
  }

  lemma ConsistentPreservedByPlay(c: Controller, loop: bool, script: seq<Checkpoint>)
    requires Consistent(c) && c.sessionActive && Observes(c, script)
    ensures Consistent(PlayStep(c, loop, script))
  {
    CancelledIffTaken(c, loop, script);
  }

  /**
   * The guard looks only at the registered session, not at launched runs:
   * two On calls before the first run registers both succeed.
   */
  lemma DoubleOnLaunchesTwoRuns(c: Controller)
    requires c.ctxReady && !c.sessionActive
    ensures OnStep(c).err.None?
    ensures OnStep(OnStep(c).next).err.None?
    ensures OnStep(OnStep(c).next).next.pendingRuns == c.pendingRuns + 2
  {
  }

  // ---------------------------------------------------------------------
  // Cancellation

  /** A loop that meets no cancellation is never cancelled. */
  lemma {:induction false} NoCancelNeverCancelled(loop: bool, script: seq<Checkpoint>)
    requires Cancel !in script
    ensures LoopExit(loop, script) != Cancelled
    decreases |script|
  {
    if script != [] && Policy(loop, script[0]).None? {
      assert forall j :: 0 <= j < |script| - 1 ==> script[1..][j] == script[j + 1];
      NoCancelNeverCancelled(loop, script[1..]);
    }
  }

  /**
   * The loop ends cancelled exactly when a request was waiting and it
   * reached a checkpoint, and then it has taken that request.
   */
  lemma CancelledIffTaken(c: Controller, loop: bool, script: seq<Checkpoint>)
    requires c.sessionActive && Observes(c, script)
    ensures LoopExit(loop, script) == Cancelled <==> Outstanding(c) && script != []
    ensures PlayStep(c, loop, script).cancelsTaken ==
      if Outstanding(c) && script != [] then c.cancelsTaken + 1 else c.cancelsTaken
  {
    if !Outstanding(c) {
      NoCancelNeverCancelled(loop, script);
    }
  }

  /**
   * Off against a registered session, then the loop's next checkpoint:
   * the loop takes the request, the session is gone, no request waits, the
   * state is off, and On is accepted again.
   */
  lemma OffEndsSession(c: Controller, loop: bool, rest: seq<Checkpoint>)
    requires Consistent(c) && c.sessionActive && !Outstanding(c)
    ensures Outstanding(OffStep(c).next)
    ensures Observes(OffStep(c).next, [Cancel] + rest)
    ensures var after := PlayStep(OffStep(c).next, loop, [Cancel] + rest);
      !after.sessionActive && !after.state && !Outstanding(after) &&
      Consistent(after) && OnStep(after).err.None?
  {
  }

  // ---------------------------------------------------------------------
  // The run

  /** A run never writes the cached state, nor anything but the session and its own launch. */
  lemma RunLeavesStateAlone(c: Controller, loop: bool, opening: Opening, script: seq<Checkpoint>)
    requires RunAllowed(c, opening, script)
    ensures RunStep(c, loop, opening, script).state == c.state
    ensures RunStep(c, loop, opening, script).ctxReady == c.ctxReady
    ensures RunStep(c, loop, opening, script).cancelsSent == c.cancelsSent
    ensures RunStep(c, loop, opening, script).cancelsTaken == c.cancelsTaken
    ensures RunStep(c, loop, opening, script).pendingRuns == c.pendingRuns - 1
  {
    if opening == Opened {
      NoCancelNeverCancelled(loop, script);
    }
  }

  /** The loop itself never ends with an opening error. */
  lemma {:induction false} LoopExitNeverOpening(loop: bool, script: seq<Checkpoint>)
    ensures LoopExit(loop, script) != OpenError
    ensures LoopExit(loop, script) != DecoderError
    decreases |script|
  {
    if script != [] && Policy(loop, script[0]).None? {
      LoopExitNeverOpening(loop, script[1..]);
    }
  }

  /**
   * A run ends with an opening error exactly when the opening failed, and
   * then the session is left as it was: the run never registered one.
   */
  lemma OpenFailureNeverRegisters(c: Controller, loop: bool, opening: Opening, script: seq<Checkpoint>)
    requires RunAllowed(c, opening, script)
    ensures RunExit(loop, opening, script) in {OpenError, DecoderError} <==> opening != Opened
    ensures opening != Opened ==>
      RunStep(c, loop, opening, script).sessionActive == c.sessionActive
  {
    LoopExitNeverOpening(loop, script);
  }

  /** Every exit of a registered loop clears the session; only a loop still playing keeps it. */
  lemma EveryExitClearsSession(c: Controller, loop: bool, script: seq<Checkpoint>)
    requires c.sessionActive && Observes(c, script)
    ensures PlayStep(c, loop, script).sessionActive <==> LoopExit(loop, script) == StillPlaying
  {
  }

  /** After a run has ended, with the context present, the next On passes the guard. */
  lemma LaterOnAccepted(c: Controller, loop: bool, opening: Opening, script: seq<Checkpoint>)
    requires Consistent(c) && RunAllowed(c, opening, script)
    requires opening == Opened || !c.sessionActive
    requires RunExit(loop, opening, script) != StillPlaying
    ensures OnStep(RunStep(c, loop, opening, script)).err.None?
  {
  }

  /** With looping on, end of stream never ends the loop by itself. */
  lemma {:induction false} LoopingNeverEndsAtEof(script: seq<Checkpoint>)
    ensures LoopExit(true, script) != StreamEnded
    decreases |script|
  {
    if script != [] && Policy(true, script[0]).None? {
      LoopingNeverEndsAtEof(script[1..]);
    }
  }

  /**
   * At an end of stream the loop ends as a natural end iff looping is off;
   * with looping on it goes on with the rebuilt decoder, or ends if the
   * rebuild fails.
   */
  lemma EofDecision(loop: bool, script: seq<Checkpoint>)
    requires script != [] && script[0].Read? && script[0].result.EndOfStream?
    ensures LoopExit(loop, script) == StreamEnded <==> !loop
    ensures loop && script[0].result.rebuildOk ==> LoopExit(loop, script) == LoopExit(loop, script[1..])
    ensures loop && !script[0].result.rebuildOk ==> LoopExit(loop, script) == RebuildError
  {
    if loop {
      LoopingNeverEndsAtEof(script);
    }
  }

  /** Whether the player accepted a frame never changes how the loop ends. */
  lemma {:induction false} WriteFailureTolerated(loop: bool, script: seq<Checkpoint>, i: nat, ok: bool)
    requires i < |script| && script[i].Read? && script[i].result.Frame?
    ensures LoopExit(loop, script[i := Read(Frame(ok))]) == LoopExit(loop, script)
    decreases i
  {
    var changed := script[i := Read(Frame(ok))];
    if i > 0 {
      assert changed[0] == script[0];
      if Policy(loop, script[0]).None? {
        assert changed[1..] == script[1..][i - 1 := Read(Frame(ok))];
        WriteFailureTolerated(loop, script[1..], i - 1, ok);
      }
    } else {
      assert changed[1..] == script[1..];
    }
  }

  /** The loop ends with the decision of the first checkpoint that stops it. */
  lemma {:induction false} FirstStopDecides(loop: bool, script: seq<Checkpoint>, k: nat)
    requires k < |script|
    requires forall j :: 0 <= j < k ==> Policy(loop, script[j]).None?
    requires Policy(loop, script[k]).Some?
    ensures LoopExit(loop, script) == Policy(loop, script[k]).value
    decreases k
  {
    if k > 0 {
      assert Policy(loop, script[0]).None?;
      FirstStopDecides(loop, script[1..], k - 1);
    }
  }

  /** The loop is still playing at the end of the script iff no checkpoint stopped it. */
  lemma {:induction false} StillPlayingIffNoStop(loop: bool, script: seq<Checkpoint>)
    ensures LoopExit(loop, script) == StillPlaying <==>
      forall j :: 0 <= j < |script| ==> Policy(loop, script[j]).None?
    decreases |script|
  {
    if script != [] {
      StillPlayingIffNoStop(loop, script[1..]);
      if Policy(loop, script[0]).None? {
        assert forall j :: 1 <= j < |script| ==> script[j] == script[1..][j - 1];
      }
    }
  }

  /**
   * With looping on, a stream whose rebuilds succeed plays until it is
   * cancelled: a script of frames and ends of stream leaves it playing,
   * and a cancellation after them ends it as cancelled.
   */
  lemma LoopingPlaysUntilCancelled(script: seq<Checkpoint>)
    requires forall j :: 0 <= j < |script| ==>
      script[j] == Read(EndOfStream(true)) || (script[j].Read? && script[j].result.Frame?)
    ensures LoopExit(true, script) == StillPlaying
    ensures LoopExit(true, script + [Cancel]) == Cancelled
  {
    StillPlayingIffNoStop(true, script);
    var s := script + [Cancel];
    assert forall j :: 0 <= j < |script| ==> s[j] == script[j];
    FirstStopDecides(true, s, |script|);
  }

  /**
   * On, then a run through frames to a natural end of stream without
   * looping: the session is gone and On is accepted again, but the cached
   * state stays on, because the run never writes it.
   */
  lemma NaturalEndKeepsLastStateTrue(c: Controller, frames: seq<Checkpoint>, rebuildOk: bool)
    requires Consistent(c) && c.ctxReady && !c.sessionActive
    requires forall j :: 0 <= j < |frames| ==> frames[j].Read? && frames[j].result.Frame?
    ensures RunAllowed(OnStep(c).next, Opened, frames + [Read(EndOfStream(rebuildOk))])
    ensures RunExit(false, Opened, frames + [Read(EndOfStream(rebuildOk))]) == StreamEnded
    ensures var after := RunStep(OnStep(c).next, false, Opened, frames + [Read(EndOfStream(rebuildOk))]);
      after.state && !after.sessionActive && OnStep(after).err.None?
  {
    var s := frames + [Read(EndOfStream(rebuildOk))];
    assert forall j :: 0 <= j < |frames| ==> s[j] == frames[j];
    assert Cancel !in s;
    FirstStopDecides(false, s, |frames|);
  }

  /**
   * On, then a run whose opening fails: On already reported success and
   * the state stays on; no session was registered, so On is accepted again.
   */
  lemma OpenFailureKeepsLastStateTrue(c: Controller, loop: bool, opening: Opening, script: seq<Checkpoint>)
    requires Consistent(c) && c.ctxReady && !c.sessionActive
    requires opening != Opened
    ensures OnStep(c).err.None?
    ensures var after := RunStep(OnStep(c).next, loop, opening, script);
      after.state && !after.sessionActive && OnStep(after).err.None?
  {
  }
}
