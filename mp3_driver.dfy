/**
 * The mp3 playback driver as an object: its fields are updated in place by
 * On, Off and the background run, and every method is proved to do to the
 * fields what the matching step of `Mp3Session` does to a snapshot.
 */
module Mp3 {
  import opened Hal
  import opened Mp3Session

  class Driver {
    const conf: Config
    /** The process-wide audio context has been created. */
    const ctxReady: bool
    /** A session is registered: the cancellation channel is non-nil. */
    var sessionActive: bool
    /** The cached on/off state LastState reports. */
    var state: bool
    /** Background runs launched by On that have not started yet. */
    var pendingRuns: nat
    /** Cancellation requests Off has sent on the channel. */
    var cancelsSent: nat
    /** Cancellation requests the loop has taken from the channel. */
    var cancelsTaken: nat

    function Snapshot(): Controller
      reads this
    {
      Controller(ctxReady, sessionActive, state, pendingRuns, cancelsSent, cancelsTaken)
    }

    /** A driver starts with no session, no run and the state off. */
    constructor (conf: Config, ctxReady: bool)
      ensures this.conf == conf
      ensures Snapshot() == Controller(ctxReady, false, false, 0, 0, 0)
    {
      this.conf := conf;
      this.ctxReady := ctxReady;
      sessionActive := false;
      state := false;
      pendingRuns := 0;
      cancelsSent := 0;
      cancelsTaken := 0;
    }

    method On() returns (err: Option<Error>)
      modifies this
      ensures Reply(Snapshot(), err) == OnStep(old(Snapshot()))
    {
      if !ctxReady {
        return Some(ContextNotInitialized);
      }
      if sessionActive {
        return Some(PreviousInvokeRunning);
      }
      // launch the background run
      pendingRuns := pendingRuns + 1;
      state := true;
      return None;
    }

    /** Off blocks until the loop takes its request, so none is waiting when it starts. */
    method Off() returns (err: Option<Error>)
      requires !Outstanding(Snapshot())
      modifies this
      ensures Reply(Snapshot(), err) == OffStep(old(Snapshot()))
    {
      if sessionActive {
        // send on the cancellation channel
        cancelsSent := cancelsSent + 1;
      }
      state := false;
      return None;
    }

    method Write(on: bool) returns (err: Option<Error>)
      requires !on ==> !Outstanding(Snapshot())
      modifies this
      ensures on ==> Reply(Snapshot(), err) == OnStep(old(Snapshot()))
      ensures !on ==> Reply(Snapshot(), err) == OffStep(old(Snapshot()))
    {
      if on {
        err := On();
      } else {
        err := Off();
      }
    }

    /** The state the last accepted On or any Off left; the run never changes it. */
    function LastState(): (on: bool)
      reads this
      ensures on == Snapshot().state
    {
      state
    }

    /**
     * One launched run: open the file and build the decoder, register the
     * session, then play the loop through the script.
     */
    method Run(opening: Opening, script: seq<Checkpoint>) returns (exit: Exit)
      requires RunAllowed(Snapshot(), opening, script)
      modifies this
      ensures exit == RunExit(conf.loop, opening, script)
      ensures Snapshot() == RunStep(old(Snapshot()), conf.loop, opening, script)
    {
      pendingRuns := pendingRuns - 1;
      if opening == OpenFailed {
        return OpenError;
      }
      if opening == DecoderFailed {
        return DecoderError;
      }
      sessionActive := true;
      exit := Play(script);
    }

    /**
     * The registered loop: at each checkpoint poll for a cancellation, else
     * read one frame, until the loop stops or the script runs out.  Calling
     * it again continues a loop left still playing.
     */
    method Play(script: seq<Checkpoint>) returns (exit: Exit)
      requires sessionActive && Observes(Snapshot(), script)
      modifies this
      ensures exit == LoopExit(conf.loop, script)
      ensures Snapshot() == PlayStep(old(Snapshot()), conf.loop, script)
    {
      var i := 0;
      while i < |script|
        invariant 0 <= i <= |script|
        invariant sessionActive
        invariant state == old(state) && pendingRuns == old(pendingRuns)
        invariant cancelsSent == old(cancelsSent) && cancelsTaken == old(cancelsTaken)
        invariant i > 0 ==> !Outstanding(Snapshot())
        invariant LoopExit(conf.loop, script) == LoopExit(conf.loop, script[i..])
      {
        assert script[i..][1..] == script[i + 1..];
        match script[i] {
          case Cancel =>
            cancelsTaken := cancelsTaken + 1;
            sessionActive := false;
            return Cancelled;
          case Read(Frame(_)) =>
            // a failed write to the player is only logged
          case Read(EndOfStream(rebuildOk)) =>
            if !conf.loop {
              sessionActive := false;
              return StreamEnded;
            }
            // rewind the file and replace the decoder
            if !rebuildOk {
              sessionActive := false;
              return RebuildError;
            }
          case Read(ReadFailed) =>
            sessionActive := false;
            return ReadError;
        }
        i := i + 1;
      }
      return StillPlaying;
    }

    /** The driver's own number is the index of its only pin. */
    function Number(): (n: int)
      ensures DigitalOutputPin(n) == Ok(DigitalOutputPins()[0])
    {
      0
    }

    function DigitalOutputPins(): (pins: seq<Driver>)
      ensures |pins| == 1 && pins[0] == this
    {
      [this]
    }

    /** Only index 0 names a pin, and that pin is the driver itself. */
    function DigitalOutputPin(i: int): (r: Result<Driver, Error>)
      ensures r.Ok? <==> i == 0
      ensures r.Ok? ==> r.value == this
      ensures r.Err? ==> r.error == InvalidPin(i)
    {
      if i != 0 then Err(InvalidPin(i)) else Ok(this)
    }

    /** Pins exist only for the digital-output capability: exactly one, the driver. */
    function Pins(cap: Capability): (r: Result<seq<Driver>, Error>)
      ensures r.Ok? <==> cap == DigitalOutput
      ensures r.Ok? ==> r.value == [this]
      ensures r.Err? ==> r.error == UnsupportedCapability(cap)
    {
      match cap
      case DigitalOutput => Ok([this])
      case _ => Err(UnsupportedCapability(cap))
    }
  }
}
