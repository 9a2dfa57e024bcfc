/**
 * The App component's controller as an object: its React state and refs
 * are fields, and each callback is a method that updates them in place.
 * Every method is proved to produce the state the matching transition of
 * module Session describes, so the invariant and the lemmas proved there
 * hold of the object.
 */
module App {
  import opened Wrappers
  import opened Types
  import opened Tools
  import opened Playback
  import opened Countdown
  import Session

  class Controller {
    var status: Status
    var atmosphere: Atmosphere
    var timeLeft: int
    var isModelSpeaking: bool
    var error: Option<string>
    /** Whether `sessionRef.current` holds a session. */
    var hasSession: bool
    /** `nextStartTimeRef.current`. */
    var nextStartTime: real
    /** `sourcesRef.current`: each source node with the slot it was started in. */
    var sources: map<Session.SourceId, Slot>
    /** How many source nodes have been created; the next one gets this number. */
    var nextSourceId: Session.SourceId
    /** The source nodes on which `stop()` has been called. */
    var stopped: set<Session.SourceId>
    /** The tool responses sent to the agent, in order. */
    var outbox: seq<ToolResponse>

    function Snapshot(): Session.State
      reads this
    {
      Session.State(status, atmosphere, timeLeft, isModelSpeaking, error, hasSession,
                    nextStartTime, sources, nextSourceId, stopped, outbox)
    }

    ghost predicate Valid()
      reads this
    {
      Session.Inv(Snapshot())
    }

    constructor ()
      ensures Valid() && Snapshot() == Session.Init
    {
      status := Idle;
      atmosphere := Default;
      timeLeft := SessionDurationSeconds;
      isModelSpeaking := false;
      error := None;
      hasSession := false;
      nextStartTime := 0.0;
      sources := map[];
      nextSourceId := 0;
      stopped := {};
      outbox := [];
    }

    /** The start button, shown only when idle or finished. */
    method StartConversation(apiKey: Option<string>)
      requires Valid() && Session.CanStart(Snapshot())
      modifies this
      ensures Valid() && Snapshot() == Session.StartConversation(old(Snapshot()), apiKey)
    {
      if !Session.KeyConfigured(apiKey) {
        error := Some(Session.KeyMissingMessage);
        status := Error;
        return;
      }
      status := Connecting;
      error := None;
      timeLeft := SessionDurationSeconds;
    }

    /** The connection promise resolved. */
    method SessionReady()
      requires Valid()
      modifies this
      ensures Valid() && Snapshot() == Session.SessionReady(old(Snapshot()))
    {
      hasSession := true;
    }

    /** Something in the setup threw. */
    method SetupFailed()
      requires Valid()
      modifies this
      ensures Valid() && Snapshot() == Session.SetupFailed(old(Snapshot()))
    {
      error := Some(Session.SetupFailedMessage);
      status := Error;
    }

    method OnOpen()
      requires Valid()
      modifies this
      ensures Valid() && Snapshot() == Session.OnOpen(old(Snapshot()))
    {
      status := Active;
    }

    method OnError()
      requires Valid()
      modifies this
      ensures Valid() && Snapshot() == Session.OnError(old(Snapshot()))
    {
      error := Some(Session.ConnectionLostMessage);
      status := Error;
    }

    method OnClose()
      requires Valid()
      modifies this
      ensures Valid() && Snapshot() == Session.OnClose(old(Snapshot()))
    {
      status := Finished;
    }

    /** `forEach(source => source.stop())` followed by `clear()`. */
    method StopAllSources()
      modifies this
      ensures Snapshot() == Session.StopSources(old(Snapshot()))
    {
      var active := sources.Keys;
      var pending := active;
      var halted := stopped;
      while pending != {}
        invariant pending <= active
        invariant halted == stopped + (active - pending)
        decreases pending
      {
        var id :| id in pending;
        halted := halted + {id};
        pending := pending - {id};
      }
      stopped := halted;
      sources := map[];
    }

    /** `stopConversation`: called by the stop button and by the last tick. */
    method StopConversation()
      requires Valid()
      modifies this
      ensures Valid() && Snapshot() == Session.StopConversation(old(Snapshot()))
    {
      hasSession := false;
      status := Finished;
      isModelSpeaking := false;
      StopAllSources();
    }

    /** The stop button, shown only when active or in error. */
    method PressStop()
      requires Valid() && Session.CanStop(Snapshot())
      modifies this
      ensures Valid() && Snapshot() == Session.StopConversation(old(Snapshot()))
    {
      StopConversation();
    }

    /** One firing of the interval timer, which runs only while active with time left. */
    method Tick()
      requires Valid() && Session.TickEnabled(Snapshot())
      modifies this
      ensures Valid() && Snapshot() == Session.Tick(old(Snapshot()))
    {
      var step := TimerStep(timeLeft);
      if step.stops {
        StopConversation();
      }
      timeLeft := step.next;
    }

    /** The tool-call loop of `onmessage`: apply each `setAtmosphere` call and send its response. */
    method AnswerToolCalls(calls: seq<FunctionCall>)
      modifies this
      ensures Snapshot() == Session.AnswerToolCalls(old(Snapshot()), calls)
    {
      var theme, sent := atmosphere, outbox;
      for i := 0 to |calls|
        invariant theme == HandleToolCalls(old(atmosphere), calls[..i]).atmosphere
        invariant sent == old(outbox) + HandleToolCalls(old(atmosphere), calls[..i]).responses
      {
        var fc := calls[i];
        if fc.name == ToolName {
          var o := ApplyAtmosphere(theme, fc.theme);
          theme := o.atmosphere;
          sent := sent + [ToolResponse(fc.id, fc.name, o.result)];
        }
        assert calls[..i + 1][..i] == calls[..i];
      }
      assert calls[..|calls|] == calls;
      atmosphere, outbox := theme, sent;
    }

    /** The audio branch of `onmessage`, for a frame of the given decoded duration. */
    method ScheduleFrame(duration: Seconds, clockNow: Seconds)
      modifies this
      ensures Snapshot() == Session.Schedule(old(Snapshot()), duration, clockNow)
    {
      isModelSpeaking := true;
      nextStartTime := StartAt(nextStartTime, clockNow);
      var slot := Slot(nextStartTime, duration);
      nextStartTime := nextStartTime + duration;
      sources := sources[nextSourceId := slot];
      nextSourceId := nextSourceId + 1;
    }

    /** The interruption branch of `onmessage`. */
    method Interrupt()
      modifies this
      ensures Snapshot() == Session.Interrupt(old(Snapshot()))
    {
      StopAllSources();
      isModelSpeaking := false;
      nextStartTime := 0.0;
    }

    /** `onmessage`: tool calls, then the audio frame, then the interruption flag. */
    method OnMessage(calls: seq<FunctionCall>, audio: Option<Seconds>, interrupted: bool, clockNow: Seconds)
      requires Valid()
      modifies this
      ensures Valid() && Snapshot() == Session.OnMessage(old(Snapshot()), calls, audio, interrupted, clockNow)
    {
      Session.MessageEffects(Snapshot(), calls, audio, interrupted, clockNow);
      AnswerToolCalls(calls);
      if audio.Some? {
        ScheduleFrame(audio.value, clockNow);
      }
      if interrupted {
        Interrupt();
      }
    }

    /** The `ended` listener of source node `id`. */
    method OnEnded(id: Session.SourceId)
      requires Valid()
      modifies this
      ensures Valid() && Snapshot() == Session.OnEnded(old(Snapshot()), id)
    {
      sources := sources - {id};
      if sources == map[] {
        isModelSpeaking := false;
      }
    }
  }
}
