/**
 * The session controller of App.tsx, taken out of React: one record for
 * the component's state and refs, and one transition per callback.
 */
module Session {
  import opened Wrappers
  import opened Types
  import opened Tools
  import opened Playback
  import opened Countdown

  /** Identifies one audio buffer source node created for an inbound frame. */
  type SourceId = nat

  const PlaceholderKey: string := "YOUR_API_KEY_HERE"
  const KeyMissingMessage: string := "Please set your Gemini API key in .env.local file"
  const ConnectionLostMessage: string := "Oops! Something went wrong with our magic connection."
  const SetupFailedMessage: string := "We couldn't reach the magic storyteller. Is your microphone on?"

  /**
   * The controller's state. `speaking` is `isModelSpeaking`, `hasSession`
   * says whether `sessionRef` holds a session, `cursor` is
   * `nextStartTimeRef`, and `sources` is `sourcesRef`, each node with the
   * slot it was started in. `nextSource` numbers the nodes created so far,
   * `stopped` holds the nodes on which `stop()` was called, and `outbox`
   * the tool responses sent, in order.
   */
  datatype State = State(
    status: Status,
    atmosphere: Atmosphere,
    timeLeft: int,
    speaking: bool,
    error: Option<string>,
    hasSession: bool,
    cursor: real,
    sources: map<SourceId, Slot>,
    nextSource: SourceId,
    stopped: set<SourceId>,
    outbox: seq<ToolResponse>)

  /** The state when the component mounts (App.tsx:13-25). */
  const Init: State := State(Idle, Default, SessionDurationSeconds, false, None, false, 0.0, map[], 0, {}, [])

  /**
   * What every reachable state satisfies: the speaking flag is true exactly
   * when a source is active; the time left stays within the session
   * length; no active source has been stopped; every active source ends by
   * the cursor; and active sources, in creation order, do not overlap.
   */
  ghost predicate Inv(s: State) {
    (s.speaking <==> s.sources != map[]) &&
    0 <= s.timeLeft <= SessionDurationSeconds &&
    s.cursor >= 0.0 &&
    (forall id :: id in s.stopped ==> id < s.nextSource) &&
    (forall id :: id in s.sources ==>
      id < s.nextSource && id !in s.stopped && s.sources[id].End() <= s.cursor) &&
    (forall a, b :: a in s.sources && b in s.sources && a < b ==>
      s.sources[a].End() <= s.sources[b].start)
  }

  /** The playback part of two states agrees. */
  predicate PlaybackUnchanged(r: State, s: State) {
    r.speaking == s.speaking && r.cursor == s.cursor && r.sources == s.sources &&
    r.nextSource == s.nextSource && r.stopped == s.stopped
  }

  /** `!process.env.GEMINI_API_KEY || ... === 'YOUR_API_KEY_HERE'`, negated: undefined and "" are both falsy. */
  predicate KeyConfigured(apiKey: Option<string>) {
    apiKey.Some? && apiKey.value != "" && apiKey.value != PlaceholderKey
  }

  /** The start button is rendered only when idle or finished. */
  predicate CanStart(s: State) {
    s.status == Idle || s.status == Finished
  }

  /** Active and error states fall through to the stop button; connecting shows a spinner only. */
  predicate CanStop(s: State) {
    s.status == Active || s.status == Error
  }

  /** The interval timer runs only while active with time left. */
  predicate TickEnabled(s: State) {
    s.status == Active && s.timeLeft > 0
  }

  /** `startConversation` up to its first `await`. */
  function StartConversation(s: State, apiKey: Option<string>): (r: State)
    ensures r.status == Connecting <==> KeyConfigured(apiKey)
    ensures KeyConfigured(apiKey) ==> r.error == None && r.timeLeft == SessionDurationSeconds
    ensures !KeyConfigured(apiKey) ==>
      r.status == Error && r.error == Some(KeyMissingMessage) && r.timeLeft == s.timeLeft
    ensures r.(status := s.status, error := s.error, timeLeft := s.timeLeft) == s
    ensures Inv(s) ==> Inv(r)
  {
    if !KeyConfigured(apiKey) then s.(error := Some(KeyMissingMessage), status := Error)
    else s.(status := Connecting, error := None, timeLeft := SessionDurationSeconds)
  }

  /** `sessionRef.current = await sessionPromise`. */
  function SessionReady(s: State): (r: State)
    ensures r.hasSession && r.(hasSession := s.hasSession) == s
    ensures Inv(s) ==> Inv(r)
  {
    s.(hasSession := true)
  }

  /** The `catch` of `startConversation`: microphone refused or connection failed. */
  function SetupFailed(s: State): (r: State)
    ensures r.status == Error && r.error == Some(SetupFailedMessage)
    ensures r.(status := s.status, error := s.error) == s
    ensures Inv(s) ==> Inv(r)
  {
    s.(error := Some(SetupFailedMessage), status := Error)
  }

  /** `onopen`. */
  function OnOpen(s: State): (r: State)
    ensures r.status == Active && r.(status := s.status) == s
    ensures Inv(s) ==> Inv(r)
  {
    s.(status := Active)
  }

  /** `onerror`: the session, timer and playback are left as they are. */
  function OnError(s: State): (r: State)
    ensures r.status == Error && r.error == Some(ConnectionLostMessage)
    ensures r.(status := s.status, error := s.error) == s
    ensures Inv(s) ==> Inv(r)
  {
    s.(error := Some(ConnectionLostMessage), status := Error)
  }

  /** `onclose`: only the status changes. */
  function OnClose(s: State): (r: State)
    ensures r.status == Finished && r.(status := s.status) == s
    ensures Inv(s) ==> Inv(r)
  {
    s.(status := Finished)
  }

  /** Calling `stop()` on every active source and clearing the set. */
  function StopSources(s: State): (r: State)
    ensures r.sources == map[] && r.stopped == s.stopped + s.sources.Keys
  {
    s.(stopped := s.stopped + s.sources.Keys, sources := map[])
  }

  /** `stopConversation`: used by the stop button and by the last tick. */
  function StopConversation(s: State): (r: State)
    ensures r.status == Finished && !r.hasSession && !r.speaking && r.sources == map[]
    ensures r.stopped == s.stopped + s.sources.Keys
    ensures r.cursor == s.cursor && r.atmosphere == s.atmosphere && r.timeLeft == s.timeLeft &&
            r.error == s.error && r.outbox == s.outbox && r.nextSource == s.nextSource
    ensures Inv(s) ==> Inv(r)
  {
    StopSources(s.(hasSession := false, status := Finished, speaking := false))
  }

  /** Stopping twice leaves the same state as stopping once. */
  lemma StopIdempotent(s: State)
    ensures StopConversation(StopConversation(s)) == StopConversation(s)
  {
  }

  /** One firing of the one-second interval. */
  function Tick(s: State): (r: State)
    requires TickEnabled(s)
    ensures s.timeLeft > 1 ==> r == s.(timeLeft := s.timeLeft - 1)
    ensures s.timeLeft <= 1 ==> r == StopConversation(s).(timeLeft := 0)
    ensures Inv(s) ==> Inv(r)
  {
    var step := TimerStep(s.timeLeft);
    var after := if step.stops then StopConversation(s) else s;
    after.(timeLeft := step.next)
  }

  /** The audio branch of `onmessage`: a new source node for a decoded frame. */
  function Schedule(s: State, duration: Seconds, clockNow: Seconds): (r: State)
    ensures r.speaking && r.nextSource == s.nextSource + 1
    ensures r.sources.Keys == s.sources.Keys + {s.nextSource}
    ensures var p := r.sources[s.nextSource];
            p.start >= s.cursor && p.start >= clockNow && (p.start == s.cursor || p.start == clockNow) &&
            p.duration == duration && r.cursor == p.End()
    ensures forall id :: id in s.sources && id != s.nextSource ==> r.sources[id] == s.sources[id]
    ensures r.(speaking := s.speaking, cursor := s.cursor, sources := s.sources,
               nextSource := s.nextSource) == s
    ensures Inv(s) ==> forall id :: id in s.sources ==> s.sources[id].End() <= r.sources[s.nextSource].start
    ensures Inv(s) ==> Inv(r)
  {
    var p := Place(s.cursor, clockNow, duration);
    s.(speaking := true, cursor := p.End(), sources := s.sources[s.nextSource := p],
       nextSource := s.nextSource + 1)
  }

  /** The interruption branch of `onmessage`. */
  function Interrupt(s: State): (r: State)
    ensures r.sources == map[] && !r.speaking && r.cursor == 0.0
    ensures r.stopped == s.stopped + s.sources.Keys
    ensures r.(sources := s.sources, speaking := s.speaking, cursor := s.cursor,
               stopped := s.stopped) == s
    ensures Inv(s) ==> Inv(r)
  {
    StopSources(s).(speaking := false, cursor := 0.0)
  }

  /** The tool-call branch of `onmessage`: the new theme and the responses sent. */
  function AnswerToolCalls(s: State, calls: seq<FunctionCall>): (r: State)
    ensures PlaybackUnchanged(r, s)
    ensures r.(atmosphere := s.atmosphere, outbox := s.outbox) == s
    ensures Inv(s) ==> Inv(r)
  {
    var handled := HandleToolCalls(s.atmosphere, calls);
    s.(atmosphere := handled.atmosphere, outbox := s.outbox + handled.responses)
  }

  /**
   * `onmessage`: tool calls, then the audio frame (the decoded duration,
   * `None` when the message has no audio data), then the interruption flag.
   */
  function OnMessage(s: State, calls: seq<FunctionCall>, audio: Option<Seconds>,
                     interrupted: bool, clockNow: Seconds): (r: State)
    ensures r.status == s.status && r.error == s.error && r.timeLeft == s.timeLeft &&
            r.hasSession == s.hasSession
    ensures r.nextSource == s.nextSource + (if audio.Some? then 1 else 0)
    ensures Inv(s) ==> Inv(r)
  {
    var s1 := AnswerToolCalls(s, calls);
    var s2 := if audio.Some? then Schedule(s1, audio.value, clockNow) else s1;
    if interrupted then Interrupt(s2) else s2
  }

  /** The `ended` listener of a source node. */
  function OnEnded(s: State, id: SourceId): (r: State)
    ensures r.sources == s.sources - {id}
    ensures r.(sources := s.sources, speaking := s.speaking) == s
    ensures Inv(s) && id !in s.sources ==> r == s
    ensures Inv(s) ==> Inv(r)
  {
    var rest := s.sources - {id};
    s.(sources := rest, speaking := if rest == map[] then false else s.speaking)
  }

  /**
   * A message answers its tool calls and leaves the lifecycle alone; with
   * the interruption flag set it ends with no active source, the speaking
   * flag off and the cursor at zero, even when it also carried audio, whose
   * new node is stopped with the rest.
   */
  lemma MessageEffects(s: State, calls: seq<FunctionCall>, audio: Option<Seconds>,
                       interrupted: bool, clockNow: Seconds)
    ensures var r := OnMessage(s, calls, audio, interrupted, clockNow);
            var handled := HandleToolCalls(s.atmosphere, calls);
            r.atmosphere == handled.atmosphere && r.outbox == s.outbox + handled.responses &&
            r.status == s.status && r.error == s.error && r.timeLeft == s.timeLeft &&
            r.hasSession == s.hasSession
    ensures var r := OnMessage(s, calls, audio, interrupted, clockNow);
            interrupted ==>
              r.sources == map[] && !r.speaking && r.cursor == 0.0 &&
              s.sources.Keys <= r.stopped && (audio.Some? ==> s.nextSource in r.stopped)
    ensures var r := OnMessage(s, calls, audio, interrupted, clockNow);
            !interrupted && audio.None? ==> PlaybackUnchanged(r, s)
    ensures var r := OnMessage(s, calls, audio, interrupted, clockNow);
            !interrupted && audio.Some? ==>
              r.speaking && s.nextSource in r.sources &&
              r.sources[s.nextSource].start >= s.cursor &&
              r.sources[s.nextSource].start >= clockNow &&
              (r.sources[s.nextSource].start == s.cursor || r.sources[s.nextSource].start == clockNow) &&
              r.cursor == r.sources[s.nextSource].End()
    ensures Inv(s) ==> Inv(OnMessage(s, calls, audio, interrupted, clockNow))
  {
  }

  /** The callbacks and user actions the controller reacts to. */
  datatype Event =
    | PressStart(apiKey: Option<string>)
    | Connected
    | SetupThrew
    | Opened
    | Received(calls: seq<FunctionCall>, audio: Option<Seconds>, interrupted: bool, clockNow: Seconds)
    | SourceEnded(id: SourceId)
    | TransportError
    | Closed
    | PressStop
    | TimerFired

  /** Whether an event can occur: the buttons only when shown, the timer only when running. */
  predicate Enabled(s: State, e: Event) {
    match e
    case PressStart(_) => CanStart(s)
    case PressStop => CanStop(s)
    case TimerFired => TickEnabled(s)
    case _ => true
  }

  /**
   * The buttons the screen offers: the start button and the stop button
   * are never offered together, and while connecting neither is.
   */
  lemma UserActionsFollowControls(s: State, apiKey: Option<string>)
    ensures !(CanStart(s) && CanStop(s))
    ensures s.status == Connecting ==> Step(s, PressStart(apiKey)) == s && Step(s, PressStop) == s
    ensures CanStart(s) <==> Enabled(s, PressStart(apiKey))
  {
  }

  /** The state after an event; an event that cannot occur changes nothing. */
  function Step(s: State, e: Event): State {
    if !Enabled(s, e) then s
    else
      match e
      case PressStart(key) => StartConversation(s, key)
      case Connected => SessionReady(s)
      case SetupThrew => SetupFailed(s)
      case Opened => OnOpen(s)
      case Received(calls, audio, interrupted, clock) => OnMessage(s, calls, audio, interrupted, clock)
      case SourceEnded(id) => OnEnded(s, id)
      case TransportError => OnError(s)
      case Closed => OnClose(s)
      case PressStop => StopConversation(s)
      case TimerFired => Tick(s)
  }

  function Run(s: State, events: seq<Event>): State {
    if events == [] then s else Step(Run(s, events[..|events| - 1]), events[|events| - 1])
  }

  lemma StepKeepsInv(s: State, e: Event)
    requires Inv(s)
    ensures Inv(Step(s, e))
  {
    if Enabled(s, e) && e.Received? {
      MessageEffects(s, e.calls, e.audio, e.interrupted, e.clockNow);
    }
  }

  /**
   * Every state reached from mount by any sequence of callbacks and enabled
   * user actions satisfies the invariant; in particular the speaking flag
   * is on exactly when a source is active, and active sources never overlap.
   */
  lemma {:induction false} ReachableStatesKeepInv(events: seq<Event>)
    ensures Inv(Run(Init, events))
  {
    if events != [] {
      ReachableStatesKeepInv(events[..|events| - 1]);
      StepKeepsInv(Run(Init, events[..|events| - 1]), events[|events| - 1]);
    }
  }

  /** Messages that each carry one audio frame, no tool call and no interruption. */
  function AudioMessages(frames: seq<Frame>): (es: seq<Event>)
    ensures |es| == |frames|
  {
    if frames == [] then []
    else
      var f := frames[|frames| - 1];
      AudioMessages(frames[..|frames| - 1]) + [Received([], Some(f.duration), false, f.clockNow)]
  }

  /** A message with only an audio frame schedules that frame and does nothing else. */
  lemma PlainAudioMessageSchedules(s: State, f: Frame)
    ensures Step(s, Received([], Some(f.duration), false, f.clockNow)) ==
            Schedule(s, f.duration, f.clockNow)
  {
    assert AnswerToolCalls(s, []) == s by {
      assert s.outbox + [] == s.outbox;
    }
  }

  /**
   * Adding the node numbered `base + |slots|` keeps the nodes numbered from
   * `base` on in their slots and puts the new one in the next slot.
   */
  lemma AddedNodeTakesNextSlot(sources: map<SourceId, Slot>, after: map<SourceId, Slot>, base: nat,
                                slots: seq<Slot>, p: Slot)
    requires forall id :: base <= id < base + |slots| ==> id in sources && sources[id] == slots[id - base]
    requires after == sources[base + |slots| := p]
    ensures forall id :: base <= id < base + |slots| + 1 ==>
              id in after && after[id] == (slots + [p])[id - base]
  {
    forall id | base <= id < base + |slots| + 1
      ensures id in after && after[id] == (slots + [p])[id - base]
    {
      if id < base + |slots| {
        assert id in sources && (slots + [p])[id - base] == slots[id - base];
      }
    }
  }

  /** The audio frames scheduled one after another from `s`. */
  function PlaceFrames(s: State, frames: seq<Frame>): (r: State)
    ensures r.nextSource == s.nextSource + |frames|
  {
    if frames == [] then s
    else
      var f := frames[|frames| - 1];
      Schedule(PlaceFrames(s, frames[..|frames| - 1]), f.duration, f.clockNow)
  }

  /** A run of plain audio messages schedules their frames one after another. */
  lemma {:induction false} RunAudioMessages(s: State, frames: seq<Frame>)
    ensures Run(s, AudioMessages(frames)) == PlaceFrames(s, frames)
  {
    if frames != [] {
      var init := frames[..|frames| - 1];
      var f := frames[|frames| - 1];
      RunAudioMessages(s, init);
      var es := AudioMessages(frames);
      assert es[..|es| - 1] == AudioMessages(init);
      PlainAudioMessageSchedules(Run(s, AudioMessages(init)), f);
    }
  }

  /**
   * Scheduling frames places them exactly as `ScheduleAll` does: the node
   * numbered `s.nextSource + k` plays in the k-th slot, and the cursor ends
   * where `ScheduleAll` leaves it.
   */
  lemma {:induction false} PlaceFramesFollowsScheduleAll(s: State, frames: seq<Frame>)
    ensures var r := PlaceFrames(s, frames);
            var sched := ScheduleAll(s.cursor, frames);
            r.cursor == sched.cursor &&
            forall id :: s.nextSource <= id < r.nextSource ==>
              id in r.sources && r.sources[id] == sched.slots[id - s.nextSource]
  {
    if frames != [] {
      var init := frames[..|frames| - 1];
      var f := frames[|frames| - 1];
      PlaceFramesFollowsScheduleAll(s, init);
      var mid := PlaceFrames(s, init);
      var r := PlaceFrames(s, frames);
      var before := ScheduleAll(s.cursor, init);
      var p := Place(before.cursor, f.clockNow, f.duration);
      assert r.sources == mid.sources[mid.nextSource := p] && r.cursor == p.End();
      assert ScheduleAll(s.cursor, frames) == Playback.Schedule(before.slots + [p], p.End());
      AddedNodeTakesNextSlot(mid.sources, r.sources, s.nextSource, before.slots, p);
    }
  }

  /**
   * A run of audio messages with no tool call and no interruption places
   * its frames exactly as `ScheduleAll` does: the node numbered
   * `s.nextSource + k` plays in the k-th slot, and the cursor ends where
   * `ScheduleAll` leaves it.
   */
  lemma AudioMessagesFollowScheduleAll(s: State, frames: seq<Frame>)
    ensures var r := Run(s, AudioMessages(frames));
            var sched := ScheduleAll(s.cursor, frames);
            r.cursor == sched.cursor && r.nextSource == s.nextSource + |frames| &&
            forall id :: s.nextSource <= id < r.nextSource ==>
              id in r.sources && r.sources[id] == sched.slots[id - s.nextSource]
  {
    RunAudioMessages(s, frames);
    PlaceFramesFollowsScheduleAll(s, frames);
  }

  /** `n` firings of the timer, each only while it is still running. */
  function Ticks(s: State, n: nat): State
    decreases n
  {
    if n == 0 || !TickEnabled(s) then s else Ticks(Tick(s), n - 1)
  }

  lemma {:induction false} TicksCompose(s: State, a: nat, b: nat)
    ensures Ticks(s, a + b) == Ticks(Ticks(s, a), b)
    decreases a
  {
    if a > 0 && TickEnabled(s) {
      TicksCompose(Tick(s), a - 1, b);
    }
  }

  /** While more than `k` seconds remain, `k` ticks only count down. */
  lemma {:induction false} TicksCountDown(s: State, k: nat)
    requires s.status == Active && k < s.timeLeft
    ensures Ticks(s, k) == s.(timeLeft := s.timeLeft - k)
    decreases k
  {
    if k > 0 {
      TicksCountDown(Tick(s), k - 1);
    }
  }

  /**
   * A running session lasts exactly as many ticks as it has seconds left:
   * one tick short it is still active with one second left; at that
   * number it has stopped as `stopConversation` stops it, with no time
   * left, and the timer fires no more.
   */
  lemma CountdownFinishes(s: State)
    requires s.status == Active && s.timeLeft > 0
    ensures var before := Ticks(s, s.timeLeft - 1);
            before.status == Active && before.timeLeft == 1
    ensures var f := Ticks(s, s.timeLeft);
            f == StopConversation(s).(timeLeft := 0) &&
            f.status == Finished && f.timeLeft == 0 && !TickEnabled(f) &&
            f.sources == map[] && !f.speaking && !f.hasSession
    ensures forall m: nat :: Ticks(Ticks(s, s.timeLeft), m) == Ticks(s, s.timeLeft)
  {
    var t := s.timeLeft;
    TicksCountDown(s, t - 1);
    TicksCompose(s, t - 1, 1);
    var f := Ticks(s, t);
    forall m: nat ensures Ticks(f, m) == f {
    }
  }

  /** From a full minute: 59 ticks leave the session running, the 60th finishes it. */
  lemma FullSessionLastsSixtyTicks(s: State)
    requires s.status == Active && s.timeLeft == SessionDurationSeconds
    ensures Ticks(s, 59).status == Active
    ensures Ticks(s, 60).status == Finished && Ticks(s, 60).timeLeft == 0
  {
    CountdownFinishes(s);
  }
}
