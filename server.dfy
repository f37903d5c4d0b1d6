/**
 * The per-connection dispatch of the websocket endpoint: transcripts heard
 * by speech-to-text pile up in an utterance list, the browser's silence
 * signal turns that list into one transcript and starts a pipeline run,
 * a barge-in cancels the run that is speaking, and raw audio is forwarded
 * to speech-to-text while that connection is up.
 *
 * The session's events (browser messages, speech-to-text callbacks and the
 * end of a pipeline run) are handled one at a time. A pipeline run is
 * represented by its transcript and the state of its own cancel flag.
 */
module Server {
  import opened Text
  import opened Wire

  /** The session's mutable state. `runs` lists the transcript of every
      pipeline run started, oldest first, and `cancelled[k]` is whether the
      cancel event handed to run `k` has been set; the last one is the
      session's current cancel event. `taskRunning` is "the current task
      exists and is not done". `forwarded` is the audio passed on to
      speech-to-text. */
  datatype SessionState = SessionState(
    utterance: seq<string>,
    aiSpeaking: bool,
    taskRunning: bool,
    runs: seq<string>,
    cancelled: seq<bool>,
    sttConnected: bool,
    forwarded: seq<string>)

  const Initial := SessionState([], false, false, [], [], false, [])

  datatype Event =
    | SttTranscript(text: string)            // a final transcript from speech-to-text
    | AudioChunk(data: string, sendOk: bool)  // `sendOk`: whether forwarding it raised
    | UserStoppedSpeaking
    | BargeIn
    | PipelineFinished                       // the current run ended, however it ended
    | SttConnected
    | SttLost

  datatype Outcome = Outcome(state: SessionState, out: seq<Outbound>)

  /** Is the current cancel event set? */
  predicate CancelSet(s: SessionState) {
    s.cancelled != [] && s.cancelled[|s.cancelled| - 1]
  }

  /** `cancel_event.set()` on the current event. */
  function SetCancel(s: SessionState): SessionState {
    if s.cancelled == [] then s else s.(cancelled := s.cancelled[..|s.cancelled| - 1] + [true])
  }

  /** The `finally` of a run: the pipeline task is over and the AI no longer speaks. */
  function Finished(s: SessionState): SessionState {
    s.(aiSpeaking := false, taskRunning := false)
  }

  /** `do_llm_tts`: a running task is told to cancel and awaited first, so
      its `finally` lands before the new run starts with a fresh, unset
      cancel event. */
  function Start(s: SessionState, transcript: string): SessionState {
    var idle := if s.taskRunning then Finished(SetCancel(s)) else s;
    idle.(aiSpeaking := true, taskRunning := true,
          runs := idle.runs + [transcript], cancelled := idle.cancelled + [false])
  }

  /** What `user_stopped_speaking` makes of the utterance list. */
  function UtteranceText(s: SessionState): string {
    Strip(Join(s.utterance))
  }

  /** One event: the new state and the messages sent to the browser. */
  function Transition(s: SessionState, e: Event): Outcome {
    match e
    case SttTranscript(text) =>
      Outcome(s.(utterance := s.utterance + [text]), [Transcript(text)])
    case AudioChunk(data, sendOk) =>
      if !s.sttConnected then Outcome(s, [])
      else if sendOk then Outcome(s.(forwarded := s.forwarded + [data]), [])
      else Outcome(s.(sttConnected := false), [])
    case UserStoppedSpeaking =>
      var t := UtteranceText(s);
      var cleared := s.(utterance := []);
      if t == [] then Outcome(cleared, [])
      else Outcome(Start(cleared, t), [FinalTranscript(t)])
    case BargeIn =>
      if s.aiSpeaking && !CancelSet(s) then Outcome(SetCancel(s).(aiSpeaking := false), [StopAudio])
      else Outcome(s, [])
    case PipelineFinished =>
      Outcome(Finished(s), [])
    case SttConnected =>
      Outcome(s.(sttConnected := true), [])
    case SttLost =>
      Outcome(s.(sttConnected := false), [])
  }

  /** A sequence of events handled in order. */
  function Replay(s: SessionState, events: seq<Event>): Outcome {
    if events == [] then Outcome(s, [])
    else
      var before := Replay(s, events[..|events| - 1]);
      var last := Transition(before.state, events[|events| - 1]);
      Outcome(last.state, before.out + last.out)
  }

  /** The session's invariant: one cancel flag per run; the AI speaks only
      while its run's task is running and its cancel flag is unset; every
      run was started with a non-empty, stripped transcript. */
  predicate Consistent(s: SessionState) {
    && |s.cancelled| == |s.runs|
    && (s.aiSpeaking ==> s.taskRunning && !CancelSet(s))
    && (s.taskRunning ==> s.runs != [])
    && forall k :: 0 <= k < |s.runs| ==> s.runs[k] != [] && Strip(s.runs[k]) == s.runs[k]
  }

  // ---------------------------------------------------------------------
  // Properties of the dispatch
  // ---------------------------------------------------------------------

  /** Every event keeps the session consistent. */
  lemma TransitionConsistent(s: SessionState, e: Event)
    requires Consistent(s)
    ensures Consistent(Transition(s, e).state)
  {
    if e == UserStoppedSpeaking {
      var t := UtteranceText(s);
      if t != [] {
        assert Strip(t) == t;
      }
    }
  }

  lemma {:induction false} ReplayConsistent(s: SessionState, events: seq<Event>)
    requires Consistent(s)
    ensures Consistent(Replay(s, events).state)
  {
    if events != [] {
      ReplayConsistent(s, events[..|events| - 1]);
      TransitionConsistent(Replay(s, events[..|events| - 1]).state, events[|events| - 1]);
    }
  }

  /** On silence the utterance list is joined with single spaces and
      stripped, and the list is cleared whatever comes of it. Nothing but
      whitespace sends nothing and starts nothing; anything else sends
      `final_transcript` with that text and starts a run on it, which then
      speaks under a fresh, unset cancel event, after the run that was still
      going has had its own cancel event set. */
  lemma StopSpeaking(s: SessionState)
    requires Consistent(s)
    ensures var o := Transition(s, UserStoppedSpeaking);
      var t := Strip(Join(s.utterance));
      && o.state.utterance == []
      && (o.out == [] <==> AllSpace(Join(s.utterance)))
      && (t == [] ==> o.state == s.(utterance := []))
      && (t != [] ==>
            && o.out == [FinalTranscript(t)]
            && o.state.runs == s.runs + [t]
            && o.state.aiSpeaking && o.state.taskRunning && !CancelSet(o.state)
            && o.state.cancelled[..|s.runs|] == (if s.taskRunning then SetCancel(s) else s).cancelled
            && (s.taskRunning ==> o.state.cancelled[|s.runs| - 1]))
  {
    StripEmpty(Join(s.utterance));
  }

  /** `barge_in` acts exactly when the AI is speaking and its cancel event is
      unset: it sets that event, silences the AI and sends one `stop_audio`.
      Otherwise it changes nothing and sends nothing. */
  lemma BargeInGuard(s: SessionState)
    requires Consistent(s)
    ensures var o := Transition(s, BargeIn);
      && (s.aiSpeaking && !CancelSet(s) <==> o.out == [StopAudio])
      && (o.out == [] <==> o.state == s)
      && !o.state.aiSpeaking
      && o.state.runs == s.runs && o.state.taskRunning == s.taskRunning
      && (s.aiSpeaking ==> CancelSet(o.state))
  {
  }

  /** After a barge-in, or whenever the AI is silent, no further `stop_audio`
      is sent until silence starts another run. */
  lemma {:induction false} NoStopAudioWithoutRestart(s: SessionState, events: seq<Event>)
    requires !s.aiSpeaking
    requires forall k :: 0 <= k < |events| ==> events[k] != UserStoppedSpeaking
    ensures StopAudio !in Replay(s, events).out
    ensures !Replay(s, events).state.aiSpeaking
  {
    if events != [] {
      NoStopAudioWithoutRestart(s, events[..|events| - 1]);
    }
  }

  /** A second barge-in straight after the first is a no-op. */
  lemma BargeInIdempotent(s: SessionState)
    ensures var once := Transition(s, BargeIn).state;
      Transition(once, BargeIn) == Outcome(once, [])
  {
  }

  /** Audio is forwarded exactly while speech-to-text is connected and the
      send succeeds; a failed send marks the connection lost. */
  lemma AudioForwarding(s: SessionState, data: string, sendOk: bool)
    ensures var o := Transition(s, AudioChunk(data, sendOk));
      && o.out == []
      && (o.state.forwarded == s.forwarded + [data] <==> s.sttConnected && sendOk)
      && (!(s.sttConnected && sendOk) ==> o.state.forwarded == s.forwarded)
      && o.state.sttConnected == (s.sttConnected && sendOk)
      && o.state.(forwarded := s.forwarded, sttConnected := s.sttConnected) == s
  {
    var o := Transition(s, AudioChunk(data, sendOk));
    if o.state.forwarded == s.forwarded + [data] {
      assert |o.state.forwarded| == |s.forwarded| + 1;
    }
  }

  /** The events of speech-to-text hearing `texts`, in order. */
  function Heard(texts: seq<string>): (es: seq<Event>)
    ensures |es| == |texts|
    ensures forall k :: 0 <= k < |texts| ==> es[k] == SttTranscript(texts[k])
  {
    if texts == [] then [] else Heard(texts[..|texts| - 1]) + [SttTranscript(texts[|texts| - 1])]
  }

  /** The browser's copy of each transcript. */
  function Echoed(texts: seq<string>): (ms: seq<Outbound>)
    ensures |ms| == |texts|
    ensures forall k :: 0 <= k < |texts| ==> ms[k] == Transcript(texts[k])
  {
    if texts == [] then [] else Echoed(texts[..|texts| - 1]) + [Transcript(texts[|texts| - 1])]
  }

  /** Transcripts join the utterance list in the order they arrive, and each
      is echoed to the browser; nothing else about the session changes. */
  lemma {:induction false} TranscriptsInOrder(s: SessionState, texts: seq<string>)
    ensures Replay(s, Heard(texts)).state == s.(utterance := s.utterance + texts)
    ensures Replay(s, Heard(texts)).out == Echoed(texts)
  {
    if texts == [] {
      assert s.utterance + texts == s.utterance;
    } else {
      var init := texts[..|texts| - 1];
      var es := Heard(texts);
      assert es[..|es| - 1] == Heard(init);
      TranscriptsInOrder(s, init);
      assert s.utterance + init + [texts[|texts| - 1]] == s.utterance + texts;
    }
  }

  /** Whenever the current run ends the AI is silent and no task runs. */
  lemma FinishSilences(s: SessionState)
    ensures var o := Transition(s, PipelineFinished);
      && !o.state.aiSpeaking && !o.state.taskRunning && o.out == []
      && o.state.runs == s.runs && o.state.cancelled == s.cancelled
  {
  }

  // ---------------------------------------------------------------------
  // The session itself
  // ---------------------------------------------------------------------

  class Session {
    var utterance: seq<string>
    var aiSpeaking: bool
    var taskRunning: bool
    var runs: seq<string>
    var cancelled: seq<bool>
    var sttConnected: bool
    var forwarded: seq<string>
    const ws: Channel

    function State(): SessionState
      reads this
    {
      SessionState(utterance, aiSpeaking, taskRunning, runs, cancelled, sttConnected, forwarded)
    }

    constructor (ws: Channel)
      ensures State() == Initial && Consistent(State())
      ensures this.ws == ws
    {
      utterance, aiSpeaking, taskRunning := [], false, false;
      runs, cancelled := [], [];
      sttConnected, forwarded := false, [];
      this.ws := ws;
    }

    /** `stt_state["connected"] = True` once `connect_stt` gets a socket. */
    method OnSttConnected()
      modifies this
      ensures State() == Transition(old(State()), SttConnected).state
    {
      sttConnected := true;
    }

    /** The listener lost its connection. */
    method OnSttLost()
      modifies this
      ensures State() == Transition(old(State()), SttLost).state
    {
      sttConnected := false;
    }

    /** `on_transcript`. */
    method OnSttTranscript(text: string)
      modifies this, ws
      ensures State() == Transition(old(State()), SttTranscript(text)).state
      ensures ws.sent == old(ws.sent) + Transition(old(State()), SttTranscript(text)).out
    {
      utterance := utterance + [text];
      ws.Send(Transcript(text));
    }

    /** An `audio_chunk` message; `sendOk` says whether `send_audio` returned
        normally. */
    method OnAudioChunk(data: string, sendOk: bool)
      modifies this
      ensures State() == Transition(old(State()), AudioChunk(data, sendOk)).state
    {
      if sttConnected {
        if sendOk {
          forwarded := forwarded + [data];
        } else {
          sttConnected := false;
        }
      }
    }

    /** `cancel_event.set()`. */
    method SignalCancel()
      modifies this
      ensures State() == SetCancel(old(State()))
    {
      if cancelled != [] {
        cancelled := cancelled[..|cancelled| - 1] + [true];
      }
    }

    /** The `finally` of `run`: the current run has ended. */
    method OnPipelineFinished()
      modifies this
      ensures State() == Transition(old(State()), PipelineFinished).state
      ensures !aiSpeaking && !taskRunning
    {
      aiSpeaking, taskRunning := false, false;
    }

    /** `do_llm_tts`. */
    method DoLlmTts(transcript: string)
      modifies this
      ensures State() == Start(old(State()), transcript)
    {
      if taskRunning {
        SignalCancel();
        OnPipelineFinished();
      }
      cancelled := cancelled + [false];
      aiSpeaking, taskRunning := true, true;
      runs := runs + [transcript];
    }

    /** A `user_stopped_speaking` message. */
    method OnUserStoppedSpeaking()
      modifies this, ws
      ensures State() == Transition(old(State()), UserStoppedSpeaking).state
      ensures ws.sent == old(ws.sent) + Transition(old(State()), UserStoppedSpeaking).out
    {
      var transcript := Strip(Join(utterance));
      utterance := [];
      if transcript != [] {
        ws.Send(FinalTranscript(transcript));
        DoLlmTts(transcript);
      }
    }

    /** A `barge_in` message. */
    method OnBargeIn()
      modifies this, ws
      ensures State() == Transition(old(State()), BargeIn).state
      ensures ws.sent == old(ws.sent) + Transition(old(State()), BargeIn).out
    {
      if aiSpeaking && !(cancelled != [] && cancelled[|cancelled| - 1]) {
        SignalCancel();
        aiSpeaking := false;
        ws.Send(StopAudio);
      }
    }

    /** One event, routed to its handler. */
    method Handle(e: Event)
      modifies this, ws
      ensures State() == Transition(old(State()), e).state
      ensures ws.sent == old(ws.sent) + Transition(old(State()), e).out
    {
      match e
      case SttTranscript(text) => OnSttTranscript(text);
      case AudioChunk(data, sendOk) => OnAudioChunk(data, sendOk);
      case UserStoppedSpeaking => OnUserStoppedSpeaking();
      case BargeIn => OnBargeIn();
      case PipelineFinished => OnPipelineFinished();
      case SttConnected => OnSttConnected();
      case SttLost => OnSttLost();
    }

    /** The session's events, handled one at a time in the order given. */
    method Serve(events: seq<Event>)
      modifies this, ws
      ensures State() == Replay(old(State()), events).state
      ensures ws.sent == old(ws.sent) + Replay(old(State()), events).out
      ensures Consistent(old(State())) ==> Consistent(State())
    {
      ghost var s0, sent0 := State(), ws.sent;
      for i := 0 to |events|
        invariant State() == Replay(s0, events[..i]).state
        invariant ws.sent == sent0 + Replay(s0, events[..i]).out
      {
        assert events[..i + 1][..i] == events[..i];
        Handle(events[i]);
      }
      assert events[..|events|] == events;
      if Consistent(s0) {
        ReplayConsistent(s0, events);
      }
    }
  }
}
