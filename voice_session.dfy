/** The session life cycle of pages/VoiceAssistantPage.tsx: the
    `VoiceAssistantState` record and its `setState` updates, the refs that hold
    the microphone stream, the two audio contexts and the player, and the
    handlers and callbacks that change them. Asynchronous steps (the microphone
    prompt, the connection callbacks, the arrival of a message) are separate
    method calls, each run to completion. */
module VoiceSession {
  import opened Wrappers
  import opened Transcript
  import opened Playback
  import AudioCodec

  /** `VoiceAssistantState`; a session promise is named by the number of the
      `live.connect` call that returned it. */
  datatype VoiceState = VoiceState(
    isConnecting: bool,
    isActive: bool,
    transcription: seq<Turn>,
    currentTranscription: Turn,
    sessionPromise: Option<nat>)

  const InitialState: VoiceState := VoiceState(false, false, [], EmptyTurn, None)

  /** The update at the end of `cleanup`. */
  function Cleared(s: VoiceState): VoiceState
  {
    s.(isActive := false, isConnecting := false, sessionPromise := None)
  }

  /** The update when a connection attempt starts. */
  function Starting(s: VoiceState): VoiceState
  {
    s.(isConnecting := true, transcription := [], currentTranscription := EmptyTurn)
  }

  /** The update in `onopen`. */
  function Opened(s: VoiceState): VoiceState
  {
    s.(isConnecting := false, isActive := true)
  }

  /** The update in the `catch` of `handleToggleConnection`. */
  function ConnectFailed(s: VoiceState): VoiceState
  {
    s.(isConnecting := false)
  }

  /** The transcript updates of one message. */
  function WithMessage(s: VoiceState, c: ServerContent): VoiceState
  {
    var l := Apply(Log(s.transcription, s.currentTranscription), c);
    s.(transcription := l.turns, currentTranscription := l.current)
  }

  /** An `AudioContext` ref: never created, created and not closed, or closed. */
  datatype ContextState = NoContext | Running | Closed

  /** `if (ctx && ctx.state !== 'closed') ctx.close()` */
  function AfterClose(c: ContextState): (r: ContextState)
    ensures r != Running
    ensures c != Running ==> r == c
  {
    if c == Running then Closed else c
  }

  /** Where the steps after `getUserMedia` can throw: building the input
      context, building the output context, or the `live.connect` call. */
  datatype FailurePoint = InputContextFailed | OutputContextFailed | ConnectThrew

  /** The sample rate of the output context, which sets a buffer's duration. */
  const OutputSampleRate: real := 24000.0

  class VoicePage {
    var state: VoiceState
    var streamLive: bool               // `streamRef.current` holds a stream whose tracks run
    var micWired: bool                 // the stream source and script processor are connected
    var inputCtx: ContextState
    var outputCtx: ContextState
    var awaiting: seq<Option<nat>>     // microphone prompts still open, with the session promise
                                       // their callbacks' `cleanup` sees
    var capturedBy: map<nat, Option<nat>>  // per connected session, that same promise
    var sessions: nat                  // number of `live.connect` calls so far
    var closeRequests: seq<nat>        // sessions passed to `session.close()`, in order
    const player: Player

    /** The page is never connecting and active at once, and every promise it
        holds or captured names a `live.connect` call already made. */
    ghost predicate Valid()
      reads this, player
    {
      && player.Valid()
      && !(state.isActive && state.isConnecting)
      && (forall id :: id in capturedBy ==> id < sessions)
      && (state.sessionPromise.Some? ==> state.sessionPromise.value < sessions)
    }

    /** Everything `cleanup` stops is stopped. */
    ghost predicate IsCleaned()
      reads this, player
    {
      && !state.isActive && !state.isConnecting && state.sessionPromise.None?
      && !streamLive && !micWired && inputCtx != Running && outputCtx != Running
      && player.pending == {} && player.nextStartTime == 0.0
    }

    constructor ()
      ensures Valid() && IsCleaned()
      ensures state == InitialState && inputCtx == NoContext && outputCtx == NoContext
      ensures awaiting == [] && capturedBy == map[] && sessions == 0 && closeRequests == []
      ensures fresh(player) && player.started == [] && player.stopped == {}
    {
      state := InitialState;
      streamLive := false;
      micWired := false;
      inputCtx := NoContext;
      outputCtx := NoContext;
      awaiting := [];
      capturedBy := map[];
      sessions := 0;
      closeRequests := [];
      player := new Player();
    }

    /** `cleanup`, as a closure that sees `promise` as `state.sessionPromise`: close
        that session if there is one, stop the stream, unwire the microphone,
        close the contexts that are not closed yet, stop all audio, clear the flags.
        Run on an already cleaned page with no promise, it changes nothing. */
    method Cleanup(promise: Option<nat>)
      requires Valid()
      modifies this, player
      ensures Valid() && IsCleaned()
      ensures state == Cleared(old(state))
      ensures closeRequests == old(closeRequests) + (if promise.Some? then [promise.value] else [])
      ensures inputCtx == AfterClose(old(inputCtx)) && outputCtx == AfterClose(old(outputCtx))
      ensures player.stopped == old(player.stopped) + old(player.pending) && player.started == old(player.started)
      ensures awaiting == old(awaiting) && capturedBy == old(capturedBy) && sessions == old(sessions)
      ensures old(IsCleaned()) && promise.None? ==>
                && state == old(state) && closeRequests == old(closeRequests)
                && inputCtx == old(inputCtx) && outputCtx == old(outputCtx)
                && player.stopped == old(player.stopped)
    {
      if promise.Some? {
        closeRequests := closeRequests + [promise.value];
      }
      streamLive := false;
      micWired := false;
      inputCtx := AfterClose(inputCtx);
      outputCtx := AfterClose(outputCtx);
      if player.pending == {} {
        assert player.stopped + player.pending == player.stopped;
      }
      player.StopAll();
      state := Cleared(state);
    }

    /** `handleToggleConnection`: while active or connecting, clean up; otherwise
        start connecting with empty transcripts and ask for the microphone. */
    method Toggle()
      requires Valid()
      modifies this, player
      ensures Valid()
      ensures old(state.isActive || state.isConnecting) ==>
                && IsCleaned() && state == Cleared(old(state)) && awaiting == old(awaiting)
                && closeRequests == old(closeRequests) + (if old(state.sessionPromise).Some? then [old(state.sessionPromise).value] else [])
                && inputCtx == AfterClose(old(inputCtx)) && outputCtx == AfterClose(old(outputCtx))
                && player.stopped == old(player.stopped) + old(player.pending) && player.started == old(player.started)
      ensures !old(state.isActive || state.isConnecting) ==>
                && state == Starting(old(state))
                && awaiting == old(awaiting) + [old(state.sessionPromise)]
                && closeRequests == old(closeRequests) && unchanged(player)
                && inputCtx == old(inputCtx) && outputCtx == old(outputCtx) && streamLive == old(streamLive)
                && micWired == old(micWired)
      ensures capturedBy == old(capturedBy) && sessions == old(sessions)
    {
      if state.isActive || state.isConnecting {
        Cleanup(state.sessionPromise);
        return;
      }
      awaiting := awaiting + [state.sessionPromise];
      state := Starting(state);
    }

    /** The oldest microphone prompt is granted: keep the stream, create both
        contexts, and call `live.connect`, whose promise goes into the state. */
    method MicrophoneGranted() returns (id: nat)
      requires Valid() && awaiting != []
      modifies this
      ensures Valid()
      ensures id == old(sessions) && sessions == old(sessions) + 1
      ensures state == old(state).(sessionPromise := Some(id))
      ensures streamLive && inputCtx == Running && outputCtx == Running && micWired == old(micWired)
      ensures awaiting == old(awaiting)[1..] && capturedBy == old(capturedBy)[id := old(awaiting)[0]]
      ensures closeRequests == old(closeRequests)
    {
      streamLive := true;
      inputCtx := Running;
      outputCtx := Running;
      id := sessions;
      sessions := sessions + 1;
      capturedBy := capturedBy[id := awaiting[0]];
      awaiting := awaiting[1..];
      state := state.(sessionPromise := Some(id));
    }

    /** The same step with the page's `useEffect(() => () => cleanup(), [cleanup])`
        taken into account: storing the promise gives `cleanup` a new identity, so
        React runs the previous effect's teardown, the `cleanup` that still sees the
        old promise; that clears the promise, which changes `cleanup` once more, and
        the teardown that sees the new promise runs too. The session just opened is
        closed, the stream stopped and both contexts closed. */
    method MicrophoneGrantedAsWritten() returns (id: nat)
      requires Valid() && awaiting != []
      modifies this, player
      ensures Valid() && IsCleaned()
      ensures id == old(sessions) && |closeRequests| > 0 && closeRequests[|closeRequests| - 1] == id
      ensures inputCtx == Closed && outputCtx == Closed
    {
      var before := state.sessionPromise;
      id := MicrophoneGranted();
      Cleanup(before);
      Cleanup(Some(id));
    }

    /** The oldest microphone prompt is refused: only `isConnecting` is cleared. */
    method MicrophoneDenied()
      requires Valid() && awaiting != []
      modifies this
      ensures Valid()
      ensures state == ConnectFailed(old(state)) && awaiting == old(awaiting)[1..]
      ensures streamLive == old(streamLive) && micWired == old(micWired)
      ensures inputCtx == old(inputCtx) && outputCtx == old(outputCtx)
      ensures capturedBy == old(capturedBy) && sessions == old(sessions) && closeRequests == old(closeRequests)
    {
      awaiting := awaiting[1..];
      state := ConnectFailed(state);
    }

    /** The oldest microphone prompt is granted, but a step after storing the
        stream throws: the stream stays live, the contexts built before the
        failing step stay running, and the `catch` only clears `isConnecting`. */
    method ContextFailed(at: FailurePoint)
      requires Valid() && awaiting != []
      modifies this
      ensures Valid()
      ensures state == ConnectFailed(old(state)) && awaiting == old(awaiting)[1..]
      ensures streamLive && micWired == old(micWired)
      ensures inputCtx == (if at == InputContextFailed then old(inputCtx) else Running)
      ensures outputCtx == (if at == ConnectThrew then Running else old(outputCtx))
      ensures capturedBy == old(capturedBy) && sessions == old(sessions) && closeRequests == old(closeRequests)
    {
      streamLive := true;
      if at != InputContextFailed {
        inputCtx := Running;
        if at == ConnectThrew {
          outputCtx := Running;
        }
      }
      awaiting := awaiting[1..];
      state := ConnectFailed(state);
    }

    /** `onopen` of session `id`: active, no longer connecting, microphone wired. */
    method OnOpen(id: nat)
      requires Valid() && id in capturedBy
      modifies this
      ensures Valid()
      ensures state == Opened(old(state)) && micWired
      ensures streamLive == old(streamLive) && inputCtx == old(inputCtx) && outputCtx == old(outputCtx)
      ensures awaiting == old(awaiting) && capturedBy == old(capturedBy) && sessions == old(sessions)
      ensures closeRequests == old(closeRequests)
    {
      state := Opened(state);
      micWired := true;
    }

    /** `onerror`/`onclose` of session `id`: the `cleanup` they call is the one of
        the render that started the connection, which sees that render's promise
        (normally none), so the remote session itself is not closed. */
    method RemoteClosed(id: nat)
      requires Valid() && id in capturedBy
      modifies this, player
      ensures Valid() && IsCleaned()
      ensures state == Cleared(old(state))
      ensures closeRequests == old(closeRequests) + (if old(capturedBy[id]).Some? then [old(capturedBy[id]).value] else [])
      ensures inputCtx == AfterClose(old(inputCtx)) && outputCtx == AfterClose(old(outputCtx))
      ensures player.stopped == old(player.stopped) + old(player.pending) && player.started == old(player.started)
      ensures awaiting == old(awaiting) && capturedBy == old(capturedBy) && sessions == old(sessions)
    {
      Cleanup(capturedBy[id]);
    }

    /** `onmessage`: the transcript updates, then the interruption, then, for a
        non-empty audio payload while an output context exists, decoding it as
        24 kHz mono PCM and scheduling it (a payload whose decoding throws, in
        `atob` or in `decodeAudioData`, plays nothing). `now` is the output
        context's `currentTime`. */
    method OnMessage(c: ServerContent, now: real, atob: string -> Option<string>)
      requires Valid() && now >= 0.0
      modifies this, player
      ensures Valid()
      ensures state == WithMessage(old(state), c)
      ensures c.interrupted ==> player.stopped == old(player.stopped) + old(player.pending)
      ensures !c.interrupted ==> player.stopped == old(player.stopped)
      ensures var clock := if c.interrupted then 0.0 else old(player.nextStartTime);
              var sources := if c.interrupted then {} else old(player.pending);
              var plays := c.audioData.Some? && c.audioData.value != "" && outputCtx != NoContext
                           && atob(c.audioData.value).Some?
                           && |atob(c.audioData.value).value| % 2 == 0 && |atob(c.audioData.value).value| >= 2;
              && (plays ==>
                    && player.started == old(player.started)
                         + [Segment(StartOf(clock, now), (|atob(c.audioData.value).value| / 2) as real / OutputSampleRate)]
                    && player.nextStartTime == player.started[|player.started| - 1].End()
                    && player.pending == sources + {|old(player.started)|})
              && (!plays ==>
                    player.started == old(player.started) && player.nextStartTime == clock && player.pending == sources)
      ensures streamLive == old(streamLive) && micWired == old(micWired)
      ensures inputCtx == old(inputCtx) && outputCtx == old(outputCtx)
      ensures awaiting == old(awaiting) && capturedBy == old(capturedBy) && sessions == old(sessions)
      ensures closeRequests == old(closeRequests)
    {
      state := WithMessage(state, c);
      if c.interrupted {
        player.StopAll();
      }
      if c.audioData.Some? && c.audioData.value != "" && outputCtx != NoContext {
        var bytes := AudioCodec.Decode(c.audioData.value, atob);
        if bytes.Success? {
          var decoded := AudioCodec.DecodeAudioData(bytes.value, 1);
          if decoded.Success? {
            var duration := decoded.value.Length1 as real / OutputSampleRate;
            var _ := player.Play(now, duration);
          }
        }
      }
    }

    /** `source.onended` */
    method SourceEnded(id: nat)
      requires Valid()
      modifies player
      ensures Valid()
      ensures player.pending == old(player.pending) - {id}
      ensures player.started == old(player.started) && player.nextStartTime == old(player.nextStartTime)
      ensures player.stopped == old(player.stopped)
    {
      player.Ended(id);
    }
  }
}
