/** The audio producer's object; each method is what one of its tasks does between two suspension points. */
module AudioProducer {
  import opened Common
  import opened Messaging
  import opened SilenceDetection
  import opened ProducerSteps

  class AudioProducer {
    var isActive: bool
    var sessionId: Option<string>
    var title: string
    var silenceSamples: nat
    var silenceTimeoutS: int
    var sessionKv: Option<Record>
    // where the two tasks are suspended, with their locals
    var ctrl: Control
    var audio: Audio
    // the broker's streams, and history
    ghost var preroll: seq<Chunk>
    ghost var live: seq<Msg>
    ghost var captured: seq<Chunk>
    ghost var past: seq<Span>
    ghost var current: Option<Span>

    ghost function View(): Core
      reads this
    {
      Core(Session(isActive, sessionId, title, silenceSamples, silenceTimeoutS), sessionKv, ctrl, audio,
           preroll, live, captured, past, current)
    }

    constructor ()
      ensures View() == INIT
    {
      isActive, sessionId, title := false, None, "";
      silenceSamples, silenceTimeoutS := 0, DEFAULT_SILENCE_TIMEOUT_S;
      sessionKv, ctrl, audio := None, Free, Listening;
      preroll, live, captured, past, current := [], [], [], [], None;
    }

    /** A start command, up to the await of the session store. */
    method BeginStart(sid: string, title: string, kvOk: bool)
      requires ctrl.Free?
      modifies `ctrl, `sessionKv
      ensures View() == StartBegun(old(View()), sid, title, kvOk)
    {
      if isActive { return; }
      ctrl := Putting(sid, title);
      if kvOk { sessionKv := Some(Record(sid, title)); }
    }

    /** On to the await of the configuration store. */
    method ActivateSession()
      requires ctrl.Putting?
      modifies `ctrl, `sessionId, `isActive, `title, `silenceTimeoutS, `current
      ensures View() == Activated(old(View()))
    {
      sessionId, isActive, title := Some(ctrl.sid), true, ctrl.title;
      silenceTimeoutS := DEFAULT_SILENCE_TIMEOUT_S;
      current := Some(Span(ctrl.sid, |captured|, |captured|, []));
      ctrl := Configuring;
    }

    /** `timeout` is what the configuration store holds. */
    method ReadySession(timeout: Option<int>)
      requires ctrl.Configuring?
      modifies `ctrl, `silenceTimeoutS, `silenceSamples
      ensures View() == Readied(old(View()), timeout)
    {
      if timeout.Some? { silenceTimeoutS := timeout.value; }
      silenceSamples := 0;
      ctrl := Free;
    }

    /** A stop, up to the await that publishes the end marker. */
    method PublishEos(ghost eosOk: bool)
      modifies `live, `current
      ensures View() == StopPublished(old(View()), eosOk)
    {
      if sessionId.Some? && eosOk {
        live := live + [EosMsg(SUBJECT_PREFIX_AUDIO_LIVE, sessionId.value)];
        current := WithEos(current, |captured|);
      }
    }

    /** The rest of a stop. */
    method GoIdle(kvOk: bool)
      modifies `isActive, `sessionId, `title, `sessionKv, `past, `current
      ensures View() == StopFinished(old(View()), kvOk)
    {
      isActive, sessionId, title := false, None, "";
      if kvOk { sessionKv := None; }
      past := if current.Some? then past + [current.value] else past;
      current := None;
    }

    method BeginStop(ghost eosOk: bool)
      requires ctrl.Free? && isActive
      modifies `live, `current, `ctrl
      ensures View() == Step(old(View()), StopBegin(eosOk))
    {
      PublishEos(eosOk);
      ctrl := Stopping;
    }

    method EndStop(kvOk: bool)
      requires ctrl.Stopping?
      modifies `isActive, `sessionId, `title, `sessionKv, `past, `current, `ctrl
      ensures View() == Step(old(View()), StopEnd(kvOk))
    {
      GoIdle(kvOk);
      ctrl := Free;
    }

    /** The audio task: one captured chunk is published. */
    method OnChunk(chunk: Chunk, publishOk: bool)
      requires audio.Listening?
      modifies `audio, `live, `preroll, `captured, `current
      ensures View() == Captured(old(View()), chunk, publishOk)
    {
      if !publishOk { return; }
      if isActive && sessionId.Some? {
        live := live + [AudioMsg(SUBJECT_PREFIX_AUDIO_LIVE, sessionId.value, chunk)];
        captured := captured + [chunk];
        current := WithChunk(current);
        audio := Checking(chunk);
      } else {
        preroll := preroll + [chunk];
        captured := captured + [chunk];
      }
    }

    /** The published chunk is checked for silence. */
    method CheckSilence(ghost eosOk: bool, kvOk: bool)
      requires audio.Checking?
      modifies `audio, `silenceSamples, `isActive, `sessionId, `title, `sessionKv, `live, `past, `current
      ensures View() == Checked(old(View()), old(audio).chunk, eosOk, kvOk)
    {
      var chunk := audio.chunk;
      audio := Listening;
      match Judge(chunk) {
        case Malformed => return;
        case Silent => silenceSamples := silenceSamples + |chunk| / 2;
        case Loud => silenceSamples := 0;
      }
      if silenceSamples >= SAMPLE_RATE * silenceTimeoutS {
        BeginAutoStop(eosOk, kvOk);
      }
    }

    /** A stop by silence; without a session id nothing is awaited before going idle. */
    method BeginAutoStop(ghost eosOk: bool, kvOk: bool)
      requires audio.Listening?
      modifies `audio, `isActive, `sessionId, `title, `sessionKv, `live, `past, `current
      ensures View() == AutoStopped(old(View()), eosOk, kvOk)
    {
      if sessionId.Some? {
        PublishEos(eosOk);
        audio := AutoStopping;
      } else {
        GoIdle(kvOk);
      }
    }

    method EndAutoStop(kvOk: bool)
      requires audio.AutoStopping?
      modifies `audio, `isActive, `sessionId, `title, `sessionKv, `past, `current
      ensures View() == Step(old(View()), AutoStopEnd(kvOk))
    {
      GoIdle(kvOk);
      audio := Listening;
    }

    /** A crash: nothing but the key-value store is left. */
    method Restart()
      modifies `isActive, `sessionId, `title, `silenceSamples, `silenceTimeoutS, `ctrl, `audio
      ensures View() == old(View()).(session := IDLE, ctrl := Free, audio := Listening)
    {
      isActive, sessionId, title := false, None, "";
      silenceSamples, silenceTimeoutS := 0, DEFAULT_SILENCE_TIMEOUT_S;
      ctrl, audio := Free, Listening;
    }

    /** On restart the stored session, if any, is resumed. */
    method RecoverSession()
      requires !isActive && sessionId.None? && title == "" && silenceSamples == 0 && silenceTimeoutS == DEFAULT_SILENCE_TIMEOUT_S
      modifies `isActive, `sessionId, `title
      ensures View() == old(View()).(session := Recovered(sessionKv))
    {
      if sessionKv.Some? {
        sessionId, isActive, title := Some(sessionKv.value.sessionId), true, sessionKv.value.title;
      }
    }

    method CrashAndRecover()
      modifies this
      ensures View() == Crashed(old(View()))
    {
      Restart();
      RecoverSession();
      RecordRecovery();
    }

    /** History: the session goes on, or its span ends and another may begin. */
    ghost method RecordRecovery()
      modifies `past, `current
      ensures var c := old(View());
              View() == if Resumes(c) then c else
                          c.(past := Closed(c),
                             current := if c.kv.Some? then Some(Span(c.kv.value.sessionId, |c.captured|, |c.captured|, [])) else None)
    {
      if !(sessionKv.Some? && current.Some? && sessionKv.value.sessionId == current.value.sid) {
        past := if current.Some? then past + [current.value] else past;
        current := if sessionKv.Some? then Some(Span(sessionKv.value.sessionId, |captured|, |captured|, [])) else None;
      }
    }
  }
}
