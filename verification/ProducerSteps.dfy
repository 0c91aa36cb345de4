/**
 The audio producer's session state machine.  Two tasks act on it: the control
 task starts and stops sessions, the audio task publishes one chunk after
 another, checks it for silence and stops the session after too much of it.

 Each event is what a task does between two of its awaits, so the other task
 may act in between: a start awaits the session store and then the
 configuration store, a stop awaits the publish of its end marker, and a chunk
 is checked only after the await of its publish.  What a call sends to the
 broker takes effect in the order of the calls; the await brings its outcome.
 */
module ProducerSteps {
  import opened Common
  import opened Messaging
  import opened SilenceDetection

  const DEFAULT_SILENCE_TIMEOUT_S := 300
  const SAMPLE_RATE := 16000

  datatype Session = Session(isActive: bool, sessionId: Option<string>, title: string, silence: nat, timeout: int)

  const IDLE := Session(false, None, "", 0, DEFAULT_SILENCE_TIMEOUT_S)

  /** The session entry in the key-value store; it is only ever written with state "active". */
  datatype Record = Record(sessionId: string, title: string)

  /** Where the control task is suspended: not at all, in the two awaits of a start, or in that of a stop. */
  datatype Control = Free | Putting(sid: string, title: string) | Configuring | Stopping

  /** Where the audio task is suspended: waiting for a chunk, publishing one it will check, or inside a stop of its own. */
  datatype Audio = Listening | Checking(chunk: Chunk) | AutoStopping

  /**
   What one session put on the live subject: the chunks captured at positions
   `lo` to `hi`, and an end marker before each position in `eos`.
   */
  datatype Span = Span(sid: string, lo: nat, hi: nat, eos: seq<nat>)

  datatype Core = Core(
    session: Session,
    kv: Option<Record>,
    ctrl: Control,
    audio: Audio,
    // streams
    preroll: seq<Chunk>,
    live: seq<Msg>,
    // history: every chunk accepted by the broker, and the sessions
    captured: seq<Chunk>,
    past: seq<Span>,
    current: Option<Span>)

  datatype Event =
    | StartBegin(sid: string, title: string, kvOk: bool)
    | StartActivate
    | StartReady(timeout: Option<int>, oldest: nat)
    | StopBegin(eosOk: bool)
    | StopEnd(kvOk: bool)
    | Capture(chunk: Chunk, publishOk: bool)
    | Check(eosOk: bool, kvOk: bool)
    | AutoStopEnd(kvOk: bool)
    | Crash                              // and restart, with recovery
    | FlushNext(nth: nat, ok: bool)
    | FlushEnd(nth: nat, eosOk: bool)
    | FlushAbort(nth: nat)

  const INIT := Core(IDLE, None, Free, Listening, [], [], [], [], None)

  predicate Recording(c: Core) {
    c.session.isActive && c.session.sessionId.Some?
  }

  // ----- Starting -----

  /** The entry is written before the session becomes active. */
  function StartBegun(c: Core, sid: string, title: string, kvOk: bool): Core {
    if c.session.isActive then c
    else c.(ctrl := Putting(sid, title), kv := if kvOk then Some(Record(sid, title)) else c.kv)
  }

  /** The session becomes active with the default timeout; the silence counter is still the previous session's. */
  function Activated(c: Core): Core
    requires c.ctrl.Putting?
  {
    var sid, title := c.ctrl.sid, c.ctrl.title;
    c.(ctrl := Configuring,
       session := Session(true, Some(sid), title, c.session.silence, DEFAULT_SILENCE_TIMEOUT_S),
       current := Some(Span(sid, |c.captured|, |c.captured|, [])))
  }

  /** The configured timeout is known; only now is the counter reset. */
  function Readied(c: Core, timeout: Option<int>): Core {
    c.(ctrl := Free, session := c.session.(silence := 0, timeout := if timeout.Some? then timeout.value else c.session.timeout))
  }

  // ----- Stopping -----

  function WithEos(span: Option<Span>, at: nat): Option<Span> {
    if span.None? then None else Some(span.value.(eos := span.value.eos + [at]))
  }

  function WithChunk(span: Option<Span>): Option<Span> {
    if span.None? then None else Some(span.value.(hi := span.value.hi + 1))
  }

  /** First half of a stop: publish the end marker. */
  function StopPublished(c: Core, eosOk: bool): Core {
    if c.session.sessionId.Some? && eosOk then
      c.(live := c.live + [EosMsg(SUBJECT_PREFIX_AUDIO_LIVE, c.session.sessionId.value)],
         current := WithEos(c.current, |c.captured|))
    else c
  }

  /** The session in progress, if any, becomes a past one. */
  function Closed(c: Core): seq<Span> {
    if c.current.Some? then c.past + [c.current.value] else c.past
  }

  /** Second half: go idle and clear the key-value entry. */
  function StopFinished(c: Core, kvOk: bool): Core {
    c.(session := c.session.(isActive := false, sessionId := None, title := ""),
       kv := if kvOk then None else c.kv,
       past := Closed(c),
       current := None)
  }

  // ----- Chunks -----

  function ChunkPublished(c: Core, chunk: Chunk): Core
    requires c.session.sessionId.Some?
  {
    c.(live := c.live + [AudioMsg(SUBJECT_PREFIX_AUDIO_LIVE, c.session.sessionId.value, chunk)],
       captured := c.captured + [chunk],
       current := WithChunk(c.current),
       audio := Checking(chunk))
  }

  /** A chunk goes to the session in progress, or else to the pre-roll. */
  function Captured(c: Core, chunk: Chunk, publishOk: bool): Core {
    if !publishOk then c
    else if Recording(c) then ChunkPublished(c, chunk)
    else c.(preroll := c.preroll + [chunk], captured := c.captured + [chunk])
  }

  /** The silence counter after one more published chunk; `None` when the chunk cannot be decoded. */
  function Counted(silence: nat, chunk: Chunk): Option<nat> {
    match Judge(chunk)
    case Silent => Some(silence + |chunk| / 2)
    case Loud => Some(0)
    case Malformed => None
  }

  /** Enough silence stops the session; without a session id there is no marker to await. */
  function AutoStopped(c: Core, eosOk: bool, kvOk: bool): Core {
    if c.session.sessionId.Some? then StopPublished(c, eosOk).(audio := AutoStopping)
    else StopFinished(c, kvOk).(audio := Listening)
  }

  function Checked(c: Core, chunk: Chunk, eosOk: bool, kvOk: bool): Core {
    match Counted(c.session.silence, chunk)
    case None => c.(audio := Listening)
    case Some(silence) =>
      var counted := c.(session := c.session.(silence := silence), audio := Listening);
      if silence >= SAMPLE_RATE * c.session.timeout then AutoStopped(counted, eosOk, kvOk) else counted
  }

  // ----- Crashing -----

  /** A crash loses everything but the key-value store; recovery resumes the session recorded there. */
  function Recovered(kv: Option<Record>): Session {
    if kv.Some? then Session(true, Some(kv.value.sessionId), kv.value.title, 0, DEFAULT_SILENCE_TIMEOUT_S) else IDLE
  }

  /** Recovery goes on with the very session that was in progress. */
  predicate Resumes(c: Core) {
    c.kv.Some? && c.current.Some? && c.kv.value.sessionId == c.current.value.sid
  }

  function Crashed(c: Core): Core {
    var d := c.(session := Recovered(c.kv), ctrl := Free, audio := Listening);
    if Resumes(c) then d
    else d.(past := Closed(c),
            current := if c.kv.Some? then Some(Span(c.kv.value.sessionId, |c.captured|, |c.captured|, [])) else None)
  }

  // ----- Steps -----

  predicate Enabled(c: Core, e: Event) {
    match e
    case StartBegin(sid, _, _) => c.ctrl.Free? && IsToken(sid)
    case StartActivate => c.ctrl.Putting?
    case StartReady(_, _) => c.ctrl.Configuring?
    case StopBegin(_) => c.ctrl.Free? && c.session.isActive
    case StopEnd(_) => c.ctrl.Stopping?
    case Capture(_, _) => c.audio.Listening?
    case Check(_, _) => c.audio.Checking?
    case AutoStopEnd(_) => c.audio.AutoStopping?
    case Crash => true
    case _ => false
  }

  /** Events that cannot happen, and those of the pre-roll flush, leave this part of the state alone. */
  function Step(c: Core, e: Event): Core {
    if !Enabled(c, e) then c else
      match e
      case StartBegin(sid, title, kvOk) => StartBegun(c, sid, title, kvOk)
      case StartActivate => Activated(c)
      case StartReady(timeout, _) => Readied(c, timeout)
      case StopBegin(eosOk) => StopPublished(c, eosOk).(ctrl := Stopping)
      case StopEnd(kvOk) => StopFinished(c, kvOk).(ctrl := Free)
      case Capture(chunk, publishOk) => Captured(c, chunk, publishOk)
      case Check(eosOk, kvOk) => Checked(c, c.audio.chunk, eosOk, kvOk)
      case AutoStopEnd(kvOk) => StopFinished(c, kvOk).(audio := Listening)
      case Crash => Crashed(c)
      case _ => c
  }

  function RunFrom(c: Core, es: seq<Event>): Core {
    if es == [] then c else Step(RunFrom(c, es[..|es| - 1]), es[|es| - 1])
  }

  function Run(es: seq<Event>): Core {
    RunFrom(INIT, es)
  }

  lemma RunFromAppend(c: Core, es: seq<Event>, e: Event)
    ensures RunFrom(c, es + [e]) == Step(RunFrom(c, es), e)
  {
    assert (es + [e])[..|es|] == es;
  }

  lemma {:induction false} RunFromConcat(c: Core, a: seq<Event>, b: seq<Event>)
    ensures RunFrom(c, a + b) == RunFrom(RunFrom(c, a), b)
    decreases |b|
  {
    if b == [] {
      assert a + b == a;
    } else {
      assert (a + b)[..|a + b| - 1] == a + b[..|b| - 1];
      RunFromConcat(c, a, b[..|b| - 1]);
    }
  }
}
