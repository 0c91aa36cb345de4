/**
 The session loop of the speech-to-text provider: wait for backfill audio,
 connect, drain the session's backfill, flush, switch to live audio on the same
 connection, and close.  A second task drains transcripts from the connection.

 Each phase is a point where the session task awaits; each event is what the
 broker, the recogniser or the shutdown signal does to it there.
 */
module SttSession {
  import opened Common
  import opened Messaging

  datatype Lane = Backfill | Live

  /** A transcript from the recogniser. */
  datatype Spoken = Spoken(text: string, isFinal: bool)

  datatype Phase =
    | WaitBackfill
    | Connecting(first: seq<Msg>)
    | Sending(lane: Lane, queue: seq<Msg>)
    | Fetching(lane: Lane)
    | Flushing
    | WaitLive
    | Closing
    | Stopped

  /** What an observer of the connections and of the broker sees, in order. */
  datatype Act =
    | Open(sid: Option<string>)
    | Sent(lane: Lane, msg: Msg)
    | Acked(lane: Lane, msg: Msg)
    | Finalized
    | Finished
    | Emit(tag: Lane, spoken: Spoken)

  /** `SendRaises(reached)` says whether the payload got through before the send failed. */
  datatype SendOutcome = SendOk | SendRaises(reached: bool) | AckRaises

  datatype Event =
    | Fetched(msgs: seq<Msg>)
    | FetchFails                       // timeout or error
    | ConnectOk
    | ConnectFails
    | SendEnds(outcome: SendOutcome)   // the head of the fetched messages is dealt with
    | FlushEnds                        // final transcript seen, or timeout
    | Transcript(spoken: Spoken)
    | ConnectionDrops                  // the transcript stream ends
    | DrainEnds                        // after finish: drained or cancelled
    | StopSignal

  datatype State = State(
    phase: Phase,
    sid: Option<string>,
    dgClosed: bool,
    tag: Lane,
    draining: bool,
    stopping: bool,
    trace: seq<Act>)

  const INIT := State(WaitBackfill, None, false, Backfill, false, false, [])

  /** Messages of another session are acked and skipped, when both session ids are known. */
  predicate Stale(sid: Option<string>, m: Msg) {
    var other := SessionIdFromSubject(m.subject);
    sid.Some? && sid.value != "" && other.Some? && other.value != "" && other != sid
  }

  function Log(s: State, acts: seq<Act>): State {
    s.(trace := s.trace + acts)
  }

  function Close(s: State): State {
    Log(s, [Finished]).(phase := Closing)
  }

  /** Go on with the fetched messages, or fetch more while the connection lives. */
  function Proceed(s: State, lane: Lane, queue: seq<Msg>): State {
    if queue != [] then s.(phase := Sending(lane, queue))
    else if s.dgClosed || s.stopping then Close(s)
    else s.(phase := Fetching(lane))
  }

  function EosSeen(s: State, lane: Lane): State {
    if lane == Live then Close(s.(dgClosed := true))
    else if s.dgClosed || s.stopping then Close(s)
    else Log(s, [Finalized]).(phase := Flushing)
  }

  /** What becomes of one fetched message. */
  datatype Fate = Skipped | EndOfAudio | Accepted | Unacked | Failed(reached: bool)

  function FateOf(sid: Option<string>, m: Msg, outcome: SendOutcome): Fate {
    if Stale(sid, m) then Skipped
    else if IsEos(m) then EndOfAudio
    else match outcome
      case SendOk => Accepted
      case SendRaises(reached) => Failed(reached)
      case AckRaises => Unacked
  }

  function Handled(s: State, outcome: SendOutcome): State
    requires s.phase.Sending? && s.phase.queue != []
  {
    var lane, m, rest := s.phase.lane, s.phase.queue[0], s.phase.queue[1..];
    match FateOf(s.sid, m, outcome)
    case Skipped => Proceed(Log(s, [Acked(lane, m)]), lane, rest)
    case EndOfAudio => EosSeen(Log(s, [Acked(lane, m)]), lane)
    case Accepted => Proceed(Log(s, [Sent(lane, m), Acked(lane, m)]), lane, rest)
    case Failed(reached) => Close(Log(s, if reached then [Sent(lane, m)] else []).(dgClosed := true))
    case Unacked => Close(Log(s, [Sent(lane, m)]).(dgClosed := true))
  }

  function Opened(s: State): State
    requires s.phase.Connecting?
  {
    var first := s.phase.first;
    var sid := if first == [] then None else SessionIdFromSubject(first[0].subject);
    Proceed(Log(s, [Open(sid)]).(sid := sid, dgClosed := false, tag := Backfill, draining := true), Backfill, first)
  }

  function FetchEnded(s: State, msgs: seq<Msg>): State
    requires s.phase.WaitBackfill? || s.phase.WaitLive? || s.phase.Fetching?
  {
    match s.phase
    case WaitBackfill => s.(phase := if s.stopping then Stopped else Connecting(msgs))
    case WaitLive => if s.stopping then Close(s) else Proceed(s, Live, msgs)
    case Fetching(lane) => Proceed(s, lane, msgs)
  }

  function FetchFailed(s: State): State
    requires s.phase.WaitBackfill? || s.phase.WaitLive? || s.phase.Fetching?
  {
    match s.phase
    case WaitBackfill => if s.stopping then s.(phase := Stopped) else s
    case WaitLive => if s.stopping then Close(s) else s
    case Fetching(lane) => if s.dgClosed || s.stopping then Close(s) else s
  }

  /** Switch the transcript tag, unless the connection is gone or the service is stopping. */
  function Flushed(s: State): State {
    if s.stopping then Close(s)
    else if s.dgClosed then s.(phase := WaitLive)
    else s.(tag := Live, phase := WaitLive)
  }

  /** One transcript from the recogniser; the drain task leaves its loop when the service is stopping. */
  function Emitted(s: State, spoken: Spoken): State {
    if s.stopping then s.(draining := false, dgClosed := true)
    else Log(s, [Emit(s.tag, spoken)])
  }

  predicate Enabled(s: State, e: Event) {
    match e
    case Fetched(_) => s.phase.WaitBackfill? || s.phase.WaitLive? || s.phase.Fetching?
    case FetchFails => s.phase.WaitBackfill? || s.phase.WaitLive? || s.phase.Fetching?
    case ConnectOk => s.phase.Connecting?
    case ConnectFails => s.phase.Connecting?
    case SendEnds(_) => s.phase.Sending? && s.phase.queue != []
    case FlushEnds => s.phase.Flushing?
    case Transcript(_) => s.draining
    case ConnectionDrops => s.draining
    case DrainEnds => s.phase.Closing?
    case StopSignal => true
  }

  /** An event that cannot happen in `s` changes nothing, so every event sequence is a run. */
  function Step(s: State, e: Event): State {
    if !Enabled(s, e) then s else
      match e
      case Fetched(msgs) => FetchEnded(s, msgs)
      case FetchFails => FetchFailed(s)
      case ConnectOk => Opened(s)
      case ConnectFails => if s.stopping then s.(phase := Stopped) else s
      case SendEnds(outcome) => Handled(s, outcome)
      case FlushEnds => Flushed(s)
      case Transcript(spoken) => Emitted(s, spoken)
      case ConnectionDrops => s.(draining := false, dgClosed := true)
      case DrainEnds => s.(draining := false, phase := if s.stopping then Stopped else WaitBackfill)
      case StopSignal => s.(stopping := true)
  }

  function Run(es: seq<Event>): State {
    if es == [] then INIT else Step(Run(es[..|es| - 1]), es[|es| - 1])
  }
}
