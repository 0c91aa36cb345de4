/** Safety of every run of the session loop, under any failures and any timing. */
module SttSafety {
  import opened Common
  import opened Messaging
  import opened SttSession

  // ----- A monitor for traces -----

  /** What the monitor remembers of the current connection; `last` is the latest send that is not acked yet. */
  datatype Watch =
    | Free
    | Busy(sid: Option<string>, backfillEnded: bool, heardLive: bool, finished: bool, last: Option<Act>)
    | Bad

  function WatchStep(w: Watch, a: Act): Watch {
    match a
    case Open(sid) =>
      if w.Free? || (w.Busy? && w.finished) then Busy(sid, false, false, false, None) else Bad
    case Sent(lane, m) =>
      if w.Busy? && !w.finished && !Stale(w.sid, m) && !IsEos(m) && (lane.Live? <==> w.backfillEnded)
      then w.(heardLive := w.heardLive || lane.Live?, last := Some(a)) else Bad
    case Acked(lane, m) =>
      if w.Busy? && !w.finished && (Stale(w.sid, m) || IsEos(m) || w.last == Some(Sent(lane, m)))
      then w.(last := None, backfillEnded := w.backfillEnded || (lane.Backfill? && IsEos(m) && !Stale(w.sid, m))) else Bad
    case Finalized => if w.Busy? && !w.finished && w.backfillEnded then w else Bad
    case Finished => if w.Busy? && !w.finished then w.(finished := true) else Bad
    case Emit(tag, _) =>
      if w.Busy? && (tag.Live? ==> w.backfillEnded) && (tag.Backfill? ==> !w.heardLive)
      then w.(heardLive := w.heardLive || tag.Live?) else Bad
  }

  function WatchAll(trace: seq<Act>): Watch {
    if trace == [] then Free else WatchStep(WatchAll(trace[..|trace| - 1]), trace[|trace| - 1])
  }

  lemma WatchOfAppend(trace: seq<Act>, a: Act)
    ensures WatchAll(trace + [a]) == WatchStep(WatchAll(trace), a)
  {
    assert (trace + [a])[..|trace|] == trace;
  }

  lemma WatchOfAppend2(trace: seq<Act>, a: Act, b: Act)
    ensures WatchAll(trace + [a, b]) == WatchStep(WatchStep(WatchAll(trace), a), b)
  {
    assert trace + [a, b] == (trace + [a]) + [b];
    WatchOfAppend(trace, a);
    WatchOfAppend(trace + [a], b);
  }

  // ----- The invariant of the loop -----

  /** The phase fits what the monitor saw; while the connection is open, a closed one has stopped emitting. */
  ghost predicate Fits(s: State, w: Watch) {
    match s.phase
    case WaitBackfill => !s.draining && (w.Free? || (w.Busy? && w.finished))
    case Connecting(_) => !s.draining && (w.Free? || (w.Busy? && w.finished))
    case Stopped => !s.draining && (w.Free? || (w.Busy? && w.finished))
    case Sending(lane, queue) => queue != [] && AudioIn(s, w, lane)
    case Fetching(lane) => AudioIn(s, w, lane)
    case Flushing => OpenIn(s, w, Backfill) && w.backfillEnded
    case WaitLive => OpenIn(s, w, Live)
    case Closing => w.Busy? && w.finished && TagFits(s, w)
  }

  ghost predicate TagFits(s: State, w: Watch)
    requires w.Busy?
  {
    && (s.tag.Live? ==> w.backfillEnded)
    && (w.heardLive ==> s.tag.Live? || !s.draining)
  }

  ghost predicate OpenIn(s: State, w: Watch, lane: Lane) {
    && w.Busy? && !w.finished && w.sid == s.sid && TagFits(s, w)
    && (s.dgClosed ==> !s.draining)
    && (lane.Live? ==> w.backfillEnded && (s.tag.Live? || !s.draining))
    && (lane.Backfill? ==> s.tag.Backfill? && !w.heardLive)
  }

  ghost predicate AudioIn(s: State, w: Watch, lane: Lane) {
    OpenIn(s, w, lane) && (lane.Live? <==> w.backfillEnded)
  }

  ghost predicate Inv(s: State) {
    Fits(s, WatchAll(s.trace))
  }

  lemma CloseKeeps(s: State)
    requires var w := WatchAll(s.trace); w.Busy? && !w.finished && TagFits(s, w)
    ensures Inv(Close(s))
  {
    WatchOfAppend(s.trace, Finished);
  }

  lemma ProceedKeeps(s: State, lane: Lane, queue: seq<Msg>)
    requires AudioIn(s, WatchAll(s.trace), lane)
    ensures Inv(Proceed(s, lane, queue))
  {
    if queue == [] && (s.dgClosed || s.stopping) {
      CloseKeeps(s);
    }
  }

  lemma EosKeeps(s: State, lane: Lane)
    requires OpenIn(s, WatchAll(s.trace), lane) && WatchAll(s.trace).backfillEnded
    ensures Inv(EosSeen(s, lane))
  {
    if lane.Live? {
      CloseKeeps(s.(dgClosed := true));
    } else if s.dgClosed || s.stopping {
      CloseKeeps(s);
    } else {
      WatchOfAppend(s.trace, Finalized);
    }
  }

  lemma FailureKeeps(s: State, lane: Lane, m: Msg, reached: bool)
    requires AudioIn(s, WatchAll(s.trace), lane) && !Stale(s.sid, m) && !IsEos(m)
    ensures Inv(Close(Log(s, if reached then [Sent(lane, m)] else []).(dgClosed := true)))
  {
    WatchOfAppend(s.trace, Sent(lane, m));
    assert s.trace + [] == s.trace;
    CloseKeeps(Log(s, if reached then [Sent(lane, m)] else []).(dgClosed := true));
  }

  lemma AcceptedKeeps(s: State, lane: Lane, m: Msg, rest: seq<Msg>)
    requires AudioIn(s, WatchAll(s.trace), lane) && !Stale(s.sid, m) && !IsEos(m)
    ensures Inv(Proceed(Log(s, [Sent(lane, m), Acked(lane, m)]), lane, rest))
  {
    WatchOfAppend2(s.trace, Sent(lane, m), Acked(lane, m));
    ProceedKeeps(Log(s, [Sent(lane, m), Acked(lane, m)]), lane, rest);
  }

  lemma EndOfAudioKeeps(s: State, lane: Lane, m: Msg)
    requires AudioIn(s, WatchAll(s.trace), lane) && !Stale(s.sid, m) && IsEos(m)
    ensures Inv(EosSeen(Log(s, [Acked(lane, m)]), lane))
  {
    WatchOfAppend(s.trace, Acked(lane, m));
    EosKeeps(Log(s, [Acked(lane, m)]), lane);
  }

  lemma SkippedKeeps(s: State, lane: Lane, m: Msg, rest: seq<Msg>)
    requires AudioIn(s, WatchAll(s.trace), lane) && Stale(s.sid, m)
    ensures Inv(Proceed(Log(s, [Acked(lane, m)]), lane, rest))
  {
    WatchOfAppend(s.trace, Acked(lane, m));
    ProceedKeeps(Log(s, [Acked(lane, m)]), lane, rest);
  }

  lemma HandledKeeps(s: State, outcome: SendOutcome)
    requires Inv(s) && s.phase.Sending?
    ensures Inv(Handled(s, outcome))
  {
    var lane, m, rest := s.phase.lane, s.phase.queue[0], s.phase.queue[1..];
    match FateOf(s.sid, m, outcome)
    case Skipped => SkippedKeeps(s, lane, m, rest);
    case EndOfAudio => EndOfAudioKeeps(s, lane, m);
    case Accepted => AcceptedKeeps(s, lane, m, rest);
    case Failed(reached) => FailureKeeps(s, lane, m, reached);
    case Unacked => FailureKeeps(s, lane, m, true);
  }

  lemma OpenedKeeps(s: State)
    requires Inv(s) && s.phase.Connecting?
    ensures Inv(Opened(s))
  {
    var first := s.phase.first;
    var sid := if first == [] then None else SessionIdFromSubject(first[0].subject);
    WatchOfAppend(s.trace, Open(sid));
    ProceedKeeps(Log(s, [Open(sid)]).(sid := sid, dgClosed := false, tag := Backfill, draining := true), Backfill, first);
  }

  lemma FetchKeeps(s: State, msgs: seq<Msg>)
    requires Inv(s) && (s.phase.WaitBackfill? || s.phase.WaitLive? || s.phase.Fetching?)
    ensures Inv(FetchEnded(s, msgs)) && Inv(FetchFailed(s))
  {
    if !s.phase.WaitBackfill? {
      CloseKeeps(s);
      ProceedKeeps(s, if s.phase.WaitLive? then Live else s.phase.lane, msgs);
    }
  }

  lemma FlushedKeeps(s: State)
    requires Inv(s) && s.phase.Flushing?
    ensures Inv(Flushed(s))
  {
    CloseKeeps(s);
  }

  lemma EmittedKeeps(s: State, spoken: Spoken)
    requires Inv(s) && s.draining
    ensures Inv(Emitted(s, spoken))
  {
    WatchOfAppend(s.trace, Emit(s.tag, spoken));
  }

  lemma StepKeeps(s: State, e: Event)
    requires Inv(s)
    ensures Inv(Step(s, e))
  {
    if Enabled(s, e) {
      match e
      case Fetched(msgs) => FetchKeeps(s, msgs);
      case FetchFails => FetchKeeps(s, []);
      case ConnectOk => OpenedKeeps(s);
      case ConnectFails =>
      case SendEnds(outcome) => HandledKeeps(s, outcome);
      case FlushEnds => FlushedKeeps(s);
      case Transcript(spoken) => EmittedKeeps(s, spoken);
      case ConnectionDrops =>
      case DrainEnds =>
      case StopSignal =>
    }
  }

  lemma {:induction false} RunKeeps(es: seq<Event>)
    ensures Inv(Run(es))
    decreases |es|
  {
    if es != [] {
      RunKeeps(es[..|es| - 1]);
      StepKeeps(Run(es[..|es| - 1]), es[|es| - 1]);
    }
  }

  // ----- What the monitor's acceptance means -----

  /** `i` is where the connection in use just before position `j` was opened. */
  ghost predicate OpenedAt(trace: seq<Act>, i: nat, j: nat) {
    i < j <= |trace| && trace[i].Open? && forall k :: i < k < j ==> !trace[k].Open?
  }

  predicate IsBackfillEos(sid: Option<string>, a: Act) {
    a.Acked? && a.lane.Backfill? && IsEos(a.msg) && !Stale(sid, a.msg)
  }

  /** Live audio sent, or a transcript labelled live. */
  predicate IsLiveSign(a: Act) {
    (a.Sent? && a.lane.Live?) || (a.Emit? && a.tag.Live?)
  }

  /** `act` lies after position `i`, and nothing was sent or acked since. */
  ghost predicate JustSent(trace: seq<Act>, i: nat, act: Act) {
    exists k :: i < k < |trace| && trace[k] == act && forall l :: k < l < |trace| ==> !trace[l].Sent? && !trace[l].Acked?
  }

  lemma JustSentAppend(trace: seq<Act>, i: nat, act: Act, a: Act)
    requires i < |trace|
    ensures !a.Sent? && !a.Acked? && JustSent(trace, i, act) ==> JustSent(trace + [a], i, act)
    ensures JustSent(trace + [a], i, a)
  {
    var t := trace + [a];
    assert t[|trace|] == a;
    if !a.Sent? && !a.Acked? && JustSent(trace, i, act) {
      var k :| i < k < |trace| && trace[k] == act && forall l :: k < l < |trace| ==> !trace[l].Sent? && !trace[l].Acked?;
      assert t[k] == act && forall l :: k < l < |trace| ==> t[l] == trace[l];
    }
  }

  /** An act satisfying `p` lies after position `i`. */
  ghost predicate Seen(trace: seq<Act>, i: nat, p: Act -> bool) {
    exists k :: i < k < |trace| && p(trace[k])
  }

  lemma SeenAppend(trace: seq<Act>, i: nat, p: Act -> bool, a: Act)
    requires i < |trace|
    ensures Seen(trace + [a], i, p) <==> Seen(trace, i, p) || p(a)
  {
    var t := trace + [a];
    assert forall k :: i < k < |trace| ==> t[k] == trace[k];
    if p(a) {
      assert t[|trace|] == a;
    } else if Seen(trace, i, p) {
      var k :| i < k < |trace| && p(trace[k]);
      assert p(t[k]);
    }
  }

  const ISFINISHED := (a: Act) => a.Finished?
  const ISLIVESIGN := (a: Act) => IsLiveSign(a)

  ghost predicate Describes(trace: seq<Act>, i: nat, w: Watch) {
    && OpenedAt(trace, i, |trace|) && w.Busy? && trace[i].sid == w.sid
    && (w.finished <==> Seen(trace, i, ISFINISHED))
    && (w.backfillEnded <==> Seen(trace, i, a => IsBackfillEos(w.sid, a)))
    && (w.heardLive <==> Seen(trace, i, ISLIVESIGN))
    && (w.last.Some? ==> JustSent(trace, i, w.last.value))
  }

  lemma DescribesStep(trace: seq<Act>, i: nat, w: Watch, a: Act)
    requires Describes(trace, i, w) && !a.Open? && WatchStep(w, a) != Bad
    ensures Describes(trace + [a], i, WatchStep(w, a))
  {
    SeenAppend(trace, i, ISFINISHED, a);
    SeenAppend(trace, i, b => IsBackfillEos(w.sid, b), a);
    SeenAppend(trace, i, ISLIVESIGN, a);
    if w.last.Some? {
      JustSentAppend(trace, i, w.last.value, a);
    } else {
      JustSentAppend(trace, i, a, a);
    }
  }

  lemma {:induction false} WatchDescribes(trace: seq<Act>) returns (i: nat)
    requires WatchAll(trace) != Bad
    ensures trace == [] <==> WatchAll(trace).Free?
    ensures trace != [] ==> Describes(trace, i, WatchAll(trace))
    decreases |trace|
  {
    if trace == [] { return 0; }
    var front, a := trace[..|trace| - 1], trace[|trace| - 1];
    assert trace == front + [a];
    WatchOfAppend(front, a);
    i := WatchDescribes(front);
    if a.Open? {
      i := |trace| - 1;
    } else {
      DescribesStep(front, i, WatchAll(front), a);
    }
  }

  lemma {:induction false} PrefixAccepted(trace: seq<Act>, j: nat)
    requires WatchAll(trace) != Bad && j <= |trace|
    ensures WatchAll(trace[..j]) != Bad
    decreases |trace|
  {
    if j < |trace| {
      var front := trace[..|trace| - 1];
      PrefixAccepted(front, j);
      assert front[..j] == trace[..j];
    } else {
      assert trace[..j] == trace;
    }
  }

  /** What must hold of the act at position `j`, in terms of the connection, opened at `i`, that it happens in. */
  ghost predicate SafeAt(trace: seq<Act>, j: nat, i: nat)
    requires j < |trace|
  {
    var before, a := trace[..j], trace[j];
    if j == 0 then a.Open? else
      && OpenedAt(trace, i, j)
      && var sid, finished := trace[i].sid, Seen(before, i, ISFINISHED);
         var backfillEnded := Seen(before, i, b => IsBackfillEos(sid, b));
         match a
         case Open(_) => finished
         case Sent(lane, m) => !finished && !Stale(sid, m) && !IsEos(m) && (lane.Live? <==> backfillEnded)
         case Acked(lane, m) => !finished && (Stale(sid, m) || IsEos(m) || JustSent(before, i, Sent(lane, m)))
         case Finalized => !finished && backfillEnded
         case Finished => !finished
         case Emit(tag, _) => if tag.Live? then backfillEnded else !Seen(before, i, ISLIVESIGN)
  }

  /**
   On every run: a connection is finished exactly once before the next opens,
   carries audio of its own session only and acks a chunk
   only right after sending it, gets live audio exactly after that
   session's backfill marker, and labels transcripts backfill first, then live,
   never backfill once live audio was sent.
   */
  lemma SafetyOverRuns(es: seq<Event>, j: nat) returns (i: nat)
    requires j < |Run(es).trace|
    ensures SafeAt(Run(es).trace, j, i)
  {
    var trace := Run(es).trace;
    RunKeeps(es);
    PrefixAccepted(trace, j);
    PrefixAccepted(trace, j + 1);
    var before := trace[..j];
    assert trace[..j + 1][..j] == before && trace[..j + 1][j] == trace[j];
    i := WatchDescribes(before);
    if j > 0 {
      assert trace[i] == before[i] && OpenedAt(trace, i, j);
    }
  }

  /** Whenever the loop waits for a new session, or has stopped, the last connection has been finished. */
  lemma NothingLeftOpen(es: seq<Event>) returns (i: nat)
    requires var s := Run(es); s.phase.WaitBackfill? || s.phase.Connecting? || s.phase.Stopped?
    ensures var s := Run(es);
            !s.draining && (s.trace == [] || (OpenedAt(s.trace, i, |s.trace|) && Seen(s.trace, i, ISFINISHED)))
  {
    RunKeeps(es);
    i := WatchDescribes(Run(es).trace);
  }

  /** With subjects that name a session, audio on a connection belongs to exactly its session. */
  lemma StaleExactlyWhen(sid: string, m: Msg, msgSid: string)
    requires IsToken(sid) && IsToken(msgSid)
    requires exists prefix :: m.subject == prefix + "." + msgSid
    ensures Stale(Some(sid), m) <==> msgSid != sid
  {
    var prefix :| m.subject == prefix + "." + msgSid;
    SessionIdOfSubject(prefix, msgSid);
  }

  /** In general: both names must be known and not empty, and the subject's last token must be another one. */
  lemma SkipsExactlyWhen(sid: Option<string>, m: Msg)
    ensures Stale(sid, m) <==> sid.Some? && sid.value != ""
                               && exists prefix, other :: m.subject == prefix + "." + other && IsToken(other) && other != sid.value
  {
    if Stale(sid, m) {
      var other := SessionIdFromSubject(m.subject).value;
      SessionIdIsLastToken(m.subject, other);
      var prefix :| m.subject == prefix + "." + other;
      assert IsToken(other) && other != sid.value;
    } else if prefix, other :| m.subject == prefix + "." + other && IsToken(other) && sid.Some? && other != sid.value {
      SessionIdOfSubject(prefix, other);
    }
  }

  // ----- Every transcript is published once -----

  /** The transcripts published in a trace, in order. */
  function Published(trace: seq<Act>): seq<Spoken> {
    if trace == [] then [] else
      var a := trace[|trace| - 1];
      Published(trace[..|trace| - 1]) + if a.Emit? then [a.spoken] else []
  }

  /** The transcripts that the drain task takes from the recogniser while the service runs. */
  function Taken(es: seq<Event>): seq<Spoken> {
    if es == [] then [] else
      var front, e := es[..|es| - 1], es[|es| - 1];
      Taken(front) + if e.Transcript? && Run(front).draining && !Run(front).stopping then [e.spoken] else []
  }

  lemma PublishedAppend(trace: seq<Act>, a: Act)
    ensures Published(trace + [a]) == Published(trace) + if a.Emit? then [a.spoken] else []
  {
    assert (trace + [a])[..|trace|] == trace;
  }

  lemma {:induction false} PublishedOfConcat(trace: seq<Act>, acts: seq<Act>)
    requires forall a :: a in acts ==> !a.Emit?
    ensures Published(trace + acts) == Published(trace)
    decreases |acts|
  {
    if acts == [] {
      assert trace + acts == trace;
    } else {
      var front, a := acts[..|acts| - 1], acts[|acts| - 1];
      assert trace + acts == (trace + front) + [a];
      PublishedOfConcat(trace, front);
    }
  }

  lemma ClosingEmitsNothing(s: State, lane: Lane, queue: seq<Msg>)
    ensures Published(Close(s).trace) == Published(s.trace)
    ensures Published(Proceed(s, lane, queue).trace) == Published(s.trace)
    ensures Published(EosSeen(s, lane).trace) == Published(s.trace)
  {
    PublishedAppend(s.trace, Finished);
    PublishedAppend(s.trace, Finalized);
  }

  lemma LogEmitsNothing(s: State, acts: seq<Act>)
    requires forall a :: a in acts ==> !a.Emit?
    ensures Published(Log(s, acts).trace) == Published(s.trace)
  {
    PublishedOfConcat(s.trace, acts);
  }

  lemma HandlingEmitsNothing(s: State, outcome: SendOutcome)
    requires s.phase.Sending? && s.phase.queue != []
    ensures Published(Handled(s, outcome).trace) == Published(s.trace)
  {
    var lane, m, rest := s.phase.lane, s.phase.queue[0], s.phase.queue[1..];
    match FateOf(s.sid, m, outcome)
    case Skipped =>
      LogEmitsNothing(s, [Acked(lane, m)]);
      ClosingEmitsNothing(Log(s, [Acked(lane, m)]), lane, rest);
    case EndOfAudio =>
      LogEmitsNothing(s, [Acked(lane, m)]);
      ClosingEmitsNothing(Log(s, [Acked(lane, m)]), lane, rest);
    case Accepted =>
      LogEmitsNothing(s, [Sent(lane, m), Acked(lane, m)]);
      ClosingEmitsNothing(Log(s, [Sent(lane, m), Acked(lane, m)]), lane, rest);
    case Failed(reached) =>
      var acts := if reached then [Sent(lane, m)] else [];
      LogEmitsNothing(s, acts);
      ClosingEmitsNothing(Log(s, acts).(dgClosed := true), lane, rest);
    case Unacked =>
      LogEmitsNothing(s, [Sent(lane, m)]);
      ClosingEmitsNothing(Log(s, [Sent(lane, m)]).(dgClosed := true), lane, rest);
  }

  lemma OpeningEmitsNothing(s: State)
    requires s.phase.Connecting?
    ensures Published(Opened(s).trace) == Published(s.trace)
  {
    var first := s.phase.first;
    var sid := if first == [] then None else SessionIdFromSubject(first[0].subject);
    LogEmitsNothing(s, [Open(sid)]);
    ClosingEmitsNothing(Log(s, [Open(sid)]).(sid := sid, dgClosed := false, tag := Backfill, draining := true), Backfill, first);
  }

  lemma FetchingEmitsNothing(s: State, msgs: seq<Msg>)
    requires s.phase.WaitBackfill? || s.phase.WaitLive? || s.phase.Fetching?
    ensures Published(FetchEnded(s, msgs).trace) == Published(s.trace)
    ensures Published(FetchFailed(s).trace) == Published(s.trace)
  {
    ClosingEmitsNothing(s, if s.phase.Fetching? then s.phase.lane else Live, msgs);
  }

  lemma OthersEmitNothing(s: State, e: Event)
    requires !e.Transcript?
    ensures Published(Step(s, e).trace) == Published(s.trace)
  {
    if Enabled(s, e) {
      match e
      case SendEnds(outcome) => HandlingEmitsNothing(s, outcome);
      case ConnectOk => OpeningEmitsNothing(s);
      case Fetched(msgs) => FetchingEmitsNothing(s, msgs);
      case FetchFails => FetchingEmitsNothing(s, []);
      case FlushEnds => ClosingEmitsNothing(s, Live, []);
      case _ =>
    }
  }

  /** On every run the provider publishes exactly the transcripts its drain task takes, each once and in order. */
  lemma {:induction false} TranscriptsOverRuns(es: seq<Event>)
    ensures Published(Run(es).trace) == Taken(es)
    decreases |es|
  {
    if es != [] {
      var front, e := es[..|es| - 1], es[|es| - 1];
      var s := Run(front);
      TranscriptsOverRuns(front);
      if e.Transcript? {
      } else {
        OthersEmitNothing(s, e);
      }
    }
  }
}
