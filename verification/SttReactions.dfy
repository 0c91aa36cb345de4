/**
 When the session loop opens, flushes and finishes connections, waits and ends:
 exactly at which events of a run, by what happened before them.
 */
module SttReactions {
  import opened Common
  import opened Messaging
  import opened SttSession

  // ----- What has happened -----

  predicate StopSignalled(es: seq<Event>) {
    exists i :: 0 <= i < |es| && es[i].StopSignal?
  }

  /** The connection's transcript stream is being drained; the connection is known to be gone. */
  datatype Link = Link(streaming: bool, lost: bool)

  /** A send or an ack of the session's own audio fails, or its own end marker comes on the live lane. */
  predicate GivesUp(s: State, e: Event) {
    && e.SendEnds? && s.phase.Sending? && s.phase.queue != []
    && var m := s.phase.queue[0];
       !Stale(s.sid, m) && if IsEos(m) then s.phase.lane.Live? else !e.outcome.SendOk?
  }

  /** From the events since the connection was made: its stream ends by itself or at the first transcript after the stop, or the loop gives it up. */
  function LinkOf(es: seq<Event>): Link {
    if es == [] then Link(false, false) else
      var front, e := es[..|es| - 1], es[|es| - 1];
      var link, s := LinkOf(front), Run(front);
      if e.ConnectOk? && s.phase.Connecting? then Link(true, false)
      else if link.streaming && (e.ConnectionDrops? || (e.Transcript? && StopSignalled(front))) then Link(false, true)
      else if GivesUp(s, e) then link.(lost := true)
      else if e.DrainEnds? && s.phase.Closing? then link.(streaming := false)
      else link
  }

  lemma StopSignalledAppend(es: seq<Event>, e: Event)
    ensures StopSignalled(es + [e]) <==> StopSignalled(es) || e.StopSignal?
  {
    assert (es + [e])[|es|] == e;
    if StopSignalled(es) {
      var i :| 0 <= i < |es| && es[i].StopSignal?;
      assert (es + [e])[i].StopSignal?;
    }
  }

  /** The loop's flags always say what has happened. */
  ghost predicate Knows(s: State, link: Link, stopped: bool) {
    s.dgClosed == link.lost && s.draining == link.streaming && s.stopping == stopped
  }

  lemma StepKnows(s: State, e: Event, link: Link, stopped: bool)
    requires Knows(s, link, stopped)
    ensures Knows(Step(s, e),
                  if e.ConnectOk? && s.phase.Connecting? then Link(true, false)
                  else if link.streaming && (e.ConnectionDrops? || (e.Transcript? && stopped)) then Link(false, true)
                  else if GivesUp(s, e) then link.(lost := true)
                  else if e.DrainEnds? && s.phase.Closing? then link.(streaming := false)
                  else link,
                  stopped || e.StopSignal?)
  {
  }

  lemma {:induction false} FlagsOverRuns(es: seq<Event>)
    ensures Knows(Run(es), LinkOf(es), StopSignalled(es))
    decreases |es|
  {
    if es != [] {
      var front, e := es[..|es| - 1], es[|es| - 1];
      assert es == front + [e];
      FlagsOverRuns(front);
      StopSignalledAppend(front, e);
      StepKnows(Run(front), e, LinkOf(front), StopSignalled(front));
    }
  }

  // ----- What an event does -----

  /** The connection is gone, or the service has been told to stop. */
  predicate WindsUp(es: seq<Event>) {
    LinkOf(es).lost || StopSignalled(es)
  }

  /** The message at hand is the session's own end marker, on the given lane. */
  predicate OwnMarker(s: State, lane: Lane) {
    s.phase.Sending? && s.phase.lane == lane && s.phase.queue != [] && !Stale(s.sid, s.phase.queue[0]) && IsEos(s.phase.queue[0])
  }

  /** The last message at hand is dealt with, without its being an own marker or failing. */
  predicate DealsWithLast(s: State, e: Event) {
    && e.SendEnds? && s.phase.Sending? && |s.phase.queue| == 1
    && (Stale(s.sid, s.phase.queue[0]) || (!IsEos(s.phase.queue[0]) && e.outcome.SendOk?))
  }

  /** A fetch that brings nothing. */
  predicate BringsNothing(e: Event) {
    e.FetchFails? || e == Fetched([])
  }

  predicate FetchEnds(e: Event) {
    e.FetchFails? || e.Fetched?
  }

  /** Why a connection is finished at this event. */
  predicate FinishCause(s: State, e: Event, lost: bool, stopped: bool) {
    || GivesUp(s, e)
    || (e.SendEnds? && OwnMarker(s, Backfill) && (lost || stopped))
    || (DealsWithLast(s, e) && (lost || stopped))
    || (s.phase.Fetching? && BringsNothing(e) && (lost || stopped))
    || (s.phase.Flushing? && e.FlushEnds? && stopped)
    || (s.phase.WaitLive? && FetchEnds(e) && stopped)
    || (s.phase.WaitLive? && e == Fetched([]) && lost)
    || (s.phase == Connecting([]) && e.ConnectOk? && stopped)
  }

  /** The acts that a step adds to the trace. */
  function NewActs(s: State, t: State): seq<Act> {
    if |s.trace| <= |t.trace| then t.trace[|s.trace|..] else []
  }

  lemma RunAppend(es: seq<Event>, e: Event)
    ensures Run(es + [e]) == Step(Run(es), e)
  {
    assert (es + [e])[..|es|] == es;
  }

  /** Finishing the connection is the one way into closing. */
  ghost predicate FinishesRight(s: State, t: State, e: Event, lost: bool, stopped: bool) {
    && (Finished in NewActs(s, t) <==> FinishCause(s, e, lost, stopped))
    && (t.phase.Closing? <==> FinishCause(s, e, lost, stopped) || (s.phase.Closing? && !e.DrainEnds?))
  }

  /** A flush begins at the own backfill marker of an open connection of a running service. */
  ghost predicate FlushesRight(s: State, t: State, e: Event, lost: bool, stopped: bool) {
    var begins := e.SendEnds? && OwnMarker(s, Backfill) && !lost && !stopped;
    && (Finalized in NewActs(s, t) <==> begins)
    && (t.phase.Flushing? <==> begins || (s.phase.Flushing? && !e.FlushEnds?))
  }

  /** A connection is opened when connecting succeeds, for the session that the first message names. */
  ghost predicate OpensRight(s: State, t: State, e: Event) {
    forall sid :: Open(sid) in NewActs(s, t) <==>
      e.ConnectOk? && s.phase.Connecting?
      && sid == if s.phase.first == [] then None else SessionIdFromSubject(s.phase.first[0].subject)
  }

  /** Where the loop waits, and that it has ended. */
  ghost predicate WaitsRight(s: State, t: State, e: Event, stopped: bool) {
    && (t.phase.WaitLive? <==> (s.phase.Flushing? && e.FlushEnds? && !stopped)
                               || (s.phase.WaitLive? && !(FetchEnds(e) && stopped) && !e.Fetched?))
    && (t.phase.Connecting? <==> (s.phase.Connecting? && !e.ConnectOk? && !(e.ConnectFails? && stopped))
                                 || (s.phase.WaitBackfill? && e.Fetched? && !stopped))
    && (t.phase.WaitBackfill? <==> (s.phase.WaitBackfill? && !e.Fetched? && !(e.FetchFails? && stopped))
                                   || (s.phase.Closing? && e.DrainEnds? && !stopped))
    && (t.phase.Stopped? <==> s.phase.Stopped? || (stopped && ((s.phase.WaitBackfill? && FetchEnds(e))
                                                               || (s.phase.Connecting? && e.ConnectFails?)
                                                               || (s.phase.Closing? && e.DrainEnds?))))
  }

  lemma LogTwice(s: State, before: seq<Act>, acts: seq<Act>)
    ensures Log(Log(s, before), acts).trace == s.trace + (before + acts)
  {
    assert (s.trace + before) + acts == s.trace + (before + acts);
  }

  /** The acts while one fetched message is dealt with. */
  function HandledActs(s: State, e: Event): seq<Act>
    requires e.SendEnds? && s.phase.Sending? && s.phase.queue != []
  {
    var m, lane, winds := s.phase.queue[0], s.phase.lane, s.dgClosed || s.stopping;
    if Stale(s.sid, m) then [Acked(lane, m)] + if |s.phase.queue| == 1 && winds then [Finished] else []
    else if IsEos(m) then [Acked(lane, m)] + if lane.Live? || winds then [Finished] else [Finalized]
    else match e.outcome
      case SendOk => [Sent(lane, m), Acked(lane, m)] + if |s.phase.queue| == 1 && winds then [Finished] else []
      case SendRaises(reached) => (if reached then [Sent(lane, m)] else []) + [Finished]
      case AckRaises => [Sent(lane, m)] + [Finished]
  }

  lemma HandledLogs(s: State, e: Event)
    requires e.SendEnds? && s.phase.Sending? && s.phase.queue != []
    ensures Step(s, e).trace == s.trace + HandledActs(s, e)
  {
    if Stale(s.sid, s.phase.queue[0]) || IsEos(s.phase.queue[0]) { AckedLogs(s, e); } else { SentLogs(s, e); }
  }

  lemma AckedLogs(s: State, e: Event)
    requires e.SendEnds? && s.phase.Sending? && s.phase.queue != []
    requires Stale(s.sid, s.phase.queue[0]) || IsEos(s.phase.queue[0])
    ensures Step(s, e).trace == s.trace + HandledActs(s, e)
  {
    var acts := [Acked(s.phase.lane, s.phase.queue[0])];
    LogTwice(s, acts, [Finished]);
    LogTwice(s, acts, [Finalized]);
    assert acts + [] == acts;
  }

  lemma SentLogs(s: State, e: Event)
    requires e.SendEnds? && s.phase.Sending? && s.phase.queue != []
    requires !Stale(s.sid, s.phase.queue[0]) && !IsEos(s.phase.queue[0])
    ensures Step(s, e).trace == s.trace + HandledActs(s, e)
  {
    var m, lane := s.phase.queue[0], s.phase.lane;
    var acts := match e.outcome
                case SendOk => [Sent(lane, m), Acked(lane, m)]
                case SendRaises(reached) => if reached then [Sent(lane, m)] else []
                case AckRaises => [Sent(lane, m)];
    LogTwice(s, acts, [Finished]);
    assert acts + [] == acts;
  }

  lemma HandledFinishes(s: State, e: Event)
    requires e.SendEnds? && s.phase.Sending? && s.phase.queue != []
    ensures FinishesRight(s, Step(s, e), e, s.dgClosed, s.stopping)
  {
    HandledLogs(s, e);
    assert Finished in HandledActs(s, e) <==> FinishCause(s, e, s.dgClosed, s.stopping);
  }

  lemma HandledFlushes(s: State, e: Event)
    requires e.SendEnds? && s.phase.Sending? && s.phase.queue != []
    ensures FlushesRight(s, Step(s, e), e, s.dgClosed, s.stopping)
  {
    HandledLogs(s, e);
  }

  lemma HandledNeverOpens(s: State, e: Event)
    requires e.SendEnds? && s.phase.Sending? && s.phase.queue != []
    ensures forall act :: act in HandledActs(s, e) ==> !act.Open?
  {
  }

  lemma HandledOpens(s: State, e: Event)
    requires e.SendEnds? && s.phase.Sending? && s.phase.queue != []
    ensures OpensRight(s, Step(s, e), e)
  {
    HandledNeverOpens(s, e);
    assert NewActs(s, Step(s, e)) == HandledActs(s, e) by { HandledLogs(s, e); }
  }

  lemma HandledWaits(s: State, e: Event)
    requires e.SendEnds? && s.phase.Sending? && s.phase.queue != []
    ensures WaitsRight(s, Step(s, e), e, s.stopping)
  {
  }

  /** The acts at the other events. */
  function OtherActs(s: State, e: Event): seq<Act>
    requires !e.SendEnds?
  {
    if e.Transcript? && s.draining && !s.stopping then [Emit(s.tag, e.spoken)]
    else if e.ConnectOk? && s.phase.Connecting? then
      [Open(if s.phase.first == [] then None else SessionIdFromSubject(s.phase.first[0].subject))]
      + if s.phase.first == [] && s.stopping then [Finished] else []
    else if FinishCause(s, e, s.dgClosed, s.stopping) then [Finished]
    else []
  }

  lemma OtherLogs(s: State, e: Event)
    requires !e.SendEnds?
    ensures Step(s, e).trace == s.trace + OtherActs(s, e)
  {
    if e.ConnectOk? && s.phase.Connecting? {
      var sid := if s.phase.first == [] then None else SessionIdFromSubject(s.phase.first[0].subject);
      LogTwice(s, [Open(sid)], [Finished]);
      assert [Open(sid)] + [] == [Open(sid)];
    }
    assert s.trace + [] == s.trace;
  }

  lemma OtherFinishes(s: State, e: Event)
    requires !e.SendEnds?
    ensures FinishesRight(s, Step(s, e), e, s.dgClosed, s.stopping)
  {
    OtherLogs(s, e);
  }

  lemma OtherFlushes(s: State, e: Event)
    requires !e.SendEnds?
    ensures FlushesRight(s, Step(s, e), e, s.dgClosed, s.stopping)
  {
    OtherLogs(s, e);
    assert Finalized !in OtherActs(s, e);
  }

  lemma OtherOpens(s: State, e: Event)
    requires !e.SendEnds?
    ensures OpensRight(s, Step(s, e), e)
  {
    OtherLogs(s, e);
    assert NewActs(s, Step(s, e)) == OtherActs(s, e);
  }

  lemma OtherWaits(s: State, e: Event)
    requires !e.SendEnds?
    ensures WaitsRight(s, Step(s, e), e, s.stopping)
  {
  }

  /**
   At every event of every run: the connection is finished, a flush begun, a
   connection opened, and the loop comes to wait or to end, exactly when the
   cause is there, in terms of the message at hand and of what has happened to
   the connection and the service.
   */
  lemma ReactsExactlyWhen(es: seq<Event>, e: Event)
    ensures var s, t, lost, stopped := Run(es), Run(es + [e]), LinkOf(es).lost, StopSignalled(es);
            && s.trace <= t.trace
            && FinishesRight(s, t, e, lost, stopped) && FlushesRight(s, t, e, lost, stopped)
            && OpensRight(s, t, e) && WaitsRight(s, t, e, stopped)
  {
    FlagsOverRuns(es);
    RunAppend(es, e);
    if e.SendEnds? {
      if Run(es).phase.Sending? && Run(es).phase.queue != [] {
        HandledLogs(Run(es), e);
        HandledFinishes(Run(es), e);
        HandledFlushes(Run(es), e);
        HandledOpens(Run(es), e);
        HandledWaits(Run(es), e);
      }
    } else {
      OtherLogs(Run(es), e);
      OtherFinishes(Run(es), e);
      OtherFlushes(Run(es), e);
      OtherOpens(Run(es), e);
      OtherWaits(Run(es), e);
    }
  }

  /**
   With nothing at hand in an audio phase, after a fetch that brings nothing the
   phase is still on if and only if the connection is open and the service runs;
   otherwise the next act is to finish the connection.
   */
  lemma EmptyFetchExactlyWhen(es: seq<Event>, e: Event)
    requires Run(es).phase.Fetching? && BringsNothing(e)
    ensures var s, t := Run(es), Run(es + [e]);
            && (t.phase == s.phase <==> !LinkOf(es).lost && !StopSignalled(es))
            && (t.phase == s.phase ==> t.trace == s.trace)
            && (t.phase != s.phase ==> t.phase.Closing? && t.trace == s.trace + [Finished])
  {
    FlagsOverRuns(es);
    RunAppend(es, e);
  }

  // ----- The stop -----

  /** What the loop awaits has come; the other events come from other tasks. */
  predicate Completes(s: State, e: Event) {
    Enabled(s, e) && !e.Transcript? && !e.ConnectionDrops? && !e.StopSignal?
  }

  /** How many awaits are left after the stop, but for those of messages still fetched. */
  function AwaitsLeft(p: Phase): nat {
    match p
    case Stopped => 0
    case Closing => 1
    case WaitBackfill => 1
    case Connecting(first) => |first| + 2
    case Sending(_, queue) => |queue| + 1
    case _ => 2
  }

  /** How many awaits complete in `more`. */
  function Completions(es: seq<Event>, more: seq<Event>): nat {
    if more == [] then 0 else
      var front, e := more[..|more| - 1], more[|more| - 1];
      Completions(es, front) + if Completes(Run(es + front), e) then 1 else 0
  }

  /** How many messages fetches bring in `more`. */
  function Brought(more: seq<Event>): nat {
    if more == [] then 0 else
      var e := more[|more| - 1];
      Brought(more[..|more| - 1]) + if e.Fetched? then |e.msgs| else 0
  }

  /** Stopping, an event takes the loop nearer to its end by one await, but for the messages it brings. */
  ghost predicate ComesNearer(s: State, t: State, e: Event) {
    && t.stopping && (s.phase.Connecting? || !t.phase.Connecting?)
    && AwaitsLeft(t.phase) + (if Completes(s, e) then 1 else 0) <= AwaitsLeft(s.phase) + (if e.Fetched? then |e.msgs| else 0)
  }

  lemma StopSent(s: State, outcome: SendOutcome)
    requires s.stopping && s.phase.Sending? && s.phase.queue != []
    ensures ComesNearer(s, Handled(s, outcome), SendEnds(outcome))
  {
  }

  lemma StopStep(s: State, e: Event)
    requires s.stopping
    ensures ComesNearer(s, Step(s, e), e)
  {
    if Enabled(s, e) && e.SendEnds? { StopSent(s, e.outcome); }
  }

  /**
   Once the service has been told to stop, every await that completes brings the
   loop nearer to its end: it gets there after at most as many as are left, one
   more for each message still fetched, and starts connecting to no other session.
   */
  lemma {:induction false} StopEndsTheLoop(es: seq<Event>, more: seq<Event>)
    requires StopSignalled(es)
    ensures var s, t := Run(es), Run(es + more);
            && AwaitsLeft(t.phase) + Completions(es, more) <= AwaitsLeft(s.phase) + Brought(more)
            && (t.phase.Connecting? ==> s.phase.Connecting?)
            && (t.phase.Stopped? <==> AwaitsLeft(t.phase) == 0)
    decreases |more|
  {
    FlagsOverRuns(es);
    if more == [] {
      assert es + more == es;
    } else {
      var front, e := more[..|more| - 1], more[|more| - 1];
      StopEndsTheLoop(es, front);
      assert es + more == (es + front) + [e];
      RunAppend(es + front, e);
      FlagsOverRuns(es + front);
      StillSignalled(es, front);
      StopStep(Run(es + front), e);
    }
  }

  lemma StillSignalled(es: seq<Event>, more: seq<Event>)
    requires StopSignalled(es)
    ensures StopSignalled(es + more)
  {
    var i :| 0 <= i < |es| && es[i].StopSignal?;
    assert (es + more)[i].StopSignal?;
  }

  /** Until the loop has ended there is always something that it awaits. */
  lemma SomethingIsAwaited(s: State)
    requires s.phase.Sending? ==> s.phase.queue != []
    ensures s.phase.Stopped? <==> forall e :: !Completes(s, e)
  {
    if !s.phase.Stopped? {
      var e := match s.phase
               case Connecting(_) => ConnectOk
               case Sending(_, _) => SendEnds(SendOk)
               case Flushing => FlushEnds
               case Closing => DrainEnds
               case _ => FetchFails;
      assert Completes(s, e);
    }
  }
}
