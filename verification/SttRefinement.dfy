/** The session machine sends and acks, in each audio phase of each run, what the provider's fetch loop promises. */
module SttRefinement {
  import opened Common
  import opened Messaging
  import opened SttSession
  import opened SttPhases

  // ----- What a trace acks and sends -----

  function AckedMsgs(trace: seq<Act>): seq<Msg> {
    if trace == [] then [] else
      var a := trace[|trace| - 1];
      AckedMsgs(trace[..|trace| - 1]) + if a.Acked? then [a.msg] else []
  }

  function SentMsgs(trace: seq<Act>): seq<Msg> {
    if trace == [] then [] else
      var a := trace[|trace| - 1];
      SentMsgs(trace[..|trace| - 1]) + if a.Sent? then [a.msg] else []
  }

  /** From `s` to `t` exactly `acked` was acked and `sent` was sent. */
  ghost predicate Traffic(s: State, t: State, acked: seq<Msg>, sent: seq<Msg>) {
    AckedMsgs(t.trace) == AckedMsgs(s.trace) + acked && SentMsgs(t.trace) == SentMsgs(s.trace) + sent
  }

  lemma OneActTraffic(s: State, t: State, a: Act)
    requires t.trace == s.trace + [a]
    ensures Traffic(s, t, if a.Acked? then [a.msg] else [], if a.Sent? then [a.msg] else [])
  {
  }

  lemma TrafficAdds(s: State, t: State, u: State, a: seq<Msg>, x: seq<Msg>, b: seq<Msg>, y: seq<Msg>)
    requires Traffic(s, t, a, x) && Traffic(t, u, b, y)
    ensures Traffic(s, u, a + b, x + y)
  {
  }

  /** Closing, or going on, acks and sends nothing. */
  lemma ClosingTraffic(s: State, lane: Lane, queue: seq<Msg>)
    ensures Traffic(s, Close(s), [], []) && Traffic(s, Proceed(s, lane, queue), [], []) && Traffic(s, EosSeen(s, lane), [], [])
  {
    OneActTraffic(s, Close(s), Finished);
  }

  lemma ThenClosing(s: State, t: State, u: State, acked: seq<Msg>, sent: seq<Msg>)
    requires Traffic(s, t, acked, sent) && Traffic(t, u, [], [])
    ensures Traffic(s, u, acked, sent)
  {
    TrafficAdds(s, t, u, acked, sent, [], []);
    assert acked + [] == acked && sent + [] == sent;
  }

  lemma SkippedTraffic(s: State, lane: Lane, m: Msg, rest: seq<Msg>)
    ensures Traffic(s, Proceed(Log(s, [Acked(lane, m)]), lane, rest), [m], [])
    ensures Traffic(s, EosSeen(Log(s, [Acked(lane, m)]), lane), [m], [])
  {
    var t := Log(s, [Acked(lane, m)]);
    OneActTraffic(s, t, Acked(lane, m));
    ClosingTraffic(t, lane, rest);
    ThenClosing(s, t, Proceed(t, lane, rest), [m], []);
    ThenClosing(s, t, EosSeen(t, lane), [m], []);
  }

  lemma AcceptedTraffic(s: State, lane: Lane, m: Msg, rest: seq<Msg>)
    ensures Traffic(s, Proceed(Log(s, [Sent(lane, m), Acked(lane, m)]), lane, rest), [m], [m])
  {
    var t, u := Log(s, [Sent(lane, m)]), Log(s, [Sent(lane, m), Acked(lane, m)]);
    OneActTraffic(s, t, Sent(lane, m));
    assert u.trace == t.trace + [Acked(lane, m)];
    OneActTraffic(t, u, Acked(lane, m));
    TrafficAdds(s, t, u, [], [m], [m], []);
    assert [] + [m] == [m] && [m] + [] == [m];
    ClosingTraffic(u, lane, rest);
    ThenClosing(s, u, Proceed(u, lane, rest), [m], [m]);
  }

  lemma FailedTraffic(s: State, lane: Lane, m: Msg, reached: bool)
    ensures Traffic(s, Close(Log(s, if reached then [Sent(lane, m)] else []).(dgClosed := true)), [], if reached then [m] else [])
  {
    var t := Log(s, if reached then [Sent(lane, m)] else []).(dgClosed := true);
    if reached {
      OneActTraffic(s, t, Sent(lane, m));
    } else {
      assert s.trace + [] == s.trace;
    }
    ClosingTraffic(t, lane, []);
    ThenClosing(s, t, Close(t), [], if reached then [m] else []);
  }

  lemma HandledTraffic(s: State, outcome: SendOutcome)
    requires s.phase.Sending? && s.phase.queue != []
    ensures var m, fate := s.phase.queue[0], FateOf(s.sid, s.phase.queue[0], outcome);
            Traffic(s, Handled(s, outcome),
                    if fate.Skipped? || fate.EndOfAudio? || fate.Accepted? then [m] else [],
                    if fate.Accepted? || fate.Unacked? || fate == Failed(true) then [m] else [])
  {
    var lane, m, rest := s.phase.lane, s.phase.queue[0], s.phase.queue[1..];
    match FateOf(s.sid, m, outcome)
    case Skipped => SkippedTraffic(s, lane, m, rest);
    case EndOfAudio => SkippedTraffic(s, lane, m, rest);
    case Accepted => AcceptedTraffic(s, lane, m, rest);
    case Failed(reached) => FailedTraffic(s, lane, m, reached);
    case Unacked => FailedTraffic(s, lane, m, true);
  }

  // ----- One audio phase -----

  predicate InPhase(s: State, lane: Lane) {
    (s.phase.Sending? && s.phase.lane == lane && s.phase.queue != []) || s.phase == Fetching(lane)
  }

  function QueueOf(s: State): seq<Msg> {
    if s.phase.Sending? then s.phase.queue else []
  }

  function RunOn(s: State, es: seq<Event>): State {
    if es == [] then s else Step(RunOn(s, es[..|es| - 1]), es[|es| - 1])
  }

  /** The phase lasts up to the last of the events, at least. */
  predicate Lasts(s: State, es: seq<Event>, lane: Lane) {
    es != [] ==> Lasts(s, es[..|es| - 1], lane) && InPhase(RunOn(s, es[..|es| - 1]), lane)
  }

  /** What the phase is given: the messages it starts with and those it fetches. */
  function Given(s: State, es: seq<Event>, lane: Lane): seq<Msg> {
    if es == [] then QueueOf(s) else
      var front, e := es[..|es| - 1], es[|es| - 1];
      Given(s, front, lane) + GivenBy(RunOn(s, front), e, lane)
  }

  /** While the phase lasts, all but the queue is dealt with. */
  ghost predicate Ongoing(s: State, t: State, all: seq<Msg>) {
    && |QueueOf(t)| <= |all| && t.sid == s.sid
    && var n := |all| - |QueueOf(t)|;
       QueueOf(t) == all[n..] && SoFar(s.sid, all, all[..n], all[n..], Audio(s.sid, all[..n])) && Traffic(s, t, all[..n], Audio(s.sid, all[..n]))
  }

  /** When it is over: what `PhaseResult` says, and how the loop goes on. */
  ghost predicate Over(s: State, t: State, all: seq<Msg>, n: nat, sent: seq<Msg>, eos: bool) {
    && PhaseResult(s.sid, all, n, sent, eos) && Traffic(s, t, all[..n], sent)
    && (eos || t.dgClosed || t.stopping)
    && (t.phase.Flushing? ==> eos)
  }

  lemma MoreGiven(s: State, t: State, all: seq<Msg>, msgs: seq<Msg>)
    requires Ongoing(s, t, all) && QueueOf(t) == []
    ensures var more := all + msgs;
            && more[..|all|] == all && more[|all|..] == msgs && all[..|all|] == all
            && SoFar(s.sid, more, more[..|all|], msgs, Audio(s.sid, all)) && Traffic(s, t, all, Audio(s.sid, all))
  {
    assert all[..|all|] == all && all[|all|..] == [];
    var more := all + msgs;
    assert more[..|all|] == all && more[|all|..] == msgs;
  }

  lemma FetchedStep(s: State, t: State, all: seq<Msg>, lane: Lane, msgs: seq<Msg>)
    requires Ongoing(s, t, all) && t.phase == Fetching(lane)
    ensures var u, more := FetchEnded(t, msgs), all + msgs;
            if InPhase(u, lane) then Ongoing(s, u, more) else Over(s, u, more, |all|, Audio(s.sid, all), false)
  {
    var more := all + msgs;
    MoreGiven(s, t, all, msgs);
    ClosingTraffic(t, lane, msgs);
    TrafficAdds(s, t, FetchEnded(t, msgs), all, Audio(s.sid, all), [], []);
    assert all + [] == all && Audio(s.sid, all) + [] == Audio(s.sid, all);
    PhaseResultOf(s.sid, more, more[..|all|], msgs, Audio(s.sid, all));
  }

  lemma AllDealtWith(s: State, t: State, all: seq<Msg>)
    requires Ongoing(s, t, all) && QueueOf(t) == []
    ensures all[..|all|] == all && Traffic(s, t, all, Audio(s.sid, all))
    ensures PhaseResult(s.sid, all, |all|, Audio(s.sid, all), false)
  {
    assert all[..|all|] == all;
  }

  lemma FailedStep(s: State, t: State, all: seq<Msg>, lane: Lane)
    requires Ongoing(s, t, all) && t.phase == Fetching(lane)
    ensures var u := FetchFailed(t);
            if InPhase(u, lane) then Ongoing(s, u, all) else Over(s, u, all, |all|, Audio(s.sid, all), false)
  {
    if t.dgClosed || t.stopping {
      AllDealtWith(s, t, all);
      ClosingTraffic(t, lane, []);
      ThenClosing(s, t, Close(t), all, Audio(s.sid, all));
    } else {
      assert FetchFailed(t) == t;
    }
  }

  lemma HeadOfRest(all: seq<Msg>, n: nat)
    requires n < |all|
    ensures all[n..][0] == all[n] && all[n..][1..] == all[n + 1..] && all[..n] + [all[n]] == all[..n + 1]
  {
  }

  lemma HandledStep(s: State, t: State, all: seq<Msg>, lane: Lane, outcome: SendOutcome) returns (n: nat, sent: seq<Msg>, eos: bool)
    requires Ongoing(s, t, all) && InPhase(t, lane) && t.phase.Sending?
    ensures var u := Handled(t, outcome);
            if InPhase(u, lane) then Ongoing(s, u, all) else Over(s, u, all, n, sent, eos)
  {
    var i := |all| - |QueueOf(t)|;
    var out, fate := Audio(s.sid, all[..i]), FateOf(s.sid, all[i], outcome);
    HeadOfRest(all, i);
    HandledTraffic(t, outcome);
    AfterDispatch(s.sid, all, i, out, fate, outcome);
    if fate.Skipped? || fate.Accepted? {
      n, sent, eos := i + 1, if fate.Accepted? then out + [all[i]] else out, false;
      GoneOn(s, t, all, i, outcome, sent);
    } else {
      n, sent, eos := if fate.EndOfAudio? then i + 1 else i,
                      if fate.Unacked? || fate == Failed(true) then out + [all[i]] else out, fate.EndOfAudio?;
      Ended(s, t, all, i, outcome, n, sent);
    }
  }

  /** The message was skipped or accepted: the phase goes on, or closes after it. */
  lemma GoneOn(s: State, t: State, all: seq<Msg>, i: nat, outcome: SendOutcome, sent: seq<Msg>)
    requires t.phase.Sending? && i < |all| && t.phase.queue == all[i..] && t.sid == s.sid
    requires Traffic(s, t, all[..i], Audio(s.sid, all[..i]))
    requires var fate, u := FateOf(s.sid, all[i], outcome), Handled(t, outcome);
             && (fate.Skipped? || fate.Accepted?)
             && Traffic(t, u, [all[i]], if fate.Accepted? then [all[i]] else [])
             && sent == (if fate.Accepted? then Audio(s.sid, all[..i]) + [all[i]] else Audio(s.sid, all[..i]))
    requires SoFar(s.sid, all, all[..i + 1], all[i + 1..], sent)
    ensures var u := Handled(t, outcome);
            if InPhase(u, t.phase.lane) then Ongoing(s, u, all) else Over(s, u, all, i + 1, sent, false)
  {
    var u, fate := Handled(t, outcome), FateOf(s.sid, all[i], outcome);
    HeadOfRest(all, i);
    TrafficAdds(s, t, u, all[..i], Audio(s.sid, all[..i]), [all[i]], if fate.Accepted? then [all[i]] else []);
    assert Audio(s.sid, all[..i]) + [] == Audio(s.sid, all[..i]);
    PhaseResultOf(s.sid, all, all[..i + 1], all[i + 1..], sent);
  }

  /** Where handling one message leads. */
  lemma HandledPhase(t: State, outcome: SendOutcome)
    requires t.phase.Sending? && t.phase.queue != []
    ensures var u, fate, rest := Handled(t, outcome), FateOf(t.sid, t.phase.queue[0], outcome), t.phase.queue[1..];
            && u.sid == t.sid
            && (fate.Skipped? || fate.Accepted? ==>
                  if rest != [] then u.phase == Sending(t.phase.lane, rest)
                  else u.phase == Fetching(t.phase.lane) || (u.phase.Closing? && (u.dgClosed || u.stopping)))
            && (fate.EndOfAudio? ==> u.phase.Flushing? || u.phase.Closing?)
            && (fate.Failed? || fate.Unacked? ==> u.phase.Closing? && u.dgClosed)
  {
  }

  /** The message was the end marker or failed: the phase is over. */
  lemma Ended(s: State, t: State, all: seq<Msg>, i: nat, outcome: SendOutcome, n: nat, sent: seq<Msg>)
    requires t.phase.Sending? && i < |all| && t.phase.queue == all[i..] && t.sid == s.sid
    requires Traffic(s, t, all[..i], Audio(s.sid, all[..i]))
    requires var fate, u := FateOf(s.sid, all[i], outcome), Handled(t, outcome);
             && !fate.Skipped? && !fate.Accepted?
             && n == (if fate.EndOfAudio? then i + 1 else i)
             && Traffic(t, u, if fate.EndOfAudio? then [all[i]] else [], if fate.Unacked? || fate == Failed(true) then [all[i]] else [])
             && sent == (if fate.Unacked? || fate == Failed(true) then Audio(s.sid, all[..i]) + [all[i]] else Audio(s.sid, all[..i]))
             && PhaseResult(s.sid, all, n, sent, fate.EndOfAudio?)
    ensures var u := Handled(t, outcome);
            !InPhase(u, t.phase.lane) && Over(s, u, all, n, sent, FateOf(s.sid, all[i], outcome).EndOfAudio?)
  {
    var u, fate := Handled(t, outcome), FateOf(s.sid, all[i], outcome);
    HeadOfRest(all, i);
    HandledPhase(t, outcome);
    TrafficAdds(s, t, u, all[..i], Audio(s.sid, all[..i]), if fate.EndOfAudio? then [all[i]] else [],
                if fate.Unacked? || fate == Failed(true) then [all[i]] else []);
    assert all[..i] + [] == all[..i] && Audio(s.sid, all[..i]) + [] == Audio(s.sid, all[..i]);
  }

  lemma OtherStep(s: State, t: State, all: seq<Msg>, lane: Lane, e: Event)
    requires Ongoing(s, t, all) && InPhase(t, lane)
    requires !e.SendEnds? && !e.Fetched? && !e.FetchFails?
    ensures Ongoing(s, Step(t, e), all) && InPhase(Step(t, e), lane)
  {
    var u := Step(t, e);
    assert u.phase == t.phase && u.sid == t.sid;
    if u.trace != t.trace {
      OneActTraffic(t, u, Emit(t.tag, e.spoken));
    } else {
    }
    var n := |all| - |QueueOf(t)|;
    TrafficAdds(s, t, u, all[..n], Audio(s.sid, all[..n]), [], []);
    assert all[..n] + [] == all[..n] && Audio(s.sid, all[..n]) + [] == Audio(s.sid, all[..n]);
  }

  /** What an event in state `t` of the phase gives it. */
  function GivenBy(t: State, e: Event, lane: Lane): seq<Msg> {
    if e.Fetched? && t.phase == Fetching(lane) then e.msgs else []
  }

  lemma PhaseStep(s: State, t: State, all: seq<Msg>, lane: Lane, e: Event) returns (n: nat, sent: seq<Msg>, eos: bool)
    requires Ongoing(s, t, all) && InPhase(t, lane)
    ensures var u, more := Step(t, e), all + GivenBy(t, e, lane);
            if InPhase(u, lane) then Ongoing(s, u, more) else Over(s, u, more, n, sent, eos)
  {
    assert all + [] == all;
    n, sent, eos := |all|, Audio(s.sid, all), false;
    if e.Fetched? {
      if t.phase.Fetching? { FetchedStep(s, t, all, lane, e.msgs); }
    } else if e.FetchFails? {
      if t.phase.Fetching? { FailedStep(s, t, all, lane); }
    } else if e.SendEnds? {
      if t.phase.Sending? { n, sent, eos := HandledStep(s, t, all, lane, e.outcome); }
    } else {
      OtherStep(s, t, all, lane, e);
    }
  }

  /**
   In every run, from the first state of any audio phase up to its end, under any
   send and fetch outcomes, transcripts, disconnects and stops in between: what
   was acked is a prefix of the messages given to the phase, what was sent is the
   session's audio in that prefix plus at most the message after it, and the
   phase ends at the session's own end marker, or because the connection closed or the service stops.
   */
  lemma {:induction false} PhaseOverRuns(s: State, es: seq<Event>, lane: Lane) returns (n: nat, sent: seq<Msg>, eos: bool)
    requires InPhase(s, lane) && Lasts(s, es, lane)
    ensures var t, all := RunOn(s, es), Given(s, es, lane);
            if InPhase(t, lane) then Ongoing(s, t, all) else Over(s, t, all, n, sent, eos)
    decreases |es|
  {
    n, sent, eos := 0, [], false;
    if es == [] {
    } else {
      var front, e := es[..|es| - 1], es[|es| - 1];
      n, sent, eos := PhaseOverRuns(s, front, lane);
      n, sent, eos := PhaseStep(s, RunOn(s, front), Given(s, front, lane), lane, e);
    }
  }
}
