/**
 From captured chunks to recogniser connections: the producer and the consumer
 run side by side, each step of either at any time, and the consumer fetches
 from the producer's subjects while they grow.
 */
module EndToEnd {
  import opened Common
  import opened Messaging
  import opened ProducerSteps
  import opened ProducerPartition
  import opened ProducerStreams
  import opened ProducerStops
  import opened ProducerRecovery
  import opened PrerollFlush
  import Consumer
  import Losses
  import Pipeline
  import SttSession

  /** Session `i`'s audio: the piece of pre-roll its flush copied, the chunks captured while it was active, and how many markers it has beyond the first. */
  function RecordingAt(p: Producer, i: nat): Consumer.Recording
    requires i < |p.core.past| && i < |p.flushes.tasks|
    requires p.core.past[i].lo <= p.core.past[i].hi <= |p.core.captured|
    requires p.flushes.tasks[i].lo <= p.flushes.tasks[i].next <= |p.core.preroll|
  {
    var s, t := p.core.past[i], p.flushes.tasks[i];
    Consumer.Recording(s.sid, p.core.preroll[t.lo..t.next], p.core.captured[s.lo..s.hi], if s.eos == [] then 0 else |s.eos| - 1)
  }

  ghost predicate WellFormed(p: Producer) {
    && |p.core.past| == |p.flushes.tasks|
    && Within(p.flushes.tasks, |p.core.preroll|)
    && (forall i :: 0 <= i < |p.core.past| ==> p.core.past[i].lo <= p.core.past[i].hi <= |p.core.captured|)
    && (forall i :: 0 <= i < |p.core.past| ==> p.core.past[i].sid == p.flushes.tasks[i].sid && IsToken(p.core.past[i].sid))
  }

  ghost function Recordings(p: Producer): seq<Consumer.Recording>
    requires WellFormed(p)
  {
    seq(|p.core.past|, i requires 0 <= i < |p.core.past| => RecordingAt(p, i))
  }

  lemma {:induction false} ProperBounds(spans: seq<Span>, n: nat)
    requires ProperAll(spans, n)
    ensures forall i :: 0 <= i < |spans| ==> Proper(spans[i], n)
    decreases |spans|
  {
    if spans != [] {
      var k := |spans| - 1;
      ProperBounds(spans[..k], spans[k].lo);
      assert forall i :: 0 <= i < k ==> spans[i] == spans[..k][i];
    }
  }

  lemma {:induction false} BackfillIsStream(p: Producer, rs: seq<Consumer.Recording>, n: nat)
    requires WellFormed(p) && rs == Recordings(p) && n <= |rs|
    requires forall t :: t in p.flushes.tasks ==> t.progress == Ended(true)
    ensures BackfillLog(p.core.preroll, p.flushes.tasks, n) + Consumer.BackfillStream(rs, n) == Consumer.BackfillStream(rs, 0)
  {
    if n > 0 {
      var pre, t := p.core.preroll, p.flushes.tasks[n - 1];
      BackfillIsStream(p, rs, n - 1);
      Associative(BackfillLog(pre, p.flushes.tasks, n - 1), TaskLog(pre, t), Consumer.BackfillStream(rs, n));
    }
  }

  lemma BackfillPiece(pre: seq<Chunk>, t: Task, later: seq<Msg>)
    requires t.lo <= t.next <= |pre| && t.progress == Ended(true)
    ensures TaskLog(pre, t) + later == Consumer.Rest(SUBJECT_PREFIX_AUDIO_BACKFILL, t.sid, pre[t.lo..t.next], 0, later)
  {
    var chunks := pre[t.lo..t.next];
    assert chunks[0..] == chunks;
    assert BackfillMsgs(t.sid, chunks) == Consumer.AudioMsgs(SUBJECT_PREFIX_AUDIO_BACKFILL, t.sid, chunks);
  }

  /** A finished session that ends in its marker, perhaps repeated, with nothing after the first. */
  ghost predicate EndsMarked(span: Span) {
    span.eos != [] && forall i :: 0 <= i < |span.eos| ==> span.eos[i] == span.hi
  }

  lemma {:induction false} MarkedLog(cap: seq<Chunk>, s: Span)
    requires Proper(s, |cap|) && forall i :: 0 <= i < |s.eos| ==> s.eos[i] == s.hi
    ensures SpanLog(cap, s) == LiveMsgs(s.sid, cap[s.lo..s.hi]) + Consumer.Marks(s.sid, |s.eos|)
    decreases |s.eos|
  {
    if s.eos == [] {
      assert LiveMsgs(s.sid, cap[s.lo..s.hi]) + [] == LiveMsgs(s.sid, cap[s.lo..s.hi]);
    } else {
      var k := |s.eos| - 1;
      MarkedLog(cap, s.(hi := s.eos[k], eos := s.eos[..k]));
      assert LiveMsgs(s.sid, cap[s.hi..s.hi]) == [];
      Associative(LiveMsgs(s.sid, cap[s.lo..s.hi]), Consumer.Marks(s.sid, k), [EosMsg(SUBJECT_PREFIX_AUDIO_LIVE, s.sid)]);
    }
  }

  /** Any number of markers but none is one marker and the others. */
  lemma MarkFirst(audio: seq<Msg>, sid: string, n: nat, later: seq<Msg>)
    requires n > 0
    ensures (audio + Consumer.Marks(sid, n)) + later
            == audio + [EosMsg(SUBJECT_PREFIX_AUDIO_LIVE, sid)] + (Consumer.Marks(sid, n - 1) + later)
  {
  }

  lemma LivePiece(cap: seq<Chunk>, s: Span, chunks: seq<Chunk>, later: seq<Msg>)
    requires Proper(s, |cap|) && EndsMarked(s) && chunks == cap[s.lo..s.hi]
    ensures SpanLog(cap, s) + later
            == Consumer.Rest(SUBJECT_PREFIX_AUDIO_LIVE, s.sid, chunks, 0, Consumer.Marks(s.sid, |s.eos| - 1) + later)
  {
    MarkedLog(cap, s);
    assert chunks[0..] == chunks;
    assert LiveMsgs(s.sid, chunks) == Consumer.AudioMsgs(SUBJECT_PREFIX_AUDIO_LIVE, s.sid, chunks);
    MarkFirst(LiveMsgs(s.sid, chunks), s.sid, |s.eos|, later);
  }

  lemma LiveNext(p: Producer, rs: seq<Consumer.Recording>, cap: seq<Chunk>, k: nat)
    requires WellFormed(p) && rs == Recordings(p) && k < |rs| && EndsMarked(p.core.past[k])
    requires |cap| <= |p.core.captured| && cap == p.core.captured[..|cap|] && Proper(p.core.past[k], |cap|)
    ensures SpanLog(cap, p.core.past[k]) + Consumer.LiveStream(rs, k + 1) == Consumer.LiveStream(rs, k)
  {
    var last := p.core.past[k];
    assert rs[k] == RecordingAt(p, k);
    LivePiece(cap, last, rs[k].live, Consumer.LiveStream(rs, k + 1));
  }

  lemma {:induction false} LiveIsStream(p: Producer, rs: seq<Consumer.Recording>, cap: seq<Chunk>, n: nat)
    requires WellFormed(p) && rs == Recordings(p) && n <= |rs|
    requires |cap| <= |p.core.captured| && cap == p.core.captured[..|cap|]
    requires ProperAll(p.core.past[..n], |cap|)
    requires forall s :: s in p.core.past ==> EndsMarked(s)
    ensures LiveLog(cap, p.core.past[..n]) + Consumer.LiveStream(rs, n) == Consumer.LiveStream(rs, 0)
    decreases n
  {
    if n > 0 {
      var front, last := p.core.past[..n - 1], p.core.past[n - 1];
      assert p.core.past[..n][..n - 1] == front;
      LiveIsStream(p, rs, cap[..last.lo], n - 1);
      LiveNext(p, rs, cap, n - 1);
      Associative(LiveLog(cap[..last.lo], front), SpanLog(cap, last), Consumer.LiveStream(rs, n));
    }
  }

  /** Sessions that end in markers; one that repeats its marker must not be taken for the next. */
  ghost predicate AllMarked(past: seq<Span>) {
    && (forall s :: s in past ==> EndsMarked(s))
    && (forall i :: 0 <= i < |past| - 1 && |past[i].eos| > 1 ==> past[i].sid != past[i + 1].sid)
  }

  lemma CleanIsMarked(past: seq<Span>)
    requires AllClean(past)
    ensures AllMarked(past)
  {
    forall i | 0 <= i < |past| ensures |past[i].eos| == 1 {
      assert Clean(past[i]);
    }
  }

  /**
   A producer run that has come to rest well: no session in progress, every
   session ended in its marker, and every flush ended with its marker and in session order.
   */
  ghost predicate Complete(p: Producer) {
    p.core.current.None? && AllMarked(p.core.past) && !p.flushes.mixed && forall t :: t in p.flushes.tasks ==> t.progress == Ended(true)
  }

  lemma CompleteIsWellFormed(es: seq<Event>)
    requires Complete(ProducerRun(es))
    ensures WellFormed(ProducerRun(es))
  {
    var p := ProducerRun(es);
    BackfillOverRuns(es);
    ProperBounds(p.core.past, |p.core.captured|);
  }

  lemma CompleteBackfill(p: Producer)
    requires WellFormed(p) && Complete(p) && Sequential(p.flushes, p.core.preroll)
    ensures p.flushes.backfill == Consumer.BackfillStream(Recordings(p), 0)
  {
    BackfillIsStream(p, Recordings(p), |p.core.past|);
  }

  lemma CompleteLive(p: Producer)
    requires WellFormed(p) && Complete(p) && Partitioned(p.core)
    ensures p.core.live == Consumer.LiveStream(Recordings(p), 0)
  {
    var cap, past := p.core.captured, p.core.past;
    assert past[..|past|] == past && cap[..|cap|] == cap;
    LiveIsStream(p, Recordings(p), cap, |past|);
  }

  /** After any such run, however its tasks interleaved, both subjects hold the sessions' audio one after the other. */
  lemma {:induction false} ProducerStreamsAre(es: seq<Event>)
    requires Complete(ProducerRun(es))
    ensures var p := ProducerRun(es);
            && WellFormed(p) && Consumer.Tokens(Recordings(p))
            && p.flushes.backfill == Consumer.BackfillStream(Recordings(p), 0)
            && p.core.live == Consumer.LiveStream(Recordings(p), 0)
  {
    BackfillOverRuns(es);
    CompleteIsWellFormed(es);
    CompleteBackfill(ProducerRun(es));
    CompleteLive(ProducerRun(es));
  }

  // ----- Producer and consumer side by side -----

  datatype Move = Produce(e: Event) | Consume(t: Consumer.Turn)

  /** The feed holds what the consumer has not yet fetched of what has been published so far. */
  datatype World = World(p: Producer, f: Consumer.Feed)

  const START := World(INIT_PRODUCER, Consumer.Feed(SttSession.INIT, [], []))

  function Extended(f: Consumer.Feed, backfill: seq<Msg>, live: seq<Msg>): Consumer.Feed {
    f.(backfill := f.backfill + backfill, live := f.live + live)
  }

  function New(before: seq<Msg>, after: seq<Msg>): seq<Msg> {
    if |before| <= |after| then after[|before|..] else []
  }

  /** The feed once the producer has gone on from `p` to `q`. */
  function Supplied(f: Consumer.Feed, p: Producer, q: Producer): Consumer.Feed {
    Extended(f, New(p.flushes.backfill, q.flushes.backfill), New(p.core.live, q.core.live))
  }

  function WorldStep(w: World, m: Move): World {
    match m
    case Produce(e) => World(ProducerStep(w.p, e), Supplied(w.f, w.p, ProducerStep(w.p, e)))
    case Consume(t) => w.(f := Consumer.FeedStep(w.f, t))
  }

  function WorldRun(ms: seq<Move>): World {
    if ms == [] then START else WorldStep(WorldRun(ms[..|ms| - 1]), ms[|ms| - 1])
  }

  /** The consumer has no failures; the producer may have any. */
  predicate FineMoves(ms: seq<Move>) {
    ms != [] ==>
      FineMoves(ms[..|ms| - 1]) && (ms[|ms| - 1].Consume? ==> Consumer.Fine(WorldRun(ms[..|ms| - 1]).f.stt, ms[|ms| - 1].t))
  }

  function Produced(ms: seq<Move>): seq<Event> {
    if ms == [] then [] else
      var m := ms[|ms| - 1];
      Produced(ms[..|ms| - 1]) + if m.Produce? then [m.e] else []
  }

  lemma {:induction false} ProducerOfWorld(ms: seq<Move>)
    ensures WorldRun(ms).p == ProducerRun(Produced(ms))
    decreases |ms|
  {
    if ms != [] {
      var front, m := ms[..|ms| - 1], ms[|ms| - 1];
      ProducerOfWorld(front);
      if m.Produce? {
        ProducerRunAppend(INIT_PRODUCER, Produced(front), m.e);
      } else {
        assert Produced(front) + [] == Produced(front);
      }
    }
  }

  /** `q`'s subjects continue `p`'s. */
  ghost predicate Continues(p: Producer, q: Producer) {
    p.flushes.backfill <= q.flushes.backfill && p.core.live <= q.core.live
  }

  lemma SubjectsOnlyGrow(p: Producer, e: Event)
    ensures Continues(p, ProducerStep(p, e))
  {
  }

  lemma {:induction false} RunsOnlyGrow(p: Producer, es: seq<Event>)
    ensures Continues(p, ProducerRunFrom(p, es))
    decreases |es|
  {
    if es != [] {
      RunsOnlyGrow(p, es[..|es| - 1]);
      SubjectsOnlyGrow(ProducerRunFrom(p, es[..|es| - 1]), es[|es| - 1]);
    }
  }

  /** A take finds nothing to fetch yet. */
  predicate Starved(f: Consumer.Feed) {
    || (f.backfill == [] && (f.stt.phase.WaitBackfill? || f.stt.phase == SttSession.Fetching(SttSession.Backfill)))
    || (f.live == [] && (f.stt.phase.WaitLive? || f.stt.phase == SttSession.Fetching(SttSession.Live)))
  }

  /** What will be published later does not matter to a step that has enough. */
  lemma StepsOnMore(f: Consumer.Feed, backfill: seq<Msg>, live: seq<Msg>, t: Consumer.Turn)
    requires t.Take? ==> !Starved(f)
    ensures Consumer.FeedStep(Extended(f, backfill, live), t) == Extended(Consumer.FeedStep(f, t), backfill, live)
  {
    if f.backfill != [] {
      assert (f.backfill + backfill)[..1] == f.backfill[..1] && (f.backfill + backfill)[1..] == f.backfill[1..] + backfill;
    }
    if f.live != [] {
      assert (f.live + live)[..1] == f.live[..1] && (f.live + live)[1..] == f.live[1..] + live;
    }
  }

  lemma SupplyInSteps(f: Consumer.Feed, p: Producer, q: Producer, r: Producer)
    requires Continues(p, q) && Continues(q, r)
    ensures Supplied(Supplied(f, p, q), q, r) == Supplied(f, p, r) && Continues(p, r)
  {
  }

  /**
   A consumer that fetches while the producer is still publishing, whatever
   fails, goes through a run of a consumer that has both subjects, as the
   producer will leave them, before it from the start.
   */
  lemma {:induction false} Simulated(ms: seq<Move>, done: Producer) returns (es: seq<Consumer.Turn>)
    requires Continues(WorldRun(ms).p, done)
    ensures var w := WorldRun(ms);
            Consumer.FeedRun(done.flushes.backfill, done.core.live, es) == Supplied(w.f, w.p, done)
    ensures FineMoves(ms) ==> Consumer.FineRun(done.flushes.backfill, done.core.live, es)
    decreases |ms|
  {
    var backfill, live := done.flushes.backfill, done.core.live;
    if ms == [] {
      es := [];
    } else {
      var front, m := ms[..|ms| - 1], ms[|ms| - 1];
      var w := WorldRun(front);
      match m
      case Produce(e) =>
        SubjectsOnlyGrow(w.p, e);
        SupplyInSteps(w.f, w.p, ProducerStep(w.p, e), done);
        es := Simulated(front, done);
      case Consume(t) =>
        es := Simulated(front, done);
        if t.Take? && Starved(w.f) {
        } else {
          StepsOnMore(w.f, New(w.p.flushes.backfill, backfill), New(w.p.core.live, live), t);
          Consumer.FeedRunAppend(backfill, live, es, t);
          es := es + [t];
        }
    }
  }

  /** What the producer makes of `ms` and then of `rest`. */
  function After(ms: seq<Move>, rest: seq<Event>): Producer {
    ProducerRunFrom(WorldRun(ms).p, rest)
  }

  lemma CompletedStreams(ms: seq<Move>, rest: seq<Event>)
    requires Complete(After(ms, rest))
    ensures var done := After(ms, rest);
            && Continues(WorldRun(ms).p, done) && WellFormed(done) && Consumer.Tokens(Recordings(done))
            && done.flushes.backfill == Consumer.BackfillStream(Recordings(done), 0)
            && done.core.live == Consumer.LiveStream(Recordings(done), 0)
  {
    ProducerOfWorld(ms);
    ProducerRunConcat(INIT_PRODUCER, Produced(ms), rest);
    ProducerStreamsAre(Produced(ms) + rest);
    RunsOnlyGrow(WorldRun(ms).p, rest);
  }

  /** With all that `done` will have published still to come, the consumer hears `done`'s sessions. */
  ghost predicate Transcribed(w: World, done: Producer, k: nat) {
    WellFormed(done) && Pipeline.Hears(Supplied(w.f, w.p, done), Recordings(done), k)
  }

  /**
   Producer and consumer run side by side, without failures of the consumer, and
   stand anywhere.  However the producer goes on, if it comes to rest well, then by
   now the i-th connection has received exactly session i's pre-roll and then
   its live chunks, in order and each once, the latest one perhaps only part of
   it; what is at hand is stale only if it is a repeated marker; and once all is
   published and the consumer has used up the backfill and waits, it has heard
   every session completely.
   */
  lemma {:induction false} EverySessionIsTranscribed(ms: seq<Move>, rest: seq<Event>) returns (k: nat)
    requires FineMoves(ms) && Complete(After(ms, rest))
    ensures Transcribed(WorldRun(ms), After(ms, rest), k)
  {
    CompletedStreams(ms, rest);
    var es := Simulated(ms, After(ms, rest));
    k := Pipeline.ConsumerHearsEverySession(Recordings(After(ms, rest)), es);
  }

  function Produces(es: seq<Event>): seq<Move> {
    seq(|es|, i requires 0 <= i < |es| => Produce(es[i]))
  }

  function Consumes(es: seq<Consumer.Turn>): seq<Move> {
    seq(|es|, i requires 0 <= i < |es| => Consume(es[i]))
  }

  lemma ProducesSplit(ms: seq<Move>, rest: seq<Event>)
    ensures rest == [] ==> ms + Produces(rest) == ms
    ensures rest != [] ==> ms + Produces(rest) == (ms + Produces(rest[..|rest| - 1])) + [Produce(rest[|rest| - 1])]
  {
  }

  lemma ConsumesSplit(ms: seq<Move>, more: seq<Consumer.Turn>)
    ensures more == [] ==> ms + Consumes(more) == ms
    ensures more != [] ==> ms + Consumes(more) == (ms + Consumes(more[..|more| - 1])) + [Consume(more[|more| - 1])]
  {
  }

  lemma LastSplit<T>(a: seq<T>, b: seq<T>)
    ensures b == [] ==> a + b == a
    ensures b != [] ==> a + b == (a + b[..|b| - 1]) + [b[|b| - 1]]
  {
  }

  lemma {:induction false} WorldProduces(ms: seq<Move>, rest: seq<Event>)
    ensures WorldRun(ms + Produces(rest)).p == After(ms, rest) && (FineMoves(ms) ==> FineMoves(ms + Produces(rest)))
    decreases |rest|
  {
    ProducesSplit(ms, rest);
    if rest != [] {
      var front, e := rest[..|rest| - 1], rest[|rest| - 1];
      WorldProduces(ms, front);
    }
  }

  lemma {:induction false} WorldConsumes(ms: seq<Move>, backfill: seq<Msg>, live: seq<Msg>, es: seq<Consumer.Turn>, more: seq<Consumer.Turn>)
    requires Consumer.FeedRun(backfill, live, es) == WorldRun(ms).f
    ensures WorldRun(ms + Consumes(more)).f == Consumer.FeedRun(backfill, live, es + more)
    ensures FineMoves(ms) && Consumer.FineRun(backfill, live, es + more) ==> FineMoves(ms + Consumes(more))
    decreases |more|
  {
    ConsumesSplit(ms, more);
    LastSplit(es, more);
    if more != [] {
      var front, t := more[..|more| - 1], more[|more| - 1];
      WorldConsumes(ms, backfill, live, es, front);
      Consumer.FeedRunAppend(backfill, live, es + front, t);
    }
  }

  /** All is used up, but for repeated markers of the last session, and every session has been heard. */
  ghost predicate AllHeard(f: Consumer.Feed, rs: seq<Consumer.Recording>) {
    && f.backfill == [] && Pipeline.Heard(f.stt.trace) == Pipeline.Whole(rs, |rs|)
    && (rs == [] ==> f.live == [])
    && (rs != [] ==> |f.live| <= rs[|rs| - 1].extra && f.live == Consumer.Marks(rs[|rs| - 1].sid, |f.live|))
  }

  /** And once the producer has so come to rest, the consumer can go on, without failures, to where it has heard every session completely. */
  lemma {:induction false} EverySessionCanBeHeard(ms: seq<Move>, rest: seq<Event>) returns (more: seq<Consumer.Turn>)
    requires FineMoves(ms) && Complete(After(ms, rest))
    ensures FineMoves(ms + Produces(rest) + Consumes(more))
    ensures WellFormed(After(ms, rest)) && AllHeard(WorldRun(ms + Produces(rest) + Consumes(more)).f, Recordings(After(ms, rest)))
  {
    var all, done := ms + Produces(rest), After(ms, rest);
    CompletedStreams(ms, rest);
    WorldProduces(ms, rest);
    var es := Simulated(all, done);
    more := Pipeline.NeverStuck(Recordings(done), es);
    WorldConsumes(all, done.flushes.backfill, done.core.live, es, more);
    var k := Pipeline.ConsumerHearsEverySession(Recordings(done), es + more);
  }

  /**
   Producer and consumer run side by side, whatever fails on either side, and
   stand anywhere.  However the producer goes on, if it comes to rest well and no
   two sessions share an id, then all that has been lost by now is known: with
   what is still to come each message of the two subjects is dealt with once, at
   hand or ahead, in order; no backfill has been skipped; and a live message has
   been skipped exactly when the connection of its session had been finished by
   then, after acking the session's backfill marker.
   */
  lemma {:induction false} EveryLossIsExplained(ms: seq<Move>, rest: seq<Event>) returns (es: seq<Consumer.Turn>)
    requires Complete(After(ms, rest))
    requires forall i, j :: 0 <= i < j < |After(ms, rest).core.past| ==> After(ms, rest).core.past[i].sid != After(ms, rest).core.past[j].sid
    ensures var w, done := WorldRun(ms), After(ms, rest);
            var backfill, live := done.flushes.backfill, done.core.live;
            && Consumer.FeedRun(backfill, live, es) == Supplied(w.f, w.p, done)
            && WellFormed(done)
            && Losses.Explained(Losses.Entries(backfill, live, es), Supplied(w.f, w.p, done), Losses.SubjectsOf(Recordings(done)))
  {
    CompletedStreams(ms, rest);
    es := Simulated(ms, After(ms, rest));
    Losses.LossesOverRuns(Recordings(After(ms, rest)), es);
  }

  // ----- Which runs can come to rest well -----

  /** Nothing has gone wrong for good: nothing overlapped, no flush has failed, and none has published ahead of an unfinished one. */
  ghost predicate InGoodOrder(p: Producer) {
    && Tidy(p.core) && Orderly(p.flushes)
  }

  ghost predicate Orderly(f: Flushes) {
    && !f.mixed
    && (forall i :: 0 <= i < |f.tasks| ==> f.tasks[i].progress != Ended(false))
    && (forall i, m :: 0 <= i < m < |f.tasks| && !f.tasks[i].progress.Ended? ==> !HasPublished(f.tasks[m]))
  }

  /** Ends what is under way and then the session; what does not apply changes nothing. */
  function Closing(): seq<Event> {
    [StopEnd(true)] + [Check(true, true)] + [AutoStopEnd(true)] + [StartActivate] + [StartReady(None, 0)] + [StopBegin(true)] + [StopEnd(true)]
  }

  ghost predicate Steady(p: Producer) {
    Partitioned(p.core) && StartsIdle(p.core) && WaitsInStart(p) && WaitingEmpty(p.flushes) && InGoodOrder(p)
  }

  lemma SteadyStep(p: Producer, e: Event)
    requires Steady(p) && MarkerPublished(e) && !Overlaps(p.core, e) && !IsFlushStep(e) && !e.Crash?
    ensures Steady(ProducerStep(p, e))
  {
    StepKeeps(p.core, e);
    TidyStep(p.core, e);
    assert WaitsInStart(ProducerStep(p, e));
    OrderlyStep(p, e);
  }

  lemma OrderlyStep(p: Producer, e: Event)
    requires Orderly(p.flushes) && WaitsInStart(p) && WaitingEmpty(p.flushes) && !IsFlushStep(e) && !e.Crash?
    ensures Orderly(FlushStep(p.flushes, p.core, e))
  {
  }

  lemma ClosingRun(p: Producer)
    ensures var p3 := ProducerStep(ProducerStep(ProducerStep(p, StopEnd(true)), Check(true, true)), AutoStopEnd(true));
            ProducerRunFrom(p, Closing())
            == ProducerStep(ProducerStep(ProducerStep(ProducerStep(p3, StartActivate), StartReady(None, 0)), StopBegin(true)), StopEnd(true))
  {
    assert [] + [StopEnd(true)] == [StopEnd(true)];
    ProducerRunAppend(p, [], StopEnd(true));
    ProducerRunAppend(p, [StopEnd(true)], Check(true, true));
    ProducerRunAppend(p, [StopEnd(true)] + [Check(true, true)], AutoStopEnd(true));
    ProducerRunAppend(p, [StopEnd(true)] + [Check(true, true)] + [AutoStopEnd(true)], StartActivate);
    ProducerRunAppend(p, [StopEnd(true)] + [Check(true, true)] + [AutoStopEnd(true)] + [StartActivate], StartReady(None, 0));
    ProducerRunAppend(p, [StopEnd(true)] + [Check(true, true)] + [AutoStopEnd(true)] + [StartActivate] + [StartReady(None, 0)], StopBegin(true));
    ProducerRunAppend(p, [StopEnd(true)] + [Check(true, true)] + [AutoStopEnd(true)] + [StartActivate] + [StartReady(None, 0)] + [StopBegin(true)], StopEnd(true));
  }

  lemma StopEnds(c: Core)
    ensures !Step(c, StopEnd(true)).ctrl.Stopping?
  {
  }

  lemma CheckEnds(c: Core)
    ensures var d := Step(c, Check(true, true)); !d.audio.Checking? && d.ctrl == c.ctrl
  {
  }

  lemma AutoStopEnds(c: Core)
    requires !c.audio.Checking?
    ensures var d := Step(c, AutoStopEnd(true)); d.audio.Listening? && d.ctrl == c.ctrl
  {
  }

  lemma AudioComesToRest(p: Producer)
    requires Steady(p)
    ensures var p3 := ProducerStep(ProducerStep(ProducerStep(p, StopEnd(true)), Check(true, true)), AutoStopEnd(true));
            Steady(p3) && p3.core.audio.Listening? && !p3.core.ctrl.Stopping?
  {
    var p1 := ProducerStep(p, StopEnd(true));
    var p2 := ProducerStep(p1, Check(true, true));
    SteadyStep(p, StopEnd(true));
    StopEnds(p.core);
    SteadyStep(p1, Check(true, true));
    CheckEnds(p1.core);
    SteadyStep(p2, AutoStopEnd(true));
    AutoStopEnds(p2.core);
  }

  lemma StartComesToRest(p: Producer)
    requires Steady(p) && p.core.audio.Listening? && !p.core.ctrl.Stopping?
    ensures var q := ProducerStep(ProducerStep(p, StartActivate), StartReady(None, 0)); Steady(q) && AtRest(q.core)
  {
    SteadyStep(p, StartActivate);
    SteadyStep(ProducerStep(p, StartActivate), StartReady(None, 0));
  }

  lemma SessionComesToRest(p: Producer)
    requires Steady(p) && AtRest(p.core)
    ensures var q := ProducerStep(ProducerStep(p, StopBegin(true)), StopEnd(true)); Steady(q) && AtRest(q.core) && q.core.current.None?
  {
    SteadyStep(p, StopBegin(true));
    SteadyStep(ProducerStep(p, StopBegin(true)), StopEnd(true));
  }

  lemma CoreComesToRest(p: Producer)
    requires Steady(p)
    ensures var q := ProducerRunFrom(p, Closing()); Steady(q) && AtRest(q.core) && q.core.current.None?
  {
    ClosingRun(p);
    AudioComesToRest(p);
    var p3 := ProducerStep(ProducerStep(ProducerStep(p, StopEnd(true)), Check(true, true)), AutoStopEnd(true));
    StartComesToRest(p3);
    SessionComesToRest(ProducerStep(ProducerStep(p3, StartActivate), StartReady(None, 0)));
  }

  /** The first `n` flushes end, one after the other. */
  function EndFlushes(n: nat): seq<Event> {
    if n == 0 then [] else EndFlushes(n - 1) + [FlushEnd(n - 1, true)]
  }

  /** No flush waits for its start, and the first `n` have ended with their markers. */
  ghost predicate Ending(f: Flushes, n: nat) {
    && Orderly(f) && n <= |f.tasks|
    && (forall i :: 0 <= i < |f.tasks| ==> !f.tasks[i].progress.Waiting?)
    && (forall i :: 0 <= i < n ==> f.tasks[i].progress == Ended(true))
  }

  function EndedFlushes(f: Flushes, n: nat): Flushes {
    if n == 0 then f else Finished(EndedFlushes(f, n - 1), n - 1, true)
  }

  lemma {:induction false} EndFlushesRun(p: Producer, n: nat)
    ensures ProducerRunFrom(p, EndFlushes(n)) == Producer(p.core, EndedFlushes(p.flushes, n))
  {
    if n > 0 {
      EndFlushesRun(p, n - 1);
      ProducerRunAppend(p, EndFlushes(n - 1), FlushEnd(n - 1, true));
    }
  }

  lemma {:induction false} FlushesComeToRest(f: Flushes, n: nat)
    requires Ending(f, 0) && n <= |f.tasks|
    ensures Ending(EndedFlushes(f, n), n) && |EndedFlushes(f, n).tasks| == |f.tasks|
  {
    if n > 0 {
      FlushesComeToRest(f, n - 1);
    }
  }

  /** Every run in good order, wherever it stands, can come to rest well. */
  lemma {:induction false} CanComeToRest(es: seq<Event>) returns (rest: seq<Event>)
    requires InGoodOrder(ProducerRun(es))
    ensures Complete(ProducerRunFrom(ProducerRun(es), rest))
  {
    var p := ProducerRun(es);
    BackfillOverRuns(es);
    WaitsOverRuns(es);
    CoreComesToRest(p);
    var q := ProducerRunFrom(p, Closing());
    FlushesComeToRest(q.flushes, |q.flushes.tasks|);
    EndFlushesRun(q, |q.flushes.tasks|);
    CleanIsMarked(q.core.past);
    rest := Closing() + EndFlushes(|q.flushes.tasks|);
    ProducerRunConcat(p, Closing(), EndFlushes(|q.flushes.tasks|));
  }

  /** With atomic handlers only the flushes can go wrong. */
  lemma {:induction false} AtomicRunsAreComplete(hs: seq<Handler>)
    requires forall h :: h in hs ==> EosPublished(h)
    requires var p := ProducerRun(Expand(hs));
             p.core.current.None? && !p.flushes.mixed && forall t :: t in p.flushes.tasks ==> t.progress == Ended(true)
    ensures Complete(ProducerRun(Expand(hs)))
  {
    AtomicRunsAreClean(hs);
    CoreOfRun(INIT_PRODUCER, Expand(hs));
    CleanIsMarked(ProducerRun(Expand(hs)).core.past);
  }

  // ----- Flushes that get mixed -----

  /** A chunk is captured, session `a` starts and stops, and session `b` starts while `a`'s flush is still at work. */
  function TwoSessions(a: string, b: string, chunk: Chunk): seq<Event> {
    [Capture(chunk, true)] + StartOf(a) + [StopBegin(true)] + [StopEnd(true)] + StartOf(b)
  }

  function StartOf(sid: string): seq<Event> {
    [StartBegin(sid, "", true)] + [StartActivate] + [StartReady(None, 0)]
  }

  function Started(p: Producer, sid: string): Producer {
    ProducerStep(ProducerStep(ProducerStep(p, StartBegin(sid, "", true)), StartActivate), StartReady(None, 0))
  }

  lemma StartRuns(p: Producer, sid: string)
    ensures ProducerRunFrom(p, StartOf(sid)) == Started(p, sid)
  {
    assert [] + [StartBegin(sid, "", true)] == [StartBegin(sid, "", true)];
    ProducerRunAppend(p, [], StartBegin(sid, "", true));
    ProducerRunAppend(p, [StartBegin(sid, "", true)], StartActivate);
    ProducerRunAppend(p, [StartBegin(sid, "", true)] + [StartActivate], StartReady(None, 0));
  }

  /** The producer stops its session. */
  function Stopped(p: Producer): Producer {
    ProducerStep(ProducerStep(p, StopBegin(true)), StopEnd(true))
  }

  lemma TwoSessionsSteps(a: string, b: string, chunk: Chunk)
    ensures ProducerRun(TwoSessions(a, b, chunk))
            == Started(Stopped(Started(ProducerStep(INIT_PRODUCER, Capture(chunk, true)), a)), b)
  {
    var e1 := [Capture(chunk, true)];
    assert [] + e1 == e1;
    ProducerRunAppend(INIT_PRODUCER, [], e1[0]);
    var p1 := ProducerStep(INIT_PRODUCER, Capture(chunk, true));
    ProducerRunConcat(INIT_PRODUCER, e1, StartOf(a));
    StartRuns(p1, a);
    ProducerRunAppend(INIT_PRODUCER, e1 + StartOf(a), StopBegin(true));
    ProducerRunAppend(INIT_PRODUCER, e1 + StartOf(a) + [StopBegin(true)], StopEnd(true));
    ProducerRunConcat(INIT_PRODUCER, e1 + StartOf(a) + [StopBegin(true)] + [StopEnd(true)], StartOf(b));
    StartRuns(Stopped(Started(p1, a)), b);
  }

  lemma FirstCapture(chunk: Chunk)
    ensures var p := ProducerStep(INIT_PRODUCER, Capture(chunk, true));
            p.core.ctrl.Free? && !p.core.session.isActive && p.core.preroll == [chunk] && p.flushes == INIT_PRODUCER.flushes
  {
  }

  lemma TwoSessionsRun(a: string, b: string, chunk: Chunk)
    requires IsToken(a) && IsToken(b)
    ensures var p := ProducerRun(TwoSessions(a, b, chunk));
            && p.core.preroll == [chunk]
            && p.flushes == Flushes([Task(a, 0, 0, Copying), Task(b, 0, 0, Copying)], [], false)
  {
    var p1 := ProducerStep(INIT_PRODUCER, Capture(chunk, true));
    TwoSessionsSteps(a, b, chunk);
    FirstCapture(chunk);
  }

  /** Both flushes copy the chunk in turn, then both end. */
  function MixedRun(a: string, b: string, chunk: Chunk): seq<Event> {
    TwoSessions(a, b, chunk) + [FlushNext(0, true)] + [FlushNext(1, true)] + [FlushEnd(0, true)] + [FlushEnd(1, true)]
  }

  /** What the two flushes put on the backfill subject. */
  function Interleaved(a: string, b: string, chunk: Chunk): seq<Msg> {
    [AudioMsg(SUBJECT_PREFIX_AUDIO_BACKFILL, a, chunk), AudioMsg(SUBJECT_PREFIX_AUDIO_BACKFILL, b, chunk),
     EosMsg(SUBJECT_PREFIX_AUDIO_BACKFILL, a), EosMsg(SUBJECT_PREFIX_AUDIO_BACKFILL, b)]
  }

  lemma MixedBackfill(a: string, b: string, chunk: Chunk)
    requires IsToken(a) && IsToken(b)
    ensures var f := ProducerRun(MixedRun(a, b, chunk)).flushes;
            f.backfill == Interleaved(a, b, chunk) && f.mixed && forall t :: t in f.tasks ==> t.progress == Ended(true)
  {
    var e5 := TwoSessions(a, b, chunk);
    var e6 := e5 + [FlushNext(0, true)];
    var e7 := e6 + [FlushNext(1, true)];
    var e8 := e7 + [FlushEnd(0, true)];
    TwoSessionsRun(a, b, chunk);
    ProducerRunAppend(INIT_PRODUCER, e5, FlushNext(0, true));
    ProducerRunAppend(INIT_PRODUCER, e6, FlushNext(1, true));
    ProducerRunAppend(INIT_PRODUCER, e7, FlushEnd(0, true));
    ProducerRunAppend(INIT_PRODUCER, e8, FlushEnd(1, true));
    var f7 := ProducerRun(e7).flushes;
    assert f7.tasks == [Task(a, 0, 1, Copying), Task(b, 0, 1, Copying)];
    assert HasPublished(f7.tasks[1]) && LaterPublished(f7.tasks, 0);
  }

  /**
   Flushes that publish out of session order lose audio: once the consumer has
   dealt with the first two backfill messages, the second session's pre-roll
   chunk is neither heard on any connection nor left to be fetched, because it was
   skipped as stale on the first session's connection.
   */
  lemma MixedFlushesLoseAudio(a: string, b: string, chunk: Chunk)
    requires IsToken(a) && IsToken(b) && a != b
    ensures var p := ProducerRun(MixedRun(a, b, chunk));
            var f := Consumer.FeedRun(p.flushes.backfill, p.core.live, Pipeline.FirstTwo());
            && f.stt.trace == [SttSession.Open(Some(a)),
                               SttSession.Sent(SttSession.Backfill, Interleaved(a, b, chunk)[0]),
                               SttSession.Acked(SttSession.Backfill, Interleaved(a, b, chunk)[0]),
                               SttSession.Acked(SttSession.Backfill, Interleaved(a, b, chunk)[1])]
            && f.backfill == [EosMsg(SUBJECT_PREFIX_AUDIO_BACKFILL, a), EosMsg(SUBJECT_PREFIX_AUDIO_BACKFILL, b)]
  {
    MixedBackfill(a, b, chunk);
    var p := ProducerRun(MixedRun(a, b, chunk));
    Pipeline.InterleavedBackfill(a, b, chunk, p.flushes.backfill, p.core.live);
  }
}
