/** Ends of sessions: exactly when every session ends in its one end marker. */
module ProducerStops {
  import opened Common
  import opened Messaging
  import opened SilenceDetection
  import opened ProducerSteps
  import opened ProducerPartition

  /** A finished session that ends in its one end marker. */
  predicate Clean(span: Span) {
    span.eos == [span.hi]
  }

  ghost predicate AllClean(spans: seq<Span>) {
    forall s :: s in spans ==> Clean(s)
  }

  predicate StopUnderway(c: Core) {
    c.ctrl.Stopping? || c.audio.AutoStopping?
  }

  /** The check of the chunk at hand will stop the session. */
  predicate WillStop(c: Core) {
    && c.audio.Checking? && c.session.sessionId.Some?
    && var silence := Counted(c.session.silence, c.audio.chunk);
       silence.Some? && silence.value >= SAMPLE_RATE * c.session.timeout
  }

  /**
   Two things happen at once that should not: a chunk is accepted for a session
   that the control task is stopping, one task begins a stop inside the other's,
   or a crash comes inside a stop and recovery resumes the session, or outside
   one and recovery does not.
   */
  predicate Overlaps(c: Core, e: Event) {
    match e
    case Capture(_, publishOk) => c.audio.Listening? && publishOk && Recording(c) && c.ctrl.Stopping?
    case Check(_, _) => WillStop(c) && c.ctrl.Stopping?
    case StopBegin(_) => Enabled(c, e) && c.audio.AutoStopping?
    case Crash => c.current.Some? && (Resumes(c) <==> StopUnderway(c))
    case _ => false
  }

  predicate Overlapped(es: seq<Event>) {
    es != [] && (Overlapped(es[..|es| - 1]) || Overlaps(Run(es[..|es| - 1]), es[|es| - 1]))
  }

  lemma OverlappedAppend(es: seq<Event>, e: Event)
    ensures Run(es + [e]) == Step(Run(es), e)
    ensures Overlapped(es + [e]) <==> Overlapped(es) || Overlaps(Run(es), e)
  {
    assert (es + [e])[..|es|] == es;
  }

  predicate MarkerPublished(e: Event) {
    (e.StopBegin? || e.Check?) ==> e.eosOk
  }

  /** Before anything overlaps: all is clean, and the session in progress has its marker exactly while one stop is under way. */
  ghost predicate Tidy(c: Core) {
    && AllClean(c.past)
    && !(c.ctrl.Stopping? && c.audio.AutoStopping?)
    && match c.current
       case None => !StopUnderway(c)
       case Some(span) => span.eos == if StopUnderway(c) then [span.hi] else []
  }

  /** A session went wrong and will not come right: one that ended so, or the one in progress. */
  ghost predicate Spoiled(c: Core) {
    || !AllClean(c.past)
    || (c.current.Some? &&
        var span := c.current.value;
        |span.eos| >= 2 || (span.eos != [] && (span.eos[0] < span.hi || (!StopUnderway(c) && Resumes(c)))))
  }

  lemma CloseTidy(past: seq<Span>, span: Span)
    ensures AllClean(past + [span]) <==> AllClean(past) && Clean(span)
  {
    assert (past + [span])[|past|] == span;
    assert forall s :: s in past ==> s in past + [span];
  }

  lemma TidyStep(c: Core, e: Event)
    requires Partitioned(c) && StartsIdle(c) && Tidy(c) && MarkerPublished(e) && !Overlaps(c, e)
    ensures Tidy(Step(c, e))
  {
    if c.current.Some? {
      CloseTidy(c.past, c.current.value);
    }
    if e.Check? {
    }
  }

  lemma OverlapSpoils(c: Core, e: Event)
    requires Partitioned(c) && Tidy(c) && MarkerPublished(e) && Overlaps(c, e)
    ensures Spoiled(Step(c, e))
  {
    if c.current.Some? {
      CloseTidy(c.past, c.current.value);
    }
  }

  lemma SpoiledStays(c: Core, e: Event)
    requires Partitioned(c) && StartsIdle(c) && Spoiled(c) && MarkerPublished(e)
    ensures Spoiled(Step(c, e))
  {
    if c.current.Some? {
      CloseTidy(c.past, c.current.value);
    }
  }

  lemma {:induction false} TidyUntilOverlap(es: seq<Event>)
    requires forall e :: e in es ==> MarkerPublished(e)
    ensures if Overlapped(es) then Spoiled(Run(es)) else Tidy(Run(es))
    decreases |es|
  {
    if es != [] {
      var front, e := es[..|es| - 1], es[|es| - 1];
      TidyUntilOverlap(front);
      PartitionOverRuns(front);
      if Overlapped(front) {
        SpoiledStays(Run(front), e);
      } else if Overlaps(Run(front), e) {
        OverlapSpoils(Run(front), e);
      } else {
        TidyStep(Run(front), e);
      }
    }
  }

  /**
   On every run that has come to rest, with successful marker publishes: every
   session ended in exactly one end marker, with nothing after it, if and only
   if nothing overlapped.
   */
  lemma {:induction false} CleanExactlyWhen(es: seq<Event>)
    requires forall e :: e in es ==> MarkerPublished(e)
    requires Run(es).current.None?
    ensures AllClean(Run(es).past) <==> !Overlapped(es)
  {
    TidyUntilOverlap(es);
  }

  // ----- A commanded stop -----

  /** An event inside a commanded stop after which the session cannot end cleanly. */
  predicate Disturbs(c: Core, e: Event) {
    (e.Capture? && c.audio.Listening? && e.publishOk && Recording(c)) || (e.Check? && WillStop(c))
  }

  predicate Disturbed(c: Core, es: seq<Event>) {
    es != [] && (Disturbed(c, es[..|es| - 1]) || Disturbs(RunFrom(c, es[..|es| - 1]), es[|es| - 1]))
  }

  lemma {:induction false} OverlapsInStop(history: seq<Event>, during: seq<Event>)
    requires Run(history).ctrl.Stopping?
    requires forall e :: e in during ==> !e.StopEnd? && !e.Crash?
    ensures Run(history + during).ctrl.Stopping? && Run(history + during) == RunFrom(Run(history), during)
    ensures Overlapped(history + during) <==> Overlapped(history) || Disturbed(Run(history), during)
    decreases |during|
  {
    if during == [] {
      assert history + during == history;
    } else {
      var front, e := during[..|during| - 1], during[|during| - 1];
      OverlapsInStop(history, front);
      assert history + during == (history + front) + [e];
      OverlappedAppend(history + front, e);
    }
  }

  /**
   After a run in which nothing overlapped, a commanded stop leaves every
   session clean exactly when no automatic stop is under way as it begins, and
   until it ends the broker accepts no chunk for the session and no check stops it.
   */
  lemma StopIsCleanExactlyWhen(history: seq<Event>, during: seq<Event>, kvOk: bool)
    requires var c := Run(history); c.ctrl.Free? && c.session.isActive && !Overlapped(history)
    requires forall e :: e in history + during ==> MarkerPublished(e)
    requires forall e :: e in during ==> !e.StopEnd? && !e.Crash?
    ensures var c := Run(history);
            AllClean(Run(history + [StopBegin(true)] + during + [StopEnd(kvOk)]).past)
            <==> !c.audio.AutoStopping? && !Disturbed(Step(c, StopBegin(true)), during)
  {
    var begun := history + [StopBegin(true)];
    var es := begun + during + [StopEnd(kvOk)];
    forall e | e in es ensures MarkerPublished(e) {
      assert e in history + during || e == StopBegin(true) || e == StopEnd(kvOk);
    }
    OverlappedAppend(history, StopBegin(true));
    OverlapsInStop(begun, during);
    OverlappedAppend(begun + during, StopEnd(kvOk));
    CleanExactlyWhen(es);
  }

  // ----- An automatic stop that outlives its session -----

  lemma StoppedInside(c: Core)
    requires Partitioned(c) && c.audio.AutoStopping? && c.ctrl.Free? && c.session.isActive
    ensures var d := Step(Step(c, StopBegin(true)), StopEnd(true));
            && d.ctrl.Free? && !d.session.isActive && d.audio.AutoStopping?
            && d.past == Closed(Step(c, StopBegin(true))) && d.captured == c.captured
  {
  }

  lemma StartedInside(c: Core, next: string, kvOk: bool, timeout: Option<int>, oldest: nat)
    requires c.audio.AutoStopping? && c.ctrl.Free? && !c.session.isActive && IsToken(next)
    ensures var d := Step(Step(Step(c, StartBegin(next, "", kvOk)), StartActivate), StartReady(timeout, oldest));
            && d.audio.AutoStopping? && d.past == c.past
            && d.current == Some(Span(next, |c.captured|, |c.captured|, []))
  {
    var c1 := Step(c, StartBegin(next, "", kvOk));
    assert c1.ctrl == Putting(next, "") && c1.captured == c.captured && c1.past == c.past && c1.audio == c.audio;
  }

  /** The control task's stop and next start, and then the end of the automatic stop. */
  function StopAndStart(next: string, kvOk: bool, timeout: Option<int>, oldest: nat): seq<Event> {
    [StopBegin(true)] + [StopEnd(true)] + [StartBegin(next, "", kvOk)] + [StartActivate] + [StartReady(timeout, oldest)] + [AutoStopEnd(true)]
  }

  lemma StopAndStartRun(c: Core, next: string, kvOk: bool, timeout: Option<int>, oldest: nat)
    ensures var c2 := Step(Step(c, StopBegin(true)), StopEnd(true));
            RunFrom(c, StopAndStart(next, kvOk, timeout, oldest))
            == Step(Step(Step(Step(c2, StartBegin(next, "", kvOk)), StartActivate), StartReady(timeout, oldest)), AutoStopEnd(true))
  {
    RunOfSix(c, StopBegin(true), StopEnd(true), StartBegin(next, "", kvOk), StartActivate, StartReady(timeout, oldest), AutoStopEnd(true));
  }

  lemma AutoStopEndsIt(c: Core, span: Span)
    requires c.audio.AutoStopping? && c.current == Some(span) && !Clean(span)
    ensures var d := Step(c, AutoStopEnd(true)); d.current.None? && d.past == c.past + [span] && !AllClean(d.past)
  {
    CloseTidy(c.past, span);
  }

  /**
   In any state in which silence is stopping a session: if the control task
   stops that session too and starts the next before the automatic stop ends,
   then that end takes the next session down, with no end marker at all.
   */
  lemma LateAutoStopEndsTheNextSession(c: Core, next: string, kvOk: bool, timeout: Option<int>, oldest: nat)
    requires Partitioned(c) && c.audio.AutoStopping? && c.ctrl.Free? && c.session.isActive && IsToken(next)
    ensures var d := RunFrom(c, StopAndStart(next, kvOk, timeout, oldest));
            && d.current.None? && !AllClean(d.past)
            && d.past == Closed(Step(c, StopBegin(true))) + [Span(next, |c.captured|, |c.captured|, [])]
  {
    StopAndStartRun(c, next, kvOk, timeout, oldest);
    StoppedInside(c);
    var c2 := Step(Step(c, StopBegin(true)), StopEnd(true));
    StartedInside(c2, next, kvOk, timeout, oldest);
    AutoStopEndsIt(Step(Step(Step(c2, StartBegin(next, "", kvOk)), StartActivate), StartReady(timeout, oldest)),
                   Span(next, |c.captured|, |c.captured|, []));
  }

  lemma RunOfSix(s: Core, a: Event, b: Event, c: Event, d: Event, e: Event, f: Event)
    ensures RunFrom(s, [a] + [b] + [c] + [d] + [e] + [f]) == Step(Step(Step(Step(Step(Step(s, a), b), c), d), e), f)
  {
    assert [] + [a] == [a];
    RunFromAppend(s, [], a);
    RunFromAppend(s, [a], b);
    RunFromAppend(s, [a] + [b], c);
    RunFromAppend(s, [a] + [b] + [c], d);
    RunFromAppend(s, [a] + [b] + [c] + [d], e);
    RunFromAppend(s, [a] + [b] + [c] + [d] + [e], f);
  }

  // ----- Atomic handlers -----

  /** The handlers of a run in which each of them is one atomic step, with steps of the background flush in between. */
  datatype Handler =
    | OnFlush(step: Event)
    | OnStart(sid: string, title: string, kvOk: bool, timeout: Option<int>, oldest: nat)
    | OnStop(eosOk: bool, kvOk: bool)
    | OnChunk(chunk: Chunk, publishOk: bool, eosOk: bool, kvOk: bool)

  predicate IsFlushStep(e: Event) {
    e.FlushNext? || e.FlushEnd? || e.FlushAbort?
  }

  /** The steps of one handler; those that cannot happen change nothing. */
  function StepsOf(h: Handler): seq<Event> {
    match h
    case OnFlush(step) => if IsFlushStep(step) then [step] else []
    case OnStart(sid, title, kvOk, timeout, oldest) => [StartBegin(sid, title, kvOk)] + [StartActivate] + [StartReady(timeout, oldest)]
    case OnStop(eosOk, kvOk) => [StopBegin(eosOk)] + [StopEnd(kvOk)]
    case OnChunk(chunk, publishOk, eosOk, kvOk) => [Capture(chunk, publishOk)] + [Check(eosOk, kvOk)] + [AutoStopEnd(kvOk)]
  }

  /** The steps an atomic run is made of. */
  function Expand(hs: seq<Handler>): seq<Event> {
    if hs == [] then [] else Expand(hs[..|hs| - 1]) + StepsOf(hs[|hs| - 1])
  }

  /** No handler is under way. */
  predicate AtRest(c: Core) {
    c.ctrl.Free? && c.audio.Listening?
  }

  lemma OverlappedAppend3(es: seq<Event>, a: Event, b: Event, c: Event)
    ensures var s, t, u := Run(es), Step(Run(es), a), Step(Step(Run(es), a), b);
            && Run(es + ([a] + [b] + [c])) == Step(u, c)
            && (Overlapped(es + ([a] + [b] + [c])) <==> Overlapped(es) || Overlaps(s, a) || Overlaps(t, b) || Overlaps(u, c))
  {
    assert es + ([a] + [b] + [c]) == ((es + [a]) + [b]) + [c];
    OverlappedAppend(es, a);
    OverlappedAppend(es + [a], b);
    OverlappedAppend((es + [a]) + [b], c);
  }

  lemma OverlappedAppend2(es: seq<Event>, a: Event, b: Event)
    ensures var s, t := Run(es), Step(Run(es), a);
            && Run(es + ([a] + [b])) == Step(t, b)
            && (Overlapped(es + ([a] + [b])) <==> Overlapped(es) || Overlaps(s, a) || Overlaps(t, b))
  {
    assert es + ([a] + [b]) == (es + [a]) + [b];
    OverlappedAppend(es, a);
    OverlappedAppend(es + [a], b);
  }

  lemma ChunkHandler(c: Core, chunk: Chunk, publishOk: bool, eosOk: bool, kvOk: bool)
    requires AtRest(c)
    ensures var d := Step(c, Capture(chunk, publishOk));
            d.ctrl.Free? && AtRest(Step(Step(d, Check(eosOk, kvOk)), AutoStopEnd(kvOk)))
  {
    var d := Step(c, Capture(chunk, publishOk));
    assert d.ctrl.Free? && !d.audio.AutoStopping?;
    var t := Step(d, Check(eosOk, kvOk));
    assert t.ctrl.Free? && !t.audio.Checking?;
  }

  lemma HandlerNeverOverlaps(es: seq<Event>, h: Handler)
    requires AtRest(Run(es)) && !Overlapped(es)
    ensures AtRest(Run(es + StepsOf(h))) && !Overlapped(es + StepsOf(h))
  {
    match h
    case OnFlush(step) =>
      assert es + [] == es;
      OverlappedAppend(es, step);
    case OnStart(sid, title, kvOk, timeout, oldest) =>
      OverlappedAppend3(es, StartBegin(sid, title, kvOk), StartActivate, StartReady(timeout, oldest));
    case OnStop(eosOk, kvOk) =>
      OverlappedAppend2(es, StopBegin(eosOk), StopEnd(kvOk));
    case OnChunk(chunk, publishOk, eosOk, kvOk) =>
      OverlappedAppend3(es, Capture(chunk, publishOk), Check(eosOk, kvOk), AutoStopEnd(kvOk));
      ChunkHandler(Run(es), chunk, publishOk, eosOk, kvOk);
  }

  lemma {:induction false} HandlersNeverOverlap(hs: seq<Handler>)
    ensures AtRest(Run(Expand(hs))) && !Overlapped(Expand(hs))
    decreases |hs|
  {
    if hs != [] {
      HandlersNeverOverlap(hs[..|hs| - 1]);
      HandlerNeverOverlaps(Expand(hs[..|hs| - 1]), hs[|hs| - 1]);
    }
  }

  predicate EosPublished(h: Handler) {
    (h.OnStop? || h.OnChunk?) ==> h.eosOk
  }

  lemma {:induction false} ExpandPublishes(hs: seq<Handler>)
    requires forall h :: h in hs ==> EosPublished(h)
    ensures forall e :: e in Expand(hs) ==> MarkerPublished(e)
    decreases |hs|
  {
    if hs != [] {
      ExpandPublishes(hs[..|hs| - 1]);
      assert EosPublished(hs[|hs| - 1]);
    }
  }

  /** With atomic handlers and successful marker publishes nothing overlaps, so every finished session is clean, and one in progress has no marker yet. */
  lemma {:induction false} AtomicRunsAreClean(hs: seq<Handler>)
    requires forall h :: h in hs ==> EosPublished(h)
    ensures var c := Run(Expand(hs)); AllClean(c.past) && (c.current.Some? ==> c.current.value.eos == [])
  {
    ExpandPublishes(hs);
    HandlersNeverOverlap(hs);
    TidyUntilOverlap(Expand(hs));
  }
}
