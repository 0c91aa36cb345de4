/** What a crash and restart keep of a session, and what they lose. */
module ProducerRecovery {
  import opened Common
  import opened Messaging
  import opened SilenceDetection
  import opened ProducerSteps
  import opened ProducerPartition
  import opened ProducerStops
  import opened PrerollFlush

  // ----- The key-value entry -----

  /** The entry names the session in progress, or the one that a start is about to activate. */
  ghost predicate KvAgrees(c: Core) {
    c.kv == match c.ctrl
            case Putting(sid, title) => Some(Record(sid, title))
            case _ => if Recording(c) then Some(Record(c.session.sessionId.value, c.session.title)) else None
  }

  predicate KvWritten(e: Event) {
    (e.StartBegin? || e.StopEnd? || e.Check? || e.AutoStopEnd?) ==> e.kvOk
  }

  /** The check at hand finds enough silence to stop, whether or not there is a session. */
  predicate Fires(c: Core, e: Event) {
    && e.Check? && c.audio.Checking?
    && var silence := Counted(c.session.silence, c.audio.chunk);
       silence.Some? && silence.value >= SAMPLE_RATE * c.session.timeout
  }

  /** The audio task clears the entry that a start has just written. */
  predicate LosesEntry(c: Core, e: Event) {
    c.ctrl.Putting? && ((e.AutoStopEnd? && c.audio.AutoStopping?) || Fires(c, e))
  }

  predicate EntryLost(es: seq<Event>) {
    es != [] && (EntryLost(es[..|es| - 1]) || LosesEntry(Run(es[..|es| - 1]), es[|es| - 1]))
  }

  ghost predicate AlwaysAgrees(es: seq<Event>) {
    KvAgrees(Run(es)) && (es != [] ==> AlwaysAgrees(es[..|es| - 1]))
  }

  lemma StepKeepsKv(c: Core, e: Event)
    requires Partitioned(c) && StartsIdle(c) && KvAgrees(c) && KvWritten(e)
    ensures KvAgrees(Step(c, e)) <==> !LosesEntry(c, e)
  {
  }

  /**
   With successful writes, over every run, crashes included: the entry names
   the session at every moment if and only if the audio task never ends a stop
   between a start's write and its activation.
   */
  lemma {:induction false} KvAgreesExactlyWhen(es: seq<Event>)
    requires forall e :: e in es ==> KvWritten(e)
    ensures AlwaysAgrees(es) <==> !EntryLost(es)
    decreases |es|
  {
    if es != [] {
      var front, e := es[..|es| - 1], es[|es| - 1];
      KvAgreesExactlyWhen(front);
      PartitionOverRuns(front);
      if KvAgrees(Run(front)) {
        StepKeepsKv(Run(front), e);
      }
    }
  }

  // ----- Routing after a restart -----

  /** Equal except for the silence counter and timeout. */
  ghost predicate Alike(a: Core, b: Core) {
    b.(session := b.session.(silence := a.session.silence, timeout := a.session.timeout)) == a
  }

  predicate EverFires(c: Core, es: seq<Event>) {
    es != [] && (EverFires(c, es[..|es| - 1]) || Fires(RunFrom(c, es[..|es| - 1]), es[|es| - 1]))
  }

  lemma OtherKeepsAlike(a: Core, b: Core, e: Event)
    requires Alike(a, b) && !e.Check?
    ensures Alike(Step(a, e), Step(b, e))
  {
  }

  lemma {:induction false} RunsKeepAlike(a: Core, b: Core, es: seq<Event>)
    requires Alike(a, b) && !EverFires(a, es) && !EverFires(b, es)
    ensures Alike(RunFrom(a, es), RunFrom(b, es))
    decreases |es|
  {
    if es != [] {
      var front, e := es[..|es| - 1], es[|es| - 1];
      RunsKeepAlike(a, b, front);
      if e.Check? {
      } else {
        OtherKeepsAlike(RunFrom(a, front), RunFrom(b, front), e);
      }
    }
  }

  /**
   After a crash between handlers, on any run and with the entry in agreement:
   whatever follows, starts, stops, flushes and further crashes included, as
   long as silence stops neither producer, every chunk goes where it would have
   gone and the sessions are the same.
   */
  lemma {:induction false} RestartKeepsRouting(history: seq<Event>, es: seq<Event>)
    requires AtRest(Run(history)) && KvAgrees(Run(history))
    requires !EverFires(Run(history), es) && !EverFires(Run(history + [Crash]), es)
    ensures var a, b := Run(history + es), Run(history + [Crash] + es);
            && a.live == b.live && a.preroll == b.preroll && a.past == b.past && a.current == b.current && a.kv == b.kv
            && a.session.isActive == b.session.isActive && a.session.sessionId == b.session.sessionId
  {
    var c := Run(history);
    PartitionOverRuns(history);
    IdleTitle(history);
    RunFromAppend(INIT, history, Crash);
    assert Alike(c, Crashed(c));
    RunsKeepAlike(c, Crashed(c), es);
    RunFromConcat(INIT, history, es);
    RunFromConcat(INIT, history + [Crash], es);
  }

  lemma {:induction false} IdleTitle(es: seq<Event>)
    ensures var s := Run(es).session; !s.isActive ==> s.sessionId == None && s.title == ""
    decreases |es|
  {
    if es != [] {
      IdleTitle(es[..|es| - 1]);
    }
  }

  // ----- What the restart loses -----

  /** The audio task deals with one chunk. */
  function Take(chunk: Chunk): seq<Event> {
    [Capture(chunk, true)] + [Check(true, true)]
  }

  /** The state after that. */
  function Taken(c: Core, chunk: Chunk): Core {
    Step(Step(c, Capture(chunk, true)), Check(true, true))
  }

  lemma TakeRuns(c: Core, chunk: Chunk)
    ensures RunFrom(c, Take(chunk)) == Taken(c, chunk)
  {
    assert [] + [Capture(chunk, true)] == [Capture(chunk, true)];
    RunFromAppend(c, [], Capture(chunk, true));
    RunFromAppend(c, [Capture(chunk, true)], Check(true, true));
  }

  /** One more silent chunk puts the marker on the live subject, or does not. */
  lemma SilentStep(c: Core, samples: nat)
    requires Recording(c) && c.audio.Listening?
    ensures |Taken(c, SilentChunk(samples)).live|
            == |c.live| + 1 + if c.session.silence + samples >= SAMPLE_RATE * c.session.timeout then 1 else 0
  {
    SilentChunkIsSilent(samples);
  }

  lemma LoudStep(c: Core)
    requires Recording(c) && c.audio.Listening?
    ensures var d := Taken(c, LOUD_CHUNK);
            && |d.live| == |c.live| + 1 + (if 0 >= SAMPLE_RATE * c.session.timeout then 1 else 0)
            && (0 < SAMPLE_RATE * c.session.timeout ==>
                  Recording(d) && d.audio.Listening? && d.session == c.session.(silence := 0))
  {
  }

  /** A future that tells the restarted producer from the one that did not crash by what is on the live subject. */
  lemma RestartShows(c: Core) returns (es: seq<Event>)
    requires Recording(c) && AtRest(c) && KvAgrees(c)
    requires c.session.silence != 0 || c.session.timeout != DEFAULT_SILENCE_TIMEOUT_S
    ensures |RunFrom(c, es).live| != |RunFrom(Crashed(c), es).live|
  {
    var d, full := Crashed(c), SAMPLE_RATE * DEFAULT_SILENCE_TIMEOUT_S;
    var t := c.session.timeout;
    if t == DEFAULT_SILENCE_TIMEOUT_S {
      var rest := if c.session.silence < full then full - c.session.silence else 0;
      es := Take(SilentChunk(rest));
      TakeRuns(c, SilentChunk(rest));
      TakeRuns(d, SilentChunk(rest));
      SilentStep(c, rest);
      SilentStep(d, rest);
    } else if t <= 0 {
      es := Take(LOUD_CHUNK);
      TakeRuns(c, LOUD_CHUNK);
      TakeRuns(d, LOUD_CHUNK);
      LoudStep(c);
      LoudStep(d);
    } else {
      var samples := if t < DEFAULT_SILENCE_TIMEOUT_S then SAMPLE_RATE * t else full;
      es := Take(LOUD_CHUNK) + Take(SilentChunk(samples));
      TakeTwo(c, samples);
      TakeTwo(d, samples);
      LoudStep(c);
      LoudStep(d);
      SilentStep(Taken(c, LOUD_CHUNK), samples);
      SilentStep(Taken(d, LOUD_CHUNK), samples);
    }
  }

  lemma TakeTwo(c: Core, samples: nat)
    ensures RunFrom(c, Take(LOUD_CHUNK) + Take(SilentChunk(samples))) == Taken(Taken(c, LOUD_CHUNK), SilentChunk(samples))
  {
    RunFromConcat(c, Take(LOUD_CHUNK), Take(SilentChunk(samples)));
    TakeRuns(c, LOUD_CHUNK);
    TakeRuns(Taken(c, LOUD_CHUNK), SilentChunk(samples));
  }

  /** What the rest of the system gets to see of the producer. */
  ghost function Observed(p: Producer): (seq<Msg>, seq<Chunk>, seq<Msg>) {
    (p.core.live, p.core.preroll, p.flushes.backfill)
  }

  ghost predicate AllEnded(tasks: seq<Task>) {
    forall t :: t in tasks ==> t.progress.Ended?
  }

  /** Only the latest flush can be waiting, and only inside a start. */
  ghost predicate WaitsInStart(p: Producer) {
    forall i :: 0 <= i < |p.flushes.tasks| && p.flushes.tasks[i].progress.Waiting? ==>
      i == |p.flushes.tasks| - 1 && p.core.ctrl.Configuring?
  }

  lemma {:induction false} WaitsOverRuns(es: seq<Event>)
    ensures WaitsInStart(ProducerRun(es))
    decreases |es|
  {
    if es != [] {
      WaitsOverRuns(es[..|es| - 1]);
      assert WaitsInStart(ProducerStep(ProducerRun(es[..|es| - 1]), es[|es| - 1]));
    }
  }

  /** A flush that the crash killed would still have put its marker on the backfill subject. */
  lemma KilledFlushShows(p: Producer, t: Task) returns (es: seq<Event>)
    requires WaitsInStart(p) && AtRest(p.core) && t in p.flushes.tasks && !t.progress.Ended?
    ensures |ProducerRunFrom(p, es).flushes.backfill| == |p.flushes.backfill| + 1
    ensures ProducerRunFrom(ProducerStep(p, Crash), es).flushes.backfill == p.flushes.backfill
  {
    var nth :| 0 <= nth < |p.flushes.tasks| && p.flushes.tasks[nth] == t;
    es := [] + [FlushEnd(nth, true)];
    var q := ProducerStep(p, Crash);
    ProducerRunAppend(p, [], FlushEnd(nth, true));
    ProducerRunAppend(q, [], FlushEnd(nth, true));
    assert q.flushes.tasks[nth] == Killed(t);
  }

  /**
   A restart between handlers of a session in progress is unobservable, on any
   subject and whatever follows, exactly when the session has heard no silence
   since its last loud chunk, runs with the default timeout, and every flush has ended:
   recovery restores neither the counter nor the configured timeout nor a flush.
   */
  lemma {:induction false} RestartIsInvisibleExactlyWhen(history: seq<Event>)
    requires var c := Run(history); Recording(c) && AtRest(c) && KvAgrees(c)
    ensures var p := ProducerRun(history);
            (p.core.session.silence == 0 && p.core.session.timeout == DEFAULT_SILENCE_TIMEOUT_S && AllEnded(p.flushes.tasks))
            <==> forall es :: Observed(ProducerRunFrom(p, es)) == Observed(ProducerRunFrom(ProducerStep(p, Crash), es))
  {
    var p := ProducerRun(history);
    var q := ProducerStep(p, Crash);
    BackfillOverRuns(history);
    WaitsOverRuns(history);
    if !AllEnded(p.flushes.tasks) {
      var t :| t in p.flushes.tasks && !t.progress.Ended?;
      var es := KilledFlushShows(p, t);
      assert Observed(ProducerRunFrom(p, es)) != Observed(ProducerRunFrom(q, es));
    } else if p.core.session.silence == 0 && p.core.session.timeout == DEFAULT_SILENCE_TIMEOUT_S {
      assert ProducerStep(p, Crash) == p;
    } else {
      var es := RestartShows(p.core);
      CoreOfRun(p, es);
      CoreOfRun(q, es);
      assert Observed(ProducerRunFrom(p, es)) != Observed(ProducerRunFrom(q, es));
    }
  }

  // ----- Restarts while idle -----

  /** Equal, but for the timeout while no session is active, which the next start sets anew. */
  ghost predicate SameWhenStarted(a: Core, b: Core) {
    && b.(session := b.session.(timeout := a.session.timeout)) == a
    && (a.session.timeout == b.session.timeout || (!a.session.isActive && a.session.sessionId.None? && a.audio.Listening? && !a.ctrl.Configuring?))
  }

  lemma {:induction false} RunsSameWhenStarted(p: Producer, q: Producer, es: seq<Event>)
    requires SameWhenStarted(p.core, q.core) && p.flushes == q.flushes
    ensures SameWhenStarted(ProducerRunFrom(p, es).core, ProducerRunFrom(q, es).core)
    ensures ProducerRunFrom(p, es).flushes == ProducerRunFrom(q, es).flushes
    decreases |es|
  {
    if es != [] {
      var front, e := es[..|es| - 1], es[|es| - 1];
      RunsSameWhenStarted(p, q, front);
      assert SameWhenStarted(Step(ProducerRunFrom(p, front).core, e), Step(ProducerRunFrom(q, front).core, e));
    }
  }

  /** A start is activated and, before the counter is reset, one silent chunk is captured and checked. */
  function StartAndTake(sid: string, samples: nat): seq<Event> {
    ([] + [StartBegin(sid, "", true)] + [StartActivate]) + Take(SilentChunk(samples))
  }

  lemma StartAndTakeRuns(c: Core, sid: string, samples: nat)
    ensures RunFrom(c, StartAndTake(sid, samples)) == Taken(Step(Step(c, StartBegin(sid, "", true)), StartActivate), SilentChunk(samples))
  {
    RunFromAppend(c, [], StartBegin(sid, "", true));
    RunFromAppend(c, [] + [StartBegin(sid, "", true)], StartActivate);
    RunFromConcat(c, [] + [StartBegin(sid, "", true)] + [StartActivate], Take(SilentChunk(samples)));
    TakeRuns(Step(Step(c, StartBegin(sid, "", true)), StartActivate), SilentChunk(samples));
  }

  /** A counter that is left over shows in the next session. */
  lemma IdleRestartShows(c: Core, sid: string) returns (es: seq<Event>)
    requires !c.session.isActive && AtRest(c) && c.kv.None? && c.session.silence != 0 && IsToken(sid)
    ensures |RunFrom(c, es).live| != |RunFrom(Crashed(c), es).live|
  {
    var d, full := Crashed(c), SAMPLE_RATE * DEFAULT_SILENCE_TIMEOUT_S;
    var rest := if c.session.silence < full then full - c.session.silence else 0;
    es := StartAndTake(sid, rest);
    StartAndTakeRuns(c, sid, rest);
    StartAndTakeRuns(d, sid, rest);
    SilentStep(Step(Step(c, StartBegin(sid, "", true)), StartActivate), rest);
    SilentStep(Step(Step(d, StartBegin(sid, "", true)), StartActivate), rest);
  }

  /**
   A restart between handlers while no session is active is unobservable, on
   any subject and whatever follows, exactly when the last session left no silence
   in the counter and every flush has ended.
   */
  lemma {:induction false} IdleRestartIsInvisibleExactlyWhen(history: seq<Event>)
    requires var c := Run(history); !c.session.isActive && AtRest(c) && KvAgrees(c)
    ensures var p := ProducerRun(history);
            (p.core.session.silence == 0 && AllEnded(p.flushes.tasks))
            <==> forall es :: Observed(ProducerRunFrom(p, es)) == Observed(ProducerRunFrom(ProducerStep(p, Crash), es))
  {
    var p := ProducerRun(history);
    var q := ProducerStep(p, Crash);
    BackfillOverRuns(history);
    WaitsOverRuns(history);
    IdleTitle(history);
    CoreOfRun(INIT_PRODUCER, history);
    if !AllEnded(p.flushes.tasks) {
      var t :| t in p.flushes.tasks && !t.progress.Ended?;
      var es := KilledFlushShows(p, t);
      assert Observed(ProducerRunFrom(p, es)) != Observed(ProducerRunFrom(q, es));
    } else if p.core.session.silence == 0 {
      forall es ensures Observed(ProducerRunFrom(p, es)) == Observed(ProducerRunFrom(q, es)) {
        RunsSameWhenStarted(p, q, es);
      }
    } else {
      var es := IdleRestartShows(p.core, "s");
      CoreOfRun(p, es);
      CoreOfRun(q, es);
      assert Observed(ProducerRunFrom(p, es)) != Observed(ProducerRunFrom(q, es));
    }
  }
}
