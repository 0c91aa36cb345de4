/**
 Runs from the very start in which the producer's promises fail: the states
 that the exact conditions speak of are reached by a session that falls silent.
 */
module ProducerWitnesses {
  import opened Common
  import opened Messaging
  import opened SilenceDetection
  import opened ProducerSteps
  import opened ProducerPartition
  import opened ProducerStops
  import opened ProducerSilence
  import opened ProducerRecovery

  /** Samples in one captured chunk. */
  const CHUNK_SAMPLES := 1536

  const QUIET_CHUNK := SilentChunk(CHUNK_SAMPLES)

  /** `n` silent chunks are captured and checked. */
  function Silence(n: nat): seq<Event> {
    if n == 0 then [] else Silence(n - 1) + Take(QUIET_CHUNK)
  }

  /** How many silent chunks reach the timeout. */
  function ChunksFor(timeout: nat): nat {
    (SAMPLE_RATE * timeout + CHUNK_SAMPLES - 1) / CHUNK_SAMPLES
  }

  function StartOf(sid: string, timeout: int): seq<Event> {
    [StartBegin(sid, "", true)] + [StartActivate] + [StartReady(Some(timeout), 0)]
  }

  /** A session with a timeout of that many seconds is started and hears nothing but silence until it is being stopped. */
  function FallsSilent(sid: string, timeout: nat): seq<Event> {
    StartOf(sid, timeout) + Silence(ChunksFor(timeout))
  }

  /** Session `sid` is recording, as far as its counter went. */
  ghost predicate Recorded(c: Core, sid: string, silence: nat, timeout: int) {
    && c.session == Session(true, Some(sid), "", silence, timeout) && AtRest(c)
    && c.kv == Some(Record(sid, ""))
  }

  /** Silence is stopping it. */
  ghost predicate BeingStopped(c: Core, sid: string, timeout: int) {
    && c.ctrl.Free? && c.audio.AutoStopping? && c.session.isActive && c.session.sessionId == Some(sid)
    && c.session.silence >= SAMPLE_RATE * timeout
  }

  lemma StartRecords(sid: string, timeout: nat)
    requires IsToken(sid)
    ensures Recorded(Run(StartOf(sid, timeout)), sid, 0, timeout)
  {
    assert [] + [StartBegin(sid, "", true)] == [StartBegin(sid, "", true)];
    RunFromAppend(INIT, [], StartBegin(sid, "", true));
    RunFromAppend(INIT, [StartBegin(sid, "", true)], StartActivate);
    RunFromAppend(INIT, [StartBegin(sid, "", true)] + [StartActivate], StartReady(Some(timeout), 0));
  }

  lemma QuietStep(c: Core, sid: string, silence: nat, timeout: int)
    requires Recorded(c, sid, silence, timeout)
    ensures var d := Taken(c, QUIET_CHUNK);
            if silence + CHUNK_SAMPLES < SAMPLE_RATE * timeout then Recorded(d, sid, silence + CHUNK_SAMPLES, timeout)
            else BeingStopped(d, sid, timeout)
  {
    SilentChunkIsSilent(CHUNK_SAMPLES);
  }

  lemma {:induction false} SilenceRuns(c: Core, sid: string, timeout: int, n: nat)
    requires Recorded(c, sid, 0, timeout) && n * CHUNK_SAMPLES < SAMPLE_RATE * timeout
    ensures Recorded(RunFrom(c, Silence(n)), sid, n * CHUNK_SAMPLES, timeout)
  {
    if n > 0 {
      SilenceRuns(c, sid, timeout, n - 1);
      RunFromConcat(c, Silence(n - 1), Take(QUIET_CHUNK));
      TakeRuns(RunFrom(c, Silence(n - 1)), QUIET_CHUNK);
      QuietStep(RunFrom(c, Silence(n - 1)), sid, (n - 1) * CHUNK_SAMPLES, timeout);
    }
  }

  /** Every timeout is reached: an automatic stop is under way while the control task is free and the session still active. */
  lemma SilenceStopsFromTheStart(sid: string, timeout: nat)
    requires IsToken(sid) && timeout > 0
    ensures var c := Run(FallsSilent(sid, timeout)); BeingStopped(c, sid, timeout) && Partitioned(c)
  {
    var n := ChunksFor(timeout);
    var c := Run(StartOf(sid, timeout));
    StartRecords(sid, timeout);
    SilenceRuns(c, sid, timeout, n - 1);
    RunFromConcat(c, Silence(n - 1), Take(QUIET_CHUNK));
    TakeRuns(RunFrom(c, Silence(n - 1)), QUIET_CHUNK);
    QuietStep(RunFrom(c, Silence(n - 1)), sid, (n - 1) * CHUNK_SAMPLES, timeout);
    RunFromConcat(INIT, StartOf(sid, timeout), Silence(n));
    PartitionOverRuns(FallsSilent(sid, timeout));
  }

  lemma {:induction false} SilenceWrites(n: nat)
    ensures forall e :: e in Silence(n) ==> KvWritten(e) && MarkerPublished(e)
  {
    if n > 0 { SilenceWrites(n - 1); }
  }

  // ----- The next session is taken down -----

  lemma TakeDownPublishes(a: string, b: string, timeout: nat)
    ensures forall e :: e in FallsSilent(a, timeout) + StopAndStart(b, true, None, 0) ==> MarkerPublished(e)
  {
    SilenceWrites(ChunksFor(timeout));
  }

  /** From the very start: the automatic stop of session `a` ends session `b`, with no end marker. */
  lemma NextSessionTakenDown(a: string, b: string, timeout: nat)
    requires IsToken(a) && IsToken(b) && timeout > 0
    ensures var es := FallsSilent(a, timeout) + StopAndStart(b, true, None, 0);
            var c := Run(es);
            && (forall e :: e in es ==> MarkerPublished(e))
            && c.current.None? && Overlapped(es) && !AllClean(c.past)
            && c.past != [] && c.past[|c.past| - 1] == Span(b, ChunksFor(timeout), ChunksFor(timeout), [])
  {
    var es := FallsSilent(a, timeout) + StopAndStart(b, true, None, 0);
    SilenceStopsFromTheStart(a, timeout);
    TakeDownPublishes(a, b, timeout);
    RunFromConcat(INIT, FallsSilent(a, timeout), StopAndStart(b, true, None, 0));
    LateAutoStopEndsTheNextSession(Run(FallsSilent(a, timeout)), b, true, None, 0);
    CapturedBySilence(a, timeout);
    CleanExactlyWhen(es);
  }

  lemma {:induction false} SilenceCaptures(c: Core, sid: string, timeout: int, n: nat)
    requires Recorded(c, sid, 0, timeout) && (n - 1) * CHUNK_SAMPLES < SAMPLE_RATE * timeout
    ensures |RunFrom(c, Silence(n)).captured| == |c.captured| + n
  {
    if n > 0 {
      SilenceCaptures(c, sid, timeout, n - 1);
      SilenceRuns(c, sid, timeout, n - 1);
      RunFromConcat(c, Silence(n - 1), Take(QUIET_CHUNK));
      TakeRuns(RunFrom(c, Silence(n - 1)), QUIET_CHUNK);
      TakeCaptures(RunFrom(c, Silence(n - 1)));
    }
  }

  lemma TakeCaptures(c: Core)
    requires AtRest(c)
    ensures |Taken(c, QUIET_CHUNK).captured| == |c.captured| + 1
  {
  }

  lemma CapturedBySilence(sid: string, timeout: nat)
    requires IsToken(sid) && timeout > 0
    ensures |Run(FallsSilent(sid, timeout)).captured| == ChunksFor(timeout)
  {
    var c := Run(StartOf(sid, timeout));
    StartRecords(sid, timeout);
    NothingCapturedYet(sid, timeout);
    SilenceCaptures(c, sid, timeout, ChunksFor(timeout));
    RunFromConcat(INIT, StartOf(sid, timeout), Silence(ChunksFor(timeout)));
  }

  lemma NothingCapturedYet(sid: string, timeout: nat)
    ensures Run(StartOf(sid, timeout)).captured == []
  {
    assert [] + [StartBegin(sid, "", true)] == [StartBegin(sid, "", true)];
    RunFromAppend(INIT, [], StartBegin(sid, "", true));
    RunFromAppend(INIT, [StartBegin(sid, "", true)], StartActivate);
    RunFromAppend(INIT, [StartBegin(sid, "", true)] + [StartActivate], StartReady(Some(timeout), 0));
  }

  // ----- The entry is lost -----

  /** The control task stops the session too and writes the next one's entry; then the automatic stop ends. */
  function EntryCleared(a: string, b: string, timeout: nat): seq<Event> {
    FallsSilent(a, timeout) + [StopBegin(true)] + [StopEnd(true)] + [StartBegin(b, "", true)] + [AutoStopEnd(true)]
  }

  /** From the very start, with every write a success: the entry that the start of `b` has written is deleted before `b` is activated. */
  lemma EntryCanBeLost(a: string, b: string, timeout: nat)
    requires IsToken(a) && IsToken(b) && timeout > 0
    ensures var es := EntryCleared(a, b, timeout);
            && (forall e :: e in es ==> KvWritten(e))
            && EntryLost(es) && !AlwaysAgrees(es)
            && Run(es).ctrl == Putting(b, "") && Run(es).kv.None?
  {
    var e0 := FallsSilent(a, timeout);
    var e1 := e0 + [StopBegin(true)];
    var e2 := e1 + [StopEnd(true)];
    var e3 := e2 + [StartBegin(b, "", true)];
    SilenceStopsFromTheStart(a, timeout);
    SilenceWrites(ChunksFor(timeout));
    RunFromAppend(INIT, e0, StopBegin(true));
    RunFromAppend(INIT, e1, StopEnd(true));
    RunFromAppend(INIT, e2, StartBegin(b, "", true));
    RunFromAppend(INIT, e3, AutoStopEnd(true));
    assert EntryCleared(a, b, timeout)[..|e3|] == e3;
    KvAgreesExactlyWhen(EntryCleared(a, b, timeout));
  }

  // ----- Left-over silence stops the next session -----

  /** Session `a` ends by silence and `b` is activated; one chunk comes before the counter is reset. */
  function SilenceLeftOver(a: string, b: string, timeout: nat, samples: nat): seq<Event> {
    FallsSilent(a, timeout) + [AutoStopEnd(true)] + [StartBegin(b, "", true)] + [StartActivate] + [Capture(SilentChunk(samples), true)]
  }

  /**
   From the very start, when the configured timeout is at least the default
   one: the first chunk of the next session that is checked before its counter is
   reset stops it, however short it is, and so the counter and the stop are not
   what the session's own silence demands.
   */
  lemma LeftOverSilenceStops(a: string, b: string, timeout: nat, samples: nat)
    requires IsToken(a) && IsToken(b) && timeout >= DEFAULT_SILENCE_TIMEOUT_S
    requires samples < SAMPLE_RATE * DEFAULT_SILENCE_TIMEOUT_S
    ensures var es := SilenceLeftOver(a, b, timeout, samples);
            var c, d := Run(es), Run(es + [Check(true, true)]);
            && ChecksOwn(c) && c.captured[c.current.value.lo..] == [SilentChunk(samples)]
            && d.audio.AutoStopping? && d.session.timeout == DEFAULT_SILENCE_TIMEOUT_S
            && !Attends(d, [SilentChunk(samples)])
  {
    var x := SilentChunk(samples);
    var e0 := FallsSilent(a, timeout);
    var e1 := e0 + [AutoStopEnd(true)];
    var e2 := e1 + [StartBegin(b, "", true)];
    var e3 := e2 + [StartActivate];
    var e4 := e3 + [Capture(x, true)];
    SilenceStopsFromTheStart(a, timeout);
    RunFromAppend(INIT, e0, AutoStopEnd(true));
    RunFromAppend(INIT, e1, StartBegin(b, "", true));
    RunFromAppend(INIT, e2, StartActivate);
    RunFromAppend(INIT, e3, Capture(x, true));
    RunFromAppend(INIT, e4, Check(true, true));
    SilentStopLeavesTheCounter(Run(e0), b, true);
    LeftoverSilenceStopsTheNextSession(Run(e2), samples, true, true);
  }

}
