/** The silence counter: exactly when it is the session's trailing silence, and the chunk at which it stops the session. */
module ProducerSilence {
  import opened Common
  import opened Messaging
  import opened SilenceDetection
  import opened ProducerSteps
  import opened ProducerPartition

  // ----- Trailing silence -----

  /** A counter at `from` before the chunks: silent samples are added, a loud chunk starts over, an undecodable one does not count. */
  function Trail(from: nat, chunks: seq<Chunk>): nat {
    if chunks == [] then from else
      var front, last := chunks[..|chunks| - 1], chunks[|chunks| - 1];
      match Judge(last)
      case Silent => Trail(from, front) + |last| / 2
      case Loud => 0
      case Malformed => Trail(from, front)
  }

  /** Samples in the silent chunks since the last loud one. */
  function TrailingSilence(chunks: seq<Chunk>): nat {
    Trail(0, chunks)
  }

  ghost predicate HasLoud(chunks: seq<Chunk>) {
    exists i :: 0 <= i < |chunks| && Judge(chunks[i]).Loud?
  }

  lemma HasLoudAppend(chunks: seq<Chunk>, x: Chunk)
    ensures HasLoud(chunks + [x]) <==> HasLoud(chunks) || Judge(x).Loud?
  {
    var all := chunks + [x];
    assert all[|chunks|] == x;
    if HasLoud(chunks) {
      var i :| 0 <= i < |chunks| && Judge(chunks[i]).Loud?;
      assert all[i] == chunks[i];
    }
  }

  lemma {:induction false} TrailsFrom(from: nat, chunks: seq<Chunk>)
    ensures Trail(from, chunks) == TrailingSilence(chunks) + if HasLoud(chunks) then 0 else from
    decreases |chunks|
  {
    if chunks != [] {
      var front, last := chunks[..|chunks| - 1], chunks[|chunks| - 1];
      TrailsFrom(from, front);
      HasLoudAppend(front, last);
      assert chunks == front + [last];
    }
  }

  lemma {:induction false} TrailOfConcat(from: nat, a: seq<Chunk>, b: seq<Chunk>)
    ensures Trail(from, a + b) == Trail(Trail(from, a), b)
    decreases |b|
  {
    if b == [] {
      assert a + b == a;
    } else {
      assert (a + b)[..|a + b| - 1] == a + b[..|b| - 1];
      TrailOfConcat(from, a, b[..|b| - 1]);
    }
  }

  lemma TrailAppend(from: nat, chunks: seq<Chunk>, x: Chunk)
    ensures Trail(from, chunks + [x]) == match Counted(Trail(from, chunks), x)
                                         case None => Trail(from, chunks)
                                         case Some(n) => n
  {
    assert (chunks + [x])[..|chunks|] == chunks;
  }

  /** The last of the session's chunks brings its silence to the timeout. */
  ghost predicate Reached(chunks: seq<Chunk>, timeout: int) {
    chunks != [] && !Judge(chunks[|chunks| - 1]).Malformed? && TrailingSilence(chunks) >= SAMPLE_RATE * timeout
  }

  // ----- What the counter counts -----

  /** The chunk about to be checked belongs to the session in progress. */
  predicate ChecksOwn(c: Core) {
    c.audio.Checking? && c.current.Some? && c.current.value.lo < |c.captured|
  }

  /** Up to which chunk the session in progress has been checked. */
  function CheckedUpTo(c: Core): nat {
    if ChecksOwn(c) then |c.captured| - 1 else |c.captured|
  }

  /** From `at` on the session's chunks are added to `value`. */
  datatype Base = Base(at: nat, value: nat)

  /** The counter is taken over or set: by the two steps of a start, by recovery, or by the check of an earlier session's chunk. */
  predicate Rebases(c: Core, e: Event) {
    Enabled(c, e) && (e.StartActivate? || e.StartReady? || e.Crash? || (e.Check? && !ChecksOwn(c)))
  }

  function BaseOf(es: seq<Event>): Base {
    if es == [] then Base(0, 0) else
      var front, e := es[..|es| - 1], es[|es| - 1];
      if Rebases(Run(front), e) then Base(CheckedUpTo(Run(es)), Run(es).session.silence) else BaseOf(front)
  }

  ghost predicate Counting(c: Core, b: Base) {
    && (c.audio.Checking? ==> c.captured != [] && c.captured[|c.captured| - 1] == c.audio.chunk)
    && (c.current.Some? ==>
          && c.current.value.lo <= b.at <= CheckedUpTo(c) <= |c.captured|
          && c.session.silence == Trail(b.value, c.captured[b.at..CheckedUpTo(c)]))
  }

  lemma CaptureCounts(c: Core, b: Base, chunk: Chunk, publishOk: bool)
    requires Partitioned(c) && Counting(c, b) && c.audio.Listening?
    ensures Counting(Captured(c, chunk, publishOk), b)
  {
    var n := |c.captured|;
    if c.current.Some? {
      assert (c.captured + [chunk])[b.at..n] == c.captured[b.at..n];
    }
  }

  lemma CheckFacts(c: Core, eosOk: bool, kvOk: bool)
    requires ChecksOwn(c) && c.session.sessionId.Some?
    ensures var d, n := Checked(c, c.audio.chunk, eosOk, kvOk), Counted(c.session.silence, c.audio.chunk);
            && !d.audio.Checking? && d.ctrl == c.ctrl && d.captured == c.captured && d.session.timeout == c.session.timeout
            && d.current.Some? && d.current.value.lo == c.current.value.lo
            && d.session.silence == (if n.Some? then n.value else c.session.silence)
            && (d.audio.AutoStopping? <==> n.Some? && n.value >= SAMPLE_RATE * c.session.timeout)
  {
  }

  lemma CheckCounts(c: Core, b: Base, eosOk: bool, kvOk: bool)
    requires Partitioned(c) && Counting(c, b) && ChecksOwn(c)
    ensures var d := Checked(c, c.audio.chunk, eosOk, kvOk);
            Counting(d, b) && d.session.silence == Trail(b.value, c.captured[b.at..])
  {
    CheckFacts(c, eosOk, kvOk);
    var n := |c.captured|;
    assert c.captured[b.at..] == c.captured[b.at..n - 1] + [c.audio.chunk];
    assert c.captured[b.at..n] == c.captured[b.at..];
    TrailAppend(b.value, c.captured[b.at..n - 1], c.audio.chunk);
  }

  lemma RebaseFacts(c: Core, e: Event)
    requires Partitioned(c) && Rebases(c, e)
    ensures var d := Step(c, e);
            && d.captured == c.captured && (d.audio.Checking? ==> d.audio == c.audio)
            && (d.current.Some? ==> d.current.value.lo <= |d.captured|)
  {
  }

  lemma RebaseCounts(c: Core, e: Event)
    requires Partitioned(c) && Rebases(c, e)
    requires c.audio.Checking? ==> c.captured != [] && c.captured[|c.captured| - 1] == c.audio.chunk
    ensures Counting(Step(c, e), Base(CheckedUpTo(Step(c, e)), Step(c, e).session.silence))
  {
    RebaseFacts(c, e);
  }

  /** In every state of every run the counter adds the session's checked chunks to its base. */
  lemma {:induction false} CounterOverRuns(es: seq<Event>)
    ensures Counting(Run(es), BaseOf(es))
    decreases |es|
  {
    if es != [] {
      var front, e := es[..|es| - 1], es[|es| - 1];
      var c := Run(front);
      CounterOverRuns(front);
      PartitionOverRuns(front);
      if Rebases(c, e) {
        RebaseCounts(c, e);
      } else if e.Capture? {
        if c.audio.Listening? { CaptureCounts(c, BaseOf(front), e.chunk, e.publishOk); }
      } else if e.Check? {
        if ChecksOwn(c) { CheckCounts(c, BaseOf(front), e.eosOk, e.kvOk); }
      } else {
      }
    }
  }

  /** The counter is the session's trailing silence, and stops the session exactly when that reaches the timeout. */
  ghost predicate Attends(d: Core, chunks: seq<Chunk>) {
    d.session.silence == TrailingSilence(chunks) && (d.audio.AutoStopping? <==> Reached(chunks, d.session.timeout))
  }

  lemma StopFollowsCounter(c: Core, eosOk: bool, kvOk: bool)
    requires ChecksOwn(c) && c.session.sessionId.Some? && c.captured[|c.captured| - 1] == c.audio.chunk
    requires var d := Checked(c, c.audio.chunk, eosOk, kvOk); d.session.silence == TrailingSilence(c.captured[c.current.value.lo..])
    ensures Attends(Checked(c, c.audio.chunk, eosOk, kvOk), c.captured[c.current.value.lo..])
  {
    CheckFacts(c, eosOk, kvOk);
    var chunks := c.captured[c.current.value.lo..];
    assert chunks[|chunks| - 1] == c.audio.chunk;
  }

  lemma TrailsAgree(before: seq<Chunk>, since: seq<Chunk>, value: nat)
    ensures Trail(value, since) == TrailingSilence(before + since) <==> HasLoud(since) || value == TrailingSilence(before)
  {
    TrailOfConcat(0, before, since);
    TrailsFrom(value, since);
    TrailsFrom(TrailingSilence(before), since);
  }

  lemma AttendsFrom(c: Core, b: Base, eosOk: bool, kvOk: bool)
    requires Partitioned(c) && Counting(c, b) && ChecksOwn(c)
    ensures c.current.value.lo <= b.at <= |c.captured|
    ensures Attends(Step(c, Check(eosOk, kvOk)), c.captured[c.current.value.lo..])
            <==> HasLoud(c.captured[b.at..]) || b.value == TrailingSilence(c.captured[c.current.value.lo..b.at])
  {
    CheckCounts(c, b, eosOk, kvOk);
    var before, since := c.captured[c.current.value.lo..b.at], c.captured[b.at..];
    assert c.captured[c.current.value.lo..] == before + since;
    TrailsAgree(before, since, b.value);
    if Step(c, Check(eosOk, kvOk)).session.silence == TrailingSilence(before + since) {
      StopFollowsCounter(c, eosOk, kvOk);
    }
  }

  /**
   After the check of any chunk of any session of any run, the counter and the
   stop are what the session's silence demands if and only if a loud chunk has
   come since the counter was last set or taken over, or it had the right value
   then: zero after a reset, and so right if the session had no silence behind
   it, or the previous session's, and so right if that was zero.
   */
  lemma {:induction false} AttendsExactlyWhen(es: seq<Event>, eosOk: bool, kvOk: bool)
    requires ChecksOwn(Run(es))
    ensures var c, b := Run(es), BaseOf(es);
            && c.current.value.lo <= b.at <= |c.captured|
            && (Attends(Step(c, Check(eosOk, kvOk)), c.captured[c.current.value.lo..])
                <==> HasLoud(c.captured[b.at..]) || b.value == TrailingSilence(c.captured[c.current.value.lo..b.at]))
  {
    CounterOverRuns(es);
    PartitionOverRuns(es);
    AttendsFrom(Run(es), BaseOf(es), eosOk, kvOk);
  }

  // ----- Sessions whose start is not intruded upon -----

  /**
   A chunk of the session comes between its activation and the reset of the
   counter, an earlier session's chunk is checked in it, or it is resumed by recovery.
   */
  predicate Intrudes(c: Core, e: Event) {
    || (e.Capture? && c.audio.Listening? && e.publishOk && Recording(c) && c.ctrl.Configuring?)
    || (e.Check? && c.audio.Checking? && c.current.Some? && !ChecksOwn(c))
    || (e.Crash? && c.kv.Some?)
  }

  predicate Intruded(es: seq<Event>) {
    es != [] && (Intruded(es[..|es| - 1]) || Intrudes(Run(es[..|es| - 1]), es[|es| - 1]))
  }

  /** The session counts from its own start, from zero, and no earlier chunk reached the timeout. */
  ghost predicate Vigilant(c: Core, b: Base) {
    c.current.Some? ==>
      var lo, n, cap := c.current.value.lo, CheckedUpTo(c), c.captured;
      if c.ctrl.Configuring? then lo == |cap|
      else
        && b == Base(lo, 0) && lo <= n <= |cap|
        && (forall k :: lo < k < n ==> !Reached(cap[lo..k], c.session.timeout))
        && (lo < n ==> (c.audio.AutoStopping? <==> Reached(cap[lo..n], c.session.timeout)))
  }

  lemma VigilantCapture(c: Core, b: Base, chunk: Chunk)
    requires Partitioned(c) && Vigilant(c, b) && c.audio.Listening? && Recording(c) && !c.ctrl.Configuring?
    ensures Vigilant(Captured(c, chunk, true), b)
  {
    var lo, n, cap, all := c.current.value.lo, |c.captured|, c.captured, c.captured + [chunk];
    forall k | lo < k <= n ensures !Reached(all[lo..k], c.session.timeout) {
      assert all[lo..k] == cap[lo..k];
    }
  }

  /** Had the chunk before this one reached the timeout, this one would not have been captured. */
  lemma EarlierUnreached(c: Core, b: Base)
    requires Vigilant(c, b) && ChecksOwn(c) && !c.ctrl.Configuring?
    ensures b == Base(c.current.value.lo, 0)
    ensures forall k :: c.current.value.lo < k < |c.captured| ==> !Reached(c.captured[c.current.value.lo..k], c.session.timeout)
  {
  }

  lemma VigilantCheck(c: Core, b: Base, eosOk: bool, kvOk: bool)
    requires Partitioned(c) && Counting(c, b) && Vigilant(c, b) && ChecksOwn(c) && !c.ctrl.Configuring?
    ensures Vigilant(Checked(c, c.audio.chunk, eosOk, kvOk), b)
  {
    EarlierUnreached(c, b);
    CheckFacts(c, eosOk, kvOk);
    CheckCounts(c, b, eosOk, kvOk);
    StopFollowsCounter(c, eosOk, kvOk);
    assert c.captured[c.current.value.lo..|c.captured|] == c.captured[c.current.value.lo..];
  }

  /**
   In every session of every run without such an intrusion: the counter is the
   silence after the last loud chunk the session checked, and an automatic stop is under way
   exactly when its latest chunk is the first at which that reaches the timeout.
   */
  lemma {:induction false} SilenceOverRuns(es: seq<Event>)
    requires !Intruded(es)
    ensures var c := Run(es);
            && Vigilant(c, BaseOf(es))
            && (c.current.Some? && !c.ctrl.Configuring? ==>
                  c.current.value.lo <= CheckedUpTo(c) <= |c.captured|
                  && c.session.silence == TrailingSilence(c.captured[c.current.value.lo..CheckedUpTo(c)]))
    decreases |es|
  {
    CounterOverRuns(es);
    if es != [] {
      var front, e := es[..|es| - 1], es[|es| - 1];
      var c := Run(front);
      SilenceOverRuns(front);
      CounterOverRuns(front);
      PartitionOverRuns(front);
      if e.Capture? && Recording(c) {
        if c.audio.Listening? && e.publishOk { VigilantCapture(c, BaseOf(front), e.chunk); }
      } else if e.Check? && ChecksOwn(c) {
        VigilantCheck(c, BaseOf(front), e.eosOk, e.kvOk);
      } else {
      }
    }
  }

  // ----- The timeout -----

  /** Five minutes from activation and from recovery on, and what was configured from when a start could read it. */
  function TimeoutSet(es: seq<Event>): int {
    if es == [] then 300 else
      var front, e := es[..|es| - 1], es[|es| - 1];
      if e.Crash? || (e.StartActivate? && Run(front).ctrl.Putting?) then 300
      else if e.StartReady? && Run(front).ctrl.Configuring? && e.timeout.Some? then e.timeout.value
      else TimeoutSet(front)
  }

  lemma TimeoutStep(c: Core, e: Event)
    ensures Step(c, e).session.timeout ==
            if e.Crash? || (e.StartActivate? && c.ctrl.Putting?) then 300
            else if e.StartReady? && c.ctrl.Configuring? && e.timeout.Some? then e.timeout.value
            else c.session.timeout
  {
  }

  /** An unreadable configuration leaves the default of this session, never the timeout of an earlier one. */
  lemma {:induction false} TimeoutOverRuns(es: seq<Event>)
    ensures Run(es).session.timeout == TimeoutSet(es)
    decreases |es|
  {
    if es != [] {
      TimeoutOverRuns(es[..|es| - 1]);
      TimeoutStep(Run(es[..|es| - 1]), es[|es| - 1]);
    }
  }

  // ----- Silence left over from the previous session -----

  /** A new session activated over a full counter is stopped at once by one chunk without a loud sample, however short. */
  lemma LeftoverSilenceStopsTheNextSession(c: Core, samples: nat, eosOk: bool, kvOk: bool)
    requires c.ctrl.Putting? && c.audio.Listening?
    requires c.session.silence >= SAMPLE_RATE * DEFAULT_SILENCE_TIMEOUT_S
    ensures var x := SilentChunk(samples);
            var d := Step(Step(Step(c, StartActivate), Capture(x, true)), Check(eosOk, kvOk));
            && d.audio.AutoStopping? && d.current.Some?
            && d.captured == c.captured + [x] && d.current.value.lo == |c.captured|
            && TrailingSilence([x]) == samples
  {
    var x := SilentChunk(samples);
    SilentChunkIsSilent(samples);
    TrailAppend(0, [], x);
    assert [] + [x] == [x];
    var c2 := Step(Step(c, StartActivate), Capture(x, true));
    assert ChecksOwn(c2) && c2.audio.chunk == x && c2.session.silence == c.session.silence;
    assert c2.session.timeout == DEFAULT_SILENCE_TIMEOUT_S && c2.session.sessionId.Some?;
    CheckFacts(c2, eosOk, kvOk);
  }

  /** A session that ends by silence leaves such a counter to the next one. */
  lemma SilentStopLeavesTheCounter(c: Core, sid: string, kvOk: bool)
    requires c.audio.AutoStopping? && c.ctrl.Free? && IsToken(sid)
    ensures var d := Step(Step(c, AutoStopEnd(true)), StartBegin(sid, "", kvOk));
            d.ctrl.Putting? && d.audio.Listening? && d.session.silence == c.session.silence
  {
  }
}
