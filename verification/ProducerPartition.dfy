/** Where every captured chunk goes: to the pre-roll or to exactly one session's live log. */
module ProducerPartition {
  import opened Common
  import opened Messaging
  import opened SilenceDetection
  import opened ProducerSteps

  function LiveMsgs(sid: string, chunks: seq<Chunk>): seq<Msg> {
    seq(|chunks|, i requires 0 <= i < |chunks| => AudioMsg(SUBJECT_PREFIX_AUDIO_LIVE, sid, chunks[i]))
  }

  /** A span that lies inside the captured stream. */
  ghost predicate Proper(span: Span, n: nat) {
    && span.lo <= span.hi <= n
    && (forall i :: 0 <= i < |span.eos| ==> span.lo <= span.eos[i] <= span.hi)
    && (forall i, j :: 0 <= i < j < |span.eos| ==> span.eos[i] <= span.eos[j])
  }

  /** The live log of one session. */
  ghost function SpanLog(cap: seq<Chunk>, span: Span): seq<Msg>
    requires Proper(span, |cap|)
    decreases |span.eos|
  {
    if span.eos == [] then LiveMsgs(span.sid, cap[span.lo..span.hi]) else
      var k := |span.eos| - 1;
      var at := span.eos[k];
      SpanLog(cap, span.(hi := at, eos := span.eos[..k]))
      + [EosMsg(SUBJECT_PREFIX_AUDIO_LIVE, span.sid)] + LiveMsgs(span.sid, cap[at..span.hi])
  }

  /** Sessions follow one another inside the first `n` captured chunks. */
  ghost predicate ProperAll(spans: seq<Span>, n: nat)
    decreases |spans|
  {
    spans != [] ==>
      && Proper(spans[|spans| - 1], n)
      && ProperAll(spans[..|spans| - 1], spans[|spans| - 1].lo)
  }

  /** The live logs of all sessions, one after the other. */
  ghost function LiveLog(cap: seq<Chunk>, spans: seq<Span>): seq<Msg>
    requires ProperAll(spans, |cap|)
    decreases |spans|
  {
    if spans == [] then [] else
      var last := spans[|spans| - 1];
      LiveLog(cap[..last.lo], spans[..|spans| - 1]) + SpanLog(cap, last)
  }

  /** The captured chunks outside every session. */
  ghost function Gaps(cap: seq<Chunk>, spans: seq<Span>): seq<Chunk>
    requires ProperAll(spans, |cap|)
    decreases |spans|
  {
    if spans == [] then cap else
      var last := spans[|spans| - 1];
      Gaps(cap[..last.lo], spans[..|spans| - 1]) + cap[last.hi..]
  }

  ghost predicate Partitioned(c: Core) {
    && c.session.isActive == c.session.sessionId.Some? == c.current.Some?
    && match c.current
       case None =>
         ProperAll(c.past, |c.captured|)
         && c.live == LiveLog(c.captured, c.past)
         && c.preroll == Gaps(c.captured, c.past)
       case Some(span) =>
         Proper(span, |c.captured|) && span.hi == |c.captured| && ProperAll(c.past, span.lo)
         && c.live == LiveLog(c.captured[..span.lo], c.past) + SpanLog(c.captured, span)
         && c.preroll == Gaps(c.captured[..span.lo], c.past)
         && c.session.sessionId == Some(span.sid)
  }

  // ----- How the logs grow -----

  lemma {:induction false} SpanLogStable(cap: seq<Chunk>, x: Chunk, span: Span)
    requires Proper(span, |cap|)
    ensures SpanLog(cap + [x], span) == SpanLog(cap, span)
    decreases |span.eos|
  {
    var grown := cap + [x];
    assert grown[span.lo..span.hi] == cap[span.lo..span.hi];
    if span.eos != [] {
      var k := |span.eos| - 1;
      SpanLogStable(cap, x, span.(hi := span.eos[k], eos := span.eos[..k]));
      assert grown[span.eos[k]..span.hi] == cap[span.eos[k]..span.hi];
    }
  }

  lemma SegmentChunk(cap: seq<Chunk>, x: Chunk, sid: string, lo: nat)
    requires lo <= |cap|
    ensures LiveMsgs(sid, (cap + [x])[lo..|cap| + 1]) == LiveMsgs(sid, cap[lo..|cap|]) + [AudioMsg(SUBJECT_PREFIX_AUDIO_LIVE, sid, x)]
  {
    assert (cap + [x])[lo..|cap| + 1] == cap[lo..] + [x] && cap[lo..|cap|] == cap[lo..];
  }

  lemma SpanLogChunk(cap: seq<Chunk>, x: Chunk, span: Span)
    requires Proper(span, |cap|) && span.hi == |cap|
    ensures SpanLog(cap + [x], span.(hi := span.hi + 1))
            == SpanLog(cap, span) + [AudioMsg(SUBJECT_PREFIX_AUDIO_LIVE, span.sid, x)]
  {
    var longer := span.(hi := span.hi + 1);
    if span.eos == [] {
      SegmentChunk(cap, x, span.sid, span.lo);
    } else {
      var k := |span.eos| - 1;
      var inner := span.(hi := span.eos[k], eos := span.eos[..k]);
      assert longer.(hi := span.eos[k], eos := span.eos[..k]) == inner;
      SpanLogStable(cap, x, inner);
      SegmentChunk(cap, x, span.sid, span.eos[k]);
    }
  }

  lemma SpanLogEos(cap: seq<Chunk>, span: Span)
    requires Proper(span, |cap|) && span.hi == |cap|
    ensures Proper(span.(eos := span.eos + [|cap|]), |cap|)
    ensures SpanLog(cap, span.(eos := span.eos + [|cap|]))
            == SpanLog(cap, span) + [EosMsg(SUBJECT_PREFIX_AUDIO_LIVE, span.sid)]
  {
    var marked := span.(eos := span.eos + [|cap|]);
    assert marked.eos[..|span.eos|] == span.eos;
    assert marked.(hi := |cap|, eos := marked.eos[..|span.eos|]) == span;
    assert LiveMsgs(span.sid, cap[|cap|..span.hi]) == [];
  }

  /** A chunk outside every session. */
  lemma GrowOutside(cap: seq<Chunk>, x: Chunk, spans: seq<Span>)
    requires ProperAll(spans, |cap|)
    ensures ProperAll(spans, |cap + [x]|)
    ensures LiveLog(cap + [x], spans) == LiveLog(cap, spans)
    ensures Gaps(cap + [x], spans) == Gaps(cap, spans) + [x]
  {
    if spans != [] {
      var last := spans[|spans| - 1];
      assert (cap + [x])[..last.lo] == cap[..last.lo];
      assert (cap + [x])[last.hi..] == cap[last.hi..] + [x];
      SpanLogStable(cap, x, last);
    }
  }

  // ----- One step -----

  lemma ActivateKeeps(c: Core)
    requires Partitioned(c) && c.ctrl.Putting? && c.current.None?
    ensures Partitioned(Activated(c))
  {
    var n := |c.captured|;
    assert c.captured[..n] == c.captured;
    assert LiveMsgs(c.ctrl.sid, c.captured[n..n]) == [];
  }

  lemma PublishedStopKeeps(c: Core, eosOk: bool)
    requires Partitioned(c)
    ensures Partitioned(StopPublished(c, eosOk))
  {
    if c.current.Some? && eosOk {
      SpanLogEos(c.captured, c.current.value);
    }
  }

  lemma ClosedIsProper(c: Core)
    requires Partitioned(c)
    ensures ProperAll(Closed(c), |c.captured|)
    ensures c.live == LiveLog(c.captured, Closed(c)) && c.preroll == Gaps(c.captured, Closed(c))
  {
    if c.current.Some? {
      assert c.captured[c.current.value.hi..] == [];
    }
  }

  lemma FinishedStopKeeps(c: Core, kvOk: bool)
    requires Partitioned(c)
    ensures Partitioned(StopFinished(c, kvOk))
  {
    ClosedIsProper(c);
  }

  lemma CrashKeeps(c: Core)
    requires Partitioned(c)
    ensures Partitioned(Crashed(c))
  {
    ClosedIsProper(c);
    var n := |c.captured|;
    assert c.captured[..n] == c.captured;
    if c.kv.Some? {
      assert LiveMsgs(c.kv.value.sessionId, c.captured[n..n]) == [];
    }
  }

  lemma PublishedChunkKeeps(c: Core, chunk: Chunk)
    requires Partitioned(c) && Recording(c)
    ensures Partitioned(ChunkPublished(c, chunk))
  {
    var span := c.current.value;
    SpanLogChunk(c.captured, chunk, span);
    assert (c.captured + [chunk])[..span.lo] == c.captured[..span.lo];
  }

  lemma CaptureKeeps(c: Core, chunk: Chunk, publishOk: bool)
    requires Partitioned(c)
    ensures Partitioned(Captured(c, chunk, publishOk))
  {
    if publishOk {
      if Recording(c) {
        PublishedChunkKeeps(c, chunk);
      } else {
        GrowOutside(c.captured, chunk, c.past);
      }
    }
  }

  lemma CheckKeeps(c: Core, chunk: Chunk, eosOk: bool, kvOk: bool)
    requires Partitioned(c)
    ensures Partitioned(Checked(c, chunk, eosOk, kvOk))
  {
    var silence := Counted(c.session.silence, chunk);
    if silence.Some? {
      var counted := c.(session := c.session.(silence := silence.value), audio := Listening);
      PublishedStopKeeps(counted, eosOk);
      FinishedStopKeeps(counted, kvOk);
    }
  }

  /** Only the control task activates a session, and it does so from idle. */
  ghost predicate StartsIdle(c: Core) {
    c.ctrl.Putting? ==> c.current.None?
  }

  lemma StepKeeps(c: Core, e: Event)
    requires Partitioned(c) && StartsIdle(c)
    ensures Partitioned(Step(c, e))
  {
    if Enabled(c, e) {
      match e
      case StartActivate => ActivateKeeps(c);
      case StopBegin(eosOk) => PublishedStopKeeps(c, eosOk);
      case StopEnd(kvOk) => FinishedStopKeeps(c, kvOk);
      case Capture(chunk, publishOk) => CaptureKeeps(c, chunk, publishOk);
      case Check(eosOk, kvOk) => CheckKeeps(c, c.audio.chunk, eosOk, kvOk);
      case AutoStopEnd(kvOk) => FinishedStopKeeps(c, kvOk);
      case Crash => CrashKeeps(c);
      case _ =>
    }
  }

  /**
   Over every run, under any interleaving of the two tasks, any failures and any
   crashes: the live subject holds the sessions' logs one after the other, each
   a contiguous run of the captured stream, and the pre-roll holds exactly the
   chunks outside every session, in order.
   */
  lemma {:induction false} PartitionOverRuns(es: seq<Event>)
    ensures Partitioned(Run(es)) && StartsIdle(Run(es))
    decreases |es|
  {
    if es == [] {
      assert LiveLog([], []) == [] && Gaps([], []) == [];
    } else {
      PartitionOverRuns(es[..|es| - 1]);
      StepKeeps(Run(es[..|es| - 1]), es[|es| - 1]);
    }
  }
}
