/** What the partition of the captured stream means for a reader of the logs. */
module ProducerStreams {
  import opened Common
  import opened Messaging
  import opened ProducerSteps
  import opened ProducerPartition

  /** The audio in the first `n` messages of a log, without the end markers. */
  function PayloadsUpTo(msgs: seq<Msg>, n: nat): seq<Chunk>
    requires n <= |msgs|
  {
    if n == 0 then [] else PayloadsUpTo(msgs, n - 1) + if IsEos(msgs[n - 1]) then [] else [msgs[n - 1].data]
  }

  function Payloads(msgs: seq<Msg>): seq<Chunk> {
    PayloadsUpTo(msgs, |msgs|)
  }

  lemma {:induction false} PayloadsOfPrefix(a: seq<Msg>, b: seq<Msg>, n: nat)
    requires n <= |a|
    ensures PayloadsUpTo(a + b, n) == PayloadsUpTo(a, n)
  {
    if n > 0 { PayloadsOfPrefix(a, b, n - 1); }
  }

  lemma {:induction false} PayloadsBeyond(a: seq<Msg>, b: seq<Msg>, n: nat)
    requires n <= |b|
    ensures PayloadsUpTo(a + b, |a| + n) == Payloads(a) + PayloadsUpTo(b, n)
  {
    if n == 0 {
      PayloadsOfPrefix(a, b, |a|);
    } else {
      PayloadsBeyond(a, b, n - 1);
    }
  }

  lemma PayloadsOfConcat(a: seq<Msg>, b: seq<Msg>)
    ensures Payloads(a + b) == Payloads(a) + Payloads(b)
  {
    PayloadsBeyond(a, b, |b|);
  }

  lemma {:induction false} PayloadsOfLive(sid: string, chunks: seq<Chunk>, n: nat)
    requires n <= |chunks|
    ensures PayloadsUpTo(LiveMsgs(sid, chunks), n) == chunks[..n]
  {
    if n > 0 { PayloadsOfLive(sid, chunks, n - 1); }
  }

  lemma PayloadsOfThree(a: seq<Msg>, eos: Msg, b: seq<Msg>)
    requires IsEos(eos)
    ensures Payloads(a + [eos] + b) == Payloads(a) + Payloads(b)
  {
    PayloadsOfConcat(a + [eos], b);
    PayloadsOfConcat(a, [eos]);
    assert PayloadsUpTo([eos], 0) == [] && PayloadsUpTo([eos], 1) == [];
  }

  lemma SliceSplit<T>(s: seq<T>, lo: nat, at: nat, hi: nat)
    requires lo <= at <= hi <= |s|
    ensures s[lo..at] + s[at..hi] == s[lo..hi]
  {
  }

  /** A log without markers. */
  lemma PayloadsOfPiece(cap: seq<Chunk>, sid: string, lo: nat, hi: nat)
    requires lo <= hi <= |cap|
    ensures Payloads(LiveMsgs(sid, cap[lo..hi])) == cap[lo..hi]
  {
    PayloadsOfLive(sid, cap[lo..hi], hi - lo);
  }

  lemma {:induction false} PayloadsOfSpan(cap: seq<Chunk>, span: Span)
    requires Proper(span, |cap|)
    ensures Payloads(SpanLog(cap, span)) == cap[span.lo..span.hi]
    decreases |span.eos|
  {
    if span.eos == [] {
      PayloadsOfPiece(cap, span.sid, span.lo, span.hi);
    } else {
      var k := |span.eos| - 1;
      var at := span.eos[k];
      var inner := span.(hi := at, eos := span.eos[..k]);
      PayloadsOfSpan(cap, inner);
      PayloadsOfPiece(cap, span.sid, at, span.hi);
      PayloadsOfThree(SpanLog(cap, inner), EosMsg(SUBJECT_PREFIX_AUDIO_LIVE, span.sid), LiveMsgs(span.sid, cap[at..span.hi]));
      SliceSplit(cap, span.lo, at, span.hi);
    }
  }

  /** All sessions so far, the one in progress last. */
  function Sessions(c: Core): seq<Span> {
    Closed(c)
  }

  function Recorded(spans: seq<Span>): int {
    if spans == [] then 0
    else Recorded(spans[..|spans| - 1]) + spans[|spans| - 1].hi - spans[|spans| - 1].lo
  }

  lemma {:induction false} RecordedFits(spans: seq<Span>, n: nat)
    requires ProperAll(spans, n)
    ensures 0 <= Recorded(spans) <= n
    decreases |spans|
  {
    if spans != [] { RecordedFits(spans[..|spans| - 1], spans[|spans| - 1].lo); }
  }

  /** Re-interleaves the pre-roll and the session audio by the sessions' bounds. */
  ghost function Rebuild(pre: seq<Chunk>, audio: seq<Chunk>, spans: seq<Span>, n: nat): seq<Chunk>
    requires ProperAll(spans, n) && |audio| == Recorded(spans) && |pre| == n - Recorded(spans)
    decreases |spans|
  {
    if spans == [] then pre else
      var front, last := spans[..|spans| - 1], spans[|spans| - 1];
      RecordedFits(front, last.lo);
      var a, p := |audio| - (last.hi - last.lo), |pre| - (n - last.hi);
      Rebuild(pre[..p], audio[..a], front, last.lo) + audio[a..] + pre[p..]
  }

  /** What the last session and what follows it add to the two logs. */
  lemma LogsOfLastSession(cap: seq<Chunk>, spans: seq<Span>)
    requires spans != [] && ProperAll(spans, |cap|)
    ensures var front, last := spans[..|spans| - 1], spans[|spans| - 1];
            && Payloads(LiveLog(cap, spans)) == Payloads(LiveLog(cap[..last.lo], front)) + cap[last.lo..last.hi]
            && Gaps(cap, spans) == Gaps(cap[..last.lo], front) + cap[last.hi..]
  {
    var front, last := spans[..|spans| - 1], spans[|spans| - 1];
    PayloadsOfConcat(LiveLog(cap[..last.lo], front), SpanLog(cap, last));
    PayloadsOfSpan(cap, last);
  }

  lemma TakeAndDrop<T>(a: seq<T>, b: seq<T>)
    ensures (a + b)[..|a + b| - |b|] == a && (a + b)[|a + b| - |b|..] == b
  {
  }

  lemma {:induction false} LogsRebuild(cap: seq<Chunk>, spans: seq<Span>)
    requires ProperAll(spans, |cap|)
    ensures |Payloads(LiveLog(cap, spans))| == Recorded(spans) && |Gaps(cap, spans)| == |cap| - Recorded(spans)
    ensures Rebuild(Gaps(cap, spans), Payloads(LiveLog(cap, spans)), spans, |cap|) == cap
    decreases |spans|
  {
    if spans != [] {
      var front, last := spans[..|spans| - 1], spans[|spans| - 1];
      LogsRebuild(cap[..last.lo], front);
      LogsOfLastSession(cap, spans);
      TakeAndDrop(Payloads(LiveLog(cap[..last.lo], front)), cap[last.lo..last.hi]);
      TakeAndDrop(Gaps(cap[..last.lo], front), cap[last.hi..]);
    }
  }

  /** The chunks that the broker accepted from the audio task, in order; while it checks a chunk or stops a session the task captures nothing. */
  function AcceptedChunks(es: seq<Event>): seq<Chunk> {
    if es == [] then [] else
      var front, e := es[..|es| - 1], es[|es| - 1];
      AcceptedChunks(front) + if e.Capture? && e.publishOk && Run(front).audio.Listening? then [e.chunk] else []
  }

  lemma {:induction false} CapturedIsAccepted(es: seq<Event>)
    ensures Run(es).captured == AcceptedChunks(es)
    decreases |es|
  {
    if es != [] {
      CapturedIsAccepted(es[..|es| - 1]);
    }
  }

  /** Every accepted chunk is in exactly one of the two logs, and interleaving them by the sessions' bounds gives back the accepted stream. */
  lemma NothingLostOverRuns(es: seq<Event>)
    ensures var c := Run(es);
            && ProperAll(Sessions(c), |AcceptedChunks(es)|)
            && |c.preroll| + |Payloads(c.live)| == |AcceptedChunks(es)|
            && |Payloads(c.live)| == Recorded(Sessions(c))
            && Rebuild(c.preroll, Payloads(c.live), Sessions(c), |AcceptedChunks(es)|) == AcceptedChunks(es)
  {
    CapturedIsAccepted(es);
    PartitionOverRuns(es);
    ClosedIsProper(Run(es));
    LogsRebuild(Run(es).captured, Sessions(Run(es)));
  }
}
