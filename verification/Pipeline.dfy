/** The speech-to-text consumer on runs without failures: every connection hears its session. */
module Pipeline {
  import opened Common
  import opened Messaging
  import opened SttSession
  import opened Consumer

  // ----- What each connection received -----

  function HeardStep(heard: seq<seq<Chunk>>, a: Act): seq<seq<Chunk>> {
    match a
    case Open(_) => heard + [[]]
    case Sent(_, m) =>
      if heard == [] then [[m.data]]
      else heard[|heard| - 1 := heard[|heard| - 1] + [m.data]]
    case _ => heard
  }

  /** The payloads sent on each connection, in order. */
  function Heard(trace: seq<Act>): seq<seq<Chunk>> {
    if trace == [] then [] else HeardStep(Heard(trace[..|trace| - 1]), trace[|trace| - 1])
  }

  lemma HeardOfAppend(trace: seq<Act>, a: Act)
    ensures Heard(trace + [a]) == HeardStep(Heard(trace), a)
  {
    assert (trace + [a])[..|trace|] == trace;
  }

  lemma HeardOfAppend2(trace: seq<Act>, a: Act, b: Act)
    ensures Heard(trace + [a, b]) == HeardStep(HeardStep(Heard(trace), a), b)
  {
    assert trace + [a, b] == (trace + [a]) + [b];
    HeardOfAppend(trace, a);
    HeardOfAppend(trace + [a], b);
  }

  /** What the first `k` connections should have received: each its session's backfill, then its live audio. */
  function Whole(rs: seq<Recording>, k: nat): seq<seq<Chunk>>
    requires k <= |rs|
  {
    seq(k, i requires 0 <= i < k => rs[i].backfill + rs[i].live)
  }

  // ----- The invariant -----

  /** The last `x` of the markers that the session before `k` left on the live subject. */
  function LeftOver(rs: seq<Recording>, k: nat, x: nat): seq<Msg>
    requires k <= |rs|
  {
    if k == 0 then [] else Marks(rs[k - 1].sid, x)
  }

  /** What is ahead on the live subject: markers left over, then session `k` from chunk `j` on. */
  function LiveAhead(rs: seq<Recording>, k: nat, j: nat, x: nat): seq<Msg>
    requires k < |rs| && j <= |rs[k].live|
  {
    LeftOver(rs, k, x)
    + Rest(SUBJECT_PREFIX_AUDIO_LIVE, rs[k].sid, rs[k].live, j, Marks(rs[k].sid, rs[k].extra) + LiveStream(rs, k + 1))
  }

  /** Only markers of the session before `k`, not more than it has, can be left over, and only until session `k`'s audio. */
  ghost predicate LeftFits(rs: seq<Recording>, k: nat, j: nat, x: nat) {
    k <= |rs| && (x > 0 ==> k > 0 && x <= rs[k - 1].extra && j == 0)
  }

  /** In session `k`, with `j` chunks of the lane's `chunks` sent; `ahead` is fetched or still in the subject. */
  ghost predicate InLane(f: Feed, rs: seq<Recording>, k: nat, j: nat, x: nat, lane: Lane, ahead: seq<Msg>)
    requires k < |rs|
  {
    var r := rs[k];
    var heard := Heard(f.stt.trace);
    && f.stt.sid == Some(r.sid) && !f.stt.dgClosed
    && if lane.Backfill? then
         && LeftFits(rs, k, 0, x)
         && j <= |r.backfill|
         && heard == Whole(rs, k) + [r.backfill[..j]]
         && ahead == Rest(SUBJECT_PREFIX_AUDIO_BACKFILL, r.sid, r.backfill, j, BackfillStream(rs, k + 1))
         && f.live == LeftOver(rs, k, x) + LiveStream(rs, k)
       else
         && LeftFits(rs, k, j, x)
         && j <= |r.live|
         && heard == Whole(rs, k) + [r.backfill + r.live[..j]]
         && ahead == LiveAhead(rs, k, j, x)
         && f.backfill == BackfillStream(rs, k + 1)
  }

  ghost predicate Between(f: Feed, rs: seq<Recording>, k: nat, x: nat, ahead: seq<Msg>) {
    && LeftFits(rs, k, 0, x) && Heard(f.stt.trace) == Whole(rs, k)
    && ahead == BackfillStream(rs, k) && f.live == LeftOver(rs, k, x) + LiveStream(rs, k)
  }

  /** Session `k` is next or under way, and the consumer is where it should be in both subjects. */
  ghost predicate At(f: Feed, rs: seq<Recording>, k: nat, j: nat, x: nat) {
    && !f.stt.stopping
    && match f.stt.phase
       case WaitBackfill => Between(f, rs, k, x, f.backfill)
       case Connecting(first) => |first| == 1 && Between(f, rs, k, x, first + f.backfill)
       case Sending(lane, queue) =>
         |queue| == 1 && k < |rs| && InLane(f, rs, k, j, x, lane, queue + if lane.Backfill? then f.backfill else f.live)
       case Fetching(lane) => k < |rs| && InLane(f, rs, k, j, x, lane, if lane.Backfill? then f.backfill else f.live)
       case Flushing => k < |rs| && InLane(f, rs, k, 0, x, Live, f.live)
       case WaitLive => k < |rs| && InLane(f, rs, k, 0, x, Live, f.live)
       case Closing => Between(f, rs, k, x, f.backfill)
       case Stopped => false
  }

  lemma WholeNext(rs: seq<Recording>, k: nat)
    requires k < |rs|
    ensures Whole(rs, k) + [rs[k].backfill + rs[k].live] == Whole(rs, k + 1)
  {
  }

  // ----- One step -----

  /** After `e` the consumer is where it should be. */
  ghost predicate GoesOn(f: Feed, rs: seq<Recording>, e: Turn) {
    exists k, j, x :: At(FeedStep(f, e), rs, k, j, x)
  }

  lemma NothingChanges(f: Feed, rs: seq<Recording>, k: nat, j: nat, x: nat, e: Turn)
    requires At(f, rs, k, j, x) && FeedStep(f, e) == f
    ensures GoesOn(f, rs, e)
  {
  }

  lemma TakeKeeps(f: Feed, rs: seq<Recording>, k: nat, j: nat, x: nat)
    requires At(f, rs, k, j, x)
    ensures GoesOn(f, rs, Take)
  {
    if f.backfill != [] && (f.stt.phase.WaitBackfill? || f.stt.phase == Fetching(Backfill)) {
      assert f.backfill[..1] + f.backfill[1..] == f.backfill;
      var here := At(FeedStep(f, Take), rs, k, j, x);
    } else if f.live != [] && (f.stt.phase.WaitLive? || f.stt.phase == Fetching(Live)) {
      assert f.live[..1] + f.live[1..] == f.live;
      var here := At(FeedStep(f, Take), rs, k, if f.stt.phase.WaitLive? then 0 else j, x);
    } else {
      NothingChanges(f, rs, k, j, x, Take);
    }
  }

  /** The first message of the next session names it. */
  lemma FirstNames(rs: seq<Recording>, k: nat, first: seq<Msg>, rest: seq<Msg>)
    requires Tokens(rs) && k <= |rs| && |first| == 1 && first + rest == BackfillStream(rs, k)
    ensures k < |rs| && SessionIdFromSubject(first[0].subject) == Some(rs[k].sid)
    ensures first + rest == Rest(SUBJECT_PREFIX_AUDIO_BACKFILL, rs[k].sid, rs[k].backfill, 0, BackfillStream(rs, k + 1))
    ensures rs[k].backfill[..0] == []
  {
    assert (first + rest)[0] == first[0];
    var r := rs[k];
    RestSplits(SUBJECT_PREFIX_AUDIO_BACKFILL, r.sid, r.backfill, 0, BackfillStream(rs, k + 1));
    OwnMessage(SUBJECT_PREFIX_AUDIO_BACKFILL, r.sid, if r.backfill == [] then [] else r.backfill[0]);
  }

  lemma ConnectKeeps(f: Feed, rs: seq<Recording>, k: nat, j: nat, x: nat)
    requires Tokens(rs) && At(f, rs, k, j, x) && f.stt.phase.Connecting?
    ensures GoesOn(f, rs, Connects)
  {
    FirstNames(rs, k, f.stt.phase.first, f.backfill);
    var here := At(FeedStep(f, Connects), rs, k, 0, x);
  }

  /** What sending one own chunk does to the consumer, whose connection has received `part` so far. */
  lemma SendAudioStep(s: State, prefix: string, sid: string, chunk: Chunk, before: seq<seq<Chunk>>, part: seq<Chunk>)
    requires IsToken(sid) && s.sid == Some(sid) && !s.dgClosed && !s.stopping
    requires s.phase.Sending? && s.phase.queue == [AudioMsg(prefix, sid, chunk)]
    requires Heard(s.trace) == before + [part]
    ensures var m, lane := s.phase.queue[0], s.phase.lane;
            Step(s, SendEnds(SendOk)) == Log(s, [Sent(lane, m), Acked(lane, m)]).(phase := Fetching(lane))
    ensures Heard(Step(s, SendEnds(SendOk)).trace) == before + [part + [chunk]]
  {
    OwnMessage(prefix, sid, chunk);
    HeardOfAppend2(s.trace, Sent(s.phase.lane, s.phase.queue[0]), Acked(s.phase.lane, s.phase.queue[0]));
  }

  /** What the session's own end marker does to the consumer: the backfill marker starts the flush. */
  lemma BackfillMarkerStep(s: State, sid: string)
    requires IsToken(sid) && s.sid == Some(sid) && !s.dgClosed && !s.stopping
    requires s.phase == Sending(Backfill, [EosMsg(SUBJECT_PREFIX_AUDIO_BACKFILL, sid)])
    ensures var t := Step(s, SendEnds(SendOk));
            && t.phase == Flushing && t.sid == s.sid && !t.stopping && !t.dgClosed && Heard(t.trace) == Heard(s.trace)
  {
    var m := EosMsg(SUBJECT_PREFIX_AUDIO_BACKFILL, sid);
    OwnMessage(SUBJECT_PREFIX_AUDIO_BACKFILL, sid, []);
  }

  /** The live marker closes the connection. */
  lemma LiveMarkerStep(s: State, sid: string)
    requires IsToken(sid) && s.sid == Some(sid) && !s.dgClosed && !s.stopping
    requires s.phase == Sending(Live, [EosMsg(SUBJECT_PREFIX_AUDIO_LIVE, sid)])
    ensures var t := Step(s, SendEnds(SendOk));
            t.phase == Closing && !t.stopping && Heard(t.trace) == Heard(s.trace)
  {
    var m := EosMsg(SUBJECT_PREFIX_AUDIO_LIVE, sid);
    OwnMessage(SUBJECT_PREFIX_AUDIO_LIVE, sid, []);
  }

  lemma TakeOneMore(chunks: seq<Chunk>, j: nat, before: seq<Chunk>)
    requires j < |chunks|
    ensures chunks[..j] + [chunks[j]] == chunks[..j + 1]
    ensures before + chunks[..j] + [chunks[j]] == before + chunks[..j + 1]
  {
    assert chunks[..j] + [chunks[j]] == chunks[..j + 1];
  }

  /** What is at hand in the backfill phase, and what stays in the subject. */
  lemma BackfillHead(f: Feed, rs: seq<Recording>, k: nat, j: nat, x: nat)
    requires At(f, rs, k, j, x) && f.stt.phase.Sending? && f.stt.phase.lane.Backfill?
    ensures var r := rs[k];
            if j < |r.backfill| then
              && f.stt.phase == Sending(Backfill, [AudioMsg(SUBJECT_PREFIX_AUDIO_BACKFILL, r.sid, r.backfill[j])])
              && f.backfill == Rest(SUBJECT_PREFIX_AUDIO_BACKFILL, r.sid, r.backfill, j + 1, BackfillStream(rs, k + 1))
            else
              && f.stt.phase == Sending(Backfill, [EosMsg(SUBJECT_PREFIX_AUDIO_BACKFILL, r.sid)])
              && f.backfill == BackfillStream(rs, k + 1)
  {
    var r := rs[k];
    RestSplits(SUBJECT_PREFIX_AUDIO_BACKFILL, r.sid, r.backfill, j, BackfillStream(rs, k + 1));
    HeadOfAhead(f.stt.phase.queue, f.backfill, f.stt.phase.queue + f.backfill);
  }

  lemma BackfillAudioKeeps(f: Feed, rs: seq<Recording>, k: nat, j: nat, x: nat)
    requires Tokens(rs) && At(f, rs, k, j, x) && f.stt.phase.Sending? && f.stt.phase.lane.Backfill?
    requires j < |rs[k].backfill|
    ensures GoesOn(f, rs, Sends(SendOk))
  {
    var r := rs[k];
    BackfillHead(f, rs, k, j, x);
    TakeOneMore(r.backfill, j, []);
    SendAudioStep(f.stt, SUBJECT_PREFIX_AUDIO_BACKFILL, r.sid, r.backfill[j], Whole(rs, k), r.backfill[..j]);
    var here := At(FeedStep(f, Sends(SendOk)), rs, k, j + 1, x);
  }

  /** With nothing left over the session's own live audio is ahead. */
  lemma LiveAheadSplits(rs: seq<Recording>, k: nat, j: nat)
    requires k < |rs| && j <= |rs[k].live|
    ensures var r, ahead := rs[k], LiveAhead(rs, k, j, 0);
            ahead != [] &&
            if j < |r.live| then ahead[0] == AudioMsg(SUBJECT_PREFIX_AUDIO_LIVE, r.sid, r.live[j]) && ahead[1..] == LiveAhead(rs, k, j + 1, 0)
            else ahead[0] == EosMsg(SUBJECT_PREFIX_AUDIO_LIVE, r.sid) && ahead[1..] == LeftOver(rs, k + 1, r.extra) + LiveStream(rs, k + 1)
  {
    var r := rs[k];
    var later := Marks(r.sid, r.extra) + LiveStream(rs, k + 1);
    RestSplits(SUBJECT_PREFIX_AUDIO_LIVE, r.sid, r.live, j, later);
    NothingLeft(rs, k, Rest(SUBJECT_PREFIX_AUDIO_LIVE, r.sid, r.live, j, later));
    if j < |r.live| {
      NothingLeft(rs, k, Rest(SUBJECT_PREFIX_AUDIO_LIVE, r.sid, r.live, j + 1, later));
    }
  }

  lemma NothingLeft(rs: seq<Recording>, k: nat, later: seq<Msg>)
    requires k <= |rs|
    ensures LeftOver(rs, k, 0) + later == later
  {
  }

  lemma LiveAudioKeeps(f: Feed, rs: seq<Recording>, k: nat, j: nat)
    requires Tokens(rs) && At(f, rs, k, j, 0) && f.stt.phase.Sending? && f.stt.phase.lane.Live?
    requires j < |rs[k].live|
    ensures GoesOn(f, rs, Sends(SendOk))
  {
    var r := rs[k];
    LiveAheadSplits(rs, k, j);
    HeadOfAhead(f.stt.phase.queue, f.live, f.stt.phase.queue + f.live);
    TakeOneMore(r.live, j, r.backfill);
    SendAudioStep(f.stt, SUBJECT_PREFIX_AUDIO_LIVE, r.sid, r.live[j], Whole(rs, k), r.backfill + r.live[..j]);
    var here := At(FeedStep(f, Sends(SendOk)), rs, k, j + 1, 0);
  }

  lemma MarksSplit(sid: string, x: nat, later: seq<Msg>)
    requires x > 0
    ensures (Marks(sid, x) + later)[0] == EosMsg(SUBJECT_PREFIX_AUDIO_LIVE, sid) && (Marks(sid, x) + later)[1..] == Marks(sid, x - 1) + later
  {
    assert Marks(sid, x) == [EosMsg(SUBJECT_PREFIX_AUDIO_LIVE, sid)] + Marks(sid, x - 1);
  }

  /** A marker of another session is acked and skipped. */
  lemma SkippedMarkerStep(s: State, sid: string, other: string)
    requires IsToken(sid) && IsToken(other) && sid != other && s.sid == Some(sid) && !s.dgClosed && !s.stopping
    requires s.phase == Sending(Live, [EosMsg(SUBJECT_PREFIX_AUDIO_LIVE, other)])
    ensures var t := Step(s, SendEnds(SendOk));
            t.phase == Fetching(Live) && t.sid == s.sid && !t.stopping && !t.dgClosed && Heard(t.trace) == Heard(s.trace)
  {
    SessionIdOfSubject(SUBJECT_PREFIX_AUDIO_LIVE, other);
    HeardOfAppend(s.trace, Acked(Live, EosMsg(SUBJECT_PREFIX_AUDIO_LIVE, other)));
  }

  lemma LeftOverKeeps(f: Feed, rs: seq<Recording>, k: nat, j: nat, x: nat)
    requires Tokens(rs) && At(f, rs, k, j, x) && f.stt.phase.Sending? && f.stt.phase.lane.Live? && x > 0
    ensures GoesOn(f, rs, Sends(SendOk))
  {
    var r := rs[k];
    MarksSplit(rs[k - 1].sid, x, Rest(SUBJECT_PREFIX_AUDIO_LIVE, r.sid, r.live, 0, Marks(r.sid, r.extra) + LiveStream(rs, k + 1)));
    HeadOfAhead(f.stt.phase.queue, f.live, f.stt.phase.queue + f.live);
    SkippedMarkerStep(f.stt, r.sid, rs[k - 1].sid);
    var here := At(FeedStep(f, Sends(SendOk)), rs, k, 0, x - 1);
  }

  /** Where the live phase begins. */
  lemma LiveBegins(rs: seq<Recording>, k: nat, x: nat)
    requires k < |rs|
    ensures LeftOver(rs, k, x) + LiveStream(rs, k) == LiveAhead(rs, k, 0, x)
    ensures rs[k].backfill[..|rs[k].backfill|] == rs[k].backfill + rs[k].live[..0]
  {
  }

  lemma BackfillMarkerKeeps(f: Feed, rs: seq<Recording>, k: nat, j: nat, x: nat)
    requires Tokens(rs) && At(f, rs, k, j, x) && f.stt.phase.Sending? && f.stt.phase.lane.Backfill?
    requires j == |rs[k].backfill|
    ensures GoesOn(f, rs, Sends(SendOk))
  {
    var r := rs[k];
    BackfillHead(f, rs, k, j, x);
    LiveBegins(rs, k, x);
    BackfillMarkerStep(f.stt, r.sid);
    var here := At(FeedStep(f, Sends(SendOk)), rs, k, 0, x);
  }

  lemma LiveMarkerKeeps(f: Feed, rs: seq<Recording>, k: nat, j: nat)
    requires Tokens(rs) && At(f, rs, k, j, 0) && f.stt.phase.Sending? && f.stt.phase.lane.Live?
    requires j == |rs[k].live|
    ensures GoesOn(f, rs, Sends(SendOk))
  {
    var r := rs[k];
    LiveAheadSplits(rs, k, j);
    HeadOfAhead(f.stt.phase.queue, f.live, f.stt.phase.queue + f.live);
    LiveMarkerStep(f.stt, r.sid);
    assert r.live[..j] == r.live;
    WholeNext(rs, k);
    var here := At(FeedStep(f, Sends(SendOk)), rs, k + 1, 0, rs[k].extra);
  }

  lemma BackfillSendKeeps(f: Feed, rs: seq<Recording>, k: nat, j: nat, x: nat)
    requires Tokens(rs) && At(f, rs, k, j, x) && f.stt.phase.Sending? && f.stt.phase.lane.Backfill?
    ensures GoesOn(f, rs, Sends(SendOk))
  {
    if j < |rs[k].backfill| {
      BackfillAudioKeeps(f, rs, k, j, x);
    } else {
      BackfillMarkerKeeps(f, rs, k, j, x);
    }
  }

  lemma LiveSendKeeps(f: Feed, rs: seq<Recording>, k: nat, j: nat, x: nat)
    requires Tokens(rs) && At(f, rs, k, j, x) && f.stt.phase.Sending? && f.stt.phase.lane.Live?
    ensures GoesOn(f, rs, Sends(SendOk))
  {
    if x > 0 {
      LeftOverKeeps(f, rs, k, j, x);
    } else if j < |rs[k].live| {
      LiveAudioKeeps(f, rs, k, j);
    } else {
      LiveMarkerKeeps(f, rs, k, j);
    }
  }

  lemma TranscriptKeeps(f: Feed, rs: seq<Recording>, k: nat, j: nat, x: nat, spoken: Spoken)
    requires At(f, rs, k, j, x)
    ensures GoesOn(f, rs, Transcribes(spoken))
  {
    HeardOfAppend(f.stt.trace, Emit(f.stt.tag, spoken));
    var here := At(FeedStep(f, Transcribes(spoken)), rs, k, j, x);
  }

  lemma OtherKeeps(f: Feed, rs: seq<Recording>, k: nat, j: nat, x: nat, e: Turn)
    requires At(f, rs, k, j, x) && Fine(f.stt, e)
    requires e.NothingYet? || e.Retries? || e.Flushes? || e.Drops? || e.Closes?
    ensures GoesOn(f, rs, e)
  {
    var here := At(FeedStep(f, e), rs, k, j, x);
  }

  lemma FeedStepKeeps(f: Feed, rs: seq<Recording>, k: nat, j: nat, x: nat, e: Turn)
    requires Tokens(rs) && At(f, rs, k, j, x) && Fine(f.stt, e)
    ensures GoesOn(f, rs, e)
  {
    if (e.Connects? && !f.stt.phase.Connecting?) || (e.Sends? && !f.stt.phase.Sending?) {
      NothingChanges(f, rs, k, j, x, e);
    } else {
      match e
      case Take => TakeKeeps(f, rs, k, j, x);
      case Connects => ConnectKeeps(f, rs, k, j, x);
      case Sends(_) => if f.stt.phase.lane.Backfill? { BackfillSendKeeps(f, rs, k, j, x); } else { LiveSendKeeps(f, rs, k, j, x); }
      case Transcribes(spoken) => TranscriptKeeps(f, rs, k, j, x, spoken);
      case _ => OtherKeeps(f, rs, k, j, x, e);
    }
  }

  lemma {:induction false} FeedRunKeeps(rs: seq<Recording>, es: seq<Turn>) returns (k: nat, j: nat, x: nat)
    requires Tokens(rs) && FineRun(BackfillStream(rs, 0), LiveStream(rs, 0), es)
    ensures At(FeedRun(BackfillStream(rs, 0), LiveStream(rs, 0), es), rs, k, j, x)
    decreases |es|
  {
    if es == [] {
      k, j, x := 0, 0, 0;
      assert Whole(rs, 0) == [];
      assert LeftOver(rs, 0, 0) + LiveStream(rs, 0) == LiveStream(rs, 0);
    } else {
      k, j, x := FeedRunKeeps(rs, es[..|es| - 1]);
      FeedStepKeeps(FeedRun(BackfillStream(rs, 0), LiveStream(rs, 0), es[..|es| - 1]), rs, k, j, x, es[|es| - 1]);
      k, j, x :| At(FeedRun(BackfillStream(rs, 0), LiveStream(rs, 0), es), rs, k, j, x);
    }
  }

  lemma HeadIsOwn(f: Feed, rs: seq<Recording>, k: nat, j: nat, x: nat)
    requires Tokens(rs) && At(f, rs, k, j, x) && f.stt.phase.Sending?
    ensures Stale(f.stt.sid, f.stt.phase.queue[0]) ==> IsEos(f.stt.phase.queue[0])
  {
    var r := rs[k];
    if f.stt.phase.lane.Backfill? {
      RestSplits(SUBJECT_PREFIX_AUDIO_BACKFILL, r.sid, r.backfill, j, BackfillStream(rs, k + 1));
      HeadOfAhead(f.stt.phase.queue, f.backfill, f.stt.phase.queue + f.backfill);
      OwnMessage(SUBJECT_PREFIX_AUDIO_BACKFILL, r.sid, if j < |r.backfill| then r.backfill[j] else []);
    } else {
      HeadOfAhead(f.stt.phase.queue, f.live, f.stt.phase.queue + f.live);
      var own := Rest(SUBJECT_PREFIX_AUDIO_LIVE, r.sid, r.live, j, Marks(r.sid, r.extra) + LiveStream(rs, k + 1));
      if x > 0 {
        MarksSplit(rs[k - 1].sid, x, own);
      } else {
        LiveAheadSplits(rs, k, j);
        OwnMessage(SUBJECT_PREFIX_AUDIO_LIVE, r.sid, if j < |r.live| then r.live[j] else []);
      }
    }
  }

  ghost predicate IsPrefix(a: seq<Chunk>, b: seq<Chunk>) {
    |a| <= |b| && a == b[..|a|]
  }

  /**
   The first `k` connections have received exactly their sessions' backfill and
   then live audio, and at most one more connection has received part of the
   next session's so far; the message at hand, if it is stale, is a repeated
   marker; and once the backfill is used up and the consumer waits again, every
   session has been heard completely and at most repeated markers are left.
   */
  ghost predicate Hears(f: Feed, rs: seq<Recording>, k: nat) {
    var heard := Heard(f.stt.trace);
    && k <= |rs| && k <= |heard| <= k + 1 && heard[..k] == Whole(rs, k)
    && (|heard| == k + 1 ==> k < |rs| && IsPrefix(heard[k], rs[k].backfill + rs[k].live))
    && (f.stt.phase.Sending? ==> |f.stt.phase.queue| == 1 && (Stale(f.stt.sid, f.stt.phase.queue[0]) ==> IsEos(f.stt.phase.queue[0])))
    && (f.stt.phase.WaitBackfill? && f.backfill == [] ==>
          heard == Whole(rs, |rs|) && f.live == Marks(if rs == [] then "" else rs[|rs| - 1].sid, |f.live|)
          && |f.live| <= if rs == [] then 0 else rs[|rs| - 1].extra)
  }

  lemma AllHeard(f: Feed, rs: seq<Recording>, k: nat, j: nat, x: nat)
    requires At(f, rs, k, j, x) && f.stt.phase.WaitBackfill? && f.backfill == []
    ensures Heard(f.stt.trace) == Whole(rs, |rs|)
    ensures f.live == Marks(if rs == [] then "" else rs[|rs| - 1].sid, |f.live|) && |f.live| <= if rs == [] then 0 else rs[|rs| - 1].extra
  {
  }

  lemma HearsAt(f: Feed, rs: seq<Recording>, k: nat, j: nat, x: nat)
    requires Tokens(rs) && At(f, rs, k, j, x)
    ensures Hears(f, rs, k)
  {
    if f.stt.phase.Sending? {
      HeadIsOwn(f, rs, k, j, x);
    }
    if |Heard(f.stt.trace)| == k + 1 {
    }
    if f.stt.phase.WaitBackfill? && f.backfill == [] {
      AllHeard(f, rs, k, j, x);
    }
  }

  /** On every run without failures, at every moment, connection number i hears session i. */
  lemma {:induction false} ConsumerHearsEverySession(rs: seq<Recording>, es: seq<Turn>) returns (k: nat)
    requires Tokens(rs) && FineRun(BackfillStream(rs, 0), LiveStream(rs, 0), es)
    ensures Hears(FeedRun(BackfillStream(rs, 0), LiveStream(rs, 0), es), rs, k)
  {
    var j, x;
    k, j, x := FeedRunKeeps(rs, es);
    HearsAt(FeedRun(BackfillStream(rs, 0), LiveStream(rs, 0), es), rs, k, j, x);
  }

  // ----- The consumer never gets stuck -----

  predicate Done(f: Feed) {
    f.stt.phase.WaitBackfill? && f.backfill == []
  }

  function NextEvent(p: Phase): Turn {
    match p
    case Connecting(_) => Connects
    case Sending(_, _) => Sends(SendOk)
    case Flushing => Flushes
    case Closing => Closes
    case _ => Take
  }

  function Rank(p: Phase): nat {
    match p
    case Connecting(_) => 3
    case Sending(_, _) => 2
    case Flushing => 1
    case Closing => 1
    case _ => 0
  }

  function Left(f: Feed): nat {
    4 * (|f.backfill| + |f.live|) + Rank(f.stt.phase)
  }

  lemma SendingEnds(f: Feed)
    requires f.stt.phase.Sending? && |f.stt.phase.queue| == 1
    ensures Left(FeedStep(f, Sends(SendOk))) < Left(f)
  {
  }

  lemma Progress(f: Feed, rs: seq<Recording>, k: nat, j: nat, x: nat)
    requires At(f, rs, k, j, x) && !Done(f)
    ensures Left(FeedStep(f, NextEvent(f.stt.phase))) < Left(f)
  {
    if f.stt.phase.Sending? {
      SendingEnds(f);
    }
  }

  /** From every state a run without failures can reach, the consumer can go on until it waits with the backfill used up. */
  lemma {:induction false} NeverStuck(rs: seq<Recording>, es: seq<Turn>) returns (more: seq<Turn>)
    requires Tokens(rs) && FineRun(BackfillStream(rs, 0), LiveStream(rs, 0), es)
    ensures FineRun(BackfillStream(rs, 0), LiveStream(rs, 0), es + more)
    ensures Done(FeedRun(BackfillStream(rs, 0), LiveStream(rs, 0), es + more))
    decreases Left(FeedRun(BackfillStream(rs, 0), LiveStream(rs, 0), es))
  {
    var f := FeedRun(BackfillStream(rs, 0), LiveStream(rs, 0), es);
    var k, j, x := FeedRunKeeps(rs, es);
    if Done(f) {
      more := [];
      assert es + more == es;
    } else {
      var e := NextEvent(f.stt.phase);
      Progress(f, rs, k, j, x);
      FeedRunAppend(BackfillStream(rs, 0), LiveStream(rs, 0), es, e);
      var rest := NeverStuck(rs, es + [e]);
      more := [e] + rest;
      Associative(es, [e], rest);
    }
  }

  // ----- Two sessions' backfill interleaved -----

  function FirstTwo(): seq<Turn> {
    [Take] + [Connects] + [Sends(SendOk)] + [Take] + [Sends(SendOk)]
  }

  lemma FirstTwoSteps(backfill: seq<Msg>, live: seq<Msg>)
    ensures FeedRun(backfill, live, FirstTwo())
            == FeedStep(FeedStep(FeedStep(FeedStep(FeedStep(Feed(INIT, backfill, live), Take), Connects), Sends(SendOk)), Take), Sends(SendOk))
  {
    assert [] + [Take] == [Take];
    FeedRunAppend(backfill, live, [], Take);
    FeedRunAppend(backfill, live, [Take], Connects);
    FeedRunAppend(backfill, live, [Take] + [Connects], Sends(SendOk));
    FeedRunAppend(backfill, live, [Take] + [Connects] + [Sends(SendOk)], Take);
    FeedRunAppend(backfill, live, [Take] + [Connects] + [Sends(SendOk)] + [Take], Sends(SendOk));
  }

  lemma FirstSent(f: Feed, a: string, chunk: Chunk)
    requires IsToken(a) && f.stt == INIT && f.backfill != []
    requires f.backfill[0] == AudioMsg(SUBJECT_PREFIX_AUDIO_BACKFILL, a, chunk)
    ensures var g := FeedStep(FeedStep(FeedStep(f, Take), Connects), Sends(SendOk));
            && g.stt.phase == Fetching(Backfill) && g.stt.sid == Some(a) && !g.stt.dgClosed && !g.stt.stopping
            && g.stt.trace == [Open(Some(a)), Sent(Backfill, f.backfill[0]), Acked(Backfill, f.backfill[0])]
            && g.backfill == f.backfill[1..]
  {
    OwnMessage(SUBJECT_PREFIX_AUDIO_BACKFILL, a, chunk);
    var g := FeedStep(FeedStep(f, Take), Connects);
    assert g.stt.phase == Sending(Backfill, [f.backfill[0]]) && g.stt.trace == [Open(Some(a))];
  }

  /** A chunk of another session that lies between a session's own messages is acked and never sent. */
  lemma InterleavedBackfill(a: string, b: string, chunk: Chunk, backfill: seq<Msg>, live: seq<Msg>)
    requires IsToken(a) && IsToken(b) && a != b && |backfill| >= 2
    requires backfill[0] == AudioMsg(SUBJECT_PREFIX_AUDIO_BACKFILL, a, chunk)
    requires backfill[1] == AudioMsg(SUBJECT_PREFIX_AUDIO_BACKFILL, b, chunk)
    ensures var f := FeedRun(backfill, live, FirstTwo());
            && f.stt.trace == [Open(Some(a)), Sent(Backfill, backfill[0]), Acked(Backfill, backfill[0]), Acked(Backfill, backfill[1])]
            && f.backfill == backfill[2..]
  {
    var f := Feed(INIT, backfill, live);
    OwnMessage(SUBJECT_PREFIX_AUDIO_BACKFILL, b, chunk);
    FirstTwoSteps(backfill, live);
    FirstSent(f, a, chunk);
  }
}
