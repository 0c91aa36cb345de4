/** The speech-to-text consumer on its two subjects, which hold sessions one after the other. */
module Consumer {
  import opened Common
  import opened Messaging
  import opened SttSession

  /** The audio of one session on its two subjects; `extra` end markers follow the first on the live one. */
  datatype Recording = Recording(sid: string, backfill: seq<Chunk>, live: seq<Chunk>, extra: nat)

  function AudioMsgs(prefix: string, sid: string, chunks: seq<Chunk>): seq<Msg> {
    seq(|chunks|, i requires 0 <= i < |chunks| => AudioMsg(prefix, sid, chunks[i]))
  }

  /** `n` end markers on the live subject. */
  function Marks(sid: string, n: nat): seq<Msg> {
    seq(n, _ => EosMsg(SUBJECT_PREFIX_AUDIO_LIVE, sid))
  }

  /** One session's chunks from number `j` on, its end marker, and what follows. */
  function Rest(prefix: string, sid: string, chunks: seq<Chunk>, j: nat, later: seq<Msg>): seq<Msg>
    requires j <= |chunks|
  {
    AudioMsgs(prefix, sid, chunks[j..]) + [EosMsg(prefix, sid)] + later
  }

  /** The backfill subject from session `k` on. */
  function BackfillStream(rs: seq<Recording>, k: nat): seq<Msg>
    requires k <= |rs|
    decreases |rs| - k
  {
    if k == |rs| then []
    else Rest(SUBJECT_PREFIX_AUDIO_BACKFILL, rs[k].sid, rs[k].backfill, 0, BackfillStream(rs, k + 1))
  }

  function LiveStream(rs: seq<Recording>, k: nat): seq<Msg>
    requires k <= |rs|
    decreases |rs| - k
  {
    if k == |rs| then []
    else Rest(SUBJECT_PREFIX_AUDIO_LIVE, rs[k].sid, rs[k].live, 0, Marks(rs[k].sid, rs[k].extra) + LiveStream(rs, k + 1))
  }

  /** Every id is a token, and repeated markers are not taken for the next session's. */
  ghost predicate Tokens(rs: seq<Recording>) {
    && (forall i :: 0 <= i < |rs| ==> IsToken(rs[i].sid))
    && (forall i :: 0 <= i < |rs| - 1 && rs[i].extra > 0 ==> rs[i].sid != rs[i + 1].sid)
  }

  /** The consumer with what it has not yet fetched of either subject. */
  datatype Feed = Feed(stt: State, backfill: seq<Msg>, live: seq<Msg>)

  /** What happens to the consumer while the service runs; anything that can fail may. */
  datatype Turn =
    | Take                          // fetch the next message, if there is one
    | NothingYet                    // a fetch times out or fails
    | Connects
    | Retries
    | Sends(outcome: SendOutcome)   // the message at hand is dealt with
    | Flushes
    | Transcribes(spoken: Spoken)
    | Drops                         // the connection's transcript stream ends
    | Closes

  function FeedStep(f: Feed, e: Turn): Feed {
    match e
    case Take =>
      if f.backfill != [] && (f.stt.phase.WaitBackfill? || f.stt.phase == Fetching(Backfill)) then
        Feed(Step(f.stt, Fetched(f.backfill[..1])), f.backfill[1..], f.live)
      else if f.live != [] && (f.stt.phase.WaitLive? || f.stt.phase == Fetching(Live)) then
        Feed(Step(f.stt, Fetched(f.live[..1])), f.backfill, f.live[1..])
      else f
    case NothingYet => f.(stt := Step(f.stt, FetchFails))
    case Connects => f.(stt := Step(f.stt, ConnectOk))
    case Retries => f.(stt := Step(f.stt, ConnectFails))
    case Sends(outcome) => f.(stt := Step(f.stt, SendEnds(outcome)))
    case Flushes => f.(stt := Step(f.stt, FlushEnds))
    case Transcribes(spoken) => f.(stt := Step(f.stt, Transcript(spoken)))
    case Drops => f.(stt := Step(f.stt, ConnectionDrops))
    case Closes => f.(stt := Step(f.stt, DrainEnds))
  }

  function FeedRun(backfill: seq<Msg>, live: seq<Msg>, es: seq<Turn>): Feed {
    if es == [] then Feed(INIT, backfill, live)
    else FeedStep(FeedRun(backfill, live, es[..|es| - 1]), es[|es| - 1])
  }

  lemma FeedRunAppend(backfill: seq<Msg>, live: seq<Msg>, es: seq<Turn>, e: Turn)
    ensures FeedRun(backfill, live, es + [e]) == FeedStep(FeedRun(backfill, live, es), e)
  {
    assert (es + [e])[..|es|] == es;
  }

  /** Nothing fails on an open connection; fetches may time out, connects may be retried, and the stream ends with the connection. */
  predicate Fine(s: State, e: Turn) {
    (e.Sends? ==> e.outcome.SendOk?) && (e.Drops? ==> s.phase.Closing?)
  }

  predicate FineRun(backfill: seq<Msg>, live: seq<Msg>, es: seq<Turn>) {
    es != [] ==>
      FineRun(backfill, live, es[..|es| - 1]) && Fine(FeedRun(backfill, live, es[..|es| - 1]).stt, es[|es| - 1])
  }

  lemma OwnMessage(prefix: string, sid: string, chunk: Chunk)
    requires IsToken(sid)
    ensures !Stale(Some(sid), AudioMsg(prefix, sid, chunk)) && !IsEos(AudioMsg(prefix, sid, chunk))
    ensures !Stale(Some(sid), EosMsg(prefix, sid)) && IsEos(EosMsg(prefix, sid))
    ensures SessionIdFromSubject(AudioMsg(prefix, sid, chunk).subject) == Some(sid)
    ensures SessionIdFromSubject(EosMsg(prefix, sid).subject) == Some(sid)
  {
    SessionIdOfSubject(prefix, sid);
  }

  lemma RestSplits(prefix: string, sid: string, chunks: seq<Chunk>, j: nat, later: seq<Msg>)
    requires j <= |chunks|
    ensures var rest := Rest(prefix, sid, chunks, j, later);
            rest != [] &&
            if j < |chunks| then rest[0] == AudioMsg(prefix, sid, chunks[j]) && rest[1..] == Rest(prefix, sid, chunks, j + 1, later)
            else rest[0] == EosMsg(prefix, sid) && rest[1..] == later
  {
    if j < |chunks| {
      assert AudioMsgs(prefix, sid, chunks[j..]) == [AudioMsg(prefix, sid, chunks[j])] + AudioMsgs(prefix, sid, chunks[j + 1..]);
    }
  }

  lemma HeadOfAhead(queue: seq<Msg>, rest: seq<Msg>, ahead: seq<Msg>)
    requires |queue| == 1 && ahead == queue + rest
    ensures queue == [ahead[0]] && rest == ahead[1..]
  {
  }
}
