/**
 What failures of the consumer lose.  Sends and acks may fail and connections
 may drop in any phase; the subjects still hold the sessions in order.
 */
module Losses {
  import opened Common
  import opened Messaging
  import opened SttSession
  import opened Consumer

  // ----- Sessions whose connection is over -----

  /** From the trace alone: whose backfill marker the open connection has acked, and which sessions' connections were finished after that. */
  datatype Notes = Notes(marked: Option<string>, retired: set<string>)

  function Noted(n: Notes, a: Act): Notes {
    match a
    case Open(_) => n.(marked := None)
    case Acked(lane, m) => if lane.Backfill? && IsEos(m) then n.(marked := SessionIdFromSubject(m.subject)) else n
    case Finished => if n.marked.Some? then Notes(None, n.retired + {n.marked.value}) else n
    case _ => n
  }

  function NotesOf(trace: seq<Act>): Notes {
    if trace == [] then Notes(None, {}) else Noted(NotesOf(trace[..|trace| - 1]), trace[|trace| - 1])
  }

  lemma NotesOfAppend(trace: seq<Act>, a: Act)
    ensures NotesOf(trace + [a]) == Noted(NotesOf(trace), a)
  {
    assert (trace + [a])[..|trace|] == trace;
  }

  lemma NotesOfAppend2(trace: seq<Act>, a: Act, b: Act)
    ensures NotesOf(trace + [a, b]) == Noted(Noted(NotesOf(trace), a), b)
    ensures NotesOf(trace + [a] + [b]) == Noted(Noted(NotesOf(trace), a), b)
  {
    assert trace + [a, b] == (trace + [a]) + [b];
    NotesOfAppend(trace, a);
    NotesOfAppend(trace + [a], b);
  }

  /** The session that `m` names is over. */
  predicate Late(n: Notes, m: Msg) {
    var sid := SessionIdFromSubject(m.subject);
    sid.Some? && sid.value in n.retired
  }

  // ----- What was dealt with -----

  /** A message that was dealt with, what became of it, and whether its session was over by then. */
  datatype Entry = Entry(lane: Lane, msg: Msg, fate: Fate, late: bool)

  function NewEntries(s: State, e: Turn): seq<Entry> {
    if e.Sends? && s.phase.Sending? && s.phase.queue != [] then
      var m := s.phase.queue[0];
      [Entry(s.phase.lane, m, FateOf(s.sid, m, e.outcome), Late(NotesOf(s.trace), m))]
    else []
  }

  function Entries(backfill: seq<Msg>, live: seq<Msg>, es: seq<Turn>): seq<Entry> {
    if es == [] then [] else
      var front := es[..|es| - 1];
      Entries(backfill, live, front) + NewEntries(FeedRun(backfill, live, front).stt, es[|es| - 1])
  }

  function Dealt(entries: seq<Entry>, lane: Lane): seq<Msg> {
    if entries == [] then [] else
      var e := entries[|entries| - 1];
      Dealt(entries[..|entries| - 1], lane) + if e.lane == lane then [e.msg] else []
  }

  /** What has been fetched but not dealt with. */
  function AtHand(p: Phase, lane: Lane): seq<Msg> {
    match p
    case Connecting(first) => if lane.Backfill? then first else []
    case Sending(l, queue) => if l == lane then queue else []
    case _ => []
  }

  function Unfetched(f: Feed, lane: Lane): seq<Msg> {
    if lane.Backfill? then f.backfill else f.live
  }

  // ----- Subjects in session order -----

  /** `owners` says which session each message belongs to; from session `k` on, sessions follow one another, each ends in markers. */
  ghost predicate InOrder(rs: seq<Recording>, msgs: seq<Msg>, owners: seq<nat>, k: nat) {
    && |owners| == |msgs|
    && (forall i :: 0 <= i < |msgs| ==> owners[i] < |rs| && SessionIdFromSubject(msgs[i].subject) == Some(rs[owners[i]].sid))
    && (msgs != [] ==> owners[0] == k && IsEos(msgs[|msgs| - 1]))
    && (forall i :: 0 <= i < |msgs| - 1 ==> owners[i + 1] == owners[i] || (owners[i + 1] == owners[i] + 1 && IsEos(msgs[i])))
  }

  /** The marker is the last message of its session. */
  ghost predicate OneMarker(msgs: seq<Msg>, owners: seq<nat>)
    requires |owners| == |msgs|
  {
    forall i :: 0 <= i < |msgs| - 1 && IsEos(msgs[i]) ==> owners[i + 1] == owners[i] + 1
  }

  function Owned(n: nat, k: nat): seq<nat> {
    seq(n, _ => k)
  }

  function BackfillOwners(rs: seq<Recording>, k: nat): seq<nat>
    requires k <= |rs|
    decreases |rs| - k
  {
    if k == |rs| then [] else Owned(|rs[k].backfill| + 1, k) + BackfillOwners(rs, k + 1)
  }

  function LiveOwners(rs: seq<Recording>, k: nat): seq<nat>
    requires k <= |rs|
    decreases |rs| - k
  {
    if k == |rs| then [] else Owned(|rs[k].live| + 1 + rs[k].extra, k) + LiveOwners(rs, k + 1)
  }

  /** One session's messages: audio and then at least one marker. */
  ghost predicate IsBlock(block: seq<Msg>, sid: string) {
    && block != [] && IsEos(block[|block| - 1])
    && (forall i :: 0 <= i < |block| ==> SessionIdFromSubject(block[i].subject) == Some(sid))
  }

  lemma BlockBefore(rs: seq<Recording>, k: nat, block: seq<Msg>, later: seq<Msg>, owners: seq<nat>)
    requires k < |rs| && IsBlock(block, rs[k].sid) && InOrder(rs, later, owners, k + 1)
    ensures InOrder(rs, block + later, Owned(|block|, k) + owners, k)
  {
    var all, o := block + later, Owned(|block|, k) + owners;
    if later == [] {
      assert all == block;
    }
    forall i | 0 <= i < |all| - 1 ensures o[i + 1] == o[i] || (o[i + 1] == o[i] + 1 && IsEos(all[i])) {
      if i >= |block| {
        var d := i - |block|;
        assert o[i] == owners[d] && o[i + 1] == owners[d + 1] && all[i] == later[d];
      }
    }
  }

  lemma AudioBlock(prefix: string, sid: string, chunks: seq<Chunk>, n: nat)
    requires IsToken(sid) && (prefix == SUBJECT_PREFIX_AUDIO_LIVE || n == 0)
    ensures var block := AudioMsgs(prefix, sid, chunks) + [EosMsg(prefix, sid)] + Marks(sid, n);
            && IsBlock(block, sid) && |block| == |chunks| + 1 + n
            && (forall i :: 0 <= i < |chunks| ==> !IsEos(block[i]))
            && (n == 0 ==> block == AudioMsgs(prefix, sid, chunks) + [EosMsg(prefix, sid)])
  {
    SessionIdOfSubject(prefix, sid);
    SessionIdOfSubject(SUBJECT_PREFIX_AUDIO_LIVE, sid);
  }

  lemma OneMarkerBefore(block: seq<Msg>, k: nat, later: seq<Msg>, owners: seq<nat>)
    requires block != [] && |owners| == |later| && OneMarker(later, owners) && (later != [] ==> owners[0] == k + 1)
    requires forall i :: 0 <= i < |block| - 1 ==> !IsEos(block[i])
    ensures OneMarker(block + later, Owned(|block|, k) + owners)
  {
    var all, o := block + later, Owned(|block|, k) + owners;
    forall i | 0 <= i < |all| - 1 && IsEos(all[i]) ensures o[i + 1] == o[i] + 1 {
      if i >= |block| {
        var d := i - |block|;
        assert o[i] == owners[d] && o[i + 1] == owners[d + 1] && all[i] == later[d];
      }
    }
  }

  lemma {:induction false} BackfillInOrder(rs: seq<Recording>, k: nat)
    requires Tokens(rs) && k <= |rs|
    ensures InOrder(rs, BackfillStream(rs, k), BackfillOwners(rs, k), k) && OneMarker(BackfillStream(rs, k), BackfillOwners(rs, k))
    decreases |rs| - k
  {
    if k < |rs| {
      var r := rs[k];
      var block := AudioMsgs(SUBJECT_PREFIX_AUDIO_BACKFILL, r.sid, r.backfill) + [EosMsg(SUBJECT_PREFIX_AUDIO_BACKFILL, r.sid)];
      BackfillInOrder(rs, k + 1);
      AudioBlock(SUBJECT_PREFIX_AUDIO_BACKFILL, r.sid, r.backfill, 0);
      assert r.backfill[0..] == r.backfill;
      assert BackfillStream(rs, k) == block + BackfillStream(rs, k + 1);
      BlockBefore(rs, k, block, BackfillStream(rs, k + 1), BackfillOwners(rs, k + 1));
      OneMarkerBefore(block, k, BackfillStream(rs, k + 1), BackfillOwners(rs, k + 1));
    }
  }

  lemma {:induction false} LiveInOrder(rs: seq<Recording>, k: nat)
    requires Tokens(rs) && k <= |rs|
    ensures InOrder(rs, LiveStream(rs, k), LiveOwners(rs, k), k)
    decreases |rs| - k
  {
    if k < |rs| {
      var r, audio, later := rs[k], AudioMsgs(SUBJECT_PREFIX_AUDIO_LIVE, rs[k].sid, rs[k].live), LiveStream(rs, k + 1);
      var block := audio + [EosMsg(SUBJECT_PREFIX_AUDIO_LIVE, r.sid)] + Marks(r.sid, r.extra);
      LiveInOrder(rs, k + 1);
      AudioBlock(SUBJECT_PREFIX_AUDIO_LIVE, r.sid, r.live, r.extra);
      assert r.live[0..] == r.live;
      Associative(audio + [EosMsg(SUBJECT_PREFIX_AUDIO_LIVE, r.sid)], Marks(r.sid, r.extra), later);
      BlockBefore(rs, k, block, later, LiveOwners(rs, k + 1));
    }
  }

  // ----- The invariant -----

  /** Both subjects with their owners. */
  datatype Subjects = Subjects(backfill: seq<Msg>, backfillOwners: seq<nat>, live: seq<Msg>, liveOwners: seq<nat>)

  ghost function SubjectsOf(rs: seq<Recording>): Subjects {
    Subjects(BackfillStream(rs, 0), BackfillOwners(rs, 0), LiveStream(rs, 0), LiveOwners(rs, 0))
  }

  ghost predicate Sized(s: Subjects) {
    |s.backfillOwners| == |s.backfill| && |s.liveOwners| == |s.live|
  }

  ghost predicate Ordered(rs: seq<Recording>, s: Subjects) {
    && Sized(s)
    && InOrder(rs, s.backfill, s.backfillOwners, 0) && OneMarker(s.backfill, s.backfillOwners)
    && InOrder(rs, s.live, s.liveOwners, 0)
    && (forall i :: 0 <= i < |rs| ==> IsToken(rs[i].sid))
  }

  ghost predicate Distinct(rs: seq<Recording>) {
    forall i, j :: 0 <= i < j < |rs| ==> rs[i].sid != rs[j].sid
  }

  /** The session whose backfill is next when `i` backfill messages have been dealt with. */
  function Next(s: Subjects, i: nat): nat
    requires Sized(s) && i <= |s.backfill|
  {
    if i == 0 then 0 else s.backfillOwners[i - 1] + if IsEos(s.backfill[i - 1]) then 1 else 0
  }

  /** The ids of the first `c` sessions. */
  function Ids(rs: seq<Recording>, c: nat): set<string>
    requires c <= |rs|
  {
    if c == 0 then {} else Ids(rs, c - 1) + {rs[c - 1].sid}
  }

  lemma {:induction false} InIds(rs: seq<Recording>, c: nat, k: nat)
    requires Distinct(rs) && c <= |rs| && k < |rs|
    ensures rs[k].sid in Ids(rs, c) <==> k < c
  {
    if c > 0 { InIds(rs, c - 1, k); }
  }

  /** Exactly the sessions before `c` are over. */
  ghost predicate OverBefore(n: Notes, rs: seq<Recording>, c: nat) {
    c <= |rs| && n.retired == Ids(rs, c)
  }

  /** With `j` live messages dealt with, the next one is of no session after `c`. */
  ghost predicate NotBeyond(s: Subjects, j: nat, c: nat)
    requires Sized(s)
  {
    j < |s.live| ==> s.liveOwners[j] <= c
  }

  /** Before session `c`'s backfill marker. */
  ghost predicate Before(n: Notes, rs: seq<Recording>, s: Subjects, c: nat, j: nat)
    requires Sized(s)
  {
    n.marked.None? && OverBefore(n, rs, c) && NotBeyond(s, j, c)
  }

  /** After session `c`'s backfill marker, on the same connection. */
  ghost predicate During(n: Notes, rs: seq<Recording>, s: Subjects, c: nat, j: nat, sid: Option<string>)
    requires Sized(s)
  {
    c < |rs| && sid == Some(rs[c].sid) && n.marked == sid && OverBefore(n, rs, c) && NotBeyond(s, j, c)
  }

  /** Between the session's backfill marker and the end of its connection. */
  predicate LivePhase(p: Phase) {
    p.Flushing? || p.WaitLive? || ((p.Sending? || p.Fetching?) && p.lane.Live?)
  }

  predicate BackfillPhase(p: Phase) {
    (p.Sending? || p.Fetching?) && p.lane.Backfill?
  }

  /** One message is at hand where one is dealt with. */
  predicate OneAtATime(p: Phase) {
    (p.Connecting? ==> |p.first| == 1) && (p.Sending? ==> |p.queue| == 1)
  }

  /** With `i` backfill and `j` live messages dealt with, session `c`'s backfill is next. */
  ghost predicate Placed(t: State, rs: seq<Recording>, s: Subjects, c: nat, j: nat)
    requires Sized(s)
  {
    && !t.stopping && !t.phase.Stopped? && OneAtATime(t.phase)
    && if LivePhase(t.phase) then c > 0 && During(NotesOf(t.trace), rs, s, c - 1, j, t.sid)
       else Before(NotesOf(t.trace), rs, s, c, j) && (BackfillPhase(t.phase) ==> c < |rs| && t.sid == Some(rs[c].sid))
  }

  ghost predicate Stands(f: Feed, rs: seq<Recording>, s: Subjects, i: nat, j: nat)
    requires Sized(s)
  {
    && i <= |s.backfill| && j <= |s.live|
    && AtHand(f.stt.phase, Backfill) + f.backfill == s.backfill[i..]
    && AtHand(f.stt.phase, Live) + f.live == s.live[j..]
    && Placed(f.stt, rs, s, Next(s, i), j)
  }

  // ----- One step -----

  /** The consumer is where it should be in both subjects. */
  ghost predicate InStep(f: Feed, rs: seq<Recording>, s: Subjects)
    requires Sized(s)
  {
    exists i, j :: Stands(f, rs, s, i, j)
  }

  lemma NextOwner(rs: seq<Recording>, s: Subjects, i: nat)
    requires Ordered(rs, s) && i <= |s.backfill|
    ensures i < |s.backfill| ==> Next(s, i) == s.backfillOwners[i] < |rs|
    ensures i > 0 && !IsEos(s.backfill[i - 1]) ==> i < |s.backfill|
  {
  }

  /** Going on in the lane, or closing, with `n` noted. */
  ghost predicate GoesOnOrCloses(t: State, lane: Lane, n: Notes) {
    && !t.stopping
    && ((t.phase == Fetching(lane) && NotesOf(t.trace) == n) || (t.phase == Closing && NotesOf(t.trace) == Noted(n, Finished)))
  }

  /** Acks and sends of audio, and acks of anything live, leave no note. */
  lemma QuietActs(trace: seq<Act>, lane: Lane, m: Msg)
    requires lane.Live? || !IsEos(m)
    ensures NotesOf(trace + [Acked(lane, m)]) == NotesOf(trace) && NotesOf(trace + [Sent(lane, m)]) == NotesOf(trace)
    ensures NotesOf(trace + [Sent(lane, m), Acked(lane, m)]) == NotesOf(trace)
    ensures trace + [] == trace
  {
    NotesOfAppend(trace, Acked(lane, m));
    NotesOfAppend(trace, Sent(lane, m));
    NotesOfAppend2(trace, Sent(lane, m), Acked(lane, m));
  }

  /** Audio leaves no note, whatever becomes of it; nor does a stale live message. */
  lemma AudioNotes(s: State, outcome: SendOutcome)
    requires s.phase.Sending? && |s.phase.queue| == 1 && !s.stopping
    requires var m := s.phase.queue[0]; if s.phase.lane.Live? then Stale(s.sid, m) || !IsEos(m) else !Stale(s.sid, m) && !IsEos(m)
    ensures GoesOnOrCloses(Step(s, SendEnds(outcome)), s.phase.lane, NotesOf(s.trace))
    ensures Step(s, SendEnds(outcome)).sid == s.sid
  {
    QuietActs(s.trace, s.phase.lane, s.phase.queue[0]);
  }

  /** The session's own marker is noted on the backfill lane and closes the connection on the live one. */
  lemma MarkerNotes(s: State, outcome: SendOutcome)
    requires s.phase.Sending? && |s.phase.queue| == 1 && !s.stopping
    requires !Stale(s.sid, s.phase.queue[0]) && IsEos(s.phase.queue[0])
    ensures var t, n, m := Step(s, SendEnds(outcome)), NotesOf(s.trace), s.phase.queue[0];
            var marked := n.(marked := SessionIdFromSubject(m.subject));
            && !t.stopping && t.sid == s.sid
            && if s.phase.lane.Live? then t.phase == Closing && NotesOf(t.trace) == Noted(n, Finished)
               else
                 || (t.phase == Flushing && NotesOf(t.trace) == marked)
                 || (t.phase == Closing && NotesOf(t.trace) == Noted(marked, Finished))
  {
    var m, lane := s.phase.queue[0], s.phase.lane;
    NotesOfAppend(s.trace, Acked(lane, m));
    NotesOfAppend(s.trace + [Acked(lane, m)], Finalized);
  }

  lemma DealsWithOne(msgs: seq<Msg>, i: nat, queue: seq<Msg>, rest: seq<Msg>)
    requires i <= |msgs| && |queue| == 1 && queue + rest == msgs[i..]
    ensures i < |msgs| && queue[0] == msgs[i] && [] + rest == msgs[i + 1..]
  {
    assert (queue + rest)[0] == msgs[i..][0] && (queue + rest)[1..] == msgs[i..][1..];
  }

  /** On its own connection no backfill message is stale. */
  lemma BackfillIsOwn(f: Feed, rs: seq<Recording>, s: Subjects, i: nat, j: nat)
    requires Ordered(rs, s) && Distinct(rs) && Stands(f, rs, s, i, j) && f.stt.phase.Sending? && f.stt.phase.lane.Backfill?
    ensures i < |s.backfill| && f.stt.phase.queue[0] == s.backfill[i] && [] + f.backfill == s.backfill[i + 1..]
    ensures Next(s, i) < |rs| && SessionIdFromSubject(s.backfill[i].subject) == Some(rs[Next(s, i)].sid)
    ensures !Stale(f.stt.sid, f.stt.phase.queue[0]) && !Late(NotesOf(f.stt.trace), f.stt.phase.queue[0])
  {
    DealsWithOne(s.backfill, i, f.stt.phase.queue, f.backfill);
    NextOwner(rs, s, i);
    InIds(rs, Next(s, i), Next(s, i));
  }

  /** In the live phase a message is stale exactly when its session is over. */
  lemma StaleIsOver(f: Feed, rs: seq<Recording>, s: Subjects, i: nat, j: nat)
    requires Ordered(rs, s) && Distinct(rs) && Stands(f, rs, s, i, j) && f.stt.phase.Sending? && f.stt.phase.lane.Live?
    ensures j < |s.live| && f.stt.phase.queue[0] == s.live[j] && [] + f.live == s.live[j + 1..] && Next(s, i) > 0
    ensures s.liveOwners[j] <= Next(s, i) - 1 < |rs|
    ensures Stale(f.stt.sid, f.stt.phase.queue[0]) <==> s.liveOwners[j] < Next(s, i) - 1
    ensures Stale(f.stt.sid, f.stt.phase.queue[0]) <==> Late(NotesOf(f.stt.trace), f.stt.phase.queue[0])
  {
    DealsWithOne(s.live, j, f.stt.phase.queue, f.live);
    assert IsToken(rs[s.liveOwners[j]].sid) && IsToken(rs[Next(s, i) - 1].sid);
    InIds(rs, Next(s, i) - 1, s.liveOwners[j]);
    InIds(rs, Next(s, i) - 1, Next(s, i) - 1);
    InIds(rs, Next(s, i), s.liveOwners[j]);
  }

  lemma SendTurn(f: Feed, outcome: SendOutcome)
    ensures FeedStep(f, Sends(outcome)) == f.(stt := Step(f.stt, SendEnds(outcome)))
  {
  }

  lemma BackfillGoesOn(t: State, n: Notes, rs: seq<Recording>, s: Subjects, c: nat, j: nat)
    requires Sized(s) && c < |rs| && Before(n, rs, s, c, j) && t.sid == Some(rs[c].sid) && GoesOnOrCloses(t, Backfill, n)
    ensures Placed(t, rs, s, c, j)
  {
  }

  lemma BackfillEnds(t: State, n: Notes, rs: seq<Recording>, s: Subjects, c: nat, j: nat)
    requires Sized(s) && c < |rs| && Before(n, rs, s, c, j) && t.sid == Some(rs[c].sid) && !t.stopping
    requires var marked := n.(marked := t.sid);
             || (t.phase == Flushing && NotesOf(t.trace) == marked)
             || (t.phase == Closing && NotesOf(t.trace) == Noted(marked, Finished))
    ensures Placed(t, rs, s, c + 1, j)
  {
  }

  /** Nothing is at hand. */
  predicate EmptyHanded(p: Phase) {
    !p.Connecting? && !p.Sending?
  }

  lemma BackfillDealtWith(f: Feed, t: State, rs: seq<Recording>, s: Subjects, i: nat, j: nat)
    requires Sized(s) && Stands(f, rs, s, i, j) && f.stt.phase.Sending? && f.stt.phase.lane.Backfill?
    requires i < |s.backfill| && [] + f.backfill == s.backfill[i + 1..]
    requires EmptyHanded(t.phase) && Placed(t, rs, s, Next(s, i + 1), j)
    ensures Stands(f.(stt := t), rs, s, i + 1, j)
  {
  }

  lemma LiveDealtWith(f: Feed, t: State, rs: seq<Recording>, s: Subjects, i: nat, j: nat)
    requires Sized(s) && Stands(f, rs, s, i, j) && f.stt.phase.Sending? && f.stt.phase.lane.Live?
    requires j < |s.live| && [] + f.live == s.live[j + 1..]
    requires EmptyHanded(t.phase) && Placed(t, rs, s, Next(s, i), j + 1)
    ensures Stands(f.(stt := t), rs, s, i, j + 1)
  {
  }

  lemma BackfillAudioStays(f: Feed, rs: seq<Recording>, s: Subjects, i: nat, j: nat, outcome: SendOutcome)
    requires Ordered(rs, s) && Distinct(rs) && Stands(f, rs, s, i, j) && f.stt.phase.Sending? && f.stt.phase.lane.Backfill?
    requires !IsEos(f.stt.phase.queue[0])
    ensures InStep(FeedStep(f, Sends(outcome)), rs, s)
  {
    BackfillIsOwn(f, rs, s, i, j);
    AudioNotes(f.stt, outcome);
    SendTurn(f, outcome);
    NextOwner(rs, s, i);
    BackfillGoesOn(Step(f.stt, SendEnds(outcome)), NotesOf(f.stt.trace), rs, s, Next(s, i), j);
    BackfillDealtWith(f, Step(f.stt, SendEnds(outcome)), rs, s, i, j);
  }

  lemma BackfillMarkerStays(f: Feed, rs: seq<Recording>, s: Subjects, i: nat, j: nat, outcome: SendOutcome)
    requires Ordered(rs, s) && Distinct(rs) && Stands(f, rs, s, i, j) && f.stt.phase.Sending? && f.stt.phase.lane.Backfill?
    requires IsEos(f.stt.phase.queue[0])
    ensures InStep(FeedStep(f, Sends(outcome)), rs, s)
  {
    BackfillIsOwn(f, rs, s, i, j);
    MarkerNotes(f.stt, outcome);
    SendTurn(f, outcome);
    NextOwner(rs, s, i);
    BackfillEnds(Step(f.stt, SendEnds(outcome)), NotesOf(f.stt.trace), rs, s, Next(s, i), j);
    BackfillDealtWith(f, Step(f.stt, SendEnds(outcome)), rs, s, i, j);
  }

  lemma LiveStep(f: Feed, rs: seq<Recording>, s: Subjects, i: nat, j: nat, outcome: SendOutcome)
    requires Sized(s) && Stands(f, rs, s, i, j) && f.stt.phase.Sending? && f.stt.phase.lane.Live?
    requires Stale(f.stt.sid, f.stt.phase.queue[0]) || !IsEos(f.stt.phase.queue[0])
    requires j < |s.live| && [] + f.live == s.live[j + 1..] && NotBeyond(s, j + 1, Next(s, i) - 1)
    ensures Stands(f.(stt := Step(f.stt, SendEnds(outcome))), rs, s, i, j + 1)
  {
    AudioNotes(f.stt, outcome);
    LiveDealtWith(f, Step(f.stt, SendEnds(outcome)), rs, s, i, j);
  }

  lemma LiveGoesOnStays(f: Feed, rs: seq<Recording>, s: Subjects, i: nat, j: nat, outcome: SendOutcome)
    requires Ordered(rs, s) && Distinct(rs) && Stands(f, rs, s, i, j) && f.stt.phase.Sending? && f.stt.phase.lane.Live?
    requires Stale(f.stt.sid, f.stt.phase.queue[0]) || !IsEos(f.stt.phase.queue[0])
    ensures InStep(FeedStep(f, Sends(outcome)), rs, s)
  {
    StaleIsOver(f, rs, s, i, j);
    SendTurn(f, outcome);
    LiveStep(f, rs, s, i, j, outcome);
  }

  lemma LiveMarkerStays(f: Feed, rs: seq<Recording>, s: Subjects, i: nat, j: nat, outcome: SendOutcome)
    requires Ordered(rs, s) && Distinct(rs) && Stands(f, rs, s, i, j) && f.stt.phase.Sending? && f.stt.phase.lane.Live?
    requires !Stale(f.stt.sid, f.stt.phase.queue[0]) && IsEos(f.stt.phase.queue[0])
    ensures InStep(FeedStep(f, Sends(outcome)), rs, s)
  {
    StaleIsOver(f, rs, s, i, j);
    MarkerNotes(f.stt, outcome);
    SendTurn(f, outcome);
    LiveDealtWith(f, Step(f.stt, SendEnds(outcome)), rs, s, i, j);
  }

  lemma SendStays(f: Feed, rs: seq<Recording>, s: Subjects, i: nat, j: nat, outcome: SendOutcome)
    requires Ordered(rs, s) && Distinct(rs) && Stands(f, rs, s, i, j) && f.stt.phase.Sending?
    ensures InStep(FeedStep(f, Sends(outcome)), rs, s)
  {
    var m := f.stt.phase.queue[0];
    if f.stt.phase.lane.Backfill? {
      if IsEos(m) { BackfillMarkerStays(f, rs, s, i, j, outcome); } else { BackfillAudioStays(f, rs, s, i, j, outcome); }
    } else if Stale(f.stt.sid, m) || !IsEos(m) {
      LiveGoesOnStays(f, rs, s, i, j, outcome);
    } else {
      LiveMarkerStays(f, rs, s, i, j, outcome);
    }
  }

  lemma TakeStays(f: Feed, rs: seq<Recording>, s: Subjects, i: nat, j: nat)
    requires Sized(s) && Stands(f, rs, s, i, j)
    ensures InStep(FeedStep(f, Take), rs, s)
  {
    if f.backfill != [] {
      assert f.backfill[..1] + f.backfill[1..] == f.backfill == [] + f.backfill;
    }
    if f.live != [] {
      assert f.live[..1] + f.live[1..] == f.live == [] + f.live;
    }
    var here := Stands(FeedStep(f, Take), rs, s, i, j);
  }

  lemma ConnectStays(f: Feed, rs: seq<Recording>, s: Subjects, i: nat, j: nat)
    requires Ordered(rs, s) && Stands(f, rs, s, i, j) && f.stt.phase.Connecting?
    ensures InStep(FeedStep(f, Connects), rs, s)
  {
    DealsWithOne(s.backfill, i, f.stt.phase.first, f.backfill);
    NextOwner(rs, s, i);
    NotesOfAppend(f.stt.trace, Open(Some(rs[Next(s, i)].sid)));
    var here := Stands(FeedStep(f, Connects), rs, s, i, j);
  }

  lemma QuietStays(t: State, rs: seq<Recording>, s: Subjects, c: nat, j: nat)
    requires Sized(s) && Placed(t, rs, s, c, j)
    ensures Placed(Step(t, ConnectFails), rs, s, c, j) && Placed(Step(t, FlushEnds), rs, s, c, j)
    ensures Placed(Step(t, ConnectionDrops), rs, s, c, j) && Placed(Step(t, DrainEnds), rs, s, c, j)
  {
  }

  lemma TranscriptStays(t: State, rs: seq<Recording>, s: Subjects, c: nat, j: nat, spoken: Spoken)
    requires Sized(s) && Placed(t, rs, s, c, j)
    ensures Placed(Step(t, Transcript(spoken)), rs, s, c, j)
  {
    NotesOfAppend(t.trace, Emit(t.tag, spoken));
  }

  lemma OtherStays(f: Feed, rs: seq<Recording>, s: Subjects, i: nat, j: nat, e: Turn)
    requires Sized(s) && Stands(f, rs, s, i, j)
    requires !e.Take? && !e.Connects? && !e.Sends?
    ensures InStep(FeedStep(f, e), rs, s)
  {
    QuietStays(f.stt, rs, s, Next(s, i), j);
    if e.Transcribes? {
      TranscriptStays(f.stt, rs, s, Next(s, i), j, e.spoken);
    }
    var here := Stands(FeedStep(f, e), rs, s, i, j);
  }

  lemma TurnStays(f: Feed, rs: seq<Recording>, s: Subjects, i: nat, j: nat, e: Turn)
    requires Ordered(rs, s) && Distinct(rs) && Stands(f, rs, s, i, j)
    ensures InStep(FeedStep(f, e), rs, s)
  {
    if (e.Connects? && !f.stt.phase.Connecting?) || (e.Sends? && !f.stt.phase.Sending?) {
    } else {
      match e
      case Take => TakeStays(f, rs, s, i, j);
      case Connects => ConnectStays(f, rs, s, i, j);
      case Sends(outcome) => SendStays(f, rs, s, i, j, outcome);
      case _ => OtherStays(f, rs, s, i, j, e);
    }
  }

  // ----- Whole runs -----

  lemma StartsInStep(rs: seq<Recording>, s: Subjects)
    requires Ordered(rs, s)
    ensures InStep(Feed(INIT, s.backfill, s.live), rs, s)
  {
    var f := Feed(INIT, s.backfill, s.live);
    assert s.backfill[0..] == [] + s.backfill && s.live[0..] == [] + s.live;
    assert Before(NotesOf([]), rs, s, 0, 0);
    var here := Stands(f, rs, s, 0, 0);
  }

  lemma {:induction false} RunsInStep(rs: seq<Recording>, s: Subjects, es: seq<Turn>)
    requires Ordered(rs, s) && Distinct(rs)
    ensures InStep(FeedRun(s.backfill, s.live, es), rs, s)
    decreases |es|
  {
    if es == [] {
      StartsInStep(rs, s);
    } else {
      var front, e := es[..|es| - 1], es[|es| - 1];
      RunsInStep(rs, s, front);
      var i, j :| Stands(FeedRun(s.backfill, s.live, front), rs, s, i, j);
      TurnStays(FeedRun(s.backfill, s.live, front), rs, s, i, j, e);
    }
  }

  /** Every message of the subject is dealt with, at hand, or still to be fetched, in order. */
  ghost predicate Kept(entries: seq<Entry>, f: Feed, lane: Lane, subject: seq<Msg>) {
    Dealt(entries, lane) + AtHand(f.stt.phase, lane) + Unfetched(f, lane) == subject
  }

  lemma SendMovesOn(f: Feed, outcome: SendOutcome, lane: Lane)
    requires f.stt.phase.Sending? && |f.stt.phase.queue| == 1
    ensures var g := FeedStep(f, Sends(outcome));
            AtHand(g.stt.phase, lane) == [] && Unfetched(g, lane) == Unfetched(f, lane)
    ensures AtHand(f.stt.phase, lane) == if f.stt.phase.lane == lane then [f.stt.phase.queue[0]] else []
  {
  }

  lemma TakeMoves(f: Feed, lane: Lane)
    requires !f.stt.stopping && !f.stt.phase.Stopped?
    ensures var g := FeedStep(f, Take);
            AtHand(g.stt.phase, lane) + Unfetched(g, lane) == AtHand(f.stt.phase, lane) + Unfetched(f, lane)
  {
    var g := FeedStep(f, Take);
    if f.backfill != [] && (f.stt.phase.WaitBackfill? || f.stt.phase == Fetching(Backfill)) {
      assert AtHand(g.stt.phase, Backfill) == f.backfill[..1] && AtHand(g.stt.phase, Live) == [];
      assert f.backfill[..1] + f.backfill[1..] == [] + f.backfill;
    } else if f.live != [] && (f.stt.phase.WaitLive? || f.stt.phase == Fetching(Live)) {
      assert AtHand(g.stt.phase, Live) == f.live[..1] && AtHand(g.stt.phase, Backfill) == [];
      assert f.live[..1] + f.live[1..] == [] + f.live;
    } else {
      assert g == f;
    }
  }

  lemma OtherTurnKeeps(f: Feed, e: Turn, lane: Lane)
    requires OneAtATime(f.stt.phase) && !f.stt.stopping && !f.stt.phase.Stopped? && !(e.Sends? && f.stt.phase.Sending?)
    ensures var g := FeedStep(f, e);
            AtHand(g.stt.phase, lane) + Unfetched(g, lane) == AtHand(f.stt.phase, lane) + Unfetched(f, lane)
  {
    if e.Take? {
      TakeMoves(f, lane);
    }
  }

  lemma TurnKeeps(entries: seq<Entry>, f: Feed, e: Turn, lane: Lane, subject: seq<Msg>)
    requires OneAtATime(f.stt.phase) && !f.stt.stopping && !f.stt.phase.Stopped? && Kept(entries, f, lane, subject)
    ensures Kept(entries + NewEntries(f.stt, e), FeedStep(f, e), lane, subject)
  {
    var g, done := FeedStep(f, e), Dealt(entries, lane);
    if e.Sends? && f.stt.phase.Sending? {
      SendMovesOn(f, e.outcome, lane);
      assert done + AtHand(f.stt.phase, lane) + [] == done + AtHand(f.stt.phase, lane);
    } else {
      OtherTurnKeeps(f, e, lane);
      assert entries + [] == entries;
      assert done + (AtHand(f.stt.phase, lane) + Unfetched(f, lane)) == subject;
      assert done + (AtHand(g.stt.phase, lane) + Unfetched(g, lane)) == done + AtHand(g.stt.phase, lane) + Unfetched(g, lane);
    }
  }

  function SubjectOf(s: Subjects, lane: Lane): seq<Msg> {
    if lane.Backfill? then s.backfill else s.live
  }

  ghost predicate AllKept(entries: seq<Entry>, f: Feed, s: Subjects) {
    forall lane :: Kept(entries, f, lane, SubjectOf(s, lane))
  }

  lemma TurnKeepsAll(entries: seq<Entry>, f: Feed, e: Turn, rs: seq<Recording>, s: Subjects)
    requires Sized(s) && InStep(f, rs, s) && AllKept(entries, f, s)
    ensures AllKept(entries + NewEntries(f.stt, e), FeedStep(f, e), s)
  {
    forall lane ensures Kept(entries + NewEntries(f.stt, e), FeedStep(f, e), lane, SubjectOf(s, lane)) {
      TurnKeeps(entries, f, e, lane, SubjectOf(s, lane));
    }
  }

  lemma {:induction false} KeptOverRuns(rs: seq<Recording>, s: Subjects, es: seq<Turn>)
    requires Ordered(rs, s) && Distinct(rs)
    ensures AllKept(Entries(s.backfill, s.live, es), FeedRun(s.backfill, s.live, es), s)
    decreases |es|
  {
    if es == [] {
    } else {
      var front, e := es[..|es| - 1], es[|es| - 1];
      KeptOverRuns(rs, s, front);
      RunsInStep(rs, s, front);
      TurnKeepsAll(Entries(s.backfill, s.live, front), FeedRun(s.backfill, s.live, front), e, rs, s);
    }
  }

  // ----- Audio before markers -----

  predicate SameSession(a: Msg, b: Msg) {
    SessionIdFromSubject(a.subject) == SessionIdFromSubject(b.subject)
  }

  /** After a marker of a session only markers of it come. */
  ghost predicate MarkersLast(msgs: seq<Msg>) {
    forall i, j :: 0 <= i < j < |msgs| && IsEos(msgs[i]) && SameSession(msgs[i], msgs[j]) ==> IsEos(msgs[j])
  }

  lemma {:induction false} OwnersFrom(rs: seq<Recording>, msgs: seq<Msg>, owners: seq<nat>, k: nat, i: nat)
    requires InOrder(rs, msgs, owners, k) && i < |msgs|
    ensures k <= owners[i]
  {
    if i > 0 { OwnersFrom(rs, msgs, owners, k, i - 1); }
  }

  lemma MarkersLastBefore(rs: seq<Recording>, k: nat, block: seq<Msg>, n: nat, later: seq<Msg>, owners: seq<nat>)
    requires Distinct(rs) && k < |rs| && IsBlock(block, rs[k].sid) && InOrder(rs, later, owners, k + 1) && MarkersLast(later)
    requires n <= |block| && forall i :: 0 <= i < |block| ==> (IsEos(block[i]) <==> n <= i)
    ensures MarkersLast(block + later)
  {
    var all := block + later;
    forall i, j | 0 <= i < j < |all| && IsEos(all[i]) && SameSession(all[i], all[j]) ensures IsEos(all[j]) {
      if j >= |block| {
        OwnersFrom(rs, later, owners, k + 1, j - |block|);
        assert all[j] == later[j - |block|];
        if i >= |block| { assert all[i] == later[i - |block|]; }
      }
    }
  }

  lemma {:induction false} LiveMarkersLast(rs: seq<Recording>, k: nat)
    requires Tokens(rs) && Distinct(rs) && k <= |rs|
    ensures MarkersLast(LiveStream(rs, k))
    decreases |rs| - k
  {
    if k < |rs| {
      var r, audio, later := rs[k], AudioMsgs(SUBJECT_PREFIX_AUDIO_LIVE, rs[k].sid, rs[k].live), LiveStream(rs, k + 1);
      var block := audio + [EosMsg(SUBJECT_PREFIX_AUDIO_LIVE, r.sid)] + Marks(r.sid, r.extra);
      LiveMarkersLast(rs, k + 1);
      LiveInOrder(rs, k + 1);
      AudioBlock(SUBJECT_PREFIX_AUDIO_LIVE, r.sid, r.live, r.extra);
      assert r.live[0..] == r.live;
      Associative(audio + [EosMsg(SUBJECT_PREFIX_AUDIO_LIVE, r.sid)], Marks(r.sid, r.extra), later);
      MarkersLastBefore(rs, k, block, |r.live|, later, LiveOwners(rs, k + 1));
    }
  }

  // ----- What is lost -----

  /** A message is skipped exactly when its session is over, and backfill never is. */
  ghost predicate SkipsTheOver(entries: seq<Entry>) {
    forall e :: e in entries ==> (e.fate.Skipped? <==> e.late) && (e.lane.Backfill? ==> !e.fate.Skipped?)
  }

  /** Once a message of a session has been skipped, so is every later one. */
  ghost predicate SkipsRests(entries: seq<Entry>) {
    forall a, b :: 0 <= a < b < |entries| && SameSession(entries[a].msg, entries[b].msg) && entries[a].late ==> entries[b].late
  }

  predicate EndsLive(e: Entry) {
    e.lane.Live? && e.fate.EndOfAudio?
  }

  /** `e` is live audio of a session whose own connection saw its live marker in `end`. */
  predicate Spared(end: Entry, e: Entry) {
    EndsLive(end) && e.lane.Live? && SameSession(end.msg, e.msg) && !IsEos(e.msg)
  }

  /** Such a session loses no live audio. */
  ghost predicate HeardOut(entries: seq<Entry>) {
    forall a, b :: 0 <= a < |entries| && 0 <= b < |entries| && Spared(entries[a], entries[b]) ==> !entries[b].late
  }

  /** The sessions of skipped messages are still over, and of a session that was heard out only markers are ahead. */
  ghost predicate Accounted(entries: seq<Entry>, n: Notes, ahead: seq<Msg>) {
    && SkipsTheOver(entries) && SkipsRests(entries) && HeardOut(entries)
    && (forall e :: e in entries && e.late ==> Late(n, e.msg))
    && (forall e, m :: e in entries && m in ahead && EndsLive(e) && SameSession(e.msg, m) ==> IsEos(m))
  }

  function LiveAhead(f: Feed): seq<Msg> {
    AtHand(f.stt.phase, Live) + f.live
  }

  /** One more entry for the message at hand, with `n` noted. */
  ghost predicate Fits(x: Entry, n: Notes, ahead: seq<Msg>) {
    && (x.fate.Skipped? <==> x.late) && (x.lane.Backfill? ==> !x.fate.Skipped?) && (x.late <==> Late(n, x.msg))
    && (x.fate.EndOfAudio? ==> IsEos(x.msg))
    && (x.lane.Live? ==> ahead != [] && ahead[0] == x.msg && MarkersLast(ahead))
  }

  lemma EntryAccounted(entries: seq<Entry>, x: Entry, n: Notes, ahead: seq<Msg>)
    requires Accounted(entries, n, ahead) && Fits(x, n, ahead)
    ensures Accounted(entries + [x], n, if x.lane.Live? then ahead[1..] else ahead)
  {
    var all, rest := entries + [x], if x.lane.Live? then ahead[1..] else ahead;
    forall e | e in all ensures e in entries || e == x {
    }
    forall m | m in rest ensures m in ahead {
    }
    forall m | m in rest && EndsLive(x) && SameSession(x.msg, m) ensures IsEos(m) {
      var j :| 0 <= j < |rest| && rest[j] == m;
      assert ahead[j + 1] == m;
    }
    if x.lane.Live? {
      assert x.msg in ahead;
    }
  }

  ghost predicate EntryFits(f: Feed, e: Turn) {
    forall x :: x in NewEntries(f.stt, e) ==> Fits(x, NotesOf(f.stt.trace), LiveAhead(f))
  }

  lemma BackfillEntryFits(f: Feed, rs: seq<Recording>, s: Subjects, i: nat, j: nat, outcome: SendOutcome)
    requires Ordered(rs, s) && Distinct(rs) && Stands(f, rs, s, i, j) && f.stt.phase.Sending? && f.stt.phase.lane.Backfill?
    ensures EntryFits(f, Sends(outcome))
  {
    BackfillIsOwn(f, rs, s, i, j);
  }

  lemma LiveEntryFits(f: Feed, rs: seq<Recording>, s: Subjects, i: nat, j: nat, outcome: SendOutcome)
    requires Ordered(rs, s) && Distinct(rs) && MarkersLast(s.live) && Stands(f, rs, s, i, j)
    requires f.stt.phase.Sending? && f.stt.phase.lane.Live?
    ensures EntryFits(f, Sends(outcome))
  {
    StaleIsOver(f, rs, s, i, j);
  }

  lemma NewEntryFits(f: Feed, rs: seq<Recording>, s: Subjects, e: Turn)
    requires Ordered(rs, s) && Distinct(rs) && MarkersLast(s.live) && InStep(f, rs, s)
    ensures EntryFits(f, e)
  {
    if e.Sends? && f.stt.phase.Sending? {
      var i, j :| Stands(f, rs, s, i, j);
      if f.stt.phase.lane.Backfill? {
        BackfillEntryFits(f, rs, s, i, j, e.outcome);
      } else {
        LiveEntryFits(f, rs, s, i, j, e.outcome);
      }
    }
  }

  // ----- The trace only grows -----

  lemma HandledGrows(s: State, outcome: SendOutcome)
    requires s.phase.Sending? && s.phase.queue != []
    ensures s.trace <= Handled(s, outcome).trace
  {
  }

  lemma TraceGrows(s: State, e: Event)
    ensures s.trace <= Step(s, e).trace
  {
    if e.SendEnds? {
      if Enabled(s, e) { HandledGrows(s, e.outcome); }
    }
  }

  /** A turn of the consumer is a step of the session loop, or waits for a message. */
  lemma TurnIsStep(f: Feed, t: Turn) returns (e: Event)
    ensures FeedStep(f, t) == f || FeedStep(f, t).stt == Step(f.stt, e)
  {
    match t
    case Take =>
      var queue := if f.stt.phase.WaitBackfill? || f.stt.phase == Fetching(Backfill) then f.backfill else f.live;
      e := if queue == [] then FetchFails else Fetched(queue[..1]);
    case NothingYet => e := FetchFails;
    case Connects => e := ConnectOk;
    case Retries => e := ConnectFails;
    case Sends(outcome) => e := SendEnds(outcome);
    case Flushes => e := FlushEnds;
    case Transcribes(spoken) => e := Transcript(spoken);
    case Drops => e := ConnectionDrops;
    case Closes => e := DrainEnds;
  }

  lemma FeedTraceGrows(f: Feed, t: Turn)
    ensures f.stt.trace <= FeedStep(f, t).stt.trace
  {
    var e := TurnIsStep(f, t);
    TraceGrows(f.stt, e);
  }

  lemma {:induction false} RetiredGrows(a: seq<Act>, b: seq<Act>)
    requires a <= b
    ensures NotesOf(a).retired <= NotesOf(b).retired
    decreases |b|
  {
    if a != b {
      RetiredGrows(a, b[..|b| - 1]);
    }
  }

  /** What is ahead on the live subject after a turn. */
  lemma AheadMoves(f: Feed, e: Turn)
    requires OneAtATime(f.stt.phase) && !f.stt.stopping && !f.stt.phase.Stopped?
    ensures LiveAhead(FeedStep(f, e))
            == if NewEntries(f.stt, e) != [] && f.stt.phase.lane.Live? then LiveAhead(f)[1..] else LiveAhead(f)
  {
    if e.Sends? && f.stt.phase.Sending? {
      SendMovesOn(f, e.outcome, Live);
    } else {
      OtherTurnKeeps(f, e, Live);
    }
  }

  lemma TurnAccounted(entries: seq<Entry>, f: Feed, e: Turn)
    requires OneAtATime(f.stt.phase) && !f.stt.stopping && !f.stt.phase.Stopped?
    requires EntryFits(f, e) && Accounted(entries, NotesOf(f.stt.trace), LiveAhead(f))
    ensures Accounted(entries + NewEntries(f.stt, e), NotesOf(FeedStep(f, e).stt.trace), LiveAhead(FeedStep(f, e)))
  {
    var more, n := NewEntries(f.stt, e), NotesOf(f.stt.trace);
    AheadMoves(f, e);
    FeedTraceGrows(f, e);
    RetiredGrows(f.stt.trace, FeedStep(f, e).stt.trace);
    if more == [] {
      assert entries + more == entries;
    } else {
      EntryAccounted(entries, more[0], n, LiveAhead(f));
    }
  }

  lemma {:induction false} AccountedOverRuns(rs: seq<Recording>, s: Subjects, es: seq<Turn>)
    requires Ordered(rs, s) && Distinct(rs) && MarkersLast(s.live)
    ensures var f := FeedRun(s.backfill, s.live, es);
            Accounted(Entries(s.backfill, s.live, es), NotesOf(f.stt.trace), LiveAhead(f))
    decreases |es|
  {
    if es != [] {
      var front, e := es[..|es| - 1], es[|es| - 1];
      var f := FeedRun(s.backfill, s.live, front);
      AccountedOverRuns(rs, s, front);
      RunsInStep(rs, s, front);
      NewEntryFits(f, rs, s, e);
      TurnAccounted(Entries(s.backfill, s.live, front), f, e);
    }
  }

  /** Every message of both subjects is accounted for, and what was lost is known. */
  ghost predicate Explained(entries: seq<Entry>, f: Feed, s: Subjects) {
    AllKept(entries, f, s) && SkipsTheOver(entries) && SkipsRests(entries) && HeardOut(entries)
  }

  /**
   On every run, whatever fails: each message of the two subjects is dealt with
   once, at hand, or still to be fetched, in order; backfill is never skipped,
   and a live message is skipped exactly when the connection of its session was
   finished after it had acked the session's backfill marker; so what is skipped of
   a session is a rest of it, and no audio if its own connection saw its live marker.
   */
  lemma {:induction false} LossesOverRuns(rs: seq<Recording>, es: seq<Turn>)
    requires Tokens(rs) && Distinct(rs)
    ensures var b, l := BackfillStream(rs, 0), LiveStream(rs, 0);
            Explained(Entries(b, l, es), FeedRun(b, l, es), SubjectsOf(rs))
  {
    BackfillInOrder(rs, 0);
    LiveInOrder(rs, 0);
    LiveMarkersLast(rs, 0);
    KeptOverRuns(rs, SubjectsOf(rs), es);
    AccountedOverRuns(rs, SubjectsOf(rs), es);
  }

  // ----- A loss -----

  /** Session `a` with two live chunks and session `b` without audio. */
  function TwoSessions(a: string, b: string, x: Chunk, y: Chunk): seq<Recording> {
    [Recording(a, [], [x, y], 0), Recording(b, [], [], 0)]
  }

  /** A connection is opened and brought to its live phase. */
  function ToLive(f: Feed): Feed {
    FeedStep(FeedStep(FeedStep(FeedStep(f, Take), Connects), Sends(SendOk)), Flushes)
  }

  lemma BringsToLive(f: Feed, sid: string)
    requires IsToken(sid) && f.stt.phase.WaitBackfill? && !f.stt.stopping
    requires f.backfill != [] && f.backfill[0] == EosMsg(SUBJECT_PREFIX_AUDIO_BACKFILL, sid)
    ensures var g := ToLive(f);
            && g.stt.phase.WaitLive? && g.stt.sid == Some(sid) && !g.stt.stopping && !g.stt.dgClosed
            && g.stt.trace == f.stt.trace + [Open(Some(sid)), Acked(Backfill, f.backfill[0]), Finalized]
            && g.backfill == f.backfill[1..] && g.live == f.live
  {
    OwnMessage(SUBJECT_PREFIX_AUDIO_BACKFILL, sid, []);
    var f1 := FeedStep(f, Take);
    assert f1.stt.phase == Connecting([f.backfill[0]]);
    var f2 := FeedStep(f1, Connects);
    assert f2.stt.phase == Sending(Backfill, [f.backfill[0]]) && f2.stt.trace == f.stt.trace + [Open(Some(sid))];
    var f3 := FeedStep(f2, Sends(SendOk));
    assert f3.stt.phase.Flushing? && f3.stt.trace == f2.stt.trace + [Acked(Backfill, f.backfill[0])] + [Finalized];
  }

  /** The send of the first live message fails, and the connection is closed. */
  lemma SendFails(f: Feed, sid: string, x: Chunk)
    requires IsToken(sid) && f.stt.phase.WaitLive? && f.stt.sid == Some(sid) && !f.stt.stopping && !f.stt.dgClosed
    requires f.live != [] && f.live[0] == AudioMsg(SUBJECT_PREFIX_AUDIO_LIVE, sid, x)
    ensures var g := FeedStep(FeedStep(FeedStep(f, Take), Sends(SendRaises(false))), Closes);
            && g.stt.phase.WaitBackfill? && !g.stt.stopping && g.stt.trace == f.stt.trace + [Finished]
            && g.backfill == f.backfill && g.live == f.live[1..]
  {
    OwnMessage(SUBJECT_PREFIX_AUDIO_LIVE, sid, x);
    var f1 := FeedStep(f, Take);
    assert f1.stt.phase == Sending(Live, [f.live[0]]);
    assert f.stt.trace + [] == f.stt.trace;
  }

  /** On the next session's connection the rest is skipped. */
  lemma RestSkipped(f: Feed, a: string, b: string, y: Chunk)
    requires IsToken(a) && IsToken(b) && a != b && f.stt.phase.WaitLive? && f.stt.sid == Some(b) && !f.stt.stopping && !f.stt.dgClosed
    requires f.live != [] && f.live[0] == AudioMsg(SUBJECT_PREFIX_AUDIO_LIVE, a, y)
    ensures var g := FeedStep(FeedStep(f, Take), Sends(SendOk));
            g.stt.trace == f.stt.trace + [Acked(Live, f.live[0])] && g.live == f.live[1..] && g.backfill == f.backfill
  {
    OwnMessage(SUBJECT_PREFIX_AUDIO_LIVE, a, y);
    var f1 := FeedStep(f, Take);
    assert f1.stt.phase == Sending(Live, [f.live[0]]);
  }

  function FirstLive(): seq<Turn> {
    [Take] + [Connects] + [Sends(SendOk)] + [Flushes]
  }

  /** The first connection's send fails in its live phase, and the second connection gets to its own. */
  function Disconnected(): seq<Turn> {
    FirstLive() + [Take] + [Sends(SendRaises(false))] + [Closes] + [Take] + [Connects] + [Sends(SendOk)] + [Flushes] + [Take] + [Sends(SendOk)]
  }

  lemma FourTurns(backfill: seq<Msg>, live: seq<Msg>, es: seq<Turn>, a: Turn, b: Turn, c: Turn, d: Turn)
    ensures FeedRun(backfill, live, es + [a] + [b] + [c] + [d])
            == FeedStep(FeedStep(FeedStep(FeedStep(FeedRun(backfill, live, es), a), b), c), d)
  {
    FeedRunAppend(backfill, live, es, a);
    FeedRunAppend(backfill, live, es + [a], b);
    FeedRunAppend(backfill, live, es + [a] + [b], c);
    FeedRunAppend(backfill, live, es + [a] + [b] + [c], d);
  }

  lemma DisconnectedRun(backfill: seq<Msg>, live: seq<Msg>)
    ensures var f4 := ToLive(Feed(INIT, backfill, live));
            var f8 := ToLive(FeedStep(FeedStep(FeedStep(f4, Take), Sends(SendRaises(false))), Closes));
            FeedRun(backfill, live, Disconnected()) == FeedStep(FeedStep(f8, Take), Sends(SendOk))
  {
    var es4 := FirstLive();
    assert [] + [Take] == [Take];
    FourTurns(backfill, live, [], Take, Connects, Sends(SendOk), Flushes);
    FourTurns(backfill, live, es4, Take, Sends(SendRaises(false)), Closes, Take);
    var es8 := es4 + [Take] + [Sends(SendRaises(false))] + [Closes] + [Take];
    FourTurns(backfill, live, es8, Connects, Sends(SendOk), Flushes, Take);
    FeedRunAppend(backfill, live, es8 + [Connects] + [Sends(SendOk)] + [Flushes] + [Take], Sends(SendOk));
  }

  lemma TwoSessionStreams(a: string, b: string, x: Chunk, y: Chunk)
    ensures var rs, bf, lv := TwoSessions(a, b, x, y), SUBJECT_PREFIX_AUDIO_BACKFILL, SUBJECT_PREFIX_AUDIO_LIVE;
            && BackfillStream(rs, 0) == [EosMsg(bf, a), EosMsg(bf, b)]
            && LiveStream(rs, 0) == [AudioMsg(lv, a, x), AudioMsg(lv, a, y), EosMsg(lv, a), EosMsg(lv, b)]
  {
    var rs := TwoSessions(a, b, x, y);
    assert BackfillStream(rs, 2) == [] && LiveStream(rs, 2) == [];
    assert BackfillStream(rs, 1) == [EosMsg(SUBJECT_PREFIX_AUDIO_BACKFILL, b)];
    assert LiveStream(rs, 1) == [EosMsg(SUBJECT_PREFIX_AUDIO_LIVE, b)];
    assert rs[0].live[0..] == [x, y];
  }

  /**
   From the very start of two sessions one failed send in the live phase loses
   all the rest of the session: the first chunk is neither sent nor acked, and the
   second is acked on the next session's connection and sent on none.
   */
  lemma DisconnectLosesTheRest(a: string, b: string, x: Chunk, y: Chunk)
    requires IsToken(a) && IsToken(b) && a != b
    ensures var rs, bf, lv := TwoSessions(a, b, x, y), SUBJECT_PREFIX_AUDIO_BACKFILL, SUBJECT_PREFIX_AUDIO_LIVE;
            var f := FeedRun(BackfillStream(rs, 0), LiveStream(rs, 0), Disconnected());
            && f.stt.trace == [Open(Some(a)), Acked(Backfill, EosMsg(bf, a)), Finalized, Finished,
                               Open(Some(b)), Acked(Backfill, EosMsg(bf, b)), Finalized, Acked(Live, AudioMsg(lv, a, y))]
            && f.backfill == [] && f.live == [EosMsg(lv, a), EosMsg(lv, b)]
  {
    var rs := TwoSessions(a, b, x, y);
    var backfill, live := BackfillStream(rs, 0), LiveStream(rs, 0);
    TwoSessionStreams(a, b, x, y);
    DisconnectedRun(backfill, live);
    var f0 := Feed(INIT, backfill, live);
    BringsToLive(f0, a);
    var f4 := ToLive(f0);
    SendFails(f4, a, x);
    var f7 := FeedStep(FeedStep(FeedStep(f4, Take), Sends(SendRaises(false))), Closes);
    BringsToLive(f7, b);
    RestSkipped(ToLive(f7), a, b, y);
  }

  /** A connection that drops while the live lane waits for a message still gets that one message. */
  lemma DropLetsOneThrough(f: Feed, sid: string, x: Chunk)
    requires IsToken(sid) && f.stt.phase == Fetching(Live) && f.stt.sid == Some(sid) && !f.stt.stopping && f.stt.draining
    requires f.live != [] && f.live[0] == AudioMsg(SUBJECT_PREFIX_AUDIO_LIVE, sid, x)
    ensures var g := FeedStep(FeedStep(FeedStep(f, Drops), Take), Sends(SendOk));
            && g.stt.phase.Closing? && g.live == f.live[1..]
            && g.stt.trace == f.stt.trace + [Sent(Live, f.live[0]), Acked(Live, f.live[0]), Finished]
  {
    OwnMessage(SUBJECT_PREFIX_AUDIO_LIVE, sid, x);
    var f2 := FeedStep(FeedStep(f, Drops), Take);
    assert f2.stt.phase == Sending(Live, [f.live[0]]);
  }
}
