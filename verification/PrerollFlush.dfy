/**
 The background task that copies the pre-roll into a session's backfill
 subject, and the whole producer: sessions, chunks and flushes together.
 */
module PrerollFlush {
  import opened Common
  import opened Messaging
  import opened ProducerSteps
  import opened ProducerPartition
  import opened ProducerStreams

  /** `Waiting`: the session is active, but its start has not come to the flush yet. */
  datatype Progress = Waiting | Copying | Broken | Ended(eos: bool)

  /** One flush: it copies the pre-roll from position `lo` and has come to `next`. */
  datatype Task = Task(sid: string, lo: nat, next: nat, progress: Progress)

  /** `mixed` records that a flush published after a later session's flush had. */
  datatype Flushes = Flushes(tasks: seq<Task>, backfill: seq<Msg>, mixed: bool)

  datatype Producer = Producer(core: Core, flushes: Flushes)

  const INIT_PRODUCER := Producer(INIT, Flushes([], [], false))

  predicate HasPublished(t: Task) {
    t.lo < t.next || t.progress == Ended(true)
  }

  predicate LaterPublished(tasks: seq<Task>, nth: nat) {
    exists m :: nth < m < |tasks| && HasPublished(tasks[m])
  }

  /** A session becomes active; its flush is still to come. */
  function Planned(f: Flushes, sid: string, size: nat): Flushes {
    f.(tasks := f.tasks + [Task(sid, size, size, Waiting)])
  }

  /** The latest session's flush begins at the oldest pre-roll chunk still held. */
  function Spawned(f: Flushes, oldest: nat, size: nat): Flushes {
    if f.tasks != [] && f.tasks[|f.tasks| - 1].progress.Waiting? then
      var k, lo := |f.tasks| - 1, if oldest < size then oldest else size;
      f.(tasks := f.tasks[k := Task(f.tasks[k].sid, lo, lo, Copying)])
    else f
  }

  function Copied(f: Flushes, preroll: seq<Chunk>, nth: nat, ok: bool): Flushes {
    if nth < |f.tasks| && f.tasks[nth].progress.Copying? && f.tasks[nth].next < |preroll| then
      var t := f.tasks[nth];
      if ok then
        Flushes(f.tasks[nth := t.(next := t.next + 1)],
                f.backfill + [AudioMsg(SUBJECT_PREFIX_AUDIO_BACKFILL, t.sid, preroll[t.next])],
                f.mixed || LaterPublished(f.tasks, nth))
      else f.(tasks := f.tasks[nth := t.(progress := Broken)])
    else f
  }

  function Finished(f: Flushes, nth: nat, eosOk: bool): Flushes {
    if nth < |f.tasks| && (f.tasks[nth].progress.Copying? || f.tasks[nth].progress.Broken?) then
      var t := f.tasks[nth];
      var tasks := f.tasks[nth := t.(progress := Ended(eosOk))];
      if eosOk then
        Flushes(tasks, f.backfill + [EosMsg(SUBJECT_PREFIX_AUDIO_BACKFILL, t.sid)], f.mixed || LaterPublished(f.tasks, nth))
      else f.(tasks := tasks)
    else f
  }

  /** The flush could not subscribe: it ends with nothing copied and no marker. */
  function Aborted(f: Flushes, nth: nat): Flushes {
    if nth < |f.tasks| && f.tasks[nth].progress.Copying? && f.tasks[nth].next == f.tasks[nth].lo then
      f.(tasks := f.tasks[nth := f.tasks[nth].(progress := Ended(false))])
    else f
  }

  function Killed(t: Task): Task {
    if t.progress.Ended? then t else t.(progress := Ended(false))
  }

  /** A crash ends every flush at work, and a session that recovery opens anew gets none. */
  function CrashedFlushes(f: Flushes, newSid: Option<string>, size: nat): Flushes {
    f.(tasks := seq(|f.tasks|, i requires 0 <= i < |f.tasks| => Killed(f.tasks[i]))
                + if newSid.Some? then [Task(newSid.value, size, size, Ended(false))] else [])
  }

  function Opened(c: Core): Option<string> {
    if c.kv.Some? && !Resumes(c) then Some(c.kv.value.sessionId) else None
  }

  function FlushStep(f: Flushes, c: Core, e: Event): Flushes {
    match e
    case StartActivate => if Enabled(c, e) then Planned(f, c.ctrl.sid, |c.preroll|) else f
    case StartReady(_, oldest) => if Enabled(c, e) then Spawned(f, oldest, |c.preroll|) else f
    case FlushNext(nth, ok) => Copied(f, c.preroll, nth, ok)
    case FlushEnd(nth, eosOk) => Finished(f, nth, eosOk)
    case FlushAbort(nth) => Aborted(f, nth)
    case Crash => CrashedFlushes(f, Opened(c), |c.preroll|)
    case _ => f
  }

  function ProducerStep(p: Producer, e: Event): Producer {
    Producer(Step(p.core, e), FlushStep(p.flushes, p.core, e))
  }

  function ProducerRunFrom(p: Producer, es: seq<Event>): Producer {
    if es == [] then p else ProducerStep(ProducerRunFrom(p, es[..|es| - 1]), es[|es| - 1])
  }

  function ProducerRun(es: seq<Event>): Producer {
    ProducerRunFrom(INIT_PRODUCER, es)
  }

  lemma ProducerRunAppend(p: Producer, es: seq<Event>, e: Event)
    ensures ProducerRunFrom(p, es + [e]) == ProducerStep(ProducerRunFrom(p, es), e)
  {
    assert (es + [e])[..|es|] == es;
  }

  lemma {:induction false} ProducerRunConcat(p: Producer, a: seq<Event>, b: seq<Event>)
    ensures ProducerRunFrom(p, a + b) == ProducerRunFrom(ProducerRunFrom(p, a), b)
    decreases |b|
  {
    if b == [] {
      assert a + b == a;
    } else {
      assert (a + b)[..|a + b| - 1] == a + b[..|b| - 1];
      ProducerRunConcat(p, a, b[..|b| - 1]);
    }
  }

  lemma {:induction false} CoreOfRun(p: Producer, es: seq<Event>)
    ensures ProducerRunFrom(p, es).core == RunFrom(p.core, es)
    decreases |es|
  {
    if es != [] { CoreOfRun(p, es[..|es| - 1]); }
  }

  // ----- How a flush ends -----

  /** The task of a flush that copies nothing more; once ended it stays as it is. */
  ghost predicate CopiesNoMore(t: Task, u: Task) {
    u.sid == t.sid && u.lo == t.lo && u.next == t.next && (u.progress.Broken? || u.progress.Ended?) && (t.progress.Ended? ==> u == t)
  }

  lemma StepCopiesNoMore(f: Flushes, c: Core, e: Event, nth: nat)
    requires nth < |f.tasks| && (f.tasks[nth].progress.Broken? || f.tasks[nth].progress.Ended?)
    ensures |f.tasks| <= |FlushStep(f, c, e).tasks| && CopiesNoMore(f.tasks[nth], FlushStep(f, c, e).tasks[nth])
  {
  }

  lemma {:induction false} RunCopiesNoMore(p: Producer, es: seq<Event>, nth: nat)
    requires nth < |p.flushes.tasks| && (p.flushes.tasks[nth].progress.Broken? || p.flushes.tasks[nth].progress.Ended?)
    ensures var q := ProducerRunFrom(p, es);
            nth < |q.flushes.tasks| && CopiesNoMore(p.flushes.tasks[nth], q.flushes.tasks[nth])
    decreases |es|
  {
    if es != [] {
      var q := ProducerRunFrom(p, es[..|es| - 1]);
      RunCopiesNoMore(p, es[..|es| - 1], nth);
      StepCopiesNoMore(q.flushes, q.core, es[|es| - 1], nth);
    }
  }

  /** After the first copy that fails, a flush of any run copies nothing more, and at most publishes its marker. */
  lemma FailedCopyIsTheLast(es: seq<Event>, nth: nat, more: seq<Event>)
    requires var p := ProducerRun(es);
             nth < |p.flushes.tasks| && p.flushes.tasks[nth].progress.Copying? && p.flushes.tasks[nth].next < |p.core.preroll|
    ensures var p, q := ProducerRun(es), ProducerRun(es + [FlushNext(nth, false)] + more);
            nth < |q.flushes.tasks| && CopiesNoMore(p.flushes.tasks[nth], q.flushes.tasks[nth])
  {
    var p := ProducerRunFrom(INIT_PRODUCER, es + [FlushNext(nth, false)]);
    ProducerRunAppend(INIT_PRODUCER, es, FlushNext(nth, false));
    ProducerRunConcat(INIT_PRODUCER, es + [FlushNext(nth, false)], more);
    RunCopiesNoMore(p, more, nth);
  }

  /** A flush that could not subscribe publishes neither a chunk nor a marker, whatever comes. */
  lemma AbortedFlushIsSilent(es: seq<Event>, nth: nat, more: seq<Event>)
    requires var p := ProducerRun(es);
             nth < |p.flushes.tasks| && p.flushes.tasks[nth].progress.Copying? && p.flushes.tasks[nth].next == p.flushes.tasks[nth].lo
    ensures var q := ProducerRun(es + [FlushAbort(nth)] + more);
            nth < |q.flushes.tasks| && !HasPublished(q.flushes.tasks[nth]) && q.flushes.tasks[nth].progress.Ended?
  {
    var p := ProducerRunFrom(INIT_PRODUCER, es + [FlushAbort(nth)]);
    ProducerRunAppend(INIT_PRODUCER, es, FlushAbort(nth));
    ProducerRunConcat(INIT_PRODUCER, es + [FlushAbort(nth)], more);
    RunCopiesNoMore(p, more, nth);
  }

  // ----- The backfill subject -----

  function BackfillMsgs(sid: string, chunks: seq<Chunk>): seq<Msg> {
    seq(|chunks|, i requires 0 <= i < |chunks| => AudioMsg(SUBJECT_PREFIX_AUDIO_BACKFILL, sid, chunks[i]))
  }

  predicate Within(tasks: seq<Task>, n: nat) {
    forall i :: 0 <= i < |tasks| ==> tasks[i].lo <= tasks[i].next <= n
  }

  function TaskLog(pre: seq<Chunk>, t: Task): seq<Msg>
    requires t.lo <= t.next <= |pre|
  {
    BackfillMsgs(t.sid, pre[t.lo..t.next])
    + if t.progress == Ended(true) then [EosMsg(SUBJECT_PREFIX_AUDIO_BACKFILL, t.sid)] else []
  }

  /** The logs of the first `n` flushes, one after the other. */
  function BackfillLog(pre: seq<Chunk>, tasks: seq<Task>, n: nat): seq<Msg>
    requires Within(tasks, |pre|) && n <= |tasks|
  {
    if n == 0 then [] else BackfillLog(pre, tasks, n - 1) + TaskLog(pre, tasks[n - 1])
  }

  /** As long as no flush published after a later one, the subject holds one flush after the other. */
  ghost predicate Sequential(f: Flushes, pre: seq<Chunk>) {
    && Within(f.tasks, |pre|)
    && (!f.mixed ==> f.backfill == BackfillLog(pre, f.tasks, |f.tasks|))
  }

  lemma {:induction false} BackfillLogStable(pre: seq<Chunk>, x: Chunk, tasks: seq<Task>, n: nat)
    requires Within(tasks, |pre|) && n <= |tasks|
    ensures BackfillLog(pre + [x], tasks, n) == BackfillLog(pre, tasks, n)
  {
    if n > 0 {
      var t := tasks[n - 1];
      BackfillLogStable(pre, x, tasks, n - 1);
      assert (pre + [x])[t.lo..t.next] == pre[t.lo..t.next];
    }
  }

  /** Only what the flushes have published matters. */
  lemma {:induction false} BackfillLogFrame(pre: seq<Chunk>, a: seq<Task>, b: seq<Task>, n: nat)
    requires Within(a, |pre|) && Within(b, |pre|) && n <= |a| && n <= |b|
    requires forall i :: 0 <= i < n ==> TaskLog(pre, a[i]) == TaskLog(pre, b[i])
    ensures BackfillLog(pre, a, n) == BackfillLog(pre, b, n)
  {
    if n > 0 { BackfillLogFrame(pre, a, b, n - 1); }
  }

  lemma GrowsHere(pre: seq<Chunk>, tasks: seq<Task>, changed: seq<Task>, nth: nat, m: Msg)
    requires nth < |tasks| == |changed| && Within(tasks, |pre|) && Within(changed, |pre|)
    requires forall i :: 0 <= i < nth ==> changed[i] == tasks[i]
    requires TaskLog(pre, changed[nth]) == TaskLog(pre, tasks[nth]) + [m]
    ensures BackfillLog(pre, changed, nth + 1) == BackfillLog(pre, tasks, nth + 1) + [m]
  {
    BackfillLogFrame(pre, changed, tasks, nth);
  }

  /** One more message by a flush that no later one has overtaken goes to the end. */
  lemma {:induction false} BackfillLogGrows(pre: seq<Chunk>, tasks: seq<Task>, changed: seq<Task>, nth: nat, m: Msg, n: nat)
    requires nth < n <= |tasks| == |changed| && Within(tasks, |pre|) && Within(changed, |pre|)
    requires forall i :: 0 <= i < |tasks| && i != nth ==> changed[i] == tasks[i]
    requires TaskLog(pre, changed[nth]) == TaskLog(pre, tasks[nth]) + [m]
    requires forall i :: nth < i < |tasks| ==> !HasPublished(tasks[i])
    ensures BackfillLog(pre, changed, n) == BackfillLog(pre, tasks, n) + [m]
    decreases n
  {
    if n - 1 == nth {
      GrowsHere(pre, tasks, changed, nth, m);
    } else {
      BackfillLogGrows(pre, tasks, changed, nth, m, n - 1);
      assert BackfillLog(pre, changed, n) == BackfillLog(pre, changed, n - 1);
      assert BackfillLog(pre, tasks, n) == BackfillLog(pre, tasks, n - 1);
    }
  }

  lemma PublishedKeeps(f: Flushes, pre: seq<Chunk>, nth: nat, t: Task, m: Msg)
    requires Sequential(f, pre) && nth < |f.tasks| && t.lo <= t.next <= |pre|
    requires TaskLog(pre, t) == TaskLog(pre, f.tasks[nth]) + [m]
    ensures Sequential(Flushes(f.tasks[nth := t], f.backfill + [m], f.mixed || LaterPublished(f.tasks, nth)), pre)
  {
    if !f.mixed && !LaterPublished(f.tasks, nth) {
      BackfillLogGrows(pre, f.tasks, f.tasks[nth := t], nth, m, |f.tasks|);
    }
  }

  lemma UnpublishedKeeps(f: Flushes, pre: seq<Chunk>, nth: nat, t: Task)
    requires Sequential(f, pre) && nth < |f.tasks| && t.lo <= t.next <= |pre|
    requires TaskLog(pre, t) == TaskLog(pre, f.tasks[nth])
    ensures Sequential(f.(tasks := f.tasks[nth := t]), pre)
  {
    BackfillLogFrame(pre, f.tasks[nth := t], f.tasks, |f.tasks|);
  }

  lemma CopiedKeeps(f: Flushes, pre: seq<Chunk>, nth: nat, ok: bool)
    requires Sequential(f, pre)
    ensures Sequential(Copied(f, pre, nth, ok), pre)
  {
    if nth < |f.tasks| && f.tasks[nth].progress.Copying? && f.tasks[nth].next < |pre| {
      var t := f.tasks[nth];
      if ok {
        PublishedKeeps(f, pre, nth, t.(next := t.next + 1), AudioMsg(SUBJECT_PREFIX_AUDIO_BACKFILL, t.sid, pre[t.next]));
      } else {
        UnpublishedKeeps(f, pre, nth, t.(progress := Broken));
      }
    }
  }

  lemma FinishedKeeps(f: Flushes, pre: seq<Chunk>, nth: nat, eosOk: bool)
    requires Sequential(f, pre)
    ensures Sequential(Finished(f, nth, eosOk), pre)
  {
    if nth < |f.tasks| && (f.tasks[nth].progress.Copying? || f.tasks[nth].progress.Broken?) {
      var t := f.tasks[nth];
      if eosOk {
        PublishedKeeps(f, pre, nth, t.(progress := Ended(true)), EosMsg(SUBJECT_PREFIX_AUDIO_BACKFILL, t.sid));
      } else {
        UnpublishedKeeps(f, pre, nth, t.(progress := Ended(false)));
      }
    }
  }

  lemma AbortedKeeps(f: Flushes, pre: seq<Chunk>, nth: nat)
    requires Sequential(f, pre)
    ensures Sequential(Aborted(f, nth), pre)
  {
    if nth < |f.tasks| && f.tasks[nth].progress.Copying? {
      UnpublishedKeeps(f, pre, nth, f.tasks[nth].(progress := Ended(false)));
    }
  }

  lemma AddedKeeps(f: Flushes, pre: seq<Chunk>, t: Task)
    requires Sequential(f, pre) && t.lo == t.next == |pre| && t.progress != Ended(true)
    ensures Sequential(f.(tasks := f.tasks + [t]), pre)
  {
    BackfillLogFrame(pre, f.tasks + [t], f.tasks, |f.tasks|);
  }

  lemma SpawnedKeeps(f: Flushes, pre: seq<Chunk>, oldest: nat)
    requires Sequential(f, pre)
    requires forall i :: 0 <= i < |f.tasks| && f.tasks[i].progress.Waiting? ==> f.tasks[i].lo == f.tasks[i].next
    ensures Sequential(Spawned(f, oldest, |pre|), pre)
  {
    if f.tasks != [] && f.tasks[|f.tasks| - 1].progress.Waiting? {
      var k, lo := |f.tasks| - 1, if oldest < |pre| then oldest else |pre|;
      var t := Task(f.tasks[k].sid, lo, lo, Copying);
      UnpublishedKeeps(f, pre, k, t);
    }
  }

  lemma CrashedKeeps(f: Flushes, pre: seq<Chunk>, newSid: Option<string>)
    requires Sequential(f, pre)
    ensures Sequential(CrashedFlushes(f, newSid, |pre|), pre)
  {
    var g := CrashedFlushes(f, None, |pre|);
    assert g.tasks == seq(|f.tasks|, i requires 0 <= i < |f.tasks| => Killed(f.tasks[i]));
    BackfillLogFrame(pre, g.tasks, f.tasks, |f.tasks|);
    if newSid.Some? {
      AddedKeeps(g, pre, Task(newSid.value, |pre|, |pre|, Ended(false)));
    }
  }

  ghost predicate WaitingEmpty(f: Flushes) {
    forall i :: 0 <= i < |f.tasks| && f.tasks[i].progress.Waiting? ==> f.tasks[i].lo == f.tasks[i].next
  }

  lemma FlushStepKeeps(f: Flushes, c: Core, e: Event)
    requires Sequential(f, c.preroll) && WaitingEmpty(f) && !e.Capture?
    ensures Sequential(FlushStep(f, c, e), c.preroll)
  {
    match e
    case StartActivate =>
      if Enabled(c, e) { AddedKeeps(f, c.preroll, Task(c.ctrl.sid, |c.preroll|, |c.preroll|, Waiting)); }
    case StartReady(_, oldest) => SpawnedKeeps(f, c.preroll, oldest);
    case FlushNext(nth, ok) => CopiedKeeps(f, c.preroll, nth, ok);
    case FlushEnd(nth, eosOk) => FinishedKeeps(f, c.preroll, nth, eosOk);
    case FlushAbort(nth) => AbortedKeeps(f, c.preroll, nth);
    case Crash => CrashedKeeps(f, c.preroll, Opened(c));
    case _ =>
  }

  /** A flush for every session, with its id. */
  ghost predicate Matched(p: Producer) {
    && |p.flushes.tasks| == |Sessions(p.core)|
    && (forall i :: 0 <= i < |p.flushes.tasks| ==> p.flushes.tasks[i].sid == Sessions(p.core)[i].sid && IsToken(p.flushes.tasks[i].sid))
    && (p.core.kv.Some? ==> IsToken(p.core.kv.value.sessionId))
    && (p.core.ctrl.Putting? ==> IsToken(p.core.ctrl.sid))
  }

  lemma SameTasks(f: Flushes, c: Core, e: Event)
    requires !e.StartActivate? && !e.Crash?
    ensures |FlushStep(f, c, e).tasks| == |f.tasks|
    ensures forall i :: 0 <= i < |f.tasks| ==> FlushStep(f, c, e).tasks[i].sid == f.tasks[i].sid
  {
  }

  lemma TokensStay(p: Producer, e: Event)
    requires Matched(p)
    ensures var c := Step(p.core, e);
            (c.kv.Some? ==> IsToken(c.kv.value.sessionId)) && (c.ctrl.Putting? ==> IsToken(c.ctrl.sid))
  {
  }

  lemma StepKeepsMatched(p: Producer, e: Event)
    requires Partitioned(p.core) && StartsIdle(p.core) && Matched(p)
    ensures Matched(ProducerStep(p, e))
  {
    TokensStay(p, e);
    if e.StartActivate? {
    } else if e.Crash? {
      CrashKeepsMatched(p);
    } else {
      SameTasks(p.flushes, p.core, e);
    }
  }

  lemma CrashKeepsMatched(p: Producer)
    requires Partitioned(p.core) && Matched(p)
    ensures var q := ProducerStep(p, Crash);
            && |q.flushes.tasks| == |Sessions(q.core)|
            && forall i :: 0 <= i < |q.flushes.tasks| ==> q.flushes.tasks[i].sid == Sessions(q.core)[i].sid && IsToken(q.flushes.tasks[i].sid)
  {
  }

  lemma StepKeepsSequential(p: Producer, e: Event)
    requires Sequential(p.flushes, p.core.preroll) && WaitingEmpty(p.flushes)
    ensures Sequential(ProducerStep(p, e).flushes, ProducerStep(p, e).core.preroll) && WaitingEmpty(ProducerStep(p, e).flushes)
  {
    if e.Capture? {
      BackfillLogStable(p.core.preroll, e.chunk, p.flushes.tasks, |p.flushes.tasks|);
    } else {
      FlushStepKeeps(p.flushes, p.core, e);
    }
  }

  /**
   Over every run, crashes included: each session has its flush, and unless a
   flush publishes after a later session's flush has, the backfill subject holds
   one contiguous piece of the pre-roll per session, in session order, each
   followed by its end marker.
   */
  lemma {:induction false} BackfillOverRuns(es: seq<Event>)
    ensures var p := ProducerRun(es);
            && p.core == Run(es) && Partitioned(p.core) && StartsIdle(p.core)
            && Matched(p) && Sequential(p.flushes, p.core.preroll) && WaitingEmpty(p.flushes)
    decreases |es|
  {
    CoreOfRun(INIT_PRODUCER, es);
    PartitionOverRuns(es);
    if es != [] {
      var front, e := es[..|es| - 1], es[|es| - 1];
      BackfillOverRuns(front);
      StepKeepsMatched(ProducerRun(front), e);
      StepKeepsSequential(ProducerRun(front), e);
    }
  }

  // ----- Exactly when the flushes stay in order -----

  function Subject(t: Task): string {
    SUBJECT_PREFIX_AUDIO_BACKFILL + "." + t.sid
  }

  ghost predicate DistinctIds(tasks: seq<Task>) {
    && (forall i :: 0 <= i < |tasks| ==> IsToken(tasks[i].sid))
    && (forall i, j :: 0 <= i < j < |tasks| ==> tasks[i].sid != tasks[j].sid)
  }

  lemma SubjectsDiffer(tasks: seq<Task>, a: nat, b: nat)
    requires DistinctIds(tasks) && a < |tasks| && b < |tasks| && Subject(tasks[a]) == Subject(tasks[b])
    ensures a == b
  {
    SessionIdOfSubject(SUBJECT_PREFIX_AUDIO_BACKFILL, tasks[a].sid);
    SessionIdOfSubject(SUBJECT_PREFIX_AUDIO_BACKFILL, tasks[b].sid);
  }

  /** A message of a later flush comes before one of an earlier flush. */
  ghost predicate Inverted(backfill: seq<Msg>, tasks: seq<Task>, i: nat, j: nat, a: nat, b: nat) {
    i < j < |backfill| && a < b < |tasks| && backfill[i].subject == Subject(tasks[b]) && backfill[j].subject == Subject(tasks[a])
  }

  lemma {:induction false} LogSubjects(pre: seq<Chunk>, tasks: seq<Task>, n: nat, i: nat) returns (q: nat)
    requires Within(tasks, |pre|) && n <= |tasks| && i < |BackfillLog(pre, tasks, n)|
    ensures q < n && BackfillLog(pre, tasks, n)[i].subject == Subject(tasks[q])
  {
    if i < |BackfillLog(pre, tasks, n - 1)| {
      q := LogSubjects(pre, tasks, n - 1, i);
    } else {
      q := n - 1;
    }
  }

  lemma {:induction false} LogIsInOrder(pre: seq<Chunk>, tasks: seq<Task>, n: nat, i: nat, j: nat, a: nat, b: nat)
    requires Within(tasks, |pre|) && n <= |tasks| && DistinctIds(tasks)
    ensures !Inverted(BackfillLog(pre, tasks, n), tasks, i, j, a, b)
    decreases n
  {
    var all := BackfillLog(pre, tasks, n);
    if Inverted(all, tasks, i, j, a, b) {
      var front := BackfillLog(pre, tasks, n - 1);
      var qi := LogSubjects(pre, tasks, n, i);
      var qj := LogSubjects(pre, tasks, n, j);
      SubjectsDiffer(tasks, qi, b);
      SubjectsDiffer(tasks, qj, a);
      if j < |front| {
        LogIsInOrder(pre, tasks, n - 1, i, j, a, b);
      } else {
        assert all[j] == TaskLog(pre, tasks[n - 1])[j - |front|];
        SubjectsDiffer(tasks, n - 1, a);
      }
      assert false;
    }
  }

  /** Whatever a flush has published is on the subject, and a mixed subject is inverted somewhere. */
  ghost predicate Traceable(f: Flushes) {
    && (forall m :: 0 <= m < |f.tasks| && HasPublished(f.tasks[m]) ==>
          exists i :: 0 <= i < |f.backfill| && f.backfill[i].subject == Subject(f.tasks[m]))
    && (f.mixed ==> exists i: nat, j: nat, a: nat, b: nat :: Inverted(f.backfill, f.tasks, i, j, a, b))
  }

  lemma TraceablePublish(f: Flushes, nth: nat, t: Task, m: Msg)
    requires Traceable(f) && nth < |f.tasks| && t.sid == f.tasks[nth].sid && m.subject == Subject(t)
    ensures Traceable(Flushes(f.tasks[nth := t], f.backfill + [m], f.mixed || LaterPublished(f.tasks, nth)))
  {
    var tasks, backfill := f.tasks[nth := t], f.backfill + [m];
    assert forall i :: 0 <= i < |f.tasks| ==> Subject(tasks[i]) == Subject(f.tasks[i]);
    assert backfill[|f.backfill|].subject == Subject(tasks[nth]);
    forall k | 0 <= k < |tasks| && HasPublished(tasks[k])
      ensures exists i :: 0 <= i < |backfill| && backfill[i].subject == Subject(tasks[k])
    {
      if k != nth {
        var i :| 0 <= i < |f.backfill| && f.backfill[i].subject == Subject(f.tasks[k]);
        assert backfill[i].subject == Subject(tasks[k]);
      }
    }
    if f.mixed {
      var i: nat, j: nat, a: nat, b: nat :| Inverted(f.backfill, f.tasks, i, j, a, b);
      assert Inverted(backfill, tasks, i, j, a, b);
    } else if LaterPublished(f.tasks, nth) {
      var b :| nth < b < |f.tasks| && HasPublished(f.tasks[b]);
      var i :| 0 <= i < |f.backfill| && f.backfill[i].subject == Subject(f.tasks[b]);
      assert Inverted(backfill, tasks, i, |f.backfill|, nth, b);
    }
  }

  lemma TraceableOther(f: Flushes, g: Flushes)
    requires Traceable(f) && g.backfill == f.backfill && g.mixed == f.mixed && |f.tasks| <= |g.tasks|
    requires forall i :: 0 <= i < |f.tasks| ==> g.tasks[i].sid == f.tasks[i].sid
    requires forall i :: 0 <= i < |g.tasks| && HasPublished(g.tasks[i]) ==> i < |f.tasks| && HasPublished(f.tasks[i])
    ensures Traceable(g)
  {
    assert forall i :: 0 <= i < |f.tasks| ==> Subject(g.tasks[i]) == Subject(f.tasks[i]);
    if f.mixed {
      var i: nat, j: nat, a: nat, b: nat :| Inverted(f.backfill, f.tasks, i, j, a, b);
      assert Inverted(g.backfill, g.tasks, i, j, a, b);
    }
  }

  lemma TraceableCopy(f: Flushes, preroll: seq<Chunk>, nth: nat, ok: bool)
    requires Traceable(f)
    ensures Traceable(Copied(f, preroll, nth, ok))
  {
    if nth < |f.tasks| && f.tasks[nth].progress.Copying? && f.tasks[nth].next < |preroll| {
      var t := f.tasks[nth];
      if ok {
        TraceablePublish(f, nth, t.(next := t.next + 1), AudioMsg(SUBJECT_PREFIX_AUDIO_BACKFILL, t.sid, preroll[t.next]));
      } else {
        TraceableOther(f, Copied(f, preroll, nth, ok));
      }
    }
  }

  lemma TraceableFinish(f: Flushes, nth: nat, eosOk: bool)
    requires Traceable(f)
    ensures Traceable(Finished(f, nth, eosOk))
  {
    if nth < |f.tasks| && (f.tasks[nth].progress.Copying? || f.tasks[nth].progress.Broken?) {
      var t := f.tasks[nth];
      if eosOk {
        TraceablePublish(f, nth, t.(progress := Ended(true)), EosMsg(SUBJECT_PREFIX_AUDIO_BACKFILL, t.sid));
      } else {
        TraceableOther(f, Finished(f, nth, eosOk));
      }
    }
  }

  lemma TraceableCrash(f: Flushes, newSid: Option<string>, size: nat)
    requires Traceable(f)
    ensures Traceable(CrashedFlushes(f, newSid, size))
  {
    var g := CrashedFlushes(f, newSid, size);
    assert forall i :: 0 <= i < |f.tasks| ==> g.tasks[i] == Killed(f.tasks[i]);
    TraceableOther(f, g);
  }

  lemma TraceableStep(f: Flushes, c: Core, e: Event)
    requires Traceable(f) && WaitingEmpty(f)
    ensures Traceable(FlushStep(f, c, e))
  {
    match e
    case FlushNext(nth, ok) => TraceableCopy(f, c.preroll, nth, ok);
    case FlushEnd(nth, eosOk) => TraceableFinish(f, nth, eosOk);
    case StartActivate =>
      if Enabled(c, e) { TraceableOther(f, Planned(f, c.ctrl.sid, |c.preroll|)); }
    case StartReady(_, oldest) => TraceableOther(f, Spawned(f, oldest, |c.preroll|));
    case FlushAbort(nth) => TraceableOther(f, Aborted(f, nth));
    case Crash => TraceableCrash(f, Opened(c), |c.preroll|);
    case _ =>
  }

  lemma {:induction false} TraceableOverRuns(es: seq<Event>)
    ensures Traceable(ProducerRun(es).flushes)
    decreases |es|
  {
    if es != [] {
      var front, e := es[..|es| - 1], es[|es| - 1];
      TraceableOverRuns(front);
      BackfillOverRuns(front);
      TraceableStep(ProducerRun(front).flushes, ProducerRun(front).core, e);
    }
  }

  /**
   With distinct session ids, on every run: the backfill subject holds the
   flushes one after the other if and only if no flush has copied a chunk, or
   ended with its marker, after a later session's flush had published.
   */
  lemma {:induction false} InOrderExactlyWhen(es: seq<Event>)
    requires DistinctIds(ProducerRun(es).flushes.tasks)
    ensures var p := ProducerRun(es);
            && Within(p.flushes.tasks, |p.core.preroll|)
            && (p.flushes.backfill == BackfillLog(p.core.preroll, p.flushes.tasks, |p.flushes.tasks|) <==> !p.flushes.mixed)
  {
    var p := ProducerRun(es);
    BackfillOverRuns(es);
    TraceableOverRuns(es);
    if p.flushes.mixed {
      var i: nat, j: nat, a: nat, b: nat :| Inverted(p.flushes.backfill, p.flushes.tasks, i, j, a, b);
      LogIsInOrder(p.core.preroll, p.flushes.tasks, |p.flushes.tasks|, i, j, a, b);
    }
  }

  // ----- The flush task by itself -----

  /**
   One fetch of the flush: a timeout or an error, or a batch of at most `size`
   messages, of which number `failAt` is published or not before an error ends
   the flush.
   */
  datatype Fetch = NoMore | Batch(size: nat, failAt: Option<nat>, reached: bool)

  /** How many messages a batch copies when `left` remain. */
  function BatchCopies(f: Fetch, left: nat): (n: nat)
    requires f.Batch?
    ensures n <= left && n <= f.size
  {
    var size := if f.size < left then f.size else left;
    if f.failAt.Some? && f.failAt.value < size then f.failAt.value + (if f.reached then 1 else 0) else size
  }

  /** Nothing in the batch fails, and it is not empty. */
  predicate GoesOn(f: Fetch, left: nat)
    requires f.Batch?
  {
    f.size > 0 && left > 0 && !(f.failAt.Some? && f.failAt.value < f.size && f.failAt.value < left)
  }

  /** The pre-roll position that a flush with these fetches comes to. */
  function FlushedTo(fetches: seq<Fetch>, next: nat, end: nat): (r: nat)
    requires next <= end
    ensures next <= r <= end
    decreases |fetches|
  {
    if fetches == [] || fetches[0].NoMore? then next else
      var after := next + BatchCopies(fetches[0], end - next);
      if GoesOn(fetches[0], end - next) then FlushedTo(fetches[1..], after, end) else after
  }

  /** Without errors and with enough non-empty fetches the whole pre-roll is copied. */
  lemma {:induction false} FlushIsComplete(fetches: seq<Fetch>, next: nat, end: nat)
    requires next <= end <= next + |fetches|
    requires forall f :: f in fetches ==> f.Batch? && f.size > 0 && f.failAt.None?
    ensures FlushedTo(fetches, next, end) == end
    decreases |fetches|
  {
    if next < end {
      assert fetches[0] in fetches;
      FlushIsComplete(fetches[1..], next + BatchCopies(fetches[0], end - next), end);
    }
  }

  /** A fetch in which nothing fails. */
  predicate Sound(f: Fetch) {
    f.Batch? && f.size > 0 && f.failAt.None?
  }

  function TotalSize(fetches: seq<Fetch>): nat {
    if fetches == [] then 0 else (if fetches[0].Batch? then fetches[0].size else 0) + TotalSize(fetches[1..])
  }

  function Least(a: nat, b: nat): nat {
    if a <= b then a else b
  }

  /**
   The flush goes through its sound fetches up to the first other one: a timeout
   or an error ends it there, an error in a batch behind what the batch had
   copied by then; whatever could still be fetched, nothing more is copied.
   */
  lemma {:induction false} FlushStopsAtError(sound: seq<Fetch>, f: Fetch, rest: seq<Fetch>, next: nat, end: nat)
    requires next <= end && forall i :: 0 <= i < |sound| ==> Sound(sound[i])
    requires f.NoMore? || (f.failAt.Some? && f.failAt.value < f.size)
    ensures FlushedTo(sound + [f] + rest, next, end) ==
            Least(end, next + TotalSize(sound) + if f.NoMore? then 0 else f.failAt.value + if f.reached then 1 else 0)
    decreases |sound|
  {
    var all := sound + [f] + rest;
    if sound == [] {
      assert all[0] == f && all[1..] == rest;
      if next == end { FullAlready(rest, end); }
    } else {
      assert Sound(sound[0]);
      var after := next + BatchCopies(sound[0], end - next);
      assert all[0] == sound[0] && all[1..] == sound[1..] + [f] + rest;
      FlushStopsAtError(sound[1..], f, rest, after, end);
    }
  }

  lemma FullAlready(fetches: seq<Fetch>, end: nat)
    ensures FlushedTo(fetches, end, end) == end
  {
  }

  /** Copies one batch; `goOn` is false after an error or an empty batch. */
  method CopyBatch(sid: string, preroll: seq<Chunk>, next: nat, f: Fetch) returns (msgs: seq<Msg>, goOn: bool)
    requires next <= |preroll| && f.Batch?
    ensures goOn <==> GoesOn(f, |preroll| - next)
    ensures msgs == BackfillMsgs(sid, preroll[next..next + BatchCopies(f, |preroll| - next)])
  {
    var size := if f.size < |preroll| - next then f.size else |preroll| - next;
    msgs, goOn := [], false;
    if size == 0 { return; }
    var i := 0;
    while i < size
      invariant 0 <= i <= size
      invariant f.failAt.Some? && f.failAt.value < size ==> i <= f.failAt.value
      invariant msgs == BackfillMsgs(sid, preroll[next..next + i])
    {
      var failing := f.failAt == Some(i);
      if !failing || f.reached {
        assert preroll[next..next + i + 1] == preroll[next..next + i] + [preroll[next + i]];
        msgs := msgs + [AudioMsg(SUBJECT_PREFIX_AUDIO_BACKFILL, sid, preroll[next + i])];
      }
      if failing { return; }
      i := i + 1;
    }
    goOn := true;
  }

  /** The flush publishes a contiguous piece of the pre-roll, then its end marker, even after an error; nothing when it cannot subscribe. */
  method FlushPreroll(sid: string, preroll: seq<Chunk>, oldest: nat, subscribed: bool, fetches: seq<Fetch>, eosOk: bool)
    returns (published: seq<Msg>)
    requires oldest <= |preroll|
    ensures published == if subscribed
                         then TaskLog(preroll, Task(sid, oldest, FlushedTo(fetches, oldest, |preroll|), Ended(eosOk)))
                         else []
  {
    published := [];
    if !subscribed { return; }
    var next, goOn, i := oldest, true, 0;
    while goOn && i < |fetches|
      invariant oldest <= next <= |preroll| && 0 <= i <= |fetches|
      invariant published == BackfillMsgs(sid, preroll[oldest..next])
      invariant FlushedTo(fetches, oldest, |preroll|) == if goOn then FlushedTo(fetches[i..], next, |preroll|) else next
      decreases |fetches| - i, goOn
    {
      if fetches[i].NoMore? {
        goOn := false;
      } else {
        var msgs;
        msgs, goOn := CopyBatch(sid, preroll, next, fetches[i]);
        var after := next + |msgs|;
        assert fetches[i..][1..] == fetches[i + 1..];
        assert preroll[oldest..after] == preroll[oldest..next] + preroll[next..after];
        published, next, i := published + msgs, after, i + 1;
      }
    }
    if eosOk { published := published + [EosMsg(SUBJECT_PREFIX_AUDIO_BACKFILL, sid)]; }
  }
}
