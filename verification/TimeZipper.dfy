/**
 The Time Zipper: final transcripts wait in a list until an identity event
 close in time names the speaker, or until they are too old to wait longer.

 A subscriber task and a fusion task share the pending list and interleave at
 every `await`.  The fusion task suspends only while it publishes, acks or naks
 a released transcript and while it sleeps between cycles; the phases of
 `State` are exactly these suspension points, and each event is what happens
 between two of them.
 */
module TimeZipper {
  import opened Common

  const PUBLISH_TIMEOUT := 3.0
  const MATCH_WINDOW := 2.0
  const MAX_BUFFER: nat := 500
  const CYCLE_SLEEP := 0.1

  /** `timestamp` is `None` when it is absent or cannot be parsed. */
  datatype Transcript = Transcript(isFinal: bool, source: Option<string>, timestamp: Option<real>, text: string)
  datatype Identity = Identity(source: Option<string>, timestamp: Option<real>, speaker: Option<string>)

  /** `msg` is the broker delivery, numbered in order of arrival. */
  datatype Pending = Pending(msg: nat, data: Transcript, receivedAt: real)

  datatype Phase =
    | Idle                                                  // sleeping between cycles
    | Publishing(item: Pending, identity: Option<Identity>) // awaiting publish
    | Acking(item: Pending)                                 // awaiting ack
    | Naking(item: Pending, published: bool)                // awaiting nak

  /** `nth` is the position of the release it carries out. */
  datatype Publication = Publication(item: Pending, nth: nat, subject: string, speaker: string)

  /** The decision to let a transcript go; `heard` counts the identity events received by then. */
  datatype Release = Release(item: Pending, identity: Option<Identity>, now: real, heard: nat)

  /** How a final transcript leaves the program; the last two are negative acknowledgements. */
  datatype Outcome = Delivered | Evicted | PublishFailed | AckFailed
  datatype Settlement = Settlement(item: Pending, outcome: Outcome)

  /** `wake` is the earliest end of the sleep between two cycles: the clock stands at the last event known to have happened. */
  datatype State = State(
    // shared by the tasks
    pending: seq<Pending>,
    live: seq<Identity>,
    backfill: seq<Identity>,
    // local to the fusion task
    now: real,
    batch: seq<Pending>,
    still: seq<Pending>,
    phase: Phase,
    wake: real,
    // history
    clock: real,
    arrived: seq<Pending>,
    heard: seq<Identity>,
    releases: seq<Release>,
    finals: seq<Publication>,
    interims: seq<Transcript>,
    acked: seq<Pending>,
    settled: seq<Settlement>)

  datatype Event =
    | Deliver(data: Transcript, at: real, publishOk: bool, ackOk: bool)
    | Hear(id: Identity)
    | Begin(at: real)
    | PublishDone(ok: bool)
    | AckDone(ok: bool)
    | NakDone

  const INIT := State([], [], [], 0.0, [], [], Idle, 0.0, 0.0, [], [], [], [], [], [], [])

  // ----- Attribution of one transcript -----

  function SourceOf(source: Option<string>): string {
    if source.Some? then source.value else "live"
  }

  predicate IsBackfill(source: Option<string>) {
    SourceOf(source) == "backfill"
  }

  /** The distance between two points in time. */
  function Diff(id: Identity, ts: real): (d: real)
    requires id.timestamp.Some?
    ensures d >= 0.0 && (ts + d == id.timestamp.value || ts - d == id.timestamp.value)
  {
    if id.timestamp.value >= ts then id.timestamp.value - ts else ts - id.timestamp.value
  }

  /** What a left-to-right scan keeping the strictly closest event so far ends with. */
  function Nearest(pool: seq<Identity>, ts: real): (best: Option<Identity>)
    ensures best.Some? ==> best.value.timestamp.Some?
  {
    if pool == [] then None else
      var best := Nearest(pool[..|pool| - 1], ts);
      var id := pool[|pool| - 1];
      if id.timestamp.Some? && Diff(id, ts) < (if best.Some? then Diff(best.value, ts) else MATCH_WINDOW)
      then Some(id) else best
  }

  function Match(live: seq<Identity>, backfill: seq<Identity>, data: Transcript): Option<Identity> {
    if data.timestamp.None? then None
    else Nearest(if IsBackfill(data.source) then backfill else live, data.timestamp.value)
  }

  /** `i` is the first position of `pool` at the least distance from `ts`, and that distance is inside the window. */
  ghost predicate FirstClosestAt(pool: seq<Identity>, ts: real, i: nat) {
    && i < |pool| && pool[i].timestamp.Some? && Diff(pool[i], ts) < MATCH_WINDOW
    && (forall j :: 0 <= j < |pool| && pool[j].timestamp.Some? ==> Diff(pool[i], ts) <= Diff(pool[j], ts))
    && (forall j :: 0 <= j < i && pool[j].timestamp.Some? ==> Diff(pool[i], ts) < Diff(pool[j], ts))
  }

  lemma {:induction false} NearestIsFirstClosest(pool: seq<Identity>, ts: real)
    ensures Nearest(pool, ts).None? <==>
            forall j :: 0 <= j < |pool| && pool[j].timestamp.Some? ==> Diff(pool[j], ts) >= MATCH_WINDOW
    ensures Nearest(pool, ts).Some? ==>
              exists i: nat :: FirstClosestAt(pool, ts, i) && pool[i] == Nearest(pool, ts).value
  {
    if pool != [] {
      var front, last := pool[..|pool| - 1], pool[|pool| - 1];
      NearestIsFirstClosest(front, ts);
      assert forall j :: 0 <= j < |front| ==> front[j] == pool[j];
      if Nearest(front, ts).Some? {
        var i: nat :| FirstClosestAt(front, ts, i) && front[i] == Nearest(front, ts).value;
        if Nearest(pool, ts) == Nearest(front, ts) && !(last.timestamp.Some? && Diff(last, ts) < Diff(front[i], ts)) {
          assert FirstClosestAt(pool, ts, i);
        } else {
          assert FirstClosestAt(pool, ts, |pool| - 1);
        }
      } else if Nearest(pool, ts).Some? {
        assert FirstClosestAt(pool, ts, |pool| - 1);
      } else {
        assert forall j :: 0 <= j < |pool| && pool[j].timestamp.Some? ==> j < |front| || j == |pool| - 1;
      }
    }
  }

  /** There is at most one first closest event, and it is the one the scan ends with. */
  lemma FirstClosestIsNearest(pool: seq<Identity>, ts: real, i: nat)
    requires FirstClosestAt(pool, ts, i)
    ensures Nearest(pool, ts) == Some(pool[i])
  {
    NearestIsFirstClosest(pool, ts);
    var k: nat :| FirstClosestAt(pool, ts, k) && pool[k] == Nearest(pool, ts).value;
    assert i == k;
  }

  // ----- The interleaved steps -----

  function SpeakerOf(id: Option<Identity>): string {
    if id.Some? && id.value.speaker.Some? then id.value.speaker.value else "Unknown"
  }

  /** The fusion task lets a transcript go when a speaker is known or its time is up. */
  predicate Due(live: seq<Identity>, backfill: seq<Identity>, now: real, item: Pending) {
    Match(live, backfill, item.data).Some? || now - item.receivedAt >= PUBLISH_TIMEOUT
  }

  /** How many leading transcripts of the batch are kept before the first one that is due. */
  function KeptBefore(live: seq<Identity>, backfill: seq<Identity>, now: real, batch: seq<Pending>): (k: nat)
    ensures k <= |batch|
    ensures forall i :: 0 <= i < k ==> !Due(live, backfill, now, batch[i])
    ensures k < |batch| ==> Due(live, backfill, now, batch[k])
  {
    if batch == [] || Due(live, backfill, now, batch[0]) then 0
    else 1 + KeptBefore(live, backfill, now, batch[1..])
  }

  /** The fusion task runs on until it must await: at the next release, or at the end of the batch. */
  function Resume(s: State): State {
    var k := KeptBefore(s.live, s.backfill, s.now, s.batch);
    var kept := s.still + s.batch[..k];
    if k == |s.batch| then
      s.(pending := kept + s.pending, batch := [], still := [], phase := Idle, wake := s.clock + CYCLE_SLEEP)
    else
      var item := s.batch[k];
      var id := Match(s.live, s.backfill, item.data);
      s.(still := kept, batch := s.batch[k + 1..], phase := Publishing(item, id),
         releases := s.releases + [Release(item, id, s.now, |s.heard|)])
  }

  /** The message that announces the transcript in flight; the program has released it last. */
  function PublicationOf(s: State): Publication
    requires s.phase.Publishing?
  {
    var item := s.phase.item;
    Publication(item, if s.releases == [] then 0 else |s.releases| - 1,
                "transcript.final." + SourceOf(item.data.source), SpeakerOf(s.phase.identity))
  }

  /** The transcript in flight leaves the program. */
  function Settle(s: State, o: Outcome): State
    requires !s.phase.Idle?
  {
    var item := s.phase.item;
    s.(acked := if o.Delivered? then s.acked + [item] else s.acked,
       settled := s.settled + [Settlement(item, o)])
  }

  /** A final transcript is queued; the oldest one is dropped when the list grows past its cap. */
  function Queued(s: State, data: Transcript, at: real, ackOk: bool): State {
    var item := Pending(|s.arrived|, data, at);
    var grown := s.pending + [item];
    var t := s.(clock := at, arrived := s.arrived + [item]);
    if |grown| > MAX_BUFFER then
      t.(pending := grown[1..], settled := s.settled + [Settlement(grown[0], Evicted)],
         acked := if ackOk then s.acked + [grown[0]] else s.acked)
    else
      t.(pending := grown)
  }

  function Received(s: State, e: Event): State
    requires e.Deliver?
  {
    if e.data.isFinal then Queued(s, e.data, e.at, e.ackOk)
    else s.(clock := e.at, interims := if e.publishOk then s.interims + [e.data] else s.interims)
  }

  predicate Enabled(s: State, e: Event) {
    match e
    case Deliver(_, at, _, _) => s.clock <= at
    case Hear(_) => true
    case Begin(at) => s.phase.Idle? && s.clock <= at && s.wake <= at
    case PublishDone(_) => s.phase.Publishing?
    case AckDone(_) => s.phase.Acking?
    case NakDone => s.phase.Naking?
  }

  function Heard(s: State, id: Identity): State {
    var t := s.(heard := s.heard + [id]);
    if IsBackfill(id.source) then t.(backfill := LastN(s.backfill + [id], MAX_BUFFER))
    else t.(live := LastN(s.live + [id], MAX_BUFFER))
  }

  /** The snapshot that starts a cycle. */
  function Snapshot(s: State, at: real): State {
    s.(clock := at, now := at, batch := s.pending, pending := [], still := [])
  }

  function PublishEnded(s: State, ok: bool): State
    requires s.phase.Publishing?
  {
    if ok then s.(phase := Acking(s.phase.item), finals := s.finals + [PublicationOf(s)])
    else s.(phase := Naking(s.phase.item, false))
  }

  function AckEnded(s: State, ok: bool): State
    requires s.phase.Acking?
  {
    if ok then Resume(Settle(s, Delivered)) else s.(phase := Naking(s.phase.item, true))
  }

  function NakEnded(s: State): State
    requires s.phase.Naking?
  {
    Resume(Settle(s, if s.phase.published then AckFailed else PublishFailed))
  }

  /** An event that cannot happen in `s` changes nothing, so every event sequence is a run. */
  function Step(s: State, e: Event): State {
    if !Enabled(s, e) then s else
      match e
      case Deliver(_, _, _, _) => Received(s, e)
      case Hear(id) => Heard(s, id)
      case Begin(at) => Resume(Snapshot(s, at))
      case PublishDone(ok) => PublishEnded(s, ok)
      case AckDone(ok) => AckEnded(s, ok)
      case NakDone => NakEnded(s)
  }

  function Run(es: seq<Event>): State {
    if es == [] then INIT else Step(Run(es[..|es| - 1]), es[|es| - 1])
  }

  /** The released transcript the fusion task is busy with, if any. */
  function InFlight(s: State): seq<Pending> {
    if s.phase.Idle? then [] else [s.phase.item]
  }

  /** Everything received and not yet settled, in the order the program holds it. */
  function Holding(s: State): seq<Pending> {
    s.still + InFlight(s) + s.batch + s.pending
  }

  /** What the fusion task has not yet decided about. */
  function Undecided(s: State): seq<Pending> {
    s.still + s.batch + s.pending
  }
}
