/** What every run of the Time Zipper keeps, whatever the interleaving of its tasks. */
module TimeZipperRuns {
  import opened Common
  import opened TimeZipper

  // ----- Conservation: everything received is held or settled, once -----

  ghost predicate Increasing(q: seq<Pending>) {
    forall i, j :: 0 <= i < j < |q| ==> q[i].msg < q[j].msg
  }

  function Outs(settled: seq<Settlement>): seq<Pending> {
    seq(|settled|, i requires 0 <= i < |settled| => settled[i].item)
  }

  ghost predicate Balanced(held: seq<Pending>, settled: seq<Settlement>, arrived: seq<Pending>) {
    Increasing(held) && multiset(held) + multiset(Outs(settled)) == multiset(arrived)
  }

  lemma BalancedMembers(held: seq<Pending>, settled: seq<Settlement>, arrived: seq<Pending>)
    requires Balanced(held, settled, arrived)
    ensures forall p :: p in held ==> p in arrived
    ensures forall st :: st in settled ==> st.item in arrived
  {
    forall p | p in held ensures p in arrived {
      assert p in multiset(held);
      assert p in multiset(arrived);
    }
    forall st | st in settled ensures st.item in arrived {
      var i :| 0 <= i < |settled| && settled[i] == st;
      assert Outs(settled)[i] == st.item;
      assert st.item in multiset(Outs(settled));
      assert st.item in multiset(arrived);
    }
  }

  lemma BalancedSettlement(a: seq<Pending>, x: Pending, b: seq<Pending>, settled: seq<Settlement>, o: Outcome, arrived: seq<Pending>)
    requires Balanced(a + [x] + b, settled, arrived)
    ensures Balanced(a + b, settled + [Settlement(x, o)], arrived)
  {
    assert Outs(settled + [Settlement(x, o)]) == Outs(settled) + [x];
    var h, k := a + [x] + b, |a|;
    forall i, j | 0 <= i < j < |a + b| ensures (a + b)[i].msg < (a + b)[j].msg {
      assert h[if i < k then i else i + 1].msg < h[if j < k then j else j + 1].msg;
    }
  }

  lemma BalancedArrival(held: seq<Pending>, x: Pending, settled: seq<Settlement>, arrived: seq<Pending>)
    requires Balanced(held, settled, arrived)
    requires forall p :: p in arrived ==> p.msg < x.msg
    ensures Balanced(held + [x], settled, arrived + [x])
  {
    BalancedMembers(held, settled, arrived);
  }

  ghost predicate Numbered(arrived: seq<Pending>, clock: real) {
    && (forall i :: 0 <= i < |arrived| ==> arrived[i].msg == i && arrived[i].receivedAt <= clock)
    && (forall i, j :: 0 <= i < j < |arrived| ==> arrived[i].receivedAt <= arrived[j].receivedAt)
  }

  ghost predicate Ledger(s: State) {
    && Numbered(s.arrived, s.clock)
    && Balanced(Holding(s), s.settled, s.arrived)
    && (s.phase.Idle? ==> s.batch == [] && s.still == [])
  }

  // ----- Publication: at most once, and acked only if published or evicted -----

  ghost predicate Published(finals: seq<Publication>, p: Pending) {
    exists i :: 0 <= i < |finals| && finals[i].item == p
  }

  ghost predicate Once(finals: seq<Publication>) {
    forall i, j :: 0 <= i < j < |finals| ==> finals[i].item != finals[j].item
  }

  /** Whether the transcript in flight has been published. */
  predicate InFlightPublished(s: State) {
    s.phase.Acking? || (s.phase.Naking? && s.phase.published)
  }

  /** The outcome of a settled transcript says truthfully whether it was published and acked. */
  ghost predicate Truthful(finals: seq<Publication>, acked: seq<Pending>, settled: seq<Settlement>) {
    && (forall st :: st in settled ==> (Published(finals, st.item) <==> st.outcome.Delivered? || st.outcome.AckFailed?))
    && (forall p :: p in acked ==> Settlement(p, Delivered) in settled || Settlement(p, Evicted) in settled)
    && (forall p :: Settlement(p, Delivered) in settled ==> p in acked)
  }

  ghost predicate Accounted(s: State) {
    && Once(s.finals)
    && Truthful(s.finals, s.acked, s.settled)
    && (forall f :: f in s.finals ==> f.item in s.arrived)
    && (forall p :: p in Undecided(s) ==> !Published(s.finals, p))
    && (!s.phase.Idle? ==> (Published(s.finals, s.phase.item) <==> InFlightPublished(s)))
  }

  // ----- Order and waiting time -----

  /** Nothing kept through a cycle was old enough at its start to be released. */
  ghost predicate Fresh(s: State) {
    && s.now <= s.clock
    && (forall p :: p in s.still || p in s.pending ==> s.now - p.receivedAt < PUBLISH_TIMEOUT)
  }

  /** Released because a speaker was found, before the timeout. */
  predicate Early(r: Release) {
    r.identity.Some? && r.now - r.item.receivedAt < PUBLISH_TIMEOUT
  }

  /** `r` leaves in arrival order with respect to delivery `msg`, or overtakes it only by an early match. */
  predicate MayPrecede(r: Release, msg: nat) {
    r.item.msg < msg || (r.item.msg > msg && Early(r))
  }

  ghost predicate Ordered(releases: seq<Release>, undecided: seq<Pending>, arrived: seq<Pending>) {
    && (forall r :: r in releases ==> r.item in arrived)
    && (forall i, j :: 0 <= i < j < |releases| ==> MayPrecede(releases[i], releases[j].item.msg))
    && (forall r, p :: r in releases && p in undecided ==> MayPrecede(r, p.msg))
  }

  ghost predicate Inv(s: State) {
    Ledger(s) && Accounted(s) && Fresh(s) && Ordered(s.releases, Undecided(s), s.arrived)
  }

  // ----- The fusion task runs on -----

  /** The invariant at the moment the fusion task runs on with nothing in flight. */
  ghost predicate Running(s: State) {
    && Numbered(s.arrived, s.clock)
    && Balanced(Undecided(s), s.settled, s.arrived)
    && Once(s.finals)
    && Truthful(s.finals, s.acked, s.settled)
    && (forall f :: f in s.finals ==> f.item in s.arrived)
    && (forall p :: p in Undecided(s) ==> !Published(s.finals, p))
    && Fresh(s)
    && Ordered(s.releases, Undecided(s), s.arrived)
  }

  lemma AroundPosition<T>(a: seq<T>, b: seq<T>, c: seq<T>, k: nat)
    requires k < |b|
    ensures (a + b[..k]) + [b[k]] + b[k + 1..] + c == a + b + c
  {
    assert b == b[..k] + [b[k]] + b[k + 1..];
  }

  lemma ResumeFrame(s: State)
    ensures Holding(Resume(s)) == Undecided(s)
    ensures Resume(s).phase.Idle? || Resume(s).phase.Publishing?
    ensures Resume(s).phase.Idle? ==> Resume(s).batch == [] && Resume(s).still == []
  {
    var k := KeptBefore(s.live, s.backfill, s.now, s.batch);
    if k < |s.batch| {
      AroundPosition(s.still, s.batch, s.pending, k);
    } else {
      assert s.batch[..k] == s.batch;
    }
  }

  lemma ResumeKeepsOrdered(s: State)
    requires Numbered(s.arrived, s.clock) && Fresh(s) && Increasing(Undecided(s))
    requires Ordered(s.releases, Undecided(s), s.arrived)
    requires forall p :: p in Undecided(s) ==> p in s.arrived
    ensures Ordered(Resume(s).releases, Undecided(Resume(s)), s.arrived)
  {
    var t := Resume(s);
    ResumeFrame(s);
    if t.phase.Idle? {
      assert Undecided(t) == Holding(t);
    } else {
      var r := t.releases[|s.releases|];
      assert Holding(t)[|t.still|] == r.item;
      forall i | 0 <= i < |s.releases| ensures MayPrecede(s.releases[i], r.item.msg) {
        assert s.releases[i] in s.releases && r.item in Undecided(s);
      }
      forall p | p in Undecided(t) ensures p in Undecided(s) && MayPrecede(r, p.msg) {
        ReleaseMayPrecede(s, p);
      }
    }
  }

  /** Only a transcript already kept in this cycle can be overtaken, so the overtaking one is younger still. */
  lemma OvertakesOnlyEarly(s: State, i: nat)
    requires Numbered(s.arrived, s.clock) && Fresh(s) && Increasing(Undecided(s))
    requires forall q :: q in Undecided(s) ==> q in s.arrived
    requires Resume(s).phase.Publishing? && i < |Resume(s).still|
    ensures var t := Resume(s);
            Undecided(s)[i] == t.still[i] && MayPrecede(t.releases[|s.releases|], t.still[i].msg)
  {
    ResumeFrame(s);
    var t := Resume(s);
    var u, k, p, item := Undecided(s), |t.still|, t.still[i], t.phase.item;
    assert u[k] == item && u[i] == p;
    assert item in s.arrived && p in s.arrived;
    assert s.arrived[p.msg] == p && s.arrived[item.msg] == item;
    assert p in t.still;
  }

  lemma KeptMayBePreceded(s: State, p: Pending)
    requires Numbered(s.arrived, s.clock) && Fresh(s) && Increasing(Undecided(s))
    requires forall q :: q in Undecided(s) ==> q in s.arrived
    requires Resume(s).phase.Publishing?
    requires p in Resume(s).still
    ensures p in Undecided(s) && MayPrecede(Resume(s).releases[|s.releases|], p.msg)
  {
    ResumeFrame(s);
    var t := Resume(s);
    var i :| 0 <= i < |t.still| && t.still[i] == p;
    OvertakesOnlyEarly(s, i);
  }

  /** What is still undecided around a release: the kept ones before it and the rest after it. */
  lemma AroundRelease(s: State) returns (rest: seq<Pending>)
    requires Resume(s).phase.Publishing?
    ensures var t := Resume(s);
            && Undecided(s) == t.still + [t.phase.item] + rest && Undecided(t) == t.still + rest
            && t.releases[|s.releases|].item == t.phase.item
  {
    ResumeFrame(s);
    var t := Resume(s);
    rest := t.batch + t.pending;
    Associative(t.still, t.batch, t.pending);
    Associative(t.still + [t.phase.item], t.batch, t.pending);
    assert Holding(t) == t.still + [t.phase.item] + t.batch + t.pending;
  }

  lemma LaterIsYounger(before: seq<Pending>, after: seq<Pending>, kept: seq<Pending>, item: Pending, rest: seq<Pending>, p: Pending)
    requires before == kept + [item] + rest && after == kept + rest
    requires Increasing(before) && p in after
    ensures p in before && (p in kept || item.msg < p.msg)
  {
    if p !in kept {
      var i :| 0 <= i < |rest| && rest[i] == p;
      assert before[|kept|] == item && before[|kept| + 1 + i] == p;
    }
  }

  lemma ReleaseMayPrecede(s: State, p: Pending)
    requires Numbered(s.arrived, s.clock) && Fresh(s) && Increasing(Undecided(s))
    requires forall q :: q in Undecided(s) ==> q in s.arrived
    requires Resume(s).phase.Publishing?
    requires p in Undecided(Resume(s))
    ensures p in Undecided(s) && MayPrecede(Resume(s).releases[|s.releases|], p.msg)
  {
    var t := Resume(s);
    var rest := AroundRelease(s);
    LaterIsYounger(Undecided(s), Undecided(t), t.still, t.phase.item, rest, p);
    if p in t.still { KeptMayBePreceded(s, p); }
  }

  lemma ResumeKeepsAccounted(s: State)
    requires Once(s.finals) && Truthful(s.finals, s.acked, s.settled)
    requires forall f :: f in s.finals ==> f.item in s.arrived
    requires forall p :: p in Undecided(s) ==> !Published(s.finals, p)
    ensures Accounted(Resume(s))
  {
    var t := Resume(s);
    ResumeFrame(s);
    assert forall p :: p in Undecided(t) ==> p in Holding(t);
    if !t.phase.Idle? {
      assert Holding(t)[|t.still|] == t.phase.item;
    }
  }

  lemma ResumeKeepsFresh(s: State)
    requires Fresh(s)
    ensures Fresh(Resume(s))
  {
  }

  lemma ResumeKeepsLedger(s: State)
    requires Numbered(s.arrived, s.clock) && Balanced(Undecided(s), s.settled, s.arrived)
    ensures Ledger(Resume(s)) && Resume(s).arrived == s.arrived
  {
    ResumeFrame(s);
  }

  lemma ResumeKeeps(s: State)
    requires Running(s)
    ensures Inv(Resume(s))
  {
    ResumeKeepsFresh(s);
    ResumeKeepsLedger(s);
    BalancedMembers(Undecided(s), s.settled, s.arrived);
    ResumeKeepsOrdered(s);
    ResumeKeepsAccounted(s);
  }

  // ----- One step -----

  lemma BeginKeeps(s: State, at: real)
    requires Inv(s) && Enabled(s, Begin(at))
    ensures Inv(Resume(Snapshot(s, at)))
  {
    var t := Snapshot(s, at);
    assert Undecided(t) == Holding(s) == Undecided(s);
    ResumeKeeps(t);
  }

  /** The transcript in flight settles and the fusion task runs on. */
  lemma SettleKeeps(s: State, o: Outcome)
    requires Inv(s) && !s.phase.Idle?
    requires !o.Evicted?
    requires o.Delivered? || o.AckFailed? <==> InFlightPublished(s)
    ensures Inv(Resume(Settle(s, o)))
  {
    var t := Settle(s, o);
    var item, rest := s.phase.item, s.batch + s.pending;
    assert Holding(s) == s.still + [item] + rest;
    assert Undecided(t) == s.still + rest == Undecided(s);
    BalancedSettlement(s.still, item, rest, s.settled, o, s.arrived);
    ResumeKeeps(t);
  }

  lemma PublishKeepsAccounted(s: State, t: State, pub: Publication)
    requires Inv(s) && s.phase.Publishing? && pub.item == s.phase.item
    requires t == s.(phase := Acking(s.phase.item), finals := s.finals + [pub])
    ensures Accounted(t)
  {
    BalancedMembers(Holding(s), s.settled, s.arrived);
    assert Undecided(t) == Undecided(s);
    var item, k := s.phase.item, |s.still|;
    assert Holding(s)[k] == item && item in s.arrived;
    assert t.finals[|s.finals|].item == item;
    forall p ensures Published(t.finals, p) <==> Published(s.finals, p) || p == item {
      if Published(s.finals, p) {
        var i :| 0 <= i < |s.finals| && s.finals[i].item == p;
        assert t.finals[i].item == p;
      }
    }
    forall p | p in Undecided(s) ensures p != item {
      InFlightElsewhere(s, p);
    }
    forall st | st in s.settled ensures st.item != item {
      InFlightUnsettled(s, st);
    }
  }

  lemma InFlightElsewhere(s: State, p: Pending)
    requires Ledger(s) && !s.phase.Idle? && p in Undecided(s)
    ensures p != s.phase.item
  {
    var h, k := Holding(s), |s.still|;
    if p in s.still {
      var i :| 0 <= i < k && s.still[i] == p;
      assert h[i] == p && h[k] == s.phase.item;
    } else {
      assert p in s.batch + s.pending;
      var i :| 0 <= i < |s.batch + s.pending| && (s.batch + s.pending)[i] == p;
      assert h[k + 1 + i] == p && h[k] == s.phase.item;
    }
  }

  lemma DistinctArrivals(arrived: seq<Pending>, p: Pending)
    requires forall i :: 0 <= i < |arrived| ==> arrived[i].msg == i
    ensures multiset(arrived)[p] <= 1
    decreases |arrived|
  {
    if arrived != [] {
      var front := arrived[..|arrived| - 1];
      assert arrived == front + [arrived[|arrived| - 1]];
      DistinctArrivals(front, p);
    }
  }

  lemma InFlightUnsettled(s: State, st: Settlement)
    requires Ledger(s) && !s.phase.Idle? && st in s.settled
    ensures st.item != s.phase.item
  {
    var i :| 0 <= i < |s.settled| && s.settled[i] == st;
    assert Outs(s.settled)[i] == st.item;
    assert Holding(s)[|s.still|] == s.phase.item;
    DistinctArrivals(s.arrived, st.item);
    assert multiset(Holding(s))[s.phase.item] >= 1 && multiset(Outs(s.settled))[st.item] >= 1;
    assert (multiset(Holding(s)) + multiset(Outs(s.settled)))[st.item] <= 1;
  }

  lemma PublishKeeps(s: State, ok: bool)
    requires Inv(s) && s.phase.Publishing?
    ensures Inv(PublishEnded(s, ok))
  {
    var t := PublishEnded(s, ok);
    SameHolding(s, t);
    if ok {
      PublishKeepsAccounted(s, t, PublicationOf(s));
    }
  }

  lemma SameHolding(s: State, t: State)
    requires t.still == s.still && t.batch == s.batch && t.pending == s.pending && InFlight(t) == InFlight(s)
    ensures Holding(t) == Holding(s) && Undecided(t) == Undecided(s)
  {
  }

  lemma HeldAfterArrival(s: State, t: State, item: Pending)
    requires t.still == s.still && t.batch == s.batch && t.phase == s.phase && t.pending == s.pending + [item]
    ensures Holding(t) == Holding(s) + [item] && Undecided(t) == Undecided(s) + [item]
  {
  }

  lemma LedgerAfterArrival(held: seq<Pending>, settled: seq<Settlement>, arrived: seq<Pending>, clock: real, item: Pending)
    requires Numbered(arrived, clock) && Balanced(held, settled, arrived)
    requires clock <= item.receivedAt && item.msg == |arrived|
    ensures Numbered(arrived + [item], item.receivedAt) && Balanced(held + [item], settled, arrived + [item])
    ensures item !in arrived && forall p :: p in arrived ==> p.msg < item.msg
  {
    BalancedArrival(held, item, settled, arrived);
  }

  lemma ArrivalKeeps(s: State, item: Pending, t: State)
    requires Inv(s)
    requires s.clock <= item.receivedAt && item.msg == |s.arrived|
    requires t == s.(clock := item.receivedAt, arrived := s.arrived + [item], pending := s.pending + [item])
    ensures Inv(t)
  {
    HeldAfterArrival(s, t, item);
    LedgerAfterArrival(Holding(s), s.settled, s.arrived, s.clock, item);
  }

  lemma AroundFirst(s: State, t: State)
    requires s.pending != []
    requires t.still == s.still && t.batch == s.batch && t.phase == s.phase && t.pending == s.pending[1..]
    ensures Holding(s) == s.still + InFlight(s) + s.batch + [s.pending[0]] + t.pending
    ensures Holding(t) == s.still + InFlight(s) + s.batch + t.pending
    ensures Undecided(s) == s.still + s.batch + [s.pending[0]] + t.pending
    ensures Undecided(t) == s.still + s.batch + t.pending
  {
    assert s.pending == [s.pending[0]] + t.pending;
  }

  /** The subscriber drops the oldest pending transcript. */
  ghost predicate Evicts(s: State, t: State, ackOk: bool) {
    && s.pending != []
    && t == s.(pending := s.pending[1..], settled := s.settled + [Settlement(s.pending[0], Evicted)],
               acked := if ackOk then s.acked + [s.pending[0]] else s.acked)
  }

  lemma EvictionKeepsLedger(s: State, t: State, ackOk: bool)
    requires Ledger(s) && Evicts(s, t, ackOk)
    ensures Ledger(t)
  {
    AroundFirst(s, t);
    BalancedSettlement(s.still + InFlight(s) + s.batch, s.pending[0], t.pending, s.settled, Evicted, s.arrived);
  }

  lemma EvictionKeepsAccounted(s: State, t: State, ackOk: bool)
    requires Accounted(s) && Evicts(s, t, ackOk)
    ensures Accounted(t) && forall p :: p in Undecided(t) ==> p in Undecided(s)
  {
    AroundFirst(s, t);
    assert Undecided(s)[|s.still + s.batch|] == s.pending[0];
  }

  lemma EvictionKeeps(s: State, t: State, ackOk: bool)
    requires Inv(s) && Evicts(s, t, ackOk)
    ensures Inv(t)
  {
    EvictionKeepsLedger(s, t, ackOk);
    EvictionKeepsAccounted(s, t, ackOk);
  }

  lemma DeliverKeeps(s: State, e: Event)
    requires Inv(s) && e.Deliver? && Enabled(s, e)
    ensures Inv(Received(s, e))
  {
    if e.data.isFinal {
      var item := Pending(|s.arrived|, e.data, e.at);
      var t := s.(clock := e.at, arrived := s.arrived + [item], pending := s.pending + [item]);
      ArrivalKeeps(s, item, t);
      if |t.pending| > MAX_BUFFER {
        EvictionKeeps(t, Received(s, e), e.ackOk);
      }
    } else {
      var t := Received(s, e);
      SameHolding(s, t);
    }
  }

  lemma HearKeeps(s: State, id: Identity)
    requires Inv(s)
    ensures Inv(Heard(s, id))
  {
    var t := Heard(s, id);
    SameHolding(s, t);
  }

  lemma AckKeeps(s: State, ok: bool)
    requires Inv(s) && s.phase.Acking?
    ensures Inv(AckEnded(s, ok))
  {
    if ok {
      SettleKeeps(s, Delivered);
    } else {
      var t := AckEnded(s, ok);
      SameHolding(s, t);
    }
  }

  lemma NakKeeps(s: State)
    requires Inv(s) && s.phase.Naking?
    ensures Inv(NakEnded(s))
  {
    SettleKeeps(s, if s.phase.published then AckFailed else PublishFailed);
  }

  lemma StepKeeps(s: State, e: Event)
    requires Inv(s)
    ensures Inv(Step(s, e))
  {
    if Enabled(s, e) {
      match e
      case Deliver(_, _, _, _) => DeliverKeeps(s, e);
      case Hear(id) => HearKeeps(s, id);
      case Begin(at) => BeginKeeps(s, at);
      case PublishDone(ok) => PublishKeeps(s, ok);
      case AckDone(ok) =>
        AckKeeps(s, ok);
      case NakDone =>
        NakKeeps(s);
    }
  }

  lemma {:induction false} RunKeeps(es: seq<Event>)
    ensures Inv(Run(es))
    decreases |es|
  {
    if es != [] {
      RunKeeps(es[..|es| - 1]);
      StepKeeps(Run(es[..|es| - 1]), es[|es| - 1]);
    }
  }

  // ----- Attribution over a run -----

  /** The identity events of one class, in order of arrival. */
  function OfClass(heard: seq<Identity>, backfill: bool): seq<Identity> {
    if heard == [] then [] else
      var front, last := heard[..|heard| - 1], heard[|heard| - 1];
      if (last.source == Some("backfill")) == backfill then OfClass(front, backfill) + [last] else OfClass(front, backfill)
  }

  /** The newest events of a class. */
  function Recent(heard: seq<Identity>, backfill: bool): seq<Identity> {
    LastN(OfClass(heard, backfill), MAX_BUFFER)
  }

  ghost predicate Attributed(r: Release, heard: seq<Identity>) {
    && r.heard <= |heard|
    && r.identity == Match(Recent(heard[..r.heard], false), Recent(heard[..r.heard], true), r.item.data)
  }

  /** Publications carry out earlier releases, each one once, in the order of the releases. */
  ghost predicate CarriedOut(phase: Phase, releases: seq<Release>, finals: seq<Publication>) {
    && (phase.Publishing? ==>
          releases != [] && releases[|releases| - 1].item == phase.item && releases[|releases| - 1].identity == phase.identity)
    && (forall i, j :: 0 <= i < j < |finals| ==> finals[i].nth < finals[j].nth)
    && (forall f :: f in finals ==>
          f.nth < |releases| - (if phase.Publishing? then 1 else 0)
          && f.item == releases[f.nth].item && f.speaker == SpeakerOf(releases[f.nth].identity)
          && f.subject == "transcript.final." + SourceOf(f.item.data.source))
  }

  ghost predicate Traced(s: State) {
    && s.live == Recent(s.heard, false) && s.backfill == Recent(s.heard, true)
    && (forall r :: r in s.releases ==> Attributed(r, s.heard))
    && CarriedOut(s.phase, s.releases, s.finals)
  }

  lemma ResumeKeepsTraced(s: State)
    requires Traced(s.(phase := Idle))
    ensures Traced(Resume(s))
  {
    assert s.heard[..|s.heard|] == s.heard;
  }

  lemma DeliverKeepsTraced(s: State, e: Event)
    requires Traced(s) && e.Deliver?
    ensures Traced(Received(s, e))
  {
  }

  lemma PublishKeepsTraced(s: State, ok: bool)
    requires Traced(s) && s.phase.Publishing?
    ensures Traced(PublishEnded(s, ok))
  {
  }

  lemma StepKeepsTraced(s: State, e: Event)
    requires Traced(s)
    ensures Traced(Step(s, e))
  {
    if Enabled(s, e) {
      match e
      case Deliver(_, _, _, _) => DeliverKeepsTraced(s, e);
      case Hear(id) => HearKeepsTraced(s, id);
      case Begin(at) =>
        ResumeKeepsTraced(Snapshot(s, at));
      case PublishDone(ok) => PublishKeepsTraced(s, ok);
      case AckDone(ok) =>
        if ok { ResumeKeepsTraced(Settle(s, Delivered)); }
      case NakDone =>
        ResumeKeepsTraced(Settle(s, if s.phase.published then AckFailed else PublishFailed));
    }
  }

  lemma OfClassAppend(heard: seq<Identity>, id: Identity, backfill: bool)
    ensures OfClass(heard + [id], backfill)
            == if (id.source == Some("backfill")) == backfill then OfClass(heard, backfill) + [id] else OfClass(heard, backfill)
  {
    assert (heard + [id])[..|heard|] == heard;
  }

  lemma PoolsAfterHearing(s: State, id: Identity)
    requires s.live == Recent(s.heard, false) && s.backfill == Recent(s.heard, true)
    ensures var t := Heard(s, id); t.live == Recent(t.heard, false) && t.backfill == Recent(t.heard, true)
  {
    OfClassAppend(s.heard, id, true);
    OfClassAppend(s.heard, id, false);
    LastNOfAppend(OfClass(s.heard, IsBackfill(id.source)), id, MAX_BUFFER);
  }

  lemma AttributedStays(r: Release, heard: seq<Identity>, id: Identity)
    requires Attributed(r, heard)
    ensures Attributed(r, heard + [id])
  {
    assert (heard + [id])[..r.heard] == heard[..r.heard];
  }

  lemma HearKeepsTraced(s: State, id: Identity)
    requires Traced(s)
    ensures Traced(Heard(s, id))
  {
    var t := Heard(s, id);
    assert t.heard == s.heard + [id] && t.releases == s.releases && t.phase == s.phase && t.finals == s.finals;
    PoolsAfterHearing(s, id);
    forall r | r in t.releases ensures Attributed(r, t.heard) {
      AttributedStays(r, s.heard, id);
    }
  }

  lemma {:induction false} RunKeepsTraced(es: seq<Event>)
    ensures Traced(Run(es))
    decreases |es|
  {
    if es != [] {
      RunKeepsTraced(es[..|es| - 1]);
      StepKeepsTraced(Run(es[..|es| - 1]), es[|es| - 1]);
    }
  }

  // ----- Main results -----

  lemma InOnePlace(held: seq<Pending>, settled: seq<Settlement>, arrived: seq<Pending>, clock: real, p: Pending)
    requires Numbered(arrived, clock) && Balanced(held, settled, arrived) && p in arrived
    ensures multiset(held)[p] + multiset(Outs(settled))[p] == 1
    ensures |held| + |settled| == |arrived|
  {
    DistinctArrivals(arrived, p);
    assert p in multiset(arrived);
    assert (multiset(held) + multiset(Outs(settled)))[p] == 1;
    assert |multiset(held) + multiset(Outs(settled))| == |multiset(arrived)|;
  }

  /** Every final transcript received is in exactly one place, and nothing else is. */
  lemma ConservationOverRuns(es: seq<Event>, p: Pending)
    requires p in Run(es).arrived
    ensures var s := Run(es);
            && multiset(Holding(s))[p] + multiset(Outs(s.settled))[p] == 1
            && |Holding(s)| + |s.settled| == |s.arrived|
  {
    RunKeeps(es);
    var s := Run(es);
    InOnePlace(Holding(s), s.settled, s.arrived, s.clock, p);
  }

  /**
   A final transcript is published at most once, and among the settled ones
   exactly those that were delivered or whose ack failed; the acked ones are
   all the delivered ones and otherwise only evicted ones.
   */
  lemma PublicationOverRuns(es: seq<Event>)
    ensures var s := Run(es);
            && Once(s.finals)
            && (forall f :: f in s.finals ==> f.item in s.arrived)
            && (forall st :: st in s.settled ==>
                  (Published(s.finals, st.item) <==> st.outcome.Delivered? || st.outcome.AckFailed?))
            && (forall p :: Settlement(p, Delivered) in s.settled ==> p in s.acked)
            && (forall p :: p in s.acked ==> Settlement(p, Delivered) in s.settled || Settlement(p, Evicted) in s.settled)
  {
    RunKeeps(es);
  }

  /** Whatever is released before an earlier arrival, be that one released later or still undecided, was released early. */
  ghost predicate OvertakesOnlyWhenEarly(releases: seq<Release>, undecided: seq<Pending>) {
    && (forall i, j :: 0 <= i < j < |releases| && releases[i].item.msg >= releases[j].item.msg ==> Early(releases[i]))
    && (forall r, p :: r in releases && p in undecided && r.item.msg >= p.msg ==> Early(r))
  }

  /** Publications carry out releases, in the order of the releases. */
  ghost predicate FollowReleases(finals: seq<Publication>, releases: seq<Release>) {
    && (forall f :: f in finals ==> f.nth < |releases| && releases[f.nth].item == f.item)
    && (forall i, j :: 0 <= i < j < |finals| ==> finals[i].nth < finals[j].nth)
  }

  /**
   A transcript overtakes an earlier arrival only when it found its speaker
   before the timeout, so timeouts release in arrival order; publications
   follow the releases.
   */
  lemma {:induction false} OrderOverRuns(es: seq<Event>)
    ensures OvertakesOnlyWhenEarly(Run(es).releases, Undecided(Run(es)))
    ensures FollowReleases(Run(es).finals, Run(es).releases)
  {
    RunKeeps(es);
    RunKeepsTraced(es);
  }

  lemma {:induction false} NowOfCycle(es: seq<Event>, at: real, during: seq<Event>)
    requires Run(es).phase.Idle? && Run(es).clock <= at && Run(es).wake <= at
    requires forall e :: e in during ==> !e.Begin?
    ensures Run(es + [Begin(at)] + during).now == at
    decreases |during|
  {
    var begun := es + [Begin(at)];
    if during == [] {
      assert begun + during == begun;
    } else {
      var front, e := during[..|during| - 1], during[|during| - 1];
      NowOfCycle(es, at, front);
      assert begun + during == begun + front + [e];
    }
  }

  /** When a cycle has ended, whatever still waits was under three seconds old when it began, whatever happened meanwhile. */
  lemma WaitingIsBounded(es: seq<Event>, at: real, during: seq<Event>)
    requires Run(es).phase.Idle? && Run(es).clock <= at && Run(es).wake <= at
    requires forall e :: e in during ==> !e.Begin?
    requires Run(es + [Begin(at)] + during).phase.Idle?
    ensures forall p :: p in Holding(Run(es + [Begin(at)] + during)) ==> at - p.receivedAt < PUBLISH_TIMEOUT
  {
    RunKeeps(es + [Begin(at)] + during);
    NowOfCycle(es, at, during);
  }

  /** The final transcripts delivered, in order; a delivery timed before the clock does not happen. */
  function FinalsDelivered(es: seq<Event>): seq<Transcript> {
    if es == [] then [] else
      var front, e := es[..|es| - 1], es[|es| - 1];
      FinalsDelivered(front) + if e.Deliver? && Run(front).clock <= e.at && e.data.isFinal then [e.data] else []
  }

  function InterimsDelivered(es: seq<Event>): seq<Transcript> {
    if es == [] then [] else
      var front, e := es[..|es| - 1], es[|es| - 1];
      InterimsDelivered(front)
      + if e.Deliver? && Run(front).clock <= e.at && !e.data.isFinal && e.publishOk then [e.data] else []
  }

  function DataOf(arrived: seq<Pending>): seq<Transcript> {
    seq(|arrived|, i requires 0 <= i < |arrived| => arrived[i].data)
  }

  lemma OnlyDeliveriesArrive(s: State, e: Event)
    requires !e.Deliver?
    ensures Step(s, e).arrived == s.arrived && Step(s, e).interims == s.interims
  {
  }

  lemma DeliveryArrives(s: State, e: Event)
    requires e.Deliver? && s.clock <= e.at
    ensures Step(s, e).arrived == if e.data.isFinal then s.arrived + [Pending(|s.arrived|, e.data, e.at)] else s.arrived
    ensures Step(s, e).interims == if !e.data.isFinal && e.publishOk then s.interims + [e.data] else s.interims
  {
  }

  /** What is accounted for is exactly the delivered finals, in order; delivered interims are forwarded at once, in order. */
  lemma {:induction false} ArrivalsOverRuns(es: seq<Event>)
    ensures DataOf(Run(es).arrived) == FinalsDelivered(es)
    ensures Run(es).interims == InterimsDelivered(es)
    decreases |es|
  {
    if es != [] {
      var front, e := es[..|es| - 1], es[|es| - 1];
      ArrivalsOverRuns(front);
      if !e.Deliver? {
        OnlyDeliveriesArrive(Run(front), e);
      } else if Run(front).clock <= e.at {
        DeliveryArrives(Run(front), e);
      }
    }
  }

  /** The name that the first closest event gives, strictly within two seconds of a known time. */
  ghost predicate NamedBy(pool: seq<Identity>, ts: Option<real>, name: string) {
    ts.Some? && exists i: nat :: FirstClosestAt(pool, ts.value, i) && pool[i].speaker == Some(name)
  }

  /** It is this name; and "Unknown" exactly when no event is that close, or the first closest one has no name or this one. */
  ghost predicate NamesRight(pool: seq<Identity>, ts: Option<real>, speaker: string) {
    && (forall name :: NamedBy(pool, ts, name) ==> speaker == name)
    && (speaker == "Unknown" <==> forall name :: NamedBy(pool, ts, name) ==> name == "Unknown")
  }

  lemma SpeakerIsNamed(pool: seq<Identity>, ts: Option<real>)
    ensures NamesRight(pool, ts, SpeakerOf(if ts.None? then None else Nearest(pool, ts.value)))
  {
    var speaker := SpeakerOf(if ts.None? then None else Nearest(pool, ts.value));
    forall name | NamedBy(pool, ts, name) ensures speaker == name {
      var i: nat :| FirstClosestAt(pool, ts.value, i) && pool[i].speaker == Some(name);
      FirstClosestIsNearest(pool, ts.value, i);
    }
    if speaker != "Unknown" {
      NearestIsFirstClosest(pool, ts.value);
      assert NamedBy(pool, ts, speaker);
    }
  }

  /**
   A published transcript carries the name that the first closest event gives,
   strictly within two seconds, among the last 500 of the same payload class heard
   before the release; it carries "Unknown" exactly when there is no such event,
   or that event has no name or is itself named "Unknown".
   */
  lemma AttributionOverRuns(es: seq<Event>, f: Publication)
    requires f in Run(es).finals
    ensures var s := Run(es);
            && f.subject == "transcript.final." + (if f.item.data.source.Some? then f.item.data.source.value else "live")
            && f.nth < |s.releases| && s.releases[f.nth].heard <= |s.heard|
            && var pool := Recent(s.heard[..s.releases[f.nth].heard], f.item.data.source == Some("backfill"));
               var ts := f.item.data.timestamp;
            && NamesRight(pool, ts, f.speaker)
            && (s.releases[f.nth].identity.None? && ts.Some? ==>
                  forall i :: 0 <= i < |pool| && pool[i].timestamp.Some? ==> Diff(pool[i], ts.value) >= MATCH_WINDOW)
  {
    var s := Run(es);
    RunKeepsTraced(es);
    var r := s.releases[f.nth];
    assert Attributed(r, s.heard);
    var pool, ts := Recent(s.heard[..r.heard], f.item.data.source == Some("backfill")), f.item.data.timestamp;
    SpeakerIsNamed(pool, ts);
    if ts.Some? { NearestIsFirstClosest(pool, ts.value); }
  }

  // ----- When the cycles run -----

  /** The fusion task begins a cycle with this event: it sleeps, and has slept a tenth of a second since the last cycle ended. */
  predicate CycleBegins(es: seq<Event>, e: Event)
    decreases |es|, 1
  {
    e.Begin? && Run(es).phase.Idle? && Run(es).clock <= e.at && SleepsUntil(es) <= e.at
  }

  /** The time from which the next cycle may begin. */
  function SleepsUntil(es: seq<Event>): real
    decreases |es|, 0
  {
    if es == [] then 0.0 else
      var front, e := es[..|es| - 1], es[|es| - 1];
      if Run(es).phase.Idle? && (!Run(front).phase.Idle? || CycleBegins(front, e)) then Run(es).clock + 0.1
      else SleepsUntil(front)
  }

  lemma WakeStep(s: State, e: Event)
    requires Step(s, e).phase.Idle?
    ensures var t := Step(s, e);
            t.wake == if !s.phase.Idle? || (e.Begin? && Enabled(s, e)) then t.clock + 0.1 else s.wake
  {
  }

  lemma {:induction false} SleepOverRuns(es: seq<Event>)
    ensures Run(es).phase.Idle? ==> Run(es).wake == SleepsUntil(es)
    decreases |es|
  {
    if es != [] && Run(es).phase.Idle? {
      var front, e := es[..|es| - 1], es[|es| - 1];
      SleepOverRuns(front);
      WakeStep(Run(front), e);
    }
  }

  lemma IgnoredBegin(s: State, e: Event)
    requires e.Begin?
    ensures !Enabled(s, e) ==> Step(s, e) == s
    ensures Enabled(s, e) ==> Step(s, e).now == e.at && Step(s, e).clock == e.at
  {
  }

  /** Cycles begin exactly then: one after the other, at least a tenth of a second apart. */
  lemma CycleBeginsExactlyWhen(es: seq<Event>, at: real)
    ensures var s, t := Run(es), Run(es + [Begin(at)]);
            if CycleBegins(es, Begin(at)) then t.now == at && t.clock == at else t == s
  {
    SleepOverRuns(es);
    IgnoredBegin(Run(es), Begin(at));
    assert (es + [Begin(at)])[..|es|] == es;
  }

  // ----- The cap on the pending list -----

  /** Exactly when a step takes the pending list past its cap: a cycle ends and recombines what it kept with new arrivals. */
  lemma CapExceededExactlyWhen(s: State, e: Event)
    requires |s.pending| <= MAX_BUFFER
    ensures |Step(s, e).pending| > MAX_BUFFER <==>
            && Enabled(s, e)
            && (e.NakDone? || (e.AckDone? && e.ok))
            && (forall i :: 0 <= i < |s.batch| ==> !Due(s.live, s.backfill, s.now, s.batch[i]))
            && |s.still| + |s.batch| + |s.pending| > MAX_BUFFER
  {
  }

  const UNMATCHED := Transcript(true, None, None, "unmatched")
  const MATCHED := Transcript(true, None, Some(0.0), "matched")
  const SPEAKER := Identity(None, Some(0.0), Some("speaker"))

  /** A burst of transcripts without a speaker, all at one time. */
  function Burst(t: real, n: nat): seq<Event> {
    if n == 0 then [] else Burst(t, n - 1) + [Deliver(UNMATCHED, t, true, true)]
  }

  /** A burst replaces everything that waits, and then a cycle releases one transcript while two more arrive. */
  function Round(t: real, m: nat): seq<Event> {
    Burst(t, m) + ([Deliver(MATCHED, t, true, true)] + [Begin(t)] + [Deliver(UNMATCHED, t, true, true)] + [Deliver(UNMATCHED, t, true, true)]
                   + [PublishDone(true)] + [AckDone(true)])
  }

  /** One cycle a tenth of a second. */
  function GrowthScript(n: nat): seq<Event> {
    if n == 0 then [Hear(SPEAKER)] + Burst(0.0, MAX_BUFFER)
    else GrowthScript(n - 1) + Round(n as real * CYCLE_SLEEP, MAX_BUFFER + n - 2)
  }

  /** The state after more events. */
  function RunOn(s: State, es: seq<Event>): State {
    if es == [] then s else Step(RunOn(s, es[..|es| - 1]), es[|es| - 1])
  }

  lemma RunOnAppend(s: State, es: seq<Event>, e: Event)
    ensures RunOn(s, es + [e]) == Step(RunOn(s, es), e)
  {
    assert (es + [e])[..|es|] == es;
  }

  lemma {:induction false} RunOfConcat(es: seq<Event>, more: seq<Event>)
    ensures Run(es + more) == RunOn(Run(es), more)
    decreases |more|
  {
    if more == [] {
      assert es + more == es;
    } else {
      assert (es + more)[..|es + more| - 1] == es + more[..|more| - 1];
      RunOfConcat(es, more[..|more| - 1]);
    }
  }

  lemma {:induction false} RunOnConcat(s: State, es: seq<Event>, more: seq<Event>)
    ensures RunOn(s, es + more) == RunOn(RunOn(s, es), more)
    decreases |more|
  {
    if more == [] {
      assert es + more == es;
    } else {
      assert (es + more)[..|es + more| - 1] == es + more[..|more| - 1];
      RunOnConcat(s, es, more[..|more| - 1]);
    }
  }

  /** Idle at time `t`, able to begin a cycle, with `m` transcripts waiting. */
  ghost predicate Waiting(s: State, t: real, m: nat) {
    && s.phase.Idle? && s.clock <= t && s.wake <= t && s.live == [SPEAKER] && |s.pending| == m
  }

  /** The last `k` of what waits came at time `t` and have no speaker. */
  ghost predicate Replaced(s: State, t: real, m: nat, k: nat) {
    && Waiting(s, t, m) && k <= m
    && forall i :: m - k <= i < m ==> s.pending[i].receivedAt == t && s.pending[i].data == UNMATCHED
  }

  lemma DeliverOne(s: State, data: Transcript, t: real)
    requires s.clock <= t && data.isFinal
    ensures var u, grown := Step(s, Deliver(data, t, true, true)), s.pending + [Pending(|s.arrived|, data, t)];
            && u.pending == (if |grown| > MAX_BUFFER then grown[1..] else grown)
            && u.phase == s.phase && u.clock == t && u.wake == s.wake && u.live == s.live && u.backfill == s.backfill
            && u.batch == s.batch && u.still == s.still && u.now == s.now
  {
  }

  lemma {:induction false} Refresh(s: State, t: real, m: nat, k: nat)
    requires Waiting(s, t, m) && m >= MAX_BUFFER && k <= m
    ensures Replaced(RunOn(s, Burst(t, k)), t, m, k)
    decreases k
  {
    if k > 0 {
      Refresh(s, t, m, k - 1);
      var u := RunOn(s, Burst(t, k - 1));
      RunOnAppend(s, Burst(t, k - 1), Deliver(UNMATCHED, t, true, true));
      DeliverOne(u, UNMATCHED, t);
    }
  }

  lemma {:induction false} FillUp(s: State, k: nat)
    requires Waiting(s, 0.0, 0) && k <= MAX_BUFFER
    ensures Waiting(RunOn(s, Burst(0.0, k)), 0.0, k)
    decreases k
  {
    if k > 0 {
      FillUp(s, k - 1);
      RunOnAppend(s, Burst(0.0, k - 1), Deliver(UNMATCHED, 0.0, true, true));
      DeliverOne(RunOn(s, Burst(0.0, k - 1)), UNMATCHED, 0.0);
    }
  }

  /** All that waits came at `t`; only the last of the `n + 1` has a speaker. */
  ghost predicate Ready(s: State, t: real, n: nat) {
    && Waiting(s, t, n + 1) && s.clock == t
    && (forall p :: p in s.pending ==> p.receivedAt == t)
    && (forall i :: 0 <= i < n ==> s.pending[i].data == UNMATCHED)
    && s.pending[n].data == MATCHED
  }

  lemma SpeakerMatches(backfill: seq<Identity>)
    ensures Match([SPEAKER], backfill, MATCHED).Some? && Match([SPEAKER], backfill, UNMATCHED).None?
  {
    assert [SPEAKER][..0] == [];
    assert Nearest([SPEAKER], 0.0) == Some(SPEAKER);
  }

  lemma GrowthBegin(s: State, t: real, n: nat)
    requires Ready(s, t, n)
    ensures var u := Step(s, Begin(t));
            u.phase.Publishing? && u.clock == t && u.live == s.live && u.pending == [] && u.batch == [] && u.still == s.pending[..n]
  {
    SpeakerMatches(s.backfill);
    var k := KeptBefore(s.live, s.backfill, t, s.pending);
    assert forall i :: 0 <= i < n ==> s.pending[i] in s.pending && !Due(s.live, s.backfill, t, s.pending[i]);
    assert Due(s.live, s.backfill, t, s.pending[n]);
    assert k == n;
  }

  lemma GrowthArrivals(s: State, t: real)
    requires s.clock == t && s.pending == []
    ensures var u := Step(Step(s, Deliver(UNMATCHED, t, true, true)), Deliver(UNMATCHED, t, true, true));
            |u.pending| == 2 && u.clock == t && u.phase == s.phase && u.live == s.live && u.batch == s.batch && u.still == s.still
  {
    DeliverOne(s, UNMATCHED, t);
    DeliverOne(Step(s, Deliver(UNMATCHED, t, true, true)), UNMATCHED, t);
  }

  lemma GrowthEnd(s: State)
    requires s.phase.Publishing? && s.batch == []
    ensures var u := Step(Step(s, PublishDone(true)), AckDone(true));
            u.phase.Idle? && u.clock == s.clock && u.wake == s.clock + CYCLE_SLEEP && u.live == s.live && u.pending == s.still + s.pending
  {
    assert s.still + s.batch[..0] == s.still;
  }

  /** The cycle of a round. */
  function Cycled(s: State, t: real): State {
    var u := Step(Step(Step(s, Begin(t)), Deliver(UNMATCHED, t, true, true)), Deliver(UNMATCHED, t, true, true));
    Step(Step(u, PublishDone(true)), AckDone(true))
  }

  lemma GrowthCycle(s: State, t: real, n: nat)
    requires Ready(s, t, n)
    ensures Waiting(Cycled(s, t), t + CYCLE_SLEEP, n + 2)
  {
    var u := Step(s, Begin(t));
    GrowthBegin(s, t, n);
    GrowthArrivals(u, t);
    GrowthEnd(Step(Step(u, Deliver(UNMATCHED, t, true, true)), Deliver(UNMATCHED, t, true, true)));
  }

  lemma RunOfSix(s: State, a: Event, b: Event, c: Event, d: Event, e: Event, f: Event)
    ensures RunOn(s, [a] + [b] + [c] + [d] + [e] + [f]) == Step(Step(Step(Step(Step(Step(s, a), b), c), d), e), f)
  {
    assert [] + [a] == [a];
    RunOnAppend(s, [], a);
    RunOnAppend(s, [a], b);
    RunOnAppend(s, [a] + [b], c);
    RunOnAppend(s, [a] + [b] + [c], d);
    RunOnAppend(s, [a] + [b] + [c] + [d], e);
    RunOnAppend(s, [a] + [b] + [c] + [d] + [e], f);
  }

  lemma RoundRuns(s: State, t: real, m: nat)
    ensures RunOn(s, Round(t, m)) == Cycled(Step(RunOn(s, Burst(t, m)), Deliver(MATCHED, t, true, true)), t)
  {
    var tail := [Deliver(MATCHED, t, true, true)] + [Begin(t)] + [Deliver(UNMATCHED, t, true, true)]
                + [Deliver(UNMATCHED, t, true, true)] + [PublishDone(true)] + [AckDone(true)];
    RunOnConcat(s, Burst(t, m), tail);
    RunOfSix(RunOn(s, Burst(t, m)), Deliver(MATCHED, t, true, true), Begin(t), Deliver(UNMATCHED, t, true, true),
             Deliver(UNMATCHED, t, true, true), PublishDone(true), AckDone(true));
  }

  lemma GetReady(s: State, t: real, n: nat)
    requires Waiting(s, t, n + 1) && n + 1 >= MAX_BUFFER
    ensures Ready(Step(RunOn(s, Burst(t, n)), Deliver(MATCHED, t, true, true)), t, n)
  {
    Refresh(s, t, n + 1, n);
    DeliverOne(RunOn(s, Burst(t, n)), MATCHED, t);
  }

  /** A round adds one to what waits. */
  lemma RoundGrows(s: State, t: real, n: nat)
    requires Waiting(s, t, n + 1) && n + 1 >= MAX_BUFFER
    ensures Waiting(RunOn(s, Round(t, n)), t + CYCLE_SLEEP, n + 2)
  {
    RoundRuns(s, t, n);
    GetReady(s, t, n);
    GrowthCycle(Step(RunOn(s, Burst(t, n)), Deliver(MATCHED, t, true, true)), t, n);
  }

  lemma GrowthStart()
    ensures Waiting(Run(GrowthScript(0)), 0.0, MAX_BUFFER)
  {
    var hear := [Hear(SPEAKER)];
    RunOfConcat(hear, Burst(0.0, MAX_BUFFER));
    assert [] + hear == hear;
    assert Run([]) == INIT;
    FillUp(Run(hear), MAX_BUFFER);
  }

  lemma LaterToo(s: State, t: real, u: real, m: nat)
    requires Waiting(s, t, m) && t <= u
    ensures Waiting(s, u, m)
  {
  }

  lemma NextTick(n: nat)
    ensures n as real * CYCLE_SLEEP + CYCLE_SLEEP == (n + 1) as real * CYCLE_SLEEP
  {
  }

  lemma GrowthNext(n: nat)
    requires n > 0
    ensures Run(GrowthScript(n)) == RunOn(Run(GrowthScript(n - 1)), Round(n as real * CYCLE_SLEEP, MAX_BUFFER + n - 2))
  {
    RunOfConcat(GrowthScript(n - 1), Round(n as real * CYCLE_SLEEP, MAX_BUFFER + n - 2));
  }

  /** After `n` cycles the script can begin the next one. */
  ghost predicate Grown(n: nat) {
    Waiting(Run(GrowthScript(n)), (n + 1) as real * CYCLE_SLEEP, MAX_BUFFER + n)
  }

  lemma GrowthStep(n: nat)
    requires n > 0 && Grown(n - 1)
    ensures Grown(n)
  {
    GrowthNext(n);
    NextTick(n);
    RoundGrows(Run(GrowthScript(n - 1)), n as real * CYCLE_SLEEP, MAX_BUFFER + n - 2);
  }

  /**
   The pending list has no cap: with a cycle every tenth of a second, and none
   waiting longer than the timeout, there is a run to every length beyond it.
   */
  lemma {:induction false} PendingHasNoCap(n: nat)
    ensures |Run(GrowthScript(n)).pending| == MAX_BUFFER + n && Grown(n)
  {
    if n == 0 {
      GrowthStart();
      LaterToo(Run(GrowthScript(0)), 0.0, CYCLE_SLEEP, MAX_BUFFER);
    } else {
      PendingHasNoCap(n - 1);
      GrowthStep(n);
    }
  }
}
