/** Scheduled session starts and stops: polled windows, and one firing a day per schedule and kind. */
module Scheduler {

  const WINDOW_MINUTES := 2
  const DAY_S := 86400

  datatype Kind = StartKind | StopKind

  /** Times are minutes since midnight; `days` holds weekdays with Sunday as zero. */
  datatype Schedule = Schedule(id: string, enabled: bool, days: set<int>, start: int, stop: int, soft: bool)

  /** One poll: `fetched` is false when the schedules could not be had; `date` is the local date as eight digits. */
  datatype Poll = Poll(fetched: bool, schedules: seq<Schedule>, day: nat, date: string, weekday: int, second: nat)

  /** `sent` is false for a stop under the soft policy, which publishes nothing. */
  datatype Fire = Fire(kind: Kind, id: string, date: string, sent: bool)

  datatype State = State(lastFired: map<string, int>, fired: seq<Fire>)

  const INIT := State(map[], [])

  predicate WithinWindow(current: int, target: int) {
    0 <= current - target < WINDOW_MINUTES
  }

  function FireKey(kind: Kind, id: string, date: string): string {
    (if kind.StartKind? then "start:" else "stop:") + (id + ":" + date)
  }

  function Target(s: Schedule, kind: Kind): int {
    if kind.StartKind? then s.start else s.stop
  }

  function Minute(p: Poll): int {
    p.second / 60
  }

  function TryFire(st: State, s: Schedule, kind: Kind, p: Poll): State {
    var key := FireKey(kind, s.id, p.date);
    if WithinWindow(Minute(p), Target(s, kind)) && key !in st.lastFired then
      State(st.lastFired[key := Minute(p)], st.fired + [Fire(kind, s.id, p.date, kind.StartKind? || !s.soft)])
    else st
  }

  predicate Applies(s: Schedule, p: Poll) {
    s.enabled && p.weekday in s.days
  }

  function Evaluated(st: State, s: Schedule, p: Poll): State {
    if Applies(s, p) then TryFire(TryFire(st, s, StartKind, p), s, StopKind, p) else st
  }

  function EvaluatedAll(st: State, p: Poll, n: nat): State
    requires n <= |p.schedules|
  {
    if n == 0 then st else Evaluated(EvaluatedAll(st, p, n - 1), p.schedules[n - 1], p)
  }

  predicate OccursAt(s: string, part: string, i: nat) {
    i + |part| <= |s| && s[i..i + |part|] == part
  }

  predicate Contains(s: string, part: string) {
    exists i: nat :: i <= |s| && OccursAt(s, part, i)
  }

  function Pruned(lastFired: map<string, int>, today: string): map<string, int> {
    map k | k in lastFired && Contains(k, today) :: lastFired[k]
  }

  function Polled(st: State, p: Poll): State {
    if !p.fetched then st else
      var done := EvaluatedAll(st, p, |p.schedules|);
      done.(lastFired := Pruned(done.lastFired, p.date))
  }

  function Run(ps: seq<Poll>): State {
    if ps == [] then INIT else Polled(Run(ps[..|ps| - 1]), ps[|ps| - 1])
  }

  // ----- The program's object -----

  class SystemManager {
    var lastFired: map<string, int>
    ghost var fired: seq<Fire>

    ghost function View(): State
      reads this
    {
      State(lastFired, fired)
    }

    constructor ()
      ensures View() == INIT
    {
      lastFired, fired := map[], [];
    }

    method EvalSchedule(s: Schedule, p: Poll)
      modifies this
      ensures View() == Evaluated(old(View()), s, p)
    {
      if !s.enabled { return; }
      if p.weekday !in s.days { return; }
      if WithinWindow(Minute(p), s.start) {
        var startKey := FireKey(StartKind, s.id, p.date);
        if startKey !in lastFired {
          fired := fired + [Fire(StartKind, s.id, p.date, true)];
          lastFired := lastFired[startKey := Minute(p)];
        }
      }
      if WithinWindow(Minute(p), s.stop) {
        var stopKey := FireKey(StopKind, s.id, p.date);
        if stopKey !in lastFired {
          fired := fired + [Fire(StopKind, s.id, p.date, !s.soft)];
          lastFired := lastFired[stopKey := Minute(p)];
        }
      }
    }

    method CheckSchedules(p: Poll)
      modifies this
      ensures View() == Polled(old(View()), p)
    {
      if !p.fetched { return; }
      for n := 0 to |p.schedules|
        invariant View() == EvaluatedAll(old(View()), p, n)
      {
        EvalSchedule(p.schedules[n], p);
      }
      lastFired := map k | k in lastFired && Contains(k, p.date) :: lastFired[k];
    }
  }

  // ----- Keys -----

  /** A key determines the kind, the schedule and the date. */
  lemma KeysAreDistinct(k1: Kind, id1: string, d1: string, k2: Kind, id2: string, d2: string)
    requires |d1| == |d2|
    requires FireKey(k1, id1, d1) == FireKey(k2, id2, d2)
    ensures k1 == k2 && id1 == id2 && d1 == d2
  {
    var a, b := FireKey(k1, id1, d1), FireKey(k2, id2, d2);
    assert a[2] == if k1.StartKind? then 'a' else 'o';
    assert b[2] == if k2.StartKind? then 'a' else 'o';
    var n := if k1.StartKind? then 6 else 5;
    var r1, r2 := id1 + ":" + d1, id2 + ":" + d2;
    assert a[n..] == r1 && b[n..] == r2;
    assert |id1| == |id2|;
    assert r1[..|id1|] == id1 && r2[..|id2|] == id2;
    assert r1[|id1| + 1..] == d1 && r2[|id2| + 1..] == d2;
  }

  lemma KeyContainsDate(kind: Kind, id: string, date: string)
    ensures Contains(FireKey(kind, id, date), date)
  {
    var key := FireKey(kind, id, date);
    assert OccursAt(key, date, |key| - |date|);
  }

  // ----- When schedules fire -----

  ghost predicate HasFired(fired: seq<Fire>, kind: Kind, id: string, date: string) {
    exists i :: 0 <= i < |fired| && fired[i].kind == kind && fired[i].id == id && fired[i].date == date
  }

  ghost predicate AtMostOnce(fired: seq<Fire>) {
    forall i, j :: 0 <= i < j < |fired| ==>
      !(fired[i].kind == fired[j].kind && fired[i].id == fired[j].id && fired[i].date == fired[j].date)
  }

  /** On the day `date`, the keys held are exactly those of what has fired that day. */
  ghost predicate Synced(st: State, date: string) {
    && AtMostOnce(st.fired)
    && forall kind, id :: FireKey(kind, id, date) in st.lastFired <==> HasFired(st.fired, kind, id, date)
  }

  lemma TryFireKeeps(st: State, s: Schedule, kind: Kind, p: Poll)
    requires Synced(st, p.date)
    ensures Synced(TryFire(st, s, kind, p), p.date)
    ensures forall k, id, d :: HasFired(TryFire(st, s, kind, p).fired, k, id, d) <==>
              HasFired(st.fired, k, id, d)
              || (k == kind && id == s.id && d == p.date && WithinWindow(Minute(p), Target(s, kind)))
  {
    var t := TryFire(st, s, kind, p);
    if t.fired != st.fired {
      var n := |st.fired|;
      forall k, id, d
        ensures HasFired(t.fired, k, id, d) <==> HasFired(st.fired, k, id, d) || (k == kind && id == s.id && d == p.date)
      {
        if HasFired(st.fired, k, id, d) {
          var i :| 0 <= i < n && st.fired[i].kind == k && st.fired[i].id == id && st.fired[i].date == d;
          assert t.fired[i] == st.fired[i];
        }
        assert t.fired[n].kind == kind && t.fired[n].id == s.id && t.fired[n].date == p.date;
      }
      forall k, id ensures FireKey(k, id, p.date) in t.lastFired <==> HasFired(t.fired, k, id, p.date) {
        if FireKey(k, id, p.date) == FireKey(kind, s.id, p.date) {
          KeysAreDistinct(k, id, p.date, kind, s.id, p.date);
        }
      }
    }
  }

  /** The schedule is due at this poll: an enabled one, on its weekday, in the two minutes from its time. */
  predicate DueAt(s: Schedule, kind: Kind, p: Poll) {
    && s.enabled && p.weekday in s.days
    && match kind
       case StartKind => 60 * s.start <= p.second < 60 * s.start + 120
       case StopKind => 60 * s.stop <= p.second < 60 * s.stop + 120
  }

  lemma DueInSeconds(s: Schedule, kind: Kind, p: Poll)
    ensures DueAt(s, kind, p) <==> Applies(s, p) && WithinWindow(Minute(p), Target(s, kind))
  {
  }

  ghost predicate DueAmong(p: Poll, n: nat, kind: Kind, id: string)
    requires n <= |p.schedules|
  {
    exists m :: 0 <= m < n && p.schedules[m].id == id && DueAt(p.schedules[m], kind, p)
  }

  lemma EvaluatedKeeps(st: State, s: Schedule, p: Poll)
    requires Synced(st, p.date)
    ensures Synced(Evaluated(st, s, p), p.date)
    ensures forall k, id, d :: HasFired(Evaluated(st, s, p).fired, k, id, d) <==>
              HasFired(st.fired, k, id, d) || (d == p.date && id == s.id && DueAt(s, k, p))
  {
    DueInSeconds(s, StartKind, p);
    DueInSeconds(s, StopKind, p);
    if Applies(s, p) {
      TryFireKeeps(st, s, StartKind, p);
      TryFireKeeps(TryFire(st, s, StartKind, p), s, StopKind, p);
    }
  }

  lemma {:induction false} EvaluatedAllKeeps(st: State, p: Poll, n: nat)
    requires Synced(st, p.date) && n <= |p.schedules|
    ensures Synced(EvaluatedAll(st, p, n), p.date)
    ensures forall k, id, d :: HasFired(EvaluatedAll(st, p, n).fired, k, id, d) <==>
              HasFired(st.fired, k, id, d) || (d == p.date && DueAmong(p, n, k, id))
  {
    if n > 0 {
      EvaluatedAllKeeps(st, p, n - 1);
      EvaluatedKeeps(EvaluatedAll(st, p, n - 1), p.schedules[n - 1], p);
      forall k, id ensures DueAmong(p, n, k, id) <==> DueAmong(p, n - 1, k, id) || (id == p.schedules[n - 1].id && DueAt(p.schedules[n - 1], k, p)) {
      }
    }
  }

  lemma PolledKeeps(st: State, p: Poll)
    requires Synced(st, p.date)
    ensures Synced(Polled(st, p), p.date)
    ensures forall k, id, d :: HasFired(Polled(st, p).fired, k, id, d) <==>
              HasFired(st.fired, k, id, d) || (d == p.date && p.fetched && DueAmong(p, |p.schedules|, k, id))
  {
    if p.fetched {
      var done := EvaluatedAll(st, p, |p.schedules|);
      EvaluatedAllKeeps(st, p, |p.schedules|);
      forall kind, id
        ensures FireKey(kind, id, p.date) in Polled(st, p).lastFired <==> FireKey(kind, id, p.date) in done.lastFired
      {
        KeyContainsDate(kind, id, p.date);
      }
    }
  }

  // ----- Runs -----

  /** Days never go back, and a date names one day. */
  ghost predicate Calendar(ps: seq<Poll>) {
    && (forall i :: 0 <= i < |ps| ==> |ps[i].date| == 8 && ps[i].second < DAY_S)
    && (forall i, j :: 0 <= i < j < |ps| ==> ps[i].day <= ps[j].day)
    && (forall i, j :: 0 <= i < |ps| && 0 <= j < |ps| ==> (ps[i].day == ps[j].day <==> ps[i].date == ps[j].date))
  }

  ghost predicate Demanded(ps: seq<Poll>, kind: Kind, id: string, date: string) {
    exists i :: 0 <= i < |ps| && ps[i].fetched && ps[i].date == date && DueAmong(ps[i], |ps[i].schedules|, kind, id)
  }

  /** Every key held belongs to something that fired. */
  ghost predicate KeysFromFires(st: State) {
    forall k :: k in st.lastFired ==> exists i :: 0 <= i < |st.fired| && k == FireKey(st.fired[i].kind, st.fired[i].id, st.fired[i].date)
  }

  lemma TryFireKeepsKeys(st: State, s: Schedule, kind: Kind, p: Poll)
    requires KeysFromFires(st)
    ensures KeysFromFires(TryFire(st, s, kind, p))
  {
    var t := TryFire(st, s, kind, p);
    forall k | k in t.lastFired
      ensures exists i :: 0 <= i < |t.fired| && k == FireKey(t.fired[i].kind, t.fired[i].id, t.fired[i].date)
    {
      if k in st.lastFired {
        var i :| 0 <= i < |st.fired| && k == FireKey(st.fired[i].kind, st.fired[i].id, st.fired[i].date);
        assert t.fired[i] == st.fired[i];
      } else {
        var f := t.fired[|st.fired|];
        assert k == FireKey(f.kind, f.id, f.date);
      }
    }
  }

  lemma {:induction false} EvaluatedAllKeepsKeys(st: State, p: Poll, n: nat)
    requires KeysFromFires(st) && n <= |p.schedules|
    ensures KeysFromFires(EvaluatedAll(st, p, n))
  {
    if n > 0 {
      EvaluatedAllKeepsKeys(st, p, n - 1);
      var u, s := EvaluatedAll(st, p, n - 1), p.schedules[n - 1];
      TryFireKeepsKeys(u, s, StartKind, p);
      TryFireKeepsKeys(TryFire(u, s, StartKind, p), s, StopKind, p);
    }
  }

  ghost predicate Inv(ps: seq<Poll>) {
    var st := Run(ps);
    && KeysFromFires(st) && AtMostOnce(st.fired)
    && (ps != [] ==> Synced(st, ps[|ps| - 1].date))
    && (forall k, id, d :: HasFired(st.fired, k, id, d) <==> Demanded(ps, k, id, d))
  }

  /** Pruning forgets past days, and on a new day nothing has fired and no key is held. */
  lemma SyncedAtNext(ps: seq<Poll>, p: Poll)
    requires Calendar(ps + [p]) && Inv(ps)
    ensures Synced(Run(ps), p.date)
  {
    var all, st := ps + [p], Run(ps);
    assert all[|ps|] == p && forall i :: 0 <= i < |ps| ==> all[i] == ps[i];
    if ps != [] && ps[|ps| - 1].date == p.date {
    } else {
      forall i | 0 <= i < |ps| ensures ps[i].date != p.date && |ps[i].date| == |p.date| {
        assert all[i].day <= all[|ps| - 1].day <= all[|ps|].day;
      }
      forall kind, id ensures !HasFired(st.fired, kind, id, p.date) {
        assert !Demanded(ps, kind, id, p.date);
      }
      forall kind, id ensures FireKey(kind, id, p.date) !in st.lastFired {
        NewKey(ps, kind, id, p.date);
      }
    }
  }

  lemma NewKey(ps: seq<Poll>, kind: Kind, id: string, date: string)
    requires Inv(ps)
    requires forall i :: 0 <= i < |ps| ==> ps[i].date != date && |ps[i].date| == |date|
    ensures FireKey(kind, id, date) !in Run(ps).lastFired
  {
    var st := Run(ps);
    forall i | 0 <= i < |st.fired| ensures FireKey(kind, id, date) != FireKey(st.fired[i].kind, st.fired[i].id, st.fired[i].date) {
      var f := st.fired[i];
      assert HasFired(st.fired, f.kind, f.id, f.date);
      assert Demanded(ps, f.kind, f.id, f.date);
      if FireKey(kind, id, date) == FireKey(f.kind, f.id, f.date) {
        KeysAreDistinct(kind, id, date, f.kind, f.id, f.date);
      }
    }
  }

  lemma DemandedAppend(ps: seq<Poll>, p: Poll, kind: Kind, id: string, date: string)
    ensures Demanded(ps + [p], kind, id, date) <==>
            Demanded(ps, kind, id, date) || (p.fetched && p.date == date && DueAmong(p, |p.schedules|, kind, id))
  {
    var all := ps + [p];
    assert all[|ps|] == p && forall i :: 0 <= i < |ps| ==> all[i] == ps[i];
    if Demanded(ps, kind, id, date) {
      var i :| 0 <= i < |ps| && ps[i].fetched && ps[i].date == date && DueAmong(ps[i], |ps[i].schedules|, kind, id);
      assert all[i] == ps[i];
    }
  }

  lemma InvStep(ps: seq<Poll>, p: Poll)
    requires Calendar(ps + [p]) && Inv(ps)
    ensures Inv(ps + [p])
  {
    var st := Run(ps);
    assert (ps + [p])[..|ps|] == ps;
    SyncedAtNext(ps, p);
    PolledKeeps(st, p);
    if p.fetched {
      EvaluatedAllKeepsKeys(st, p, |p.schedules|);
    }
    forall k, id, d ensures HasFired(Run(ps + [p]).fired, k, id, d) <==> Demanded(ps + [p], k, id, d) {
      DemandedAppend(ps, p, k, id, d);
    }
  }

  lemma {:induction false} RunKeeps(ps: seq<Poll>)
    requires Calendar(ps)
    ensures Inv(ps)
    decreases |ps|
  {
    if ps != [] {
      var front, p := ps[..|ps| - 1], ps[|ps| - 1];
      assert ps == front + [p];
      RunKeeps(front);
      InvStep(front, p);
    }
  }

  /**
   Over every run of polls on days that never go back, pruning included: a
   schedule fires for a kind and a date exactly when some successful poll of
   that date found it due, and never more than once.
   */
  lemma FiresOnceExactlyWhenDue(ps: seq<Poll>, kind: Kind, id: string, date: string)
    requires Calendar(ps)
    ensures HasFired(Run(ps).fired, kind, id, date) <==> Demanded(ps, kind, id, date)
    ensures AtMostOnce(Run(ps).fired)
  {
    RunKeeps(ps);
  }

  // ----- What is sent, and in which order -----

  /** The first of the poll's first `n` schedules that has this id and is due; `n` when there is none. */
  function FirstDue(p: Poll, kind: Kind, id: string, n: nat): (m: nat)
    requires n <= |p.schedules|
    ensures m <= n
    ensures m < n ==> p.schedules[m].id == id && DueAt(p.schedules[m], kind, p)
    ensures forall k :: 0 <= k < m ==> !(p.schedules[k].id == id && DueAt(p.schedules[k], kind, p))
  {
    if n == 0 then 0 else
      var m := FirstDue(p, kind, id, n - 1);
      if m < n - 1 || (p.schedules[n - 1].id == id && DueAt(p.schedules[n - 1], kind, p)) then m else n
  }

  /** The schedule that a fire of this poll carries out. */
  function Place(p: Poll, f: Fire): nat {
    FirstDue(p, f.kind, f.id, |p.schedules|)
  }

  /** The order of the fires of one poll: by schedule, and of one schedule the start before the stop. */
  function Rank(p: Poll, f: Fire): nat {
    2 * Place(p, f) + if f.kind.StartKind? then 0 else 1
  }

  /** A fire of its day that has not happened before; a start is always published, and a stop unless the schedule's policy is soft. */
  ghost predicate NewFire(before: seq<Fire>, f: Fire, p: Poll) {
    && f.date == p.date && !HasFired(before, f.kind, f.id, f.date)
    && Place(p, f) < |p.schedules|
    && (f.sent <==> f.kind.StartKind? || !p.schedules[Place(p, f)].soft)
  }

  /** New fires follow, in their order, all before `bound`. */
  ghost predicate Adds(before: seq<Fire>, after: seq<Fire>, p: Poll, bound: nat) {
    && before <= after
    && (forall a :: |before| <= a < |after| ==> NewFire(before, after[a], p) && Rank(p, after[a]) < bound)
    && (forall a, b :: |before| <= a < b < |after| ==> Rank(p, after[a]) < Rank(p, after[b]))
  }

  lemma HasFiredGrows(before: seq<Fire>, after: seq<Fire>, kind: Kind, id: string, date: string)
    requires before <= after && HasFired(before, kind, id, date)
    ensures HasFired(after, kind, id, date)
  {
    var i :| 0 <= i < |before| && before[i].kind == kind && before[i].id == id && before[i].date == date;
    assert after[i] == before[i];
  }

  lemma TryFireAdds(before: seq<Fire>, u: State, p: Poll, m: nat, kind: Kind, bound: nat)
    requires m < |p.schedules| && Applies(p.schedules[m], p) && bound == 2 * m + if kind.StartKind? then 0 else 1
    requires Synced(u, p.date) && Adds(before, u.fired, p, bound)
    requires DueAmong(p, m, kind, p.schedules[m].id) ==> HasFired(u.fired, kind, p.schedules[m].id, p.date)
    ensures Adds(before, TryFire(u, p.schedules[m], kind, p).fired, p, bound + 1)
  {
    var s := p.schedules[m];
    var t := TryFire(u, s, kind, p);
    DueInSeconds(s, kind, p);
    if t.fired != u.fired {
      var f := t.fired[|u.fired|];
      assert !HasFired(u.fired, kind, s.id, p.date);
      if HasFired(before, kind, s.id, p.date) { HasFiredGrows(before, u.fired, kind, s.id, p.date); }
      assert !DueAmong(p, m, kind, s.id);
      assert Place(p, f) == m;
      assert NewFire(before, f, p);
    }
  }

  lemma {:induction false} EvaluatedAllAdds(st: State, p: Poll, n: nat)
    requires Synced(st, p.date) && n <= |p.schedules|
    ensures Adds(st.fired, EvaluatedAll(st, p, n).fired, p, 2 * n)
  {
    if n > 0 {
      EvaluatedAllAdds(st, p, n - 1);
      EvaluatedAllKeeps(st, p, n - 1);
      var u, s := EvaluatedAll(st, p, n - 1), p.schedules[n - 1];
      if Applies(s, p) {
        TryFireAdds(st.fired, u, p, n - 1, StartKind, 2 * n - 2);
        TryFireKeeps(u, s, StartKind, p);
        TryFireAdds(st.fired, TryFire(u, s, StartKind, p), p, n - 1, StopKind, 2 * n - 1);
      }
    }
  }

  /**
   After any run, one more poll adds its fires in the order of its list: each
   carries out the first schedule of its id that is due, publishes its start
   always and its stop unless that schedule's policy is soft, and is one that
   no earlier poll of the day demanded.
   */
  lemma PollFiresInOrder(ps: seq<Poll>, p: Poll)
    requires Calendar(ps + [p])
    ensures Adds(Run(ps).fired, Run(ps + [p]).fired, p, 2 * |p.schedules|)
    ensures !p.fetched ==> Run(ps + [p]) == Run(ps)
    ensures forall kind, id :: HasFired(Run(ps).fired, kind, id, p.date) <==> Demanded(ps, kind, id, p.date)
  {
    CalendarOfFront(ps, p);
    RunKeeps(ps);
    SyncedAtNext(ps, p);
    assert (ps + [p])[..|ps|] == ps;
    EvaluatedAllAdds(Run(ps), p, |p.schedules|);
  }

  /** New keys are held with the minute of the poll, in whole minutes from midnight; keys held before keep theirs. */
  ghost predicate KeysDated(before: map<string, int>, after: map<string, int>, p: Poll) {
    forall k :: k in after ==>
      if k in before then after[k] == before[k] else 60 * after[k] <= p.second < 60 * after[k] + 60
  }

  lemma {:induction false} EvaluatedAllDatesKeys(st: State, p: Poll, n: nat)
    requires n <= |p.schedules|
    ensures st.lastFired.Keys <= EvaluatedAll(st, p, n).lastFired.Keys
    ensures KeysDated(st.lastFired, EvaluatedAll(st, p, n).lastFired, p)
  {
    if n > 0 { EvaluatedAllDatesKeys(st, p, n - 1); }
  }

  lemma ContainedAt(s: string, part: string)
    ensures Contains(s, part) <==> exists a, b :: s == a + part + b
  {
    if Contains(s, part) {
      var i: nat :| i <= |s| && OccursAt(s, part, i);
      assert s == s[..i] + part + s[i + |part|..];
    }
    if a, b :| s == a + part + b {
      assert OccursAt(s, part, |a|);
    }
  }

  /** After a successful poll only keys that have its date in them are held, each with the minute of the poll that fired it. */
  lemma KeysOfTheDay(ps: seq<Poll>, p: Poll)
    requires p.fetched
    ensures forall k :: k in Run(ps + [p]).lastFired ==> exists a, b :: k == a + p.date + b
    ensures KeysDated(Run(ps).lastFired, Run(ps + [p]).lastFired, p)
  {
    assert (ps + [p])[..|ps|] == ps;
    EvaluatedAllDatesKeys(Run(ps), p, |p.schedules|);
    forall k | k in Run(ps + [p]).lastFired ensures exists a, b :: k == a + p.date + b {
      ContainedAt(k, p.date);
    }
  }

  lemma CalendarOfFront(ps: seq<Poll>, p: Poll)
    requires Calendar(ps + [p])
    ensures Calendar(ps)
  {
    assert forall i :: 0 <= i < |ps| ==> (ps + [p])[i] == ps[i];
  }

  // ----- No schedule is missed -----

  function Clock(p: Poll): int {
    p.day * DAY_S + p.second
  }

  /** Polls at most `gap` seconds apart. */
  ghost predicate Regular(ps: seq<Poll>, gap: nat) {
    forall i :: 0 <= i < |ps| - 1 ==> Clock(ps[i]) <= Clock(ps[i + 1]) <= Clock(ps[i]) + gap
  }

  /** The first poll at or after an instant. */
  lemma {:induction false} FirstPollAfter(ps: seq<Poll>, instant: int, n: nat) returns (i: nat)
    requires 0 < n < |ps| && Clock(ps[0]) < instant <= Clock(ps[n])
    ensures 0 < i <= n && Clock(ps[i - 1]) < instant <= Clock(ps[i])
  {
    if Clock(ps[n - 1]) < instant { i := n; } else { i := FirstPollAfter(ps, instant, n - 1); }
  }

  /** For how many seconds a target can be caught: its window, unless midnight comes first. */
  function Slack(target: int): nat {
    if target == 24 * 60 - 1 then 60 else 120
  }

  /**
   Successful polls at most `gap` seconds apart, one before and one at or after
   the schedule's target on the day, on which the schedule is fetched and
   applies.
   */
  ghost predicate PolledAround(ps: seq<Poll>, gap: nat, s: Schedule, kind: Kind, day: nat, date: string) {
    && Calendar(ps) && Regular(ps, gap) && |ps| >= 2
    && Clock(ps[0]) < day * DAY_S + Target(s, kind) * 60 <= Clock(ps[|ps| - 1])
    && forall i :: 0 <= i < |ps| && ps[i].day == day ==>
         ps[i].fetched && s in ps[i].schedules && Applies(s, ps[i]) && ps[i].date == date
  }

  /** With such polls an enabled schedule fires that day, when they come often enough for its target. */
  lemma NoTargetMissed(ps: seq<Poll>, gap: nat, s: Schedule, kind: Kind, day: nat, date: string)
    requires PolledAround(ps, gap, s, kind, day, date)
    requires 0 <= Target(s, kind) < 24 * 60 && gap <= Slack(Target(s, kind))
    ensures HasFired(Run(ps).fired, kind, s.id, date)
  {
    var i := FirstPollAfter(ps, day * DAY_S + Target(s, kind) * 60, |ps| - 1);
    assert Clock(ps[i - 1]) <= Clock(ps[i - 1 + 1]) <= Clock(ps[i - 1]) + gap;
    var m :| 0 <= m < |ps[i].schedules| && ps[i].schedules[m] == s;
    assert DueAmong(ps[i], |ps[i].schedules|, kind, s.id);
    RunKeeps(ps);
  }

  function DateOf(day: nat): string {
    if day == 0 then "20250101" else if day == 1 then "20250102" else "20250103"
  }

  /** A poll at an instant; the second day is the given weekday. */
  function PollAt(clock: nat, s: Schedule, weekday: int): Poll {
    var day := clock / DAY_S;
    Poll(true, [s], day, DateOf(day), weekday + day - 1, clock % DAY_S)
  }

  /** The second before the target on the second day, and the first one at which it can no longer be caught. */
  function AroundTarget(s: Schedule, kind: Kind, weekday: int): seq<Poll>
    requires 0 <= Target(s, kind)
  {
    var instant := DAY_S + 60 * Target(s, kind);
    [PollAt(instant - 1, s, weekday), PollAt(instant + Slack(Target(s, kind)), s, weekday)]
  }

  lemma AroundIsPolled(gap: nat, s: Schedule, kind: Kind, weekday: int)
    requires s.enabled && weekday in s.days
    requires 0 <= Target(s, kind) < 24 * 60 && gap > Slack(Target(s, kind))
    ensures PolledAround(AroundTarget(s, kind, weekday), gap, s, kind, 1, DateOf(1))
  {
    var ps := AroundTarget(s, kind, weekday);
    assert s in ps[0].schedules && s in ps[1].schedules;
  }

  lemma AroundIsNotDue(s: Schedule, kind: Kind, weekday: int)
    requires 0 <= Target(s, kind) < 24 * 60
    ensures !Demanded(AroundTarget(s, kind, weekday), kind, s.id, DateOf(1))
  {
  }

  /** Polls even one second further apart can step over the target, and over 23:59 already when more than a minute apart. */
  lemma LongerGapsMiss(gap: nat, s: Schedule, kind: Kind, weekday: int)
    requires s.enabled && weekday in s.days
    requires 0 <= Target(s, kind) < 24 * 60 && gap > Slack(Target(s, kind))
    ensures var ps := AroundTarget(s, kind, weekday);
            PolledAround(ps, gap, s, kind, 1, DateOf(1)) && !HasFired(Run(ps).fired, kind, s.id, DateOf(1))
  {
    AroundIsPolled(gap, s, kind, weekday);
    AroundIsNotDue(s, kind, weekday);
    RunKeeps(AroundTarget(s, kind, weekday));
  }

  /** A schedule that applies on some weekday fires under every polling with such a gap exactly when the gap is no longer than the time for which its target can be caught. */
  lemma NeverMissedExactlyWhen(gap: nat, s: Schedule, kind: Kind, weekday: int)
    requires s.enabled && weekday in s.days
    requires 0 <= Target(s, kind) < 24 * 60
    ensures gap <= Slack(Target(s, kind)) <==>
            forall ps, day, date :: PolledAround(ps, gap, s, kind, day, date) ==> HasFired(Run(ps).fired, kind, s.id, date)
  {
    if gap <= Slack(Target(s, kind)) {
      forall ps, day, date | PolledAround(ps, gap, s, kind, day, date) ensures HasFired(Run(ps).fired, kind, s.id, date) {
        NoTargetMissed(ps, gap, s, kind, day, date);
      }
    } else {
      LongerGapsMiss(gap, s, kind, weekday);
    }
  }
}
