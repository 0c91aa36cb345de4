/** The retention purge: which completed sessions and transcript segments it removes. */
module Retention {
  import opened Common

  /** Start times are compared as the program compares their ISO strings; only the order matters. */
  datatype Session = Session(startedAt: int, stopped: bool)
  datatype Segment = Segment(sessionId: string, text: string)
  datatype Db = Db(sessions: map<string, Session>, segments: seq<Segment>)

  /** Keep the newest `count` when positive; drop what started before `cutoff` when there is one. */
  datatype Policy = Policy(count: int, cutoff: Option<int>)

  ghost predicate NoDuplicates(rows: seq<string>) {
    forall i, j :: 0 <= i < j < |rows| ==> rows[i] != rows[j]
  }

  function Elements(rows: seq<string>): set<string> {
    set r | r in rows
  }

  function Completed(db: Db): set<string> {
    set id | id in db.sessions && db.sessions[id].stopped
  }

  /** An answer to the query for completed sessions, newest first; ties may come in any order. */
  ghost predicate NewestFirst(db: Db, rows: seq<string>) {
    && NoDuplicates(rows) && Elements(rows) == Completed(db)
    && forall i, j :: 0 <= i < j < |rows| ==>
         rows[i] in db.sessions && rows[j] in db.sessions && db.sessions[rows[i]].startedAt >= db.sessions[rows[j]].startedAt
  }

  function OverCount(p: Policy, rows: seq<string>): set<string> {
    if 0 < p.count < |rows| then Elements(rows[p.count..]) else {}
  }

  function TooOld(db: Db, p: Policy): set<string> {
    if p.cutoff.None? then {}
    else set id | id in db.sessions && db.sessions[id].stopped && db.sessions[id].startedAt < p.cutoff.value
  }

  function Doomed(db: Db, p: Policy, rows: seq<string>): set<string> {
    OverCount(p, rows) + TooOld(db, p)
  }

  function Without(segments: seq<Segment>, ids: set<string>): seq<Segment> {
    if segments == [] then [] else
      var last := segments[|segments| - 1];
      Without(segments[..|segments| - 1], ids) + if last.sessionId in ids then [] else [last]
  }

  function Purged(db: Db, p: Policy, rows: seq<string>): Db {
    var ids := Doomed(db, p, rows);
    Db(db.sessions - ids, Without(db.segments, ids))
  }

  class Store {
    var sessions: map<string, Session>
    var segments: seq<Segment>

    ghost function View(): Db
      reads this
    {
      Db(sessions, segments)
    }

    /** `rows` is what the database answers to the ordered query. */
    method RunSessionRetention(p: Policy, rows: seq<string>) returns (deleted: nat)
      requires NewestFirst(View(), rows)
      modifies this
      ensures View() == Purged(old(View()), p, rows)
      ensures deleted == |old(sessions)| - |sessions|
    {
      var idsToDelete: set<string> := {};
      if p.count <= 0 && p.cutoff.None? {
        PurgedNothing(View(), p, rows);
        return 0;
      }
      if p.count > 0 && |rows| > p.count {
        idsToDelete := idsToDelete + Elements(rows[p.count..]);
      }
      if p.cutoff.Some? {
        var ageRows := set id | id in sessions && sessions[id].stopped && sessions[id].startedAt < p.cutoff.value;
        idsToDelete := idsToDelete + ageRows;
      }
      DoomedIsCompleted(View(), p, rows);
      if idsToDelete == {} {
        PurgedNothing(View(), p, rows);
        return 0;
      }
      deleted := DeleteRows(idsToDelete);
    }

    /** Segments first, then sessions. */
    method DeleteRows(ids: set<string>) returns (deleted: nat)
      requires ids <= sessions.Keys
      modifies this
      ensures sessions == old(sessions) - ids && segments == Without(old(segments), ids)
      ensures deleted == |old(sessions)| - |sessions|
    {
      segments := Without(segments, ids);
      sessions := sessions - ids;
      deleted := |ids|;
    }
  }

  lemma PurgedNothing(db: Db, p: Policy, rows: seq<string>)
    requires Doomed(db, p, rows) == {}
    ensures Purged(db, p, rows) == db
  {
    assert db.sessions - {} == db.sessions;
    WithoutNothing(db.segments);
  }

  lemma {:induction false} WithoutNothing(segments: seq<Segment>)
    ensures Without(segments, {}) == segments
    decreases |segments|
  {
    if segments != [] { WithoutNothing(segments[..|segments| - 1]); }
  }

  /** Only completed sessions are purged, whatever the policies. */
  lemma DoomedIsCompleted(db: Db, p: Policy, rows: seq<string>)
    requires Elements(rows) == Completed(db)
    ensures Doomed(db, p, rows) <= Completed(db) <= db.sessions.Keys
  {
    assert forall r :: r in OverCount(p, rows) ==> r in Elements(rows);
  }

  // ----- What is kept -----

  /** Fewer than `count` completed sessions come before this one in the answer: it is among the newest. */
  ghost predicate AmongNewest(rows: seq<string>, count: int, id: string) {
    exists i :: 0 <= i < |rows| && i < count && rows[i] == id
  }

  /** A completed session stays exactly when it meets both enabled policies; an active one always stays. */
  lemma KeptExactlyWhen(db: Db, p: Policy, rows: seq<string>, id: string)
    requires NewestFirst(db, rows) && id in db.sessions
    ensures id in Purged(db, p, rows).sessions <==>
            !db.sessions[id].stopped
            || ((p.count > 0 ==> AmongNewest(rows, p.count, id))
                && (p.cutoff.Some? ==> db.sessions[id].startedAt >= p.cutoff.value))
    ensures id in Purged(db, p, rows).sessions ==> Purged(db, p, rows).sessions[id] == db.sessions[id]
  {
    DoomedIsCompleted(db, p, rows);
    if db.sessions[id].stopped && p.count > 0 {
      assert id in Elements(rows);
      var k :| 0 <= k < |rows| && rows[k] == id;
      if p.count <= k {
        assert rows[p.count..][k - p.count] == id;
      }
    }
  }

  lemma {:induction false} SetSize(rows: seq<string>)
    requires NoDuplicates(rows)
    ensures |Elements(rows)| == |rows|
    decreases |rows|
  {
    if rows != [] {
      var front, last := rows[..|rows| - 1], rows[|rows| - 1];
      SetSize(front);
      assert last !in front;
      assert Elements(rows) == Elements(front) + {last};
    }
  }

  lemma SplitRows(rows: seq<string>, n: nat)
    requires NoDuplicates(rows) && n <= |rows|
    ensures Elements(rows) - Elements(rows[n..]) == Elements(rows[..n])
    ensures |Elements(rows[..n])| == n
  {
    SetSize(rows[..n]);
    assert rows == rows[..n] + rows[n..];
    forall x | x in Elements(rows[..n]) ensures x in rows && x !in Elements(rows[n..]) {
      var i :| 0 <= i < n && rows[..n][i] == x;
      assert rows[i] == x;
    }
  }

  /** The sessions a count policy keeps are the newest: as many as allowed, none older than one it purges. */
  lemma CountKeepsTheNewest(db: Db, count: int, rows: seq<string>)
    requires NewestFirst(db, rows) && count > 0
    ensures var purged := OverCount(Policy(count, None), rows);
            var kept := Completed(db) - purged;
            && purged <= Completed(db)
            && |kept| == (if |rows| < count then |rows| else count)
            && forall a, b :: a in kept && b in purged ==> db.sessions[a].startedAt >= db.sessions[b].startedAt
  {
    var purged := OverCount(Policy(count, None), rows);
    var n := if |rows| < count then |rows| else count;
    DoomedIsCompleted(db, Policy(count, None), rows);
    SplitRows(rows, n);
    assert purged == Elements(rows[n..]);
    forall a, b | a in Completed(db) - purged && b in purged
      ensures db.sessions[a].startedAt >= db.sessions[b].startedAt
    {
      assert a in Elements(rows[..n]);
    }
  }

  ghost predicate References(db: Db) {
    forall s :: s in db.segments ==> s.sessionId in db.sessions
  }

  lemma {:induction false} WithoutMembers(segments: seq<Segment>, ids: set<string>)
    ensures forall s :: s in Without(segments, ids) <==> s in segments && s.sessionId !in ids
    decreases |segments|
  {
    if segments != [] {
      WithoutMembers(segments[..|segments| - 1], ids);
    }
  }

  /** Exactly the purged sessions' segments go, so every segment left still has its session. */
  lemma ReferencesArePreserved(db: Db, p: Policy, rows: seq<string>)
    requires References(db) && NewestFirst(db, rows)
    ensures References(Purged(db, p, rows))
    ensures forall s :: s in db.segments ==>
              (s in Purged(db, p, rows).segments <==> s.sessionId in Purged(db, p, rows).sessions)
  {
    WithoutMembers(db.segments, Doomed(db, p, rows));
  }

  /** A second purge with the same cutoff removes nothing, in whatever order the database answers. */
  lemma PurgeIsIdempotent(db: Db, p: Policy, rows: seq<string>, again: seq<string>)
    requires NewestFirst(db, rows)
    requires NewestFirst(Purged(db, p, rows), again)
    ensures Purged(Purged(db, p, rows), p, again) == Purged(db, p, rows)
  {
    var db' := Purged(db, p, rows);
    assert TooOld(db', p) == {};
    assert OverCount(p, again) == {} by {
      if p.count > 0 {
        var n := if |rows| < p.count then |rows| else p.count;
        var first := rows[..n];
        forall id | id in Completed(db') ensures id in Elements(first) {
          KeptExactlyWhen(db, p, rows, id);
          var i :| 0 <= i < |rows| && i < p.count && rows[i] == id;
          assert first[i] == id;
        }
        SetSize(again);
        SetSize(first);
        SubsetSize(Completed(db'), Elements(first));
      }
    }
    PurgedNothing(db', p, again);
  }

  lemma SubsetSize<T>(a: set<T>, b: set<T>)
    requires a <= b
    ensures |a| <= |b|
  {
    assert b == a + (b - a);
  }
}
