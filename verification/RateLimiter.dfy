/** Sliding-window limit on authentication attempts, one deque of times per client address. */
module RateLimiter {
  import opened Common

  const AUTH_MAX_ATTEMPTS := 5
  const AUTH_WINDOW_S := 60.0

  /** The deque without the leading entries older than the window. */
  function Evicted(attempts: seq<real>, now: real): seq<real> {
    if attempts != [] && attempts[0] < now - AUTH_WINDOW_S then Evicted(attempts[1..], now) else attempts
  }

  function Decided(recent: seq<real>, now: real): (seq<real>, bool) {
    if |recent| >= AUTH_MAX_ATTEMPTS then (recent, false) else (recent + [now], true)
  }

  function Checked(attempts: seq<real>, now: real): (seq<real>, bool) {
    Decided(Evicted(attempts, now), now)
  }

  class RateLimiter {
    var attempts: map<string, seq<real>>

    constructor ()
      ensures attempts == map[]
    {
      attempts := map[];
    }

    /** `accepted` is false where the program answers "too many attempts". */
    method CheckAuthRateLimit(client: string, now: real) returns (accepted: bool)
      modifies this
      ensures var before := if client in old(attempts) then old(attempts)[client] else [];
              attempts == old(attempts)[client := Checked(before, now).0] && accepted == Checked(before, now).1
    {
      var deque := if client in attempts then attempts[client] else [];
      ghost var before := deque;
      while deque != [] && deque[0] < now - AUTH_WINDOW_S
        invariant Evicted(deque, now) == Evicted(before, now)
        decreases |deque|
      {
        deque := deque[1..];
      }
      accepted := |deque| < AUTH_MAX_ATTEMPTS;
      if accepted { deque := deque + [now]; }
      attempts := attempts[client := deque];
    }
  }

  // ----- Runs of attempts from one client -----

  datatype Attempt = Attempt(at: real, accepted: bool)

  ghost predicate NonDecreasing(times: seq<real>) {
    forall i, j :: 0 <= i < j < |times| ==> times[i] <= times[j]
  }

  /** The deque after the attempts, and what became of each. */
  function Run(times: seq<real>): (seq<real>, seq<Attempt>) {
    if times == [] then ([], []) else
      var (deque, log) := Run(times[..|times| - 1]);
      var now := times[|times| - 1];
      var (deque', accepted) := Checked(deque, now);
      (deque', log + [Attempt(now, accepted)])
  }

  /** Times of the accepted attempts. */
  function AcceptedTimes(log: seq<Attempt>): seq<real> {
    if log == [] then [] else
      AcceptedTimes(log[..|log| - 1]) + if log[|log| - 1].accepted then [log[|log| - 1].at] else []
  }

  /** Of a sorted history, the entries no older than the window at `now`. */
  function Recent(times: seq<real>, now: real): seq<real> {
    if times == [] then [] else
      Recent(times[..|times| - 1], now) + if times[|times| - 1] >= now - AUTH_WINDOW_S then [times[|times| - 1]] else []
  }

  lemma {:induction false} RecentOfNewer(times: seq<real>, now: real)
    requires forall i :: 0 <= i < |times| ==> times[i] >= now - AUTH_WINDOW_S
    ensures Recent(times, now) == times
    decreases |times|
  {
    if times != [] { RecentOfNewer(times[..|times| - 1], now); }
  }

  lemma {:induction false} RecentSkipsOld(x: real, times: seq<real>, now: real)
    requires x < now - AUTH_WINDOW_S
    ensures Recent([x] + times, now) == Recent(times, now)
    decreases |times|
  {
    if times != [] {
      assert ([x] + times)[..|times|] == [x] + times[..|times| - 1];
      RecentSkipsOld(x, times[..|times| - 1], now);
    } else {
      assert ([x] + times)[..0] == [];
    }
  }

  /** On a sorted deque, dropping old entries from the front is filtering. */
  lemma {:induction false} EvictedIsRecent(deque: seq<real>, now: real)
    requires NonDecreasing(deque)
    ensures Evicted(deque, now) == Recent(deque, now)
    decreases |deque|
  {
    if deque != [] && deque[0] < now - AUTH_WINDOW_S {
      EvictedIsRecent(deque[1..], now);
      assert deque == [deque[0]] + deque[1..];
      RecentSkipsOld(deque[0], deque[1..], now);
    } else {
      RecentOfNewer(deque, now);
    }
  }

  lemma {:induction false} RecentOfRecent(times: seq<real>, before: real, now: real)
    requires before <= now
    ensures Recent(Recent(times, before), now) == Recent(times, now)
    decreases |times|
  {
    if times != [] {
      var front, x := times[..|times| - 1], times[|times| - 1];
      RecentOfRecent(front, before, now);
      var kept := Recent(front, before);
      assert (kept + [x])[..|kept|] == kept;
      assert Recent(times, before) == if x >= before - AUTH_WINDOW_S then kept + [x] else kept;
    }
  }

  /** Of a sorted history the recent entries are a suffix, and everything before it is too old. */
  lemma {:induction false} RecentIsSuffix(times: seq<real>, now: real)
    requires NonDecreasing(times)
    ensures |Recent(times, now)| <= |times| && Recent(times, now) == times[|times| - |Recent(times, now)|..]
    ensures forall i :: 0 <= i < |times| - |Recent(times, now)| ==> times[i] < now - AUTH_WINDOW_S
    ensures forall i :: |times| - |Recent(times, now)| <= i < |times| ==> times[i] >= now - AUTH_WINDOW_S
    decreases |times|
  {
    if times != [] {
      var front, x := times[..|times| - 1], times[|times| - 1];
      RecentIsSuffix(front, now);
      var k := |front| - |Recent(front, now)|;
      var y := if k < |front| then front[k] else x;
      assert y <= x;
      if x < now - AUTH_WINDOW_S {
        assert Recent(times, now) == Recent(front, now) == [];
      } else {
        assert Recent(times, now) == front[k..] + [x] == times[k..];
      }
    }
  }

  ghost predicate Spread(accepted: seq<real>) {
    forall i :: 0 <= i && i + AUTH_MAX_ATTEMPTS < |accepted| ==> accepted[i + AUTH_MAX_ATTEMPTS] - accepted[i] > AUTH_WINDOW_S
  }

  /** The deque is the accepted history of the window that ended at the last attempt. */
  ghost predicate Tracked(accepted: seq<real>, deque: seq<real>, last: Option<real>) {
    && NonDecreasing(accepted) && Spread(accepted)
    && match last
       case None => accepted == [] && deque == []
       case Some(t) => deque == Recent(accepted, t) && forall i :: 0 <= i < |accepted| ==> accepted[i] <= t
  }

  function LastOf(times: seq<real>): Option<real> {
    if times == [] then None else Some(times[|times| - 1])
  }

  lemma EvictionOfTracked(accepted: seq<real>, before: real, now: real)
    requires NonDecreasing(accepted) && before <= now
    ensures Evicted(Recent(accepted, before), now) == Recent(accepted, now)
  {
    RecentIsSuffix(accepted, before);
    EvictedIsRecent(Recent(accepted, before), now);
    RecentOfRecent(accepted, before, now);
  }

  lemma SortedAppend(accepted: seq<real>, now: real)
    requires NonDecreasing(accepted) && forall i :: 0 <= i < |accepted| ==> accepted[i] <= now
    ensures NonDecreasing(accepted + [now])
  {
  }

  /** Six accepted attempts cannot fall into one window: the sixth is let through only when at most four are recent. */
  lemma SpreadAppend(accepted: seq<real>, now: real)
    requires NonDecreasing(accepted) && Spread(accepted) && |Recent(accepted, now)| < AUTH_MAX_ATTEMPTS
    ensures Spread(accepted + [now])
  {
    RecentIsSuffix(accepted, now);
    var longer, oldest := accepted + [now], |accepted| - AUTH_MAX_ATTEMPTS;
    if oldest >= 0 {
      assert longer[oldest] == accepted[oldest] < now - AUTH_WINDOW_S;
    }
    forall i | 0 <= i && i + AUTH_MAX_ATTEMPTS < |longer|
      ensures longer[i + AUTH_MAX_ATTEMPTS] - longer[i] > AUTH_WINDOW_S
    {
      if i + AUTH_MAX_ATTEMPTS < |accepted| {
        assert accepted[i + AUTH_MAX_ATTEMPTS] - accepted[i] > AUTH_WINDOW_S;
      }
    }
  }

  lemma AttemptKeeps(accepted: seq<real>, recent: seq<real>, now: real)
    requires NonDecreasing(accepted) && Spread(accepted)
    requires forall i :: 0 <= i < |accepted| ==> accepted[i] <= now
    requires recent == Recent(accepted, now)
    ensures var (deque', ok) := Decided(recent, now);
            && (ok <==> |recent| < AUTH_MAX_ATTEMPTS)
            && Tracked(if ok then accepted + [now] else accepted, deque', Some(now))
  {
    if |recent| < AUTH_MAX_ATTEMPTS {
      SortedAppend(accepted, now);
      SpreadAppend(accepted, now);
    }
  }

  lemma TrackedStep(accepted: seq<real>, deque: seq<real>, last: Option<real>, now: real)
    requires Tracked(accepted, deque, last) && (last.Some? ==> last.value <= now)
    ensures var (deque', ok) := Checked(deque, now);
            && (ok <==> |Recent(accepted, now)| < AUTH_MAX_ATTEMPTS)
            && Tracked(if ok then accepted + [now] else accepted, deque', Some(now))
  {
    match last
    case None =>
      AttemptKeeps(accepted, Evicted(deque, now), now);
    case Some(t) =>
      EvictionOfTracked(accepted, t, now);
      AttemptKeeps(accepted, Evicted(deque, now), now);
  }

  lemma {:induction false} RunTracked(times: seq<real>)
    requires NonDecreasing(times)
    ensures Tracked(AcceptedTimes(Run(times).1), Run(times).0, LastOf(times))
    decreases |times|
  {
    if times != [] {
      var front, now := times[..|times| - 1], times[|times| - 1];
      RunTracked(front);
      var accepted := AcceptedTimes(Run(front).1);
      assert accepted + [] == accepted && times == front + [now];
      TrackedStep(accepted, Run(front).0, LastOf(front), now);
    }
  }

  /**
   Over any attempts at non-decreasing times: the next one is rejected exactly
   when five accepted ones lie in the closed last minute, any six accepted ones
   span more than a minute, and the deque holds the accepted ones of the window.
   */
  lemma LimitOverRuns(times: seq<real>, now: real)
    requires NonDecreasing(times + [now])
    ensures var accepted := AcceptedTimes(Run(times).1);
            && Spread(accepted)
            && (Checked(Run(times).0, now).1 <==> |accepted| < 5 || accepted[|accepted| - 5] < now - 60.0)
            && Run(times).0 == (if times == [] then [] else Recent(accepted, times[|times| - 1]))
  {
    assert forall i :: 0 <= i < |times| ==> times[i] == (times + [now])[i];
    RunTracked(times);
    if times != [] {
      assert (times + [now])[|times| - 1] <= (times + [now])[|times|];
    }
    var accepted := AcceptedTimes(Run(times).1);
    TrackedStep(accepted, Run(times).0, LastOf(times), now);
    RecentIsSuffix(accepted, now);
  }

  // ----- Clients do not influence each other -----

  datatype Call = Call(client: string, at: real)

  function DequeOf(all: map<string, seq<real>>, client: string): seq<real> {
    if client in all then all[client] else []
  }

  function RunAll(calls: seq<Call>): map<string, seq<real>> {
    if calls == [] then map[] else
      var all, call := RunAll(calls[..|calls| - 1]), calls[|calls| - 1];
      all[call.client := Checked(DequeOf(all, call.client), call.at).0]
  }

  function TimesOf(calls: seq<Call>, client: string): seq<real> {
    if calls == [] then [] else
      TimesOf(calls[..|calls| - 1], client) + if calls[|calls| - 1].client == client then [calls[|calls| - 1].at] else []
  }

  /** A client's deque is what its own attempts alone would give. */
  lemma {:induction false} ClientsAreIndependent(calls: seq<Call>, client: string)
    ensures DequeOf(RunAll(calls), client) == Run(TimesOf(calls, client)).0
    decreases |calls|
  {
    if calls != [] {
      var front, call := calls[..|calls| - 1], calls[|calls| - 1];
      ClientsAreIndependent(front, client);
      if call.client == client {
        assert TimesOf(calls, client)[..|TimesOf(front, client)|] == TimesOf(front, client);
      } else {
        assert TimesOf(calls, client) == TimesOf(front, client);
      }
    }
  }
}
