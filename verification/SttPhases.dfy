/** The provider's loops: sending fetched messages, draining one subject, and connecting with back-off. */
module SttPhases {
  import opened Common
  import opened Messaging
  import opened SttSession

  /** What other tasks did while a fetch and its sends were awaited. */
  datatype Meanwhile = Meanwhile(closed: bool, stopped: bool)

  /** One round of the fetch loop: a timeout or error, or messages with the outcome of sending each. */
  datatype Fetch =
    | Raised(after: Meanwhile)
    | Got(msgs: seq<Msg>, outcomes: seq<SendOutcome>, after: Meanwhile)
  {
    ghost predicate Valid() {
      Got? ==> |outcomes| == |msgs|
    }
  }

  /** The messages that carry audio of the session. */
  function Audio(sid: Option<string>, msgs: seq<Msg>): seq<Msg> {
    if msgs == [] then [] else
      var front, last := msgs[..|msgs| - 1], msgs[|msgs| - 1];
      Audio(sid, front) + if Stale(sid, last) || IsEos(last) then [] else [last]
  }

  lemma {:induction false} AudioOfConcat(sid: Option<string>, a: seq<Msg>, b: seq<Msg>)
    ensures Audio(sid, a + b) == Audio(sid, a) + Audio(sid, b)
    decreases |b|
  {
    if b == [] {
      assert a + b == a;
    } else {
      var front, last := b[..|b| - 1], b[|b| - 1];
      assert (a + b)[..|a + b| - 1] == a + front;
      AudioOfConcat(sid, a, front);
    }
  }

  function Delivered(fetches: seq<Fetch>): seq<Msg> {
    if fetches == [] then []
    else (if fetches[0].Got? then fetches[0].msgs else []) + Delivered(fetches[1..])
  }

  predicate IsOwnEos(sid: Option<string>, m: Msg) {
    IsEos(m) && !Stale(sid, m)
  }

  /**
   After a delivered sequence `all`, of which `n` messages were acked: the
   payloads sent are the audio of that acked prefix plus at most the message
   after it, and the outcome says whether the prefix ends at the session's own
   end marker.
   */
  ghost predicate PhaseResult(sid: Option<string>, all: seq<Msg>, n: nat, sent: seq<Msg>, eos: bool) {
    && n <= |all|
    && (forall k :: 0 <= k < n - 1 ==> !IsOwnEos(sid, all[k]))
    && (eos <==> n > 0 && IsOwnEos(sid, all[n - 1]))
    && (sent == Audio(sid, all[..n])
        || (!eos && n < |all| && sent == Audio(sid, all[..n]) + [all[n]] && !Stale(sid, all[n]) && !IsEos(all[n])))
  }

  /** All of `seen` was dealt with, without failure and without the session's end marker; `rest` is still to come. */
  ghost predicate SoFar(sid: Option<string>, all: seq<Msg>, seen: seq<Msg>, rest: seq<Msg>, sent: seq<Msg>) {
    all == seen + rest && sent == Audio(sid, seen) && forall k :: 0 <= k < |seen| ==> !IsOwnEos(sid, seen[k])
  }

  lemma PrefixOfConcat(seen: seq<Msg>, msgs: seq<Msg>, rest: seq<Msg>, n: nat)
    requires n <= |msgs|
    ensures (seen + (msgs + rest))[..|seen| + n] == seen + msgs[..n]
    ensures n == |msgs| ==> msgs[..n] == msgs
    ensures forall k :: 0 <= k < |seen| ==> (seen + (msgs + rest))[k] == seen[k]
    ensures forall k :: 0 <= k < |msgs| ==> (seen + (msgs + rest))[|seen| + k] == msgs[k]
  {
  }

  /** A result of one fetch extends what was dealt with before it. */
  lemma AfterRound(sid: Option<string>, all: seq<Msg>, seen: seq<Msg>, sent: seq<Msg>,
                   msgs: seq<Msg>, rest: seq<Msg>, n: nat, more: seq<Msg>, eos: bool)
    requires SoFar(sid, all, seen, msgs + rest, sent)
    requires PhaseResult(sid, msgs, n, more, eos)
    ensures PhaseResult(sid, all, |seen| + n, sent + more, eos)
    ensures all[..|seen| + n] == seen + msgs[..n]
    ensures !eos && n == |msgs| ==> SoFar(sid, all, seen + msgs, rest, sent + more)
  {
    PrefixOfConcat(seen, msgs, rest, n);
    AudioOfConcat(sid, seen, msgs[..n]);
    Associative(sent, Audio(sid, msgs[..n]), if n < |msgs| then [msgs[n]] else []);
    Associative(seen, msgs, rest);
    forall k | 0 <= k < |seen| + n - 1 ensures !IsOwnEos(sid, all[k]) {
      if k >= |seen| {
        assert all[k] == msgs[k - |seen|];
      }
    }
    if n > 0 {
      assert all[|seen| + n - 1] == msgs[n - 1];
    }
  }

  lemma PhaseResultOf(sid: Option<string>, all: seq<Msg>, seen: seq<Msg>, rest: seq<Msg>, sent: seq<Msg>)
    requires SoFar(sid, all, seen, rest, sent)
    ensures PhaseResult(sid, all, |seen|, sent, false) && all[..|seen|] == seen
  {
    assert all[..|seen|] == seen;
  }

  lemma AfterDispatch(sid: Option<string>, msgs: seq<Msg>, i: nat, sent: seq<Msg>, fate: Fate, outcome: SendOutcome)
    requires i < |msgs| && SoFar(sid, msgs, msgs[..i], msgs[i..], sent)
    requires fate == FateOf(sid, msgs[i], outcome)
    ensures msgs[..i + 1] == msgs[..i] + [msgs[i]]
    ensures fate.Skipped? ==> SoFar(sid, msgs, msgs[..i + 1], msgs[i + 1..], sent)
    ensures fate.Accepted? ==> SoFar(sid, msgs, msgs[..i + 1], msgs[i + 1..], sent + [msgs[i]])
    ensures fate.EndOfAudio? ==> PhaseResult(sid, msgs, i + 1, sent, true)
    ensures fate == Failed(false) ==> PhaseResult(sid, msgs, i, sent, false)
    ensures fate == Failed(true) || fate.Unacked? ==> PhaseResult(sid, msgs, i, sent + [msgs[i]], false)
  {
    assert forall k :: 0 <= k < i ==> msgs[..i][k] == msgs[k];
  }

  class Connection {
    var dgClosed: bool
    var stopping: bool
    ghost var acked: seq<Msg>
    ghost var sent: seq<Msg>

    /** One fetched message: skip it, note the end marker, or send it. */
    method Dispatch(m: Msg, outcome: SendOutcome, closeOnEos: bool, sid: Option<string>) returns (fate: Fate)
      modifies `dgClosed, `acked, `sent
      ensures fate == FateOf(sid, m, outcome)
      ensures acked == if fate.Skipped? || fate.EndOfAudio? || fate.Accepted? then old(acked) + [m] else old(acked)
      ensures sent == if fate.Accepted? || fate.Unacked? || fate == Failed(true) then old(sent) + [m] else old(sent)
      ensures dgClosed <==> old(dgClosed) || fate.Unacked? || fate.Failed? || (fate.EndOfAudio? && closeOnEos)
    {
      if Stale(sid, m) {
        acked := acked + [m];
        return Skipped;
      }
      if IsEos(m) {
        acked := acked + [m];
        if closeOnEos { dgClosed := true; }
        return EndOfAudio;
      }
      match outcome {
        case SendOk =>
          sent := sent + [m];
          acked := acked + [m];
          return Accepted;
        case SendRaises(reached) =>
          if reached { sent := sent + [m]; }
          dgClosed := true;
          return Failed(reached);
        case AckRaises =>
          sent := sent + [m];
          dgClosed := true;
          return Unacked;
      }
    }

    /** One turn of the loop over fetched messages; `n` messages are acked after it. */
    method Turn(msgs: seq<Msg>, i: nat, outcome: SendOutcome, closeOnEos: bool, sid: Option<string>,
                ghost acked0: seq<Msg>, ghost sent0: seq<Msg>, ghost out: seq<Msg>)
      returns (fate: Fate, ghost n: nat, ghost out': seq<Msg>)
      requires i < |msgs| && SoFar(sid, msgs, msgs[..i], msgs[i..], out)
      requires acked == acked0 + msgs[..i] && sent == sent0 + out
      modifies `dgClosed, `acked, `sent
      ensures n <= i + 1 && acked == acked0 + msgs[..n] && sent == sent0 + out'
      ensures fate.Skipped? || fate.Accepted? ==>
                n == i + 1 && SoFar(sid, msgs, msgs[..i + 1], msgs[i + 1..], out') && dgClosed == old(dgClosed)
      ensures !(fate.Skipped? || fate.Accepted?) ==>
                && PhaseResult(sid, msgs, n, out', fate.EndOfAudio?)
                && (dgClosed <==> old(dgClosed) || n == i || closeOnEos) && (n == i <==> !fate.EndOfAudio?)
    {
      fate := Dispatch(msgs[i], outcome, closeOnEos, sid);
      AfterDispatch(sid, msgs, i, out, fate, outcome);
      Associative(acked0, msgs[..i], [msgs[i]]);
      Associative(sent0, out, [msgs[i]]);
      n := if fate.Unacked? || fate.Failed? then i else i + 1;
      out' := if fate.Accepted? || fate.Unacked? || fate == Failed(true) then out + [msgs[i]] else out;
    }

    /** Send fetched messages in order; stop at the session's end marker or at the first failure. */
    method SendMsgs(msgs: seq<Msg>, outcomes: seq<SendOutcome>, closeOnEos: bool, sid: Option<string>)
      returns (eos: bool, ghost n: nat, ghost out: seq<Msg>)
      requires |outcomes| == |msgs|
      modifies `dgClosed, `acked, `sent
      ensures PhaseResult(sid, msgs, n, out, eos)
      ensures acked == old(acked) + msgs[..n] && sent == old(sent) + out
      ensures dgClosed <==> old(dgClosed) || (n < |msgs| && !eos) || (eos && closeOnEos)
    {
      var i := 0;
      n, out, eos := 0, [], false;
      while i < |msgs|
        invariant 0 <= i <= |msgs| && n == i && !eos
        invariant SoFar(sid, msgs, msgs[..i], msgs[i..], out)
        invariant acked == old(acked) + msgs[..i] && sent == old(sent) + out
        invariant dgClosed == old(dgClosed)
      {
        var fate;
        fate, n, out := Turn(msgs, i, outcomes[i], closeOnEos, sid, old(acked), old(sent), out);
        if !fate.Skipped? && !fate.Accepted? {
          eos := fate.EndOfAudio?;
          return;
        }
        i := i + 1;
      }
      PhaseResultOf(sid, msgs, msgs[..i], msgs[i..], out);
    }

    /** The phase goes on: nothing failed yet, and the marker has not been seen. */
    ghost predicate Going(acked0: seq<Msg>, sent0: seq<Msg>, sid: Option<string>,
                          all: seq<Msg>, seen: seq<Msg>, rest: seq<Msg>, out: seq<Msg>)
      reads this
    {
      SoFar(sid, all, seen, rest, out) && acked == acked0 + seen && sent == sent0 + out
    }

    /** Drain one subject into the connection, `during` being what others did while the first messages were sent; the service stops, at the latest, when the script ends. */
    method FetchPhase(first: seq<Msg>, outcomes: seq<SendOutcome>, during: Meanwhile, fetches: seq<Fetch>, closeOnEos: bool, sid: Option<string>)
      returns (eos: bool, ghost n: nat, ghost out: seq<Msg>)
      requires |outcomes| == |first| && forall f :: f in fetches ==> f.Valid()
      modifies `dgClosed, `stopping, `acked, `sent
      ensures PhaseResult(sid, first + Delivered(fetches), n, out, eos)
      ensures acked == old(acked) + (first + Delivered(fetches))[..n] && sent == old(sent) + out
      ensures !eos ==> dgClosed || stopping
      ensures eos && closeOnEos ==> dgClosed
    {
      ghost var all, acked0, sent0 := first + Delivered(fetches), acked, sent;
      ghost var seen;
      eos, n, out, seen := Round(Got(first, outcomes, during), Delivered(fetches), closeOnEos, sid,
                                 acked0, sent0, all, [], []);
      if eos || dgClosed { return; }
      var i := 0;
      while i < |fetches| && !stopping && !dgClosed
        invariant 0 <= i <= |fetches| && !eos
        invariant Going(acked0, sent0, sid, all, seen, Delivered(fetches[i..]), out)
      {
        assert fetches[i] in fetches && fetches[i..][1..] == fetches[i + 1..];
        eos, n, out, seen := Round(fetches[i], Delivered(fetches[i + 1..]), closeOnEos, sid, acked0, sent0, all, seen, out);
        i := i + 1;
        if eos || dgClosed { return; }
      }
      PhaseResultOf(sid, all, seen, Delivered(fetches[i..]), out);
      n := |seen|;
      if !dgClosed { stopping := true; }
    }

    /** One turn of the fetch loop. */
    method Round(fetch: Fetch, ghost rest: seq<Msg>, closeOnEos: bool, sid: Option<string>,
                 ghost acked0: seq<Msg>, ghost sent0: seq<Msg>, ghost all: seq<Msg>, ghost seen: seq<Msg>, ghost out: seq<Msg>)
      returns (eos: bool, ghost n: nat, ghost out': seq<Msg>, ghost seen': seq<Msg>)
      requires fetch.Valid()
      requires Going(acked0, sent0, sid, all, seen, (if fetch.Got? then fetch.msgs else []) + rest, out)
      modifies `dgClosed, `stopping, `acked, `sent
      ensures PhaseResult(sid, all, n, out', eos) && acked == acked0 + all[..n] && sent == sent0 + out'
      ensures !eos && !dgClosed ==> Going(acked0, sent0, sid, all, seen', rest, out')
      ensures eos && closeOnEos ==> dgClosed
    {
      eos, n, out', seen' := false, |seen|, out, seen;
      if fetch.Got? {
        ghost var m, more;
        eos, m, more := SendMsgs(fetch.msgs, fetch.outcomes, closeOnEos, sid);
        AfterRound(sid, all, seen, out, fetch.msgs, rest, m, more, eos);
        n, out', seen' := |seen| + m, out + more, seen + fetch.msgs;
        Associative(acked0, seen, fetch.msgs[..m]);
        Associative(sent0, out, more);
        assert m == |fetch.msgs| ==> fetch.msgs[..m] == fetch.msgs;
      } else {
        assert [] + rest == rest;
        PhaseResultOf(sid, all, seen, rest, out);
      }
      if fetch.after.closed { dgClosed := true; }
      if fetch.after.stopped { stopping := true; }
    }
  }

  // ----- Connecting -----

  function NextDelay(delay: nat): nat {
    if 2 * delay < 60 then 2 * delay else 60
  }

  /** Seconds waited after failed attempt number `i`. */
  function Backoff(i: nat): nat {
    if i == 0 then 2 else NextDelay(Backoff(i - 1))
  }

  /** Doubling from two seconds up to a minute, and a minute ever after. */
  lemma {:induction false} BackoffSettles(i: nat)
    ensures 2 <= Backoff(i) <= 60
    ensures i < 5 ==> Backoff(i) == [2, 4, 8, 16, 32][i]
    ensures i >= 5 ==> Backoff(i) == 60
  {
    if i > 0 { BackoffSettles(i - 1); }
  }

  ghost predicate FailedAttempts(attempts: seq<bool>, waits: seq<nat>) {
    |waits| <= |attempts| && forall k :: 0 <= k < |waits| ==> !attempts[k] && waits[k] == Backoff(k)
  }

  /** `attempts[i]` says whether attempt `i` connects; the service stops during the back-off after attempt `stopAfter`. */
  method ConnectWithRetry(attempts: seq<bool>, stopAfter: nat) returns (connected: bool, waits: seq<nat>)
    requires stopAfter < |attempts|
    ensures FailedAttempts(attempts, waits)
    ensures connected ==> |waits| <= stopAfter && attempts[|waits|]
    ensures !connected ==> |waits| == stopAfter + 1
  {
    waits := [];
    var delay := 2;
    while |waits| <= stopAfter
      invariant |waits| <= stopAfter + 1 && delay == Backoff(|waits|)
      invariant FailedAttempts(attempts, waits)
      decreases stopAfter + 1 - |waits|
    {
      if attempts[|waits|] { return true, waits; }
      waits := waits + [delay];
      delay := NextDelay(delay);
    }
    connected := false;
  }
}
