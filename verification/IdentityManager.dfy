/** The identity manager's object: each method is what one of its tasks does between two suspension points. */
module IdentityManager {
  import opened Common
  import opened TimeZipper

  class IdentityManager {
    var pending: seq<Pending>
    var liveIdentities: seq<Identity>
    var backfillIdentities: seq<Identity>
    // locals of the suspended fusion task
    var now: real
    var batch: seq<Pending>
    var still: seq<Pending>
    var phase: Phase
    var wake: real
    var clock: real          // the event loop's time
    // history
    ghost var arrived: seq<Pending>
    ghost var heard: seq<Identity>
    ghost var releases: seq<Release>
    ghost var finals: seq<Publication>
    ghost var interims: seq<Transcript>
    ghost var acked: seq<Pending>
    ghost var settled: seq<Settlement>

    ghost function View(): State
      reads this
    {
      State(pending, liveIdentities, backfillIdentities, now, batch, still, phase, wake,
            clock, arrived, heard, releases, finals, interims, acked, settled)
    }

    constructor ()
      ensures View() == INIT
    {
      pending, liveIdentities, backfillIdentities := [], [], [];
      now, batch, still, phase, wake := 0.0, [], [], Idle, 0.0;
      clock, arrived, heard, releases := 0.0, [], [], [];
      finals, interims, acked, settled := [], [], [], [];
    }

    /** Subscriber: one transcript delivery, `msg` being the broker's message. */
    method OnTranscript(msg: nat, data: Transcript, at: real, ghost publishOk: bool, ghost ackOk: bool)
      requires msg == |arrived| && clock <= at
      modifies `pending, `clock, `arrived, `settled, `acked, `interims
      ensures View() == Received(old(View()), Deliver(data, at, publishOk, ackOk))
    {
      if data.isFinal {
        Enqueue(msg, data, at, ackOk);
      } else {
        clock := at;
        if publishOk { interims := interims + [data]; }
      }
    }

    method Enqueue(msg: nat, data: Transcript, at: real, ghost ackOk: bool)
      requires msg == |arrived|
      modifies `pending, `clock, `arrived, `settled, `acked
      ensures View() == Queued(old(View()), data, at, ackOk)
    {
      Append(Pending(msg, data, at));
      if |pending| > MAX_BUFFER {
        EvictOldest(ackOk);
      }
    }

    method Append(item: Pending)
      modifies `pending, `clock, `arrived
      ensures View() == old(View()).(clock := item.receivedAt, pending := old(pending) + [item], arrived := old(arrived) + [item])
    {
      clock := item.receivedAt;
      pending := pending + [item];
      arrived := arrived + [item];
    }

    method EvictOldest(ghost ackOk: bool)
      requires pending != []
      modifies `pending, `settled, `acked
      ensures View() == old(View()).(pending := old(pending)[1..], settled := old(settled) + [Settlement(old(pending)[0], Evicted)],
                                     acked := if ackOk then old(acked) + [old(pending)[0]] else old(acked))
    {
      var evicted := pending[0];
      pending := pending[1..];
      settled := settled + [Settlement(evicted, Evicted)];
      acked := if ackOk then acked + [evicted] else acked;
    }

    /** Subscriber: one identity event, kept in a bounded deque per class. */
    method OnIdentity(id: Identity)
      modifies this
      ensures View() == Heard(old(View()), id)
    {
      heard := heard + [id];
      if IsBackfill(id.source) {
        backfillIdentities := LastN(backfillIdentities + [id], MAX_BUFFER);
      } else {
        liveIdentities := LastN(liveIdentities + [id], MAX_BUFFER);
      }
    }

    method FindIdentity(data: Transcript) returns (best: Option<Identity>)
      ensures best == Match(liveIdentities, backfillIdentities, data)
    {
      best := None;
      if data.timestamp.None? { return; }
      var ts := data.timestamp.value;
      var pool := if IsBackfill(data.source) then backfillIdentities else liveIdentities;
      var bestDiff := MATCH_WINDOW;
      var i := 0;
      while i < |pool|
        invariant 0 <= i <= |pool|
        invariant best == Nearest(pool[..i], ts)
        invariant bestDiff == if best.Some? then Diff(best.value, ts) else MATCH_WINDOW
      {
        var id := pool[i];
        assert pool[..i + 1][..i] == pool[..i];
        if id.timestamp.Some? {
          var diff := Diff(id, ts);
          if diff < bestDiff {
            bestDiff := diff;
            best := Some(id);
          }
        }
        i := i + 1;
      }
      assert pool[..i] == pool;
    }

    method BeginCycle(at: real)
      requires phase.Idle? && clock <= at && wake <= at
      modifies `pending, `batch, `still, `phase, `wake, `releases, `clock, `now
      ensures View() == Resume(Snapshot(old(View()), at))
    {
      clock, now := at, at;
      batch, pending, still := pending, [], [];
      assert View() == Snapshot(old(View()), at);
      RunOn();
    }

    /** The loop over the batch, up to the first transcript that is due, if any. */
    method KeepUntilDue() returns (identity: Option<Identity>)
      modifies `batch, `still
      ensures var k := KeptBefore(liveIdentities, backfillIdentities, now, old(batch));
              && batch == old(batch)[k..] && still == old(still) + old(batch)[..k]
              && (batch != [] ==> identity == Match(liveIdentities, backfillIdentities, batch[0].data))
    {
      ghost var k := 0;
      identity := None;
      while batch != []
        invariant k <= |old(batch)| && batch == old(batch)[k..] && still == old(still) + old(batch)[..k]
        invariant forall i :: 0 <= i < k ==> !Due(liveIdentities, backfillIdentities, now, old(batch)[i])
        decreases |batch|
      {
        var item := batch[0];
        identity := FindIdentity(item.data);
        if identity.Some? || now - item.receivedAt >= PUBLISH_TIMEOUT {
          assert item == old(batch)[k];
          break;
        }
        still := still + [item];
        batch := batch[1..];
        k := k + 1;
      }
    }

    /** The fusion task runs until its next await. */
    method RunOn()
      modifies `pending, `batch, `still, `phase, `wake, `releases
      ensures View() == Resume(old(View()))
    {
      var identity := KeepUntilDue();
      if batch == [] {
        EndCycle();
      } else {
        ReleaseFirst(identity);
      }
    }

    /** What was kept goes in front of what arrived meanwhile; then the task sleeps. */
    method EndCycle()
      modifies `pending, `still, `phase, `wake
      ensures View() == old(View()).(pending := old(still) + old(pending), still := [], phase := Idle, wake := clock + CYCLE_SLEEP)
    {
      pending, still := still + pending, [];
      phase, wake := Idle, clock + CYCLE_SLEEP;
    }

    method ReleaseFirst(identity: Option<Identity>)
      requires batch != []
      modifies `batch, `phase, `releases
      ensures var item := old(batch)[0];
              View() == old(View()).(batch := old(batch)[1..], phase := Publishing(item, identity),
                                     releases := old(releases) + [Release(item, identity, now, |heard|)])
    {
      phase := Publishing(batch[0], identity);
      releases := releases + [Release(batch[0], identity, now, |heard|)];
      batch := batch[1..];
    }

    method AfterPublish(ok: bool)
      requires phase.Publishing?
      modifies this
      ensures View() == PublishEnded(old(View()), ok)
    {
      if ok {
        finals := finals + [PublicationOf(View())];
        phase := Acking(phase.item);
      } else {
        phase := Naking(phase.item, false);
      }
    }

    method AfterAck(ok: bool)
      requires phase.Acking?
      modifies this
      ensures View() == AckEnded(old(View()), ok)
    {
      if ok {
        acked := acked + [phase.item];
        settled := settled + [Settlement(phase.item, Delivered)];
        RunOn();
      } else {
        phase := Naking(phase.item, true);
      }
    }

    method AfterNak()
      requires phase.Naking?
      modifies this
      ensures View() == NakEnded(old(View()))
    {
      settled := settled + [Settlement(phase.item, if phase.published then AckFailed else PublishFailed)];
      RunOn();
    }
  }
}
