/** The speech-to-text provider's session loop and its drain task, as one object updated in place. */
module SttProvider {
  import opened Common
  import opened Messaging
  import opened SttSession

  class SessionLoop {
    var phase: Phase
    var sid: Option<string>
    var dgClosed: bool
    var tag: Lane            // read by the drain task for every transcript
    var draining: bool
    var stopping: bool
    ghost var trace: seq<Act>

    ghost function View(): State
      reads this
    {
      State(phase, sid, dgClosed, tag, draining, stopping, trace)
    }

    constructor ()
      ensures View() == INIT
    {
      phase, sid, dgClosed, tag, draining, stopping, trace := WaitBackfill, None, false, Backfill, false, false, [];
    }

    method OnConnectFailed()
      requires phase.Connecting?
      modifies `phase
      ensures View() == Step(old(View()), ConnectFails)
    {
      if stopping { phase := Stopped; }
    }

    /** The transcript stream ends and with it the drain task's loop. */
    method OnDisconnected()
      requires draining
      modifies `draining, `dgClosed
      ensures View() == Step(old(View()), ConnectionDrops)
    {
      draining, dgClosed := false, true;
    }

    /** After finishing, the drain task has ended or was cancelled. */
    method OnDrained()
      requires phase.Closing?
      modifies `phase, `draining
      ensures View() == Step(old(View()), DrainEnds)
    {
      draining := false;
      phase := if stopping then Stopped else WaitBackfill;
    }

    method OnStopSignal()
      modifies `stopping
      ensures View() == Step(old(View()), StopSignal)
    {
      stopping := true;
    }

    method CloseTranscriber()
      modifies `phase, `trace
      ensures View() == Close(old(View()))
    {
      trace := trace + [Finished];
      phase := Closing;
    }

    method GoOn(lane: Lane, queue: seq<Msg>)
      modifies `phase, `trace
      ensures View() == Proceed(old(View()), lane, queue)
    {
      if queue != [] {
        phase := Sending(lane, queue);
      } else if dgClosed || stopping {
        CloseTranscriber();
      } else {
        phase := Fetching(lane);
      }
    }

    method OnConnected()
      requires phase.Connecting?
      modifies this
      ensures View() == Opened(old(View()))
    {
      var first := phase.first;
      sid := if first == [] then None else SessionIdFromSubject(first[0].subject);
      trace := trace + [Open(sid)];
      dgClosed, tag, draining := false, Backfill, true;
      GoOn(Backfill, first);
    }

    /** The head of the fetched messages: skip it, act on the end marker, or send it. */
    method HandleMessage(outcome: SendOutcome)
      requires phase.Sending? && phase.queue != []
      modifies `phase, `trace, `dgClosed
      ensures View() == Handled(old(View()), outcome)
    {
      var lane, m, rest := phase.lane, phase.queue[0], phase.queue[1..];
      if Stale(sid, m) {
        trace := trace + [Acked(lane, m)];
        GoOn(lane, rest);
      } else if IsEos(m) {
        trace := trace + [Acked(lane, m)];
        EndOfStream(lane);
      } else if outcome.SendOk? {
        trace := trace + [Sent(lane, m), Acked(lane, m)];
        GoOn(lane, rest);
      } else {
        trace := trace + if outcome == SendRaises(false) then [] else [Sent(lane, m)];
        dgClosed := true;
        CloseTranscriber();
      }
    }

    method EndOfStream(lane: Lane)
      modifies `phase, `trace, `dgClosed
      ensures View() == EosSeen(old(View()), lane)
    {
      if lane == Live {
        dgClosed := true;
        CloseTranscriber();
      } else if dgClosed || stopping {
        CloseTranscriber();
      } else {
        trace := trace + [Finalized];
        phase := Flushing;
      }
    }

    method OnFlushed()
      requires phase.Flushing?
      modifies `phase, `trace, `tag
      ensures View() == Flushed(old(View()))
    {
      if !dgClosed && !stopping { tag := Live; }
      if stopping {
        CloseTranscriber();
      } else {
        phase := WaitLive;
      }
    }

    method OnFetched(msgs: seq<Msg>)
      requires phase.WaitBackfill? || phase.WaitLive? || phase.Fetching?
      modifies `phase, `trace
      ensures View() == FetchEnded(old(View()), msgs)
    {
      match phase {
        case WaitBackfill => phase := if stopping then Stopped else Connecting(msgs);
        case WaitLive =>
          if stopping { CloseTranscriber(); } else { GoOn(Live, msgs); }
        case Fetching(lane) => GoOn(lane, msgs);
      }
    }

    /** A fetch that times out or fails. */
    method OnFetchFailed()
      requires phase.WaitBackfill? || phase.WaitLive? || phase.Fetching?
      modifies `phase, `trace
      ensures View() == FetchFailed(old(View()))
    {
      if phase.WaitBackfill? {
        if stopping { phase := Stopped; }
      } else if stopping || (phase.Fetching? && dgClosed) {
        CloseTranscriber();
      }
    }

    method OnTranscript(spoken: Spoken)
      requires draining
      modifies `draining, `dgClosed, `trace
      ensures View() == Emitted(old(View()), spoken)
    {
      if stopping {
        draining, dgClosed := false, true;
      } else {
        trace := trace + [Emit(tag, spoken)];
      }
    }
  }
}
