/** The gateway's log ring and the bounded drop-oldest queue of every connected client. */
module LogFanout {
  import opened Common

  const LOG_RING_SIZE: nat := 500
  const LOG_WS_QUEUE_SIZE: nat := 200

  /** A log message, identified by its arrival number. */
  type Entry = nat

  /**
   A client takes a snapshot of the ring when it registers at arrival number
   `since`; it is sent the snapshot first and then what its queue holds.
   */
  datatype Client = Client(
    connected: bool, since: nat, snapshot: seq<Entry>, queue: seq<Entry>,
    replayed: nat, live: seq<Entry>, dropped: nat)

  datatype State = State(ring: seq<Entry>, clients: seq<Client>, arrived: nat)

  datatype Event = Arrives | Connects | Reads(who: nat) | Disconnects(who: nat)

  const INIT := State([], [], 0)

  function Offered(c: Client, e: Entry): Client {
    if !c.connected then c
    else if |c.queue| >= LOG_WS_QUEUE_SIZE then c.(queue := c.queue[1..] + [e], dropped := c.dropped + 1)
    else c.(queue := c.queue + [e])
  }

  function OfferedAll(clients: seq<Client>, e: Entry): seq<Client> {
    seq(|clients|, i requires 0 <= i < |clients| => Offered(clients[i], e))
  }

  /** One message sent to a client: the replay goes first, the queue after it. */
  function Read(c: Client): Client {
    if !c.connected then c
    else if c.replayed < |c.snapshot| then c.(replayed := c.replayed + 1)
    else if c.queue != [] then c.(live := c.live + [c.queue[0]], queue := c.queue[1..])
    else c
  }

  function Step(s: State, e: Event): State {
    match e
    case Arrives => State(LastN(s.ring + [s.arrived], LOG_RING_SIZE), OfferedAll(s.clients, s.arrived), s.arrived + 1)
    case Connects => s.(clients := s.clients + [Client(true, s.arrived, s.ring, [], 0, [], 0)])
    case Reads(who) => if who < |s.clients| then s.(clients := s.clients[who := Read(s.clients[who])]) else s
    case Disconnects(who) =>
      if who < |s.clients| then s.(clients := s.clients[who := s.clients[who].(connected := false)]) else s
  }

  function Run(es: seq<Event>): State {
    if es == [] then INIT else Step(Run(es[..|es| - 1]), es[|es| - 1])
  }

  // ----- What every client sees -----

  /** The consecutive entries from `lo` up to `hi`. */
  function Range(lo: nat, hi: nat): seq<Entry>
    requires lo <= hi
  {
    seq(hi - lo, i => lo + i)
  }

  function RingStart(n: nat): nat {
    if n <= LOG_RING_SIZE then 0 else n - LOG_RING_SIZE
  }

  ghost predicate Increasing(s: seq<Entry>, lo: nat, hi: nat) {
    && (forall i :: 0 <= i < |s| ==> lo <= s[i] < hi)
    && (forall i, j :: 0 <= i < j < |s| ==> s[i] < s[j])
  }

  /** With `n` entries arrived: the queue is the newest suffix, and what was neither sent nor queued was dropped. */
  ghost predicate Served(c: Client, n: nat) {
    && c.since <= n && c.snapshot == Range(RingStart(c.since), c.since) && c.replayed <= |c.snapshot|
    && |c.queue| <= LOG_WS_QUEUE_SIZE && c.since + |c.queue| <= n
    && c.queue == Range(n - |c.queue|, n)
    && Increasing(c.live, c.since, n - |c.queue|)
    && (c.live != [] ==> c.replayed == |c.snapshot|)
    && |c.live| + c.dropped + |c.queue| == n - c.since
  }

  ghost predicate Inv(s: State) {
    && s.ring == Range(RingStart(s.arrived), s.arrived)
    && forall i :: 0 <= i < |s.clients| && s.clients[i].connected ==> Served(s.clients[i], s.arrived)
  }

  lemma ReadKeeps(c: Client, n: nat)
    requires c.connected && Served(c, n)
    ensures Served(Read(c), n)
  {
  }

  lemma {:induction false} StepKeeps(s: State, e: Event)
    requires Inv(s)
    ensures Inv(Step(s, e))
  {
    match e
    case Arrives =>
      assert LastN(Range(RingStart(s.arrived), s.arrived) + [s.arrived], LOG_RING_SIZE)
             == Range(RingStart(s.arrived + 1), s.arrived + 1);
      forall i | 0 <= i < |s.clients| && s.clients[i].connected ensures Served(Offered(s.clients[i], s.arrived), s.arrived + 1) {
      }
    case Reads(who) =>
      if who < |s.clients| && s.clients[who].connected { ReadKeeps(s.clients[who], s.arrived); }
    case _ =>
  }

  function Arrivals(es: seq<Event>): nat {
    if es == [] then 0 else Arrivals(es[..|es| - 1]) + if es[|es| - 1].Arrives? then 1 else 0
  }

  function Connections(es: seq<Event>): nat {
    if es == [] then 0 else Connections(es[..|es| - 1]) + if es[|es| - 1].Connects? then 1 else 0
  }

  /** For every interleaving of arrivals, connections, reads and disconnections. */
  lemma {:induction false} FanoutOverRuns(es: seq<Event>)
    ensures Inv(Run(es)) && Run(es).arrived == Arrivals(es) && |Run(es).clients| == Connections(es)
    decreases |es|
  {
    if es != [] {
      FanoutOverRuns(es[..|es| - 1]);
      StepKeeps(Run(es[..|es| - 1]), es[|es| - 1]);
    }
  }

  /** Everything sent to a client so far. */
  function Sent(c: Client): seq<Entry>
    requires c.replayed <= |c.snapshot|
  {
    c.snapshot[..c.replayed] + c.live
  }

  lemma {:induction false} FullRange(s: seq<Entry>, lo: nat, hi: nat, i: nat)
    requires Increasing(s, lo, hi) && i < |s|
    ensures lo + i <= s[i] && s[i] + (|s| - 1 - i) < hi
    decreases |s|
  {
    if |s| > 1 {
      if i > 0 {
        FullRange(s[1..], s[0] + 1, hi, i - 1);
      } else {
        FullRange(s[..|s| - 1], lo, s[|s| - 1], i);
      }
    }
  }

  lemma NothingDropped(c: Client, n: nat)
    requires Served(c, n) && c.dropped == 0 && c.replayed == |c.snapshot|
    ensures Sent(c) + c.queue == Range(RingStart(c.since), n)
  {
    var m := n - |c.queue|;
    forall i | 0 <= i < |c.live| ensures c.live[i] == c.since + i {
      FullRange(c.live, c.since, m, i);
    }
    assert c.live == Range(c.since, m) && c.snapshot[..c.replayed] == c.snapshot;
  }

  /**
   On every run, what a connected client is sent never repeats or reorders an
   entry, and nothing is missing but the entries its full queue dropped: with
   none dropped, what was sent and what is queued is every entry from the start
   of the ring at registration to the newest.
   */
  lemma ClientsMissOnlyDrops(es: seq<Event>, who: nat)
    requires who < |Run(es).clients| && Run(es).clients[who].connected
    ensures var n, c := Run(es).arrived, Run(es).clients[who];
            && c.replayed <= |c.snapshot| && Increasing(Sent(c), RingStart(c.since), n)
            && |c.live| + |c.queue| + c.dropped == n - c.since
            && (c.dropped == 0 && c.replayed == |c.snapshot| ==> Sent(c) + c.queue == Range(RingStart(c.since), n))
  {
    FanoutOverRuns(es);
    var n, c := Run(es).arrived, Run(es).clients[who];
    if c.dropped == 0 && c.replayed == |c.snapshot| {
      NothingDropped(c, n);
    }
  }

  // ----- Reading on -----

  /** What is still to be sent to a client: the rest of the replay and then the queue. */
  function Unsent(c: Client): seq<Entry>
    requires c.replayed <= |c.snapshot|
  {
    c.snapshot[c.replayed..] + c.queue
  }

  lemma ReadMovesOne(c: Client)
    requires c.connected && c.replayed <= |c.snapshot| && (c.live != [] ==> c.replayed == |c.snapshot|)
    ensures var d := Read(c);
            && d.connected && d.replayed <= |d.snapshot| && (d.live != [] ==> d.replayed == |d.snapshot|)
            && d.dropped == c.dropped
            && Sent(d) + Unsent(d) == Sent(c) + Unsent(c)
            && |Sent(d)| == |Sent(c)| + if Unsent(c) == [] then 0 else 1
  {
    if c.replayed < |c.snapshot| {
      assert c.snapshot[..c.replayed + 1] + c.snapshot[c.replayed + 1..] == c.snapshot[..c.replayed] + c.snapshot[c.replayed..];
    } else if c.queue != [] {
      assert Sent(Read(c)) + Unsent(Read(c)) == Sent(c) + Unsent(c);
    }
  }

  /** `n` more entries were sent to the client, or all of them when there were fewer, and nothing else changed. */
  ghost predicate SentOn(c: Client, d: Client, n: nat) {
    && d.connected && c.replayed <= |c.snapshot| && d.replayed <= |d.snapshot|
    && Sent(d) + Unsent(d) == Sent(c) + Unsent(c)
    && |Sent(d)| == |Sent(c)| + if n <= |Unsent(c)| then n else |Unsent(c)|
  }

  /** The client after `n` reads. */
  function ReadTimes(c: Client, n: nat): Client {
    if n == 0 then c else Read(ReadTimes(c, n - 1))
  }

  lemma {:induction false} ReadTimesSends(c: Client, n: nat)
    requires c.connected && c.replayed <= |c.snapshot| && (c.live != [] ==> c.replayed == |c.snapshot|)
    ensures var d := ReadTimes(c, n); SentOn(c, d, n) && (d.live != [] ==> d.replayed == |d.snapshot|)
  {
    if n > 0 {
      ReadTimesSends(c, n - 1);
      ReadMovesOne(ReadTimes(c, n - 1));
    }
  }

  lemma RunAppend(es: seq<Event>, e: Event)
    ensures Run(es + [e]) == Step(Run(es), e)
  {
    assert (es + [e])[..|es|] == es;
  }

  function WithClient(s: State, who: nat, c: Client): State
    requires who < |s.clients|
  {
    s.(clients := s.clients[who := c])
  }

  lemma ReadOnce(s: State, who: nat, c: Client)
    requires who < |s.clients|
    ensures Step(WithClient(s, who, c), Reads(who)) == WithClient(s, who, Read(c))
    ensures WithClient(s, who, s.clients[who]) == s
  {
  }

  lemma {:induction false} RunOfReads(es: seq<Event>, more: seq<Event>, who: nat)
    requires who < |Run(es).clients| && forall i :: 0 <= i < |more| ==> more[i] == Reads(who)
    ensures Run(es + more) == WithClient(Run(es), who, ReadTimes(Run(es).clients[who], |more|))
    decreases |more|
  {
    var s := Run(es);
    if more == [] {
      ReadOnce(s, who, s.clients[who]);
      assert es + more == es;
    } else {
      var front := more[..|more| - 1];
      RunOfReads(es, front, who);
      assert more[|more| - 1] == Reads(who);
      assert es + more == (es + front) + [Reads(who)];
      RunAppend(es + front, Reads(who));
      ReadOnce(s, who, ReadTimes(s.clients[who], |front|));
    }
  }

  /**
   After any run, reads in a row by a connected client send it as many of the next
   entries of its replay and queue, or all of them when there are fewer, in
   order and none twice, and change nothing else.
   */
  lemma ReadsSendInOrder(es: seq<Event>, more: seq<Event>, who: nat)
    requires who < |Run(es).clients| && Run(es).clients[who].connected
    requires forall i :: 0 <= i < |more| ==> more[i] == Reads(who)
    ensures var s, t := Run(es), Run(es + more);
            && |t.clients| == |s.clients| && t == s.(clients := s.clients[who := t.clients[who]])
            && SentOn(s.clients[who], t.clients[who], |more|)
  {
    FanoutOverRuns(es);
    RunOfReads(es, more, who);
    ReadTimesSends(Run(es).clients[who], |more|);
  }

  /** The client came with the `who`-th connection and has left since. */
  ghost predicate HasLeft(es: seq<Event>, who: nat) {
    exists i :: 0 <= i < |es| && es[i] == Disconnects(who) && who < Connections(es[..i])
  }

  lemma LeftAppend(es: seq<Event>, e: Event, who: nat)
    ensures HasLeft(es + [e], who) <==> HasLeft(es, who) || (e == Disconnects(who) && who < Connections(es))
  {
    var all := es + [e];
    assert all[..|es|] == es && all[|es|] == e;
    assert forall i :: 0 <= i < |es| ==> all[i] == es[i] && all[..i] == es[..i];
    if HasLeft(es, who) {
      var i :| 0 <= i < |es| && es[i] == Disconnects(who) && who < Connections(es[..i]);
      assert all[i] == Disconnects(who) && who < Connections(all[..i]);
    }
  }

  /** A client is served from its connection until it disconnects, and never again. */
  lemma {:induction false} ConnectedExactlyWhen(es: seq<Event>, who: nat)
    requires who < Connections(es)
    ensures |Run(es).clients| == Connections(es)
    ensures Run(es).clients[who].connected <==> !HasLeft(es, who)
    decreases |es|
  {
    var front, e := es[..|es| - 1], es[|es| - 1];
    assert es == front + [e];
    FanoutOverRuns(es);
    FanoutOverRuns(front);
    LeftAppend(front, e, who);
    if who < Connections(front) {
      ConnectedExactlyWhen(front, who);
    } else {
      FewerConnections(front, who);
    }
  }

  /** Nothing is offered or sent to a client that has left. */
  lemma GoneIsUntouched(es: seq<Event>, e: Event, who: nat)
    requires who < Connections(es) && HasLeft(es, who)
    ensures who < |Run(es).clients| <= |Run(es + [e]).clients| && Run(es + [e]).clients[who] == Run(es).clients[who]
  {
    ConnectedExactlyWhen(es, who);
    RunAppend(es, e);
  }

  lemma {:induction false} FewerConnections(es: seq<Event>, who: nat)
    requires Connections(es) <= who
    ensures !HasLeft(es, who)
    decreases |es|
  {
    forall i | 0 <= i < |es| ensures Connections(es[..i]) <= who {
      ConnectionsGrow(es, i);
    }
  }

  lemma {:induction false} ConnectionsGrow(es: seq<Event>, i: nat)
    requires i <= |es|
    ensures Connections(es[..i]) <= Connections(es)
    decreases |es|
  {
    if i == |es| {
      assert es[..i] == es;
    } else {
      ConnectionsGrow(es[..|es| - 1], i);
      assert es[..|es| - 1][..i] == es[..i];
    }
  }

  // ----- The program's object -----

  class LogHub {
    var ring: seq<Entry>
    var clients: seq<Client>
    var arrived: nat   // numbers the entries

    ghost function View(): State
      reads this
    {
      State(ring, clients, arrived)
    }

    constructor ()
      ensures View() == INIT
    {
      ring, clients, arrived := [], [], 0;
    }

    method OnGlobalLog(e: Entry)
      requires e == arrived
      modifies this
      ensures View() == Step(old(View()), Arrives)
    {
      ring := LastN(ring + [e], LOG_RING_SIZE);
      var i := 0;
      while i < |clients|
        invariant 0 <= i <= |clients| == |old(clients)|
        invariant ring == LastN(old(ring) + [e], LOG_RING_SIZE) && arrived == e
        invariant forall k :: 0 <= k < |clients| ==> clients[k] == if k < i then Offered(old(clients)[k], e) else old(clients)[k]
      {
        var c := clients[i];
        if c.connected {
          if |c.queue| >= LOG_WS_QUEUE_SIZE {
            c := c.(queue := c.queue[1..], dropped := c.dropped + 1);
          }
          clients := clients[i := c.(queue := c.queue + [e])];
        }
        i := i + 1;
      }
      arrived := arrived + 1;
      assert clients == OfferedAll(old(clients), e);
    }

    method Register()
      modifies this
      ensures View() == Step(old(View()), Connects)
    {
      clients := clients + [Client(true, arrived, ring, [], 0, [], 0)];
    }

    method Unregister(who: nat)
      requires who < |clients|
      modifies `clients
      ensures View() == Step(old(View()), Disconnects(who))
    {
      clients := clients[who := clients[who].(connected := false)];
    }

    /** The client's task sends one more entry, if there is one. */
    method Advance(who: nat) returns (entry: Option<Entry>)
      requires who < |clients| && clients[who].connected
      modifies `clients
      ensures View() == Step(old(View()), Reads(who))
      ensures var c := old(clients)[who];
              entry == if c.replayed < |c.snapshot| then Some(c.snapshot[c.replayed])
                       else if c.queue != [] then Some(c.queue[0]) else None
    {
      var c := clients[who];
      entry := None;
      if c.replayed < |c.snapshot| {
        entry := Some(c.snapshot[c.replayed]);
        c := c.(replayed := c.replayed + 1);
      } else if c.queue != [] {
        entry := Some(c.queue[0]);
        c := c.(live := c.live + [c.queue[0]], queue := c.queue[1..]);
      }
      clients := clients[who := c];
    }
  }
}
