/** The identifier's worker: one queue of audio messages, split into per-session buffers and cut into windows. */
module Windowing {
  import opened Common
  import opened Messaging

  const WINDOW_SAMPLES := 24576

  // ----- What the worker computes -----

  function SamplesUpTo(chunks: seq<Chunk>, n: nat): nat
    requires n <= |chunks|
  {
    if n == 0 then 0 else SamplesUpTo(chunks, n - 1) + |chunks[n - 1]| / 2
  }

  /** Two bytes to a sample. */
  function SampleCount(chunks: seq<Chunk>): nat {
    SamplesUpTo(chunks, |chunks|)
  }

  lemma {:induction false} SamplesFrame(a: seq<Chunk>, b: seq<Chunk>, n: nat)
    requires n <= |a| && n <= |b| && forall i :: 0 <= i < n ==> a[i] == b[i]
    ensures SamplesUpTo(a, n) == SamplesUpTo(b, n)
  {
    if n > 0 { SamplesFrame(a, b, n - 1); }
  }

  lemma SampleCountAppend(chunks: seq<Chunk>, x: Chunk)
    ensures SampleCount(chunks + [x]) == SampleCount(chunks) + |x| / 2
    ensures (chunks + [x])[..|chunks|] == chunks
  {
    SamplesFrame(chunks + [x], chunks, |chunks|);
  }

  /** The last dot-separated part of the subject; the whole subject when it has no dot. */
  function SessionOf(m: Msg): string {
    match SessionIdFromSubject(m.subject)
    case Some(sid) => sid
    case None => m.subject
  }

  /** `sid` is what follows the last dot of the subject; the whole subject when it has no dot. */
  predicate LastToken(subject: string, sid: string) {
    && '.' !in sid && |sid| <= |subject| && subject[|subject| - |sid|..] == sid
    && (|sid| < |subject| ==> subject[|subject| - |sid| - 1] == '.')
  }

  lemma {:induction false} DotlessSubject(subject: string)
    ensures SessionIdFromSubject(subject).None? <==> '.' !in subject
    decreases |subject|
  {
    if subject != "" {
      var front := subject[..|subject| - 1];
      DotlessSubject(front);
      assert subject == front + [subject[|subject| - 1]];
    }
  }

  lemma NoDotInside(subject: string, sid: string)
    requires LastToken(subject, sid)
    ensures forall j :: |subject| - |sid| <= j < |subject| ==> subject[j] != '.'
  {
    forall j | |subject| - |sid| <= j < |subject| ensures subject[j] != '.' {
      assert subject[j] == sid[j - (|subject| - |sid|)];
    }
  }

  lemma LastTokenIsUnique(subject: string, a: string, b: string)
    requires LastToken(subject, a) && LastToken(subject, b)
    ensures a == b
  {
    NoDotInside(subject, a);
    NoDotInside(subject, b);
    assert |a| == |b|;
  }

  /** The worker's session is the last token, and every subject has just one. */
  lemma SessionExactlyWhen(m: Msg, sid: string)
    ensures SessionOf(m) == sid <==> LastToken(m.subject, sid)
  {
    var own := SessionOf(m);
    DotlessSubject(m.subject);
    if SessionIdFromSubject(m.subject).Some? {
      SessionIdIsLastToken(m.subject, own);
      var prefix :| m.subject == prefix + "." + own;
      assert m.subject[|m.subject| - |own|..] == own;
    } else {
      assert m.subject[0..] == own;
    }
    assert LastToken(m.subject, own);
    if LastToken(m.subject, sid) { LastTokenIsUnique(m.subject, own, sid); }
  }

  /** Two subjects belong to one session exactly when what follows their prefixes is the same. */
  lemma SubjectsShareExactlyWhen(p: string, a: string, q: string, b: string)
    requires '.' !in a && '.' !in b
    ensures (exists sid :: LastToken(p + "." + a, sid) && LastToken(q + "." + b, sid)) <==> a == b
  {
    assert (p + "." + a)[|p| + 1..] == a && (q + "." + b)[|q| + 1..] == b;
    assert LastToken(p + "." + a, a) && LastToken(q + "." + b, b);
    if sid :| LastToken(p + "." + a, sid) && LastToken(q + "." + b, sid) {
      LastTokenIsUnique(p + "." + a, a, sid);
      LastTokenIsUnique(q + "." + b, b, sid);
    }
  }

  datatype Window = Window(sid: string, chunks: seq<Chunk>)

  datatype State = State(buffers: map<string, seq<Chunk>>, windows: seq<Window>)

  const INIT := State(map[], [])

  function BufferOf(s: State, sid: string): seq<Chunk> {
    if sid in s.buffers then s.buffers[sid] else []
  }

  /** The window that a message completes, if any. */
  function Completes(s: State, m: Msg): Option<seq<Chunk>> {
    var buffer := BufferOf(s, SessionOf(m)) + [m.data];
    if !IsEos(m) && SampleCount(buffer) >= WINDOW_SAMPLES then Some(buffer) else None
  }

  function Step(s: State, m: Msg): State {
    var sid := SessionOf(m);
    if IsEos(m) then s.(buffers := s.buffers - {sid})
    else
      match Completes(s, m)
      case Some(window) => State(s.buffers[sid := []], s.windows + [Window(sid, window)])
      case None => s.(buffers := s.buffers[sid := BufferOf(s, sid) + [m.data]])
  }

  function Run(ms: seq<Msg>): State {
    if ms == [] then INIT else Step(Run(ms[..|ms| - 1]), ms[|ms| - 1])
  }

  // ----- Each session by itself -----
  //
  // What a session is, is said by the subjects here: a message is the session's
  // when the session's id is the last token of its subject.

  /** The session's chunks since its last end marker. */
  function SinceEos(ms: seq<Msg>, sid: string): seq<Chunk> {
    if ms == [] then [] else
      var front, m := SinceEos(ms[..|ms| - 1], sid), ms[|ms| - 1];
      if !LastToken(m.subject, sid) then front else if IsEos(m) then [] else front + [m.data]
  }

  /** How many windows, of whatever session, had been emitted at the session's last end marker. */
  function Mark(ms: seq<Msg>, sid: string): nat {
    if ms == [] then 0 else
      var front, m := ms[..|ms| - 1], ms[|ms| - 1];
      if LastToken(m.subject, sid) && IsEos(m) then |Run(front).windows| else Mark(front, sid)
  }

  /** The chunks in the session's windows, one window after the other. */
  function Joined(ws: seq<Window>, sid: string): seq<Chunk> {
    if ws == [] then [] else
      var front, w := ws[..|ws| - 1], ws[|ws| - 1];
      Joined(front, sid) + if w.sid == sid then w.chunks else []
  }

  lemma JoinedAfter(s: State, m: Msg, mark: nat, sid: string)
    requires mark <= |s.windows|
    ensures mark <= |Step(s, m).windows|
    ensures Joined(Step(s, m).windows[mark..], sid) == Joined(s.windows[mark..], sid)
            + match Completes(s, m)
              case Some(window) => if SessionOf(m) == sid then window else []
              case None => []
  {
    match Completes(s, m)
    case Some(window) =>
      var w := Window(SessionOf(m), window);
      assert (s.windows + [w])[mark..] == s.windows[mark..] + [w];
    case None =>
  }

  lemma OtherSession(s: State, m: Msg, sid: string)
    requires SessionOf(m) != sid
    ensures BufferOf(Step(s, m), sid) == BufferOf(s, sid)
    ensures WindowsOf(Step(s, m).windows, sid) == WindowsOf(s.windows, sid)
  {
    var w := Window(SessionOf(m), BufferOf(s, SessionOf(m)) + [m.data]);
  }

  /** One message keeps the account of a session: its windows since the mark and its buffer. */
  lemma AccountAfter(s: State, m: Msg, mark: nat, sid: string)
    requires mark <= |s.windows|
    ensures var t, chunks := Step(s, m), Joined(s.windows[mark..], sid) + BufferOf(s, sid);
            if SessionOf(m) == sid && IsEos(m) then |t.windows| == |s.windows| && BufferOf(t, sid) == []
            else mark <= |t.windows|
                 && Joined(t.windows[mark..], sid) + BufferOf(t, sid) == if SessionOf(m) == sid then chunks + [m.data] else chunks
  {
    JoinedAfter(s, m, mark, sid);
    var w, b := Joined(s.windows[mark..], sid), BufferOf(s, sid);
    if SessionOf(m) == sid {
      assert w + (b + [m.data]) == w + b + [m.data];
    } else {
      OtherSession(s, m, sid);
    }
  }

  /**
   Since the last end marker of a session, the windows emitted under its id, in
   order, and then its buffer are exactly the chunks on subjects whose last
   token is that id.
   */
  lemma {:induction false} NothingLostPerSession(ms: seq<Msg>, sid: string)
    ensures Mark(ms, sid) <= |Run(ms).windows|
    ensures Joined(Run(ms).windows[Mark(ms, sid)..], sid) + BufferOf(Run(ms), sid) == SinceEos(ms, sid)
    decreases |ms|
  {
    if ms != [] {
      var front, m := ms[..|ms| - 1], ms[|ms| - 1];
      NothingLostPerSession(front, sid);
      SessionExactlyWhen(m, sid);
      AccountAfter(Run(front), m, Mark(front, sid), sid);
      var t := Run(ms);
      assert t.windows[|t.windows|..] == [];
    }
  }

  lemma SameSession(s: State, t: State, m: Msg)
    requires var sid := SessionOf(m);
             BufferOf(s, sid) == BufferOf(t, sid) && WindowsOf(s.windows, sid) == WindowsOf(t.windows, sid)
    ensures var sid := SessionOf(m);
            BufferOf(Step(s, m), sid) == BufferOf(Step(t, m), sid)
            && WindowsOf(Step(s, m).windows, sid) == WindowsOf(Step(t, m).windows, sid)
  {
    assert Completes(s, m) == Completes(t, m);
    match Completes(s, m)
    case Some(window) =>
    case None =>
  }

  ghost predicate WindowSized(w: seq<Chunk>) {
    && w != []
    && SampleCount(w) >= WINDOW_SAMPLES
    && SampleCount(w[..|w| - 1]) < WINDOW_SAMPLES
  }

  /** Every window is the shortest run of chunks that fills it, and no buffer ever holds a full window. */
  lemma {:induction false} WindowsAreMinimal(ms: seq<Msg>)
    ensures forall w :: w in Run(ms).windows ==> WindowSized(w.chunks)
    ensures forall sid :: SampleCount(BufferOf(Run(ms), sid)) < WINDOW_SAMPLES
    decreases |ms|
  {
    if ms != [] {
      var front, m := ms[..|ms| - 1], ms[|ms| - 1];
      WindowsAreMinimal(front);
      var buffer := BufferOf(Run(front), SessionOf(m));
      SampleCountAppend(buffer, m.data);
      forall sid ensures SampleCount(BufferOf(Run(ms), sid)) < WINDOW_SAMPLES {
        if sid != SessionOf(m) {
          OtherSession(Run(front), m, sid);
        }
      }
    }
  }

  lemma {:induction false} UniformCount(chunks: seq<Chunk>, bytes: nat, n: nat)
    requires forall i :: 0 <= i < |chunks| ==> |chunks[i]| == bytes
    requires n <= |chunks|
    ensures SamplesUpTo(chunks, n) == n * (bytes / 2)
  {
    if n > 0 { UniformCount(chunks, bytes, n - 1); }
  }

  /** With chunks of 1536 samples a window is exactly sixteen chunks. */
  lemma SixteenChunks(w: seq<Chunk>)
    requires WindowSized(w) && forall i :: 0 <= i < |w| ==> |w[i]| == 2 * 1536
    ensures |w| == 16
  {
    UniformCount(w, 2 * 1536, |w|);
    UniformCount(w[..|w| - 1], 2 * 1536, |w| - 1);
  }

  /** The messages of one session. */
  function Only(ms: seq<Msg>, sid: string): seq<Msg> {
    if ms == [] then [] else
      var m := ms[|ms| - 1];
      Only(ms[..|ms| - 1], sid) + if LastToken(m.subject, sid) then [m] else []
  }

  function WindowsOf(ws: seq<Window>, sid: string): seq<Window> {
    if ws == [] then [] else
      var w := ws[|ws| - 1];
      WindowsOf(ws[..|ws| - 1], sid) + if w.sid == sid then [w] else []
  }

  /** Sessions do not influence each other: what a session gets is what it would get alone on the lane. */
  lemma {:induction false} SessionsAreIndependent(ms: seq<Msg>, sid: string)
    ensures BufferOf(Run(ms), sid) == BufferOf(Run(Only(ms, sid)), sid)
    ensures WindowsOf(Run(ms).windows, sid) == WindowsOf(Run(Only(ms, sid)).windows, sid)
    decreases |ms|
  {
    if ms != [] {
      var front, m := ms[..|ms| - 1], ms[|ms| - 1];
      SessionsAreIndependent(front, sid);
      SessionExactlyWhen(m, sid);
      if SessionOf(m) == sid {
        assert Only(ms, sid)[..|Only(front, sid)|] == Only(front, sid);
        SameSession(Run(front), Run(Only(front, sid)), m);
      } else {
        OtherSession(Run(front), m, sid);
        assert Only(ms, sid) == Only(front, sid);
      }
    }
  }

  /** `x` is audio of a message on the session's own subject. */
  ghost predicate HeardOn(ms: seq<Msg>, prefix: string, sid: string, x: Chunk) {
    exists m :: m in ms && m.subject == prefix + "." + sid && !IsEos(m) && m.data == x
  }

  /** The subject is the lane's prefix and a session id that is one token. */
  ghost predicate OnLane(m: Msg, prefix: string) {
    exists sid :: '.' !in sid && m.subject == prefix + "." + sid
  }

  ghost predicate AllHeardOn(ms: seq<Msg>, prefix: string, sid: string, chunks: seq<Chunk>) {
    forall x :: x in chunks ==> HeardOn(ms, prefix, sid, x)
  }

  lemma HeardStays(ms: seq<Msg>, m: Msg, prefix: string, sid: string, chunks: seq<Chunk>)
    requires AllHeardOn(ms, prefix, sid, chunks)
    ensures AllHeardOn(ms + [m], prefix, sid, chunks)
    ensures m.subject == prefix + "." + sid && !IsEos(m) ==> AllHeardOn(ms + [m], prefix, sid, chunks + [m.data])
  {
    forall x | x in chunks ensures HeardOn(ms + [m], prefix, sid, x) {
      var own :| own in ms && own.subject == prefix + "." + sid && !IsEos(own) && own.data == x;
      assert own in ms + [m];
    }
    assert m in ms + [m];
  }

  /** On a lane of dot-free session ids, every window and every buffer holds only audio sent on the subject of its own session. */
  lemma {:induction false} WindowsAreOneSubjects(ms: seq<Msg>, prefix: string)
    requires forall m :: m in ms ==> OnLane(m, prefix)
    ensures forall w :: w in Run(ms).windows ==> AllHeardOn(ms, prefix, w.sid, w.chunks)
    ensures forall sid :: sid in Run(ms).buffers ==> AllHeardOn(ms, prefix, sid, Run(ms).buffers[sid])
    decreases |ms|
  {
    if ms != [] {
      var front, m := ms[..|ms| - 1], ms[|ms| - 1];
      assert ms == front + [m] && m in ms;
      assert forall before :: before in front ==> before in ms;
      WindowsAreOneSubjects(front, prefix);
      var own :| '.' !in own && m.subject == prefix + "." + own;
      assert m.subject[|m.subject| - |own|..] == own;
      SessionExactlyWhen(m, own);
      var s := Run(front);
      HeardStays(front, m, prefix, own, BufferOf(s, own));
      forall sid | sid in s.buffers ensures AllHeardOn(ms, prefix, sid, s.buffers[sid]) {
        HeardStays(front, m, prefix, sid, s.buffers[sid]);
      }
      forall w | w in s.windows ensures AllHeardOn(ms, prefix, w.sid, w.chunks) {
        HeardStays(front, m, prefix, w.sid, w.chunks);
      }
    }
  }

  // ----- The program's objects -----

  class AudioBuffer {
    var chunks: seq<Chunk>
    var sampleCount: nat

    ghost predicate Valid()
      reads this
    {
      sampleCount == SampleCount(chunks)
    }

    constructor ()
      ensures Valid() && chunks == []
    {
      chunks, sampleCount := [], 0;
    }

    method Add(chunk: Chunk)
      requires Valid()
      modifies this
      ensures Valid() && chunks == old(chunks) + [chunk]
    {
      SampleCountAppend(chunks, chunk);
      chunks := chunks + [chunk];
      sampleCount := sampleCount + |chunk| / 2;
    }

    predicate Ready()
      reads this
    {
      sampleCount >= WINDOW_SAMPLES
    }

    method Consume() returns (data: seq<Chunk>)
      modifies this
      ensures Valid() && chunks == [] && data == old(chunks)
    {
      data := chunks;
      chunks, sampleCount := [], 0;
    }
  }

  class Worker {
    var buffers: map<string, AudioBuffer>
    ghost var contents: map<string, seq<Chunk>>   // what the buffers hold
    ghost var windows: seq<Window>

    ghost predicate Valid()
      reads this, buffers.Values
    {
      && buffers.Keys == contents.Keys
      && (forall k :: k in buffers ==> buffers[k].Valid() && buffers[k].chunks == contents[k])
      && (forall j, k :: j in buffers && k in buffers && j != k ==> buffers[j] != buffers[k])
    }

    ghost function View(): State
      reads this
    {
      State(contents, windows)
    }

    constructor ()
      ensures Valid() && View() == INIT
    {
      buffers, contents, windows := map[], map[], [];
    }

    /** The session's buffer, created empty when there is none. */
    method BufferFor(sid: string) returns (buf: AudioBuffer)
      requires Valid()
      modifies `buffers, `contents
      ensures Valid() && sid in buffers && buffers[sid] == buf
      ensures buf in old(buffers.Values) || fresh(buf)
      ensures contents == old(contents)[sid := BufferOf(old(View()), sid)]
    {
      if sid in buffers {
        buf := buffers[sid];
      } else {
        buf := new AudioBuffer();
        buffers, contents := buffers[sid := buf], contents[sid := []];
      }
    }

    method AddChunk(sid: string, chunk: Chunk)
      requires Valid() && sid in buffers
      modifies buffers[sid], `contents
      ensures Valid() && contents == old(contents)[sid := old(contents)[sid] + [chunk]]
    {
      buffers[sid].Add(chunk);
      contents := contents[sid := contents[sid] + [chunk]];
    }

    method TakeWindow(sid: string) returns (audio: seq<Chunk>)
      requires Valid() && sid in buffers
      modifies buffers[sid], `contents
      ensures Valid() && audio == old(contents)[sid] && contents == old(contents)[sid := []]
    {
      audio := buffers[sid].Consume();
      contents := contents[sid := []];
    }

    method Discard(sid: string)
      requires Valid()
      modifies `buffers, `contents
      ensures Valid() && contents == old(contents) - {sid}
    {
      buffers, contents := buffers - {sid}, contents - {sid};
    }

    /** Adds a chunk to the session's buffer. */
    method Deposit(sid: string, chunk: Chunk)
      requires Valid()
      modifies this, buffers.Values
      ensures Valid() && sid in buffers && windows == old(windows)
      ensures buffers[sid] in old(buffers.Values) || fresh(buffers[sid])
      ensures contents == old(contents)[sid := BufferOf(old(View()), sid) + [chunk]]
    {
      var buf := BufferFor(sid);
      AddChunk(sid, chunk);
      UpdateTwice(old(contents), sid, BufferOf(old(View()), sid), contents[sid]);
    }

    /** The session's window, if its buffer is ready. */
    method Emit(sid: string)
      requires Valid() && sid in buffers
      modifies this, buffers[sid]
      ensures Valid()
      ensures var buffer := old(contents)[sid];
              if SampleCount(buffer) >= WINDOW_SAMPLES
              then contents == old(contents)[sid := []] && windows == old(windows) + [Window(sid, buffer)]
              else contents == old(contents) && windows == old(windows)
    {
      if buffers[sid].Ready() {
        var audio := TakeWindow(sid);
        windows := windows + [Window(sid, audio)];
      }
    }

    method OnAudio(m: Msg)
      requires Valid() && !IsEos(m)
      modifies this, buffers.Values
      ensures Valid() && View() == Step(old(View()), m)
    {
      var sid := SessionOf(m);
      Deposit(sid, m.data);
      UpdateTwice(old(contents), sid, contents[sid], []);
      Emit(sid);
    }

    method OnMessage(m: Msg)
      requires Valid()
      modifies this, buffers.Values
      ensures Valid() && View() == Step(old(View()), m)
    {
      if IsEos(m) {
        Discard(SessionOf(m));
      } else {
        OnAudio(m);
      }
    }
  }

  lemma UpdateTwice<K, V>(m: map<K, V>, k: K, a: V, b: V)
    ensures m[k := a][k := b] == m[k := b]
  {
  }
}
