/** Subjects and messages of the audio streams. */
module Messaging {
  import opened Common

  type byte = n: int | 0 <= n < 256
  type Chunk = seq<byte>

  const SUBJECT_PREFIX_AUDIO_LIVE := "audio.live"
  const SUBJECT_PREFIX_AUDIO_BACKFILL := "audio.backfill"

  datatype Msg = Msg(subject: string, headers: map<string, string>, data: Chunk)

  predicate IsEos(m: Msg) {
    "LiveSTT-EOS" in m.headers && m.headers["LiveSTT-EOS"] == "true"
  }

  /** Exactly the value "true" of its one header makes a message an end marker, whatever else it carries. */
  lemma MarkerExactlyWhen(m: Msg, value: string, other: Msg)
    ensures IsEos(m.(headers := m.headers["LiveSTT-EOS" := value])) <==> value == "true"
    ensures !IsEos(m.(headers := m.headers - {"LiveSTT-EOS"}))
    ensures ("LiveSTT-EOS" in m.headers <==> "LiveSTT-EOS" in other.headers)
            && ("LiveSTT-EOS" in m.headers && "LiveSTT-EOS" in other.headers
                ==> m.headers["LiveSTT-EOS"] == other.headers["LiveSTT-EOS"])
            ==> (IsEos(m) <==> IsEos(other))
  {
    var marked := m.headers["LiveSTT-EOS" := value];
    assert marked["LiveSTT-EOS"] == value;
  }

  function AudioMsg(prefix: string, sid: string, chunk: Chunk): Msg {
    Msg(prefix + "." + sid, map[], chunk)
  }

  function EosMsg(prefix: string, sid: string): Msg {
    Msg(prefix + "." + sid, map["LiveSTT-EOS" := "true"], [])
  }

  /** The last dot-separated token of a subject, or `None` when there is no dot. */
  function SessionIdFromSubject(subject: string): Option<string> {
    if subject == "" then None else
      var front, last := subject[..|subject| - 1], subject[|subject| - 1];
      if last == '.' then Some("") else
        match SessionIdFromSubject(front)
        case None => None
        case Some(token) => Some(token + [last])
  }

  /** A session id that is one non-empty subject token. */
  predicate IsToken(sid: string) {
    sid != "" && '.' !in sid
  }

  lemma {:induction false} SessionIdOfSubject(prefix: string, sid: string)
    requires '.' !in sid
    ensures SessionIdFromSubject(prefix + "." + sid) == Some(sid)
    decreases |sid|
  {
    if sid == "" {
      assert prefix + "." + sid == prefix + ".";
    } else {
      var front := sid[..|sid| - 1];
      var subject := prefix + "." + sid;
      SessionIdOfSubject(prefix, front);
      assert subject[..|subject| - 1] == prefix + "." + front;
      assert subject[|subject| - 1] == sid[|sid| - 1] != '.';
      assert sid == front + [sid[|sid| - 1]];
    }
  }

  /** Only subjects that end in that token, after a dot, name the session. */
  lemma {:induction false} SessionIdIsLastToken(subject: string, sid: string)
    requires SessionIdFromSubject(subject) == Some(sid)
    ensures '.' !in sid && exists prefix :: subject == prefix + "." + sid
    decreases |subject|
  {
    var front, last := subject[..|subject| - 1], subject[|subject| - 1];
    if last == '.' {
      assert subject == front + "." + sid;
    } else {
      var token := SessionIdFromSubject(front).value;
      SessionIdIsLastToken(front, token);
      var prefix :| front == prefix + "." + token;
      assert subject == prefix + "." + sid;
    }
  }
}
