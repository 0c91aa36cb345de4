# LiveSTT: a verified model of the audio-to-transcript pipeline

The system captures audio on a small device, keeps a rolling pre-roll while no
session is active, and turns each recorded session into speaker-attributed
transcripts.  Independent services exchange messages over ordered, durable
subjects.  This project models the parts of those services that hold state and
order, and proves what every run of them keeps.

| files | component |
|---|---|
| `ProducerSteps`, `ProducerPartition`, `ProducerStreams`, `ProducerStops`, `ProducerSilence`, `ProducerRecovery`, `ProducerWitnesses`, `PrerollFlush`, `AudioProducer`, `SilenceDetection` | the audio producer: sessions, routing of chunks, end markers, silence, crash recovery, pre-roll flush |
| `SttSession`, `SttSafety`, `SttReactions`, `SttPhases`, `SttRefinement`, `SttProvider` | the speech-to-text provider: one recogniser connection per session, fed from two durable subjects |
| `Consumer`, `Pipeline`, `Losses`, `EndToEnd` | the provider on its two subjects, what it hears without failures and what failures lose, and producer and provider composed |
| `TimeZipper`, `TimeZipperRuns`, `IdentityManager` | the identity manager, which joins transcripts with speaker events |
| `Windowing`, `MelFilterbank` | the identifier: audio windows per session, mel filters |
| `Scheduler` | the system manager's daily schedules |
| `RateLimiter`, `LogFanout`, `Retention`, `Backup` | the gateway's bookkeeping |
| `Common`, `Messaging` | shared vocabulary |

## How it is modelled

Services that run several tasks are state machines.  A step is what one task
does between two points where it awaits, so any order of events is an
interleaving of the tasks; an event that is not possible in a state leaves the
state as it is, so a theorem about all event sequences is a theorem about all
runs.  Publishes, acks, fetches, connects and store writes succeed or fail as
the event says.  What a task sends to the broker takes effect in the order of
the calls, as on the one connection a service has; the await brings the
outcome.  A crash of the producer is an event like any other, possible in every
state.  The few steps that take in more than one await are listed at the end.

Beside each machine stands a class with the program's fields and, for a
suspended task, the point where it stands with its locals.  Its methods update
the fields in place and are proved to do exactly the machine's step on the
object's `View()`; the loops inside those methods carry their own invariants.
Histories (what was published, captured, released) are ghost fields of the
class.

Times are real numbers or abstract integers, timestamps are either known or
unparsable, float arithmetic is arithmetic over the reals, and bytes are
integers below 256.

## What the code does differently from its own description

* `MAX_BUFFER` is described as a hard cap against unbounded growth
  (`services/identity-manager/src/identity_manager/main.py:18`).  It is a cap
  for each arrival only: the list rebuilt at the end of a fusion cycle can be
  longer, and a longer list only trades old entries for new ones.
  `PendingHasNoCap` gives, for every length, a run that keeps to the sleep
  between cycles and to the timeout.
* The end marker of a session is meant to be the last message of its live
  subject.  `CleanExactlyWhen` says exactly when every session ends in its one
  marker: when no chunk, stop or crash falls inside a stop.
  `LateAutoStopEndsTheNextSession` shows two stops at once ending the next
  session with no marker, `NextSessionTakenDown` from the very start.
* The silence counter is meant to be that of the session.  It is reset only
  after the session is active and the configuration store has answered; until
  then it is the previous session's.  `AttendsExactlyWhen` says exactly when
  the counter and the stop are right, and `LeftoverSilenceStopsTheNextSession`
  shows one short chunk stopping a session at once, `LeftOverSilenceStops` from
  the very start.
* The stored session entry is lost when the audio task ends a stop between a
  start's write and its activation, and only then: `KvAgreesExactlyWhen`.
  `EntryCanBeLost` is such a run.
* Recovery restores the session but neither the silence counter nor the
  configured timeout nor a pre-roll flush at work, without which the session's
  backfill never gets its end marker: `RestartIsInvisibleExactlyWhen`.  While
  idle it clears a counter that would show in the next session:
  `IdleRestartIsInvisibleExactlyWhen`.
* Flushes stay in session order exactly while none publishes after a later
  session's flush has: `InOrderExactlyWhen`.  Out of order they lose audio:
  `MixedFlushesLoseAudio`.
* A disconnect is meant to lose nothing, because what was not sent is not
  acked (`docs/20_architecture/adrs/0013-stt-provider-pull-consumers-and-deepgram-reconnection.md:25`).
  But after a disconnect in the live phase the provider waits for the
  next session, and on that session's connection it acks and skips what is left
  of the old one: `DisconnectLosesTheRest`.  `LossesOverRuns` says exactly which
  messages are skipped.
* The frame clamp is described as protecting the last frame.  It could change
  an index only for audio shorter than one frame (`ClampOnlyShortAudio`), and
  such audio is never embedded, so it is dead code: `ClampIsDead`.
* The two-minute window covers a poll gap of two minutes except for a target of
  23:59, for which a gap of one minute is the limit: `NeverMissedExactlyWhen`.
* A backup omits nothing, but extraction skips every name with two dots in a
  row: `CompleteExactlyWhen`.
* The refusal of absolute names and of double dots is meant to keep extraction
  inside the two directories.  A slash right after a bucket's prefix makes the
  rest of the name an absolute path: `StaysInsideExactlyWhen`.

## Model

| member | source | states |
|---|---|---|
| EndToEnd.EverySessionIsTranscribed | services/stt-provider/src/stt_provider/main.py:245-319 | Main result. Producer and consumer run side by side, each step of either at any time, the consumer, which has no failures, fetching from subjects that still grow. However the producer goes on from there, if it comes to rest well, then by now connection i has received exactly session i's pre-roll and then its live chunks, in order and each once (the latest one a prefix so far), nothing at hand is stale but a repeated marker, and a consumer that has used up the backfill and waits has heard every session completely |
| EndToEnd.EverySessionCanBeHeard | services/stt-provider/src/stt_provider/main.py:245-319 | From every such state, once the producer has come to rest well, the consumer can go on without failures until the backfill is used up, at most repeated markers are left on the live subject, and every session has been heard completely |
| EndToEnd.EveryLossIsExplained | services/stt-provider/src/stt_provider/main.py:114-151 | The same with any failures of the consumer, for sessions with distinct ids: with what is still to come every message of both subjects is dealt with once, at hand or ahead, in order; no backfill has been skipped; a live message has been skipped exactly when the connection of its session had been finished by then, after acking the session's backfill marker |
| Losses.LossesOverRuns | services/stt-provider/src/stt_provider/main.py:114-151 | The consumer's half of that, for any two subjects that hold sessions one after the other, under any send and ack failures and disconnects in any phase: conservation in order on both lanes; backfill is never skipped and a live message exactly when its session is over by the trace; once a message of a session has been skipped every later one is; a session whose own connection saw its live marker loses no live audio |
| Losses.DisconnectLosesTheRest | services/stt-provider/src/stt_provider/main.py:145-150 | A run from the very start: one failed send in the live phase, and the session's next chunk is acked on the following session's connection and sent on none, the failed one neither sent nor acked |
| Losses.DropLetsOneThrough | services/stt-provider/src/stt_provider/main.py:199-220 | A connection that drops during a live fetch still gets the message of that fetch, and is then closed |
| Losses.StaleIsOver | services/stt-provider/src/stt_provider/main.py:130-135 | In the live phase the message at hand is stale if and only if its session's connection is over |
| EndToEnd.CanComeToRest | services/audio-producer/src/audio_producer/main.py:244-332 | Every producer run in which nothing has overlapped and no flush has failed or got out of order can come to rest well, wherever it stands, so the condition of the main result can always be met |
| EndToEnd.Simulated | services/stt-provider/src/stt_provider/main.py:245-319 | A consumer that fetches while the producer is publishing, whatever fails, goes through a run of a consumer that has the finished subjects before it from the start, and through one without failures if it has none |
| EndToEnd.ProducerStreamsAre | services/audio-producer/src/audio_producer/main.py:287-332 | After any run that came to rest well, however its tasks interleaved, the backfill and the live subject are each the sessions' audio one after the other, every session closed by its end marker, on the live subject perhaps repeated |
| EndToEnd.AtomicRunsAreComplete | services/audio-producer/src/audio_producer/main.py:144-160 | With atomic handlers a run comes to rest well as soon as it is idle and its flushes ended in order |
| EndToEnd.MixedBackfill | services/audio-producer/src/audio_producer/main.py:222-225 | Two flushes at once can put two sessions' chunks and markers on the backfill subject in turn |
| EndToEnd.MixedFlushesLoseAudio | services/stt-provider/src/stt_provider/main.py:130-135 | On such a subject the second session's chunk is acked on the first session's connection without being sent, and is gone from the subject |
| Pipeline.ConsumerHearsEverySession | services/stt-provider/src/stt_provider/main.py:245-319 | The consumer's half of the main result, for any two subjects that hold sessions one after the other, repeated live markers included, under any timing of fetches, retries, transcripts and drains without failures |
| Pipeline.NeverStuck | services/stt-provider/src/stt_provider/main.py:245-319 | No state reachable without failures is a dead end: some continuation brings the consumer back to waiting with the backfill used up |
| Pipeline.InterleavedBackfill | services/stt-provider/src/stt_provider/main.py:130-135 | A foreign chunk between a session's own messages is acked and never sent |
| Messaging.SessionIdOfSubject | services/stt-provider/src/stt_provider/main.py:109-112 | The session id put into a subject is the one read back from it, for every prefix, when the id has no dot |
| Messaging.SessionIdIsLastToken | services/stt-provider/src/stt_provider/main.py:109-112 | An id read from a subject is always its dot-free last token |
| Messaging.MarkerExactlyWhen | services/stt-provider/src/stt_provider/main.py:137 | A message is an end marker exactly by the value "true" of its one header, whatever its subject, payload and other headers |
| SttSafety.SafetyOverRuns | services/stt-provider/src/stt_provider/main.py:245-319 | On every run, under any failures and stops: a connection is opened only after the previous one was finished, is finished once, carries no end marker and no audio of another session, acks a chunk only with its own send before and nothing sent or acked in between, gets live audio exactly after its session's backfill marker was acked, and its transcripts are labelled backfill and then live, never backfill once live audio was sent |
| SttSafety.TranscriptsOverRuns | services/stt-provider/src/stt_provider/main.py:399-423 | On every run exactly the transcripts that the drain task takes while the service runs are published, with their texts, each once and in order |
| SttSafety.NothingLeftOpen | services/stt-provider/src/stt_provider/main.py:318-319 | Whenever the loop waits for a session, connects or has stopped, the last connection has been finished and its drain task has ended |
| SttSafety.StaleExactlyWhen | services/stt-provider/src/stt_provider/main.py:130-135 | For subjects that name a session, a message is skipped exactly when it names another session |
| SttSafety.SkipsExactlyWhen | services/stt-provider/src/stt_provider/main.py:130-135 | In general a message is skipped exactly when the session has a non-empty id and what follows the last dot of the subject is another non-empty id; with an id missing on either side nothing is skipped |
| SttRefinement.PhaseOverRuns | services/stt-provider/src/stt_provider/main.py:174-222 | In every audio phase of every run of the session loop, under any outcomes, transcripts, disconnects and stops in between: the acked messages are a prefix of those given to the phase, the payloads sent are the session's audio in that prefix plus at most the message after it, and the phase ends at the session's own marker, or because the connection closed or the service stops |
| SttReactions.ReactsExactlyWhen | services/stt-provider/src/stt_provider/main.py:174-319 | At every event of every run: a connection is finished, the recogniser told to flush, a connection opened (and for which session), and the loop comes to wait or to end, if and only if the cause is there: the message at hand and its outcome, a fetch that brings nothing, what has happened to this connection since it was made, and whether the stop was signalled |
| SttReactions.EmptyFetchExactlyWhen | services/stt-provider/src/stt_provider/main.py:201-222 | With nothing left at hand in an audio phase, after a fetch that brings nothing the phase is still on if and only if the connection is open and the service runs; otherwise the next act is to finish the connection |
| SttReactions.FlagsOverRuns | services/stt-provider/src/stt_provider/main.py:266-280 | On every run the loop takes a connection for lost exactly when its stream has ended, a send or ack on it has failed or its live marker has come since it was made, for streaming until its stream ends or is drained, and the service for stopping from the signal on |
| SttReactions.StopEndsTheLoop | services/stt-provider/src/stt_provider/main.py:245-325 | After the stop signal the loop ends within as many completed awaits as its phase has left, one more for each message still fetched, and starts to connect to no other session |
| SttPhases.Connection.SendMsgs | services/stt-provider/src/stt_provider/main.py:114-151 | For any messages and any send or ack failures: the acked messages are a prefix, the payloads sent are the session's audio in that prefix plus at most the message after it, and the result is true exactly when the prefix ends in the session's own end marker |
| SttPhases.Connection.FetchPhase | services/stt-provider/src/stt_provider/main.py:174-222 | The same refinement over a whole phase of fetches, timeouts, errors, disconnects and stops; without the marker the phase ends only because the connection closed or the service stops |
| SttPhases.Connection.Dispatch | services/stt-provider/src/stt_provider/main.py:129-150 | What becomes of one message: which outcomes ack it, which let its payload through, and which close the connection |
| SttPhases.Connection.Turn | services/stt-provider/src/stt_provider/main.py:129-150 | One turn of the loop over messages keeps the ledger, or ends the phase as stated |
| SttPhases.Connection.Round | services/stt-provider/src/stt_provider/main.py:201-220 | One turn of the fetch loop keeps the phase's ledger of seen, acked and sent messages |
| SttPhases.AfterRound | services/stt-provider/src/stt_provider/main.py:201-222 | Results of consecutive fetches combine to one result over everything delivered |
| SttPhases.ConnectWithRetry | services/stt-provider/src/stt_provider/main.py:62-96 | A connection comes from the first attempt that succeeds, each failed one before it followed by its back-off; none is returned only when the service stops during a back-off |
| SttPhases.BackoffSettles | services/stt-provider/src/stt_provider/main.py:76-94 | The waits are 2, 4, 8, 16 and 32 seconds, then 60 ever after |
| SttProvider.SessionLoop.OnConnected | services/stt-provider/src/stt_provider/main.py:253-293 | Opening takes the session id from the first message and starts in the backfill phase with a fresh closed flag and tag |
| SttProvider.SessionLoop.HandleMessage | services/stt-provider/src/stt_provider/main.py:129-150 | Refines the machine's step for one fetched message |
| SttProvider.SessionLoop.EndOfStream | services/stt-provider/src/stt_provider/main.py:295-317 | A marker ends the live phase, or starts the flush unless the connection is gone or the service stops |
| SttProvider.SessionLoop.OnFlushed | services/stt-provider/src/stt_provider/main.py:340-347 | The tag switches to live only on an open connection of a running service |
| SttProvider.SessionLoop.OnFetched | services/stt-provider/src/stt_provider/main.py:164-166 | Refines the machine's step for fetched messages in each waiting phase |
| SttProvider.SessionLoop.OnFetchFailed | services/stt-provider/src/stt_provider/main.py:201-209 | Refines the machine's step for a timeout or error in each waiting phase |
| SttProvider.SessionLoop.OnConnectFailed | services/stt-provider/src/stt_provider/main.py:84-94 | A failed attempt is retried unless the service stops |
| SttProvider.SessionLoop.OnDisconnected | services/stt-provider/src/stt_provider/main.py:399-423 | When the transcript stream ends the connection is marked closed |
| SttProvider.SessionLoop.OnDrained | services/stt-provider/src/stt_provider/main.py:360-367 | After the drain task the loop waits for the next session or has stopped |
| SttProvider.SessionLoop.OnStopSignal | services/stt-provider/src/stt_provider/main.py:245-250 | The stop signal alone changes nothing else |
| SttProvider.SessionLoop.OnTranscript | services/stt-provider/src/stt_provider/main.py:399-423 | A transcript is labelled with the tag at that moment; after a stop it is dropped and the connection marked closed |
| SttProvider.SessionLoop.CloseTranscriber | services/stt-provider/src/stt_provider/main.py:349-366 | Closing finishes the connection once and waits for the drain task |
| ProducerPartition.PartitionOverRuns | services/audio-producer/src/audio_producer/main.py:129-361 | Over every run, any interleaving of the two tasks, any failures and any crashes: the live subject is the sessions' logs one after the other, each the chunks of one contiguous run of the captured stream with its markers at their positions, and the pre-roll is exactly the chunks outside all sessions, in order |
| ProducerStreams.NothingLostOverRuns | services/audio-producer/src/audio_producer/main.py:334-361 | Every accepted chunk is in exactly one log, and interleaving the logs by the sessions' bounds gives back the accepted stream |
| ProducerStreams.CapturedIsAccepted | services/audio-producer/src/audio_producer/main.py:334-361 | The captured stream is exactly the chunks the broker accepted, in order |
| ProducerStops.CleanExactlyWhen | services/audio-producer/src/audio_producer/main.py:244-262 | On every run that has come to rest, with successful marker publishes, crashes included: every session ended in exactly one marker with nothing after it if and only if no chunk was accepted for a session the control task was stopping, no stop began inside another, and no crash resumed a session inside a stop or dropped one outside |
| ProducerStops.StopIsCleanExactlyWhen | services/audio-producer/src/audio_producer/main.py:249-261 | After a run in which nothing overlapped, a commanded stop leaves every session clean if and only if no automatic stop is under way as it begins, and until it ends no chunk is accepted for the session and no check stops it |
| ProducerStops.LateAutoStopEndsTheNextSession | services/audio-producer/src/audio_producer/main.py:371-374 | In every state in which silence is stopping a session: if the control task stops it too and starts the next before that ends, the next session is ended with no marker |
| ProducerWitnesses.NextSessionTakenDown | services/audio-producer/src/audio_producer/main.py:371-374 | From the very start, for every timeout: a session falls silent, chunk by chunk, until it is being stopped, is stopped by command too, and the end of the first stop ends the next session with no marker |
| ProducerStops.AtomicRunsAreClean | services/audio-producer/src/audio_producer/main.py:144-160 | With atomic handlers and successful marker publishes every finished session is clean and one in progress has no marker yet |
| ProducerStops.HandlersNeverOverlap | services/audio-producer/src/audio_producer/main.py:144-160 | No run of atomic handlers has an overlap |
| ProducerSilence.AttendsExactlyWhen | services/audio-producer/src/audio_producer/main.py:211-220 | After the check of any chunk in any run, the counter is the session's trailing silence and the stop begins exactly when that reaches the timeout, if and only if a loud chunk has come since the counter was last reset or taken over, or it had the right value then |
| ProducerSilence.CounterOverRuns | services/audio-producer/src/audio_producer/main.py:363-374 | In every state of every run the counter is its last reset or inherited value and the session's checked chunks after it: silence added, a loud chunk starting over |
| ProducerSilence.SilenceOverRuns | services/audio-producer/src/audio_producer/main.py:363-374 | When no chunk comes between a session's activation and the reset, no chunk of an earlier session is checked in it and no recovery resumes it, the counter is its trailing silence and a stop is under way exactly when the latest checked chunk is the first at which that reaches the timeout |
| ProducerSilence.TimeoutOverRuns | services/audio-producer/src/audio_producer/main.py:207-220 | On every run the timeout is five minutes from a session's activation and from recovery on, and the configured one from when the start could read it; one of an earlier session never lasts |
| ProducerSilence.LeftoverSilenceStopsTheNextSession | services/audio-producer/src/audio_producer/main.py:207-220 | Whenever a session is activated over a counter that is full for the default timeout, one silent chunk before the reset, however short, stops it |
| ProducerSilence.SilentStopLeavesTheCounter | services/audio-producer/src/audio_producer/main.py:259-262 | A session that ends by silence leaves its counter to the next start |
| ProducerWitnesses.SilenceStopsFromTheStart | services/audio-producer/src/audio_producer/main.py:363-374 | From the very start, for every timeout: a session that hears only silence comes to where an automatic stop is under way with the session active and the control task free |
| ProducerWitnesses.LeftOverSilenceStops | services/audio-producer/src/audio_producer/main.py:207-220 | From the very start, for every timeout not below the default: one chunk before the reset, however short, stops the next session, which its own silence does not demand |
| ProducerRecovery.KvAgreesExactlyWhen | services/audio-producer/src/audio_producer/main.py:193-209 | With successful writes, at every moment of every run, crashes included, the stored entry names the session in progress or about to be activated, if and only if the audio task never ends a stop between a start's write and its activation |
| ProducerWitnesses.EntryCanBeLost | services/audio-producer/src/audio_producer/main.py:193-209 | From the very start, with every write a success: the entry that a start has written is deleted before its session is activated |
| ProducerRecovery.RestartKeepsRouting | services/audio-producer/src/audio_producer/main.py:129-142 | A crash between handlers with the entry in agreement changes nothing about where any later chunk goes or which sessions there are, whatever follows, further crashes included, as long as silence stops neither producer |
| ProducerRecovery.RestartShows | services/audio-producer/src/audio_producer/main.py:211-220 | When the session has heard silence or has its own timeout, there are chunks after which the live subjects of the crashed and the undisturbed producer differ |
| ProducerRecovery.KilledFlushShows | services/audio-producer/src/audio_producer/main.py:222-225 | A flush that the crash killed would still have put its marker on the backfill subject, and recovery does not |
| ProducerRecovery.RestartIsInvisibleExactlyWhen | services/audio-producer/src/audio_producer/main.py:129-142 | A restart between handlers of a session can be seen on no subject, whatever follows, if and only if the counter was zero, the timeout the default one and every flush ended |
| ProducerRecovery.IdleRestartIsInvisibleExactlyWhen | services/audio-producer/src/audio_producer/main.py:129-142 | A restart between handlers while no session is active can be seen on no subject, whatever follows, if and only if the counter was zero and every flush ended |
| ProducerRecovery.IdleRestartShows | services/audio-producer/src/audio_producer/main.py:207-220 | When the last session left silence in the counter, there is a start and a chunk after which the live subjects differ |
| PrerollFlush.BackfillOverRuns | services/audio-producer/src/audio_producer/main.py:287-332 | Over every run, crashes included, each session has one flush with its id, and until a flush publishes after a later one the backfill subject is one contiguous piece of pre-roll per session, in session order, each followed by its marker |
| PrerollFlush.InOrderExactlyWhen | services/audio-producer/src/audio_producer/main.py:287-332 | With distinct session ids the backfill subject has that form if and only if no flush has copied a chunk or put its marker after a later session's flush had published |
| PrerollFlush.FlushPreroll | services/audio-producer/src/audio_producer/main.py:287-328 | One flush publishes a contiguous piece of the pre-roll and then its marker, also after an error; nothing at all when it cannot subscribe |
| PrerollFlush.CopyBatch | services/audio-producer/src/audio_producer/main.py:302-318 | A batch is copied in order up to its first failure, and only a full non-empty batch lets the flush go on |
| PrerollFlush.FlushIsComplete | services/audio-producer/src/audio_producer/main.py:301-318 | Without errors a flush copies the whole pre-roll |
| PrerollFlush.FlushStopsAtError | services/audio-producer/src/audio_producer/main.py:301-318 | However a flush's fetches go, it copies what its sound fetches bring up to the first timeout or error, an error inside a batch after what that batch had copied, and nothing of whatever could still be fetched |
| PrerollFlush.FailedCopyIsTheLast | services/audio-producer/src/audio_producer/main.py:306-318 | In every run, after the first copy that fails a flush copies nothing more and at most publishes its marker |
| PrerollFlush.AbortedFlushIsSilent | services/audio-producer/src/audio_producer/main.py:289-298 | In every run, a flush that could not subscribe never publishes a chunk or a marker |
| AudioProducer.AudioProducer.BeginStart | services/audio-producer/src/audio_producer/main.py:154-205 | A start while active changes nothing; otherwise the entry is written and the task awaits, not yet active |
| AudioProducer.AudioProducer.ActivateSession | services/audio-producer/src/audio_producer/main.py:207-215 | Activation takes the default timeout and leaves the counter as it is |
| AudioProducer.AudioProducer.ReadySession | services/audio-producer/src/audio_producer/main.py:215-225 | The configured timeout is taken and only now the counter reset |
| AudioProducer.AudioProducer.BeginStop | services/audio-producer/src/audio_producer/main.py:158-159 | Refines the first half of a commanded stop |
| AudioProducer.AudioProducer.PublishEos | services/audio-producer/src/audio_producer/main.py:245-257 | The marker goes to the current session's subject, and only when there is one |
| AudioProducer.AudioProducer.GoIdle | services/audio-producer/src/audio_producer/main.py:259-269 | The session ends and its entry is deleted, if that succeeds |
| AudioProducer.AudioProducer.EndStop | services/audio-producer/src/audio_producer/main.py:259-269 | Refines the second half of a commanded stop |
| AudioProducer.AudioProducer.OnChunk | services/audio-producer/src/audio_producer/main.py:337-357 | Refines the routing of one chunk; a chunk whose publish fails leaves no trace |
| AudioProducer.AudioProducer.CheckSilence | services/audio-producer/src/audio_producer/main.py:363-374 | Refines the check after the publish; a chunk that cannot be decoded leaves the counter alone |
| AudioProducer.AudioProducer.BeginAutoStop | services/audio-producer/src/audio_producer/main.py:371-374 | A stop by silence awaits its marker, or without a session goes idle at once |
| AudioProducer.AudioProducer.EndAutoStop | services/audio-producer/src/audio_producer/main.py:259-269 | Refines the end of a stop by silence, whatever session is then in progress |
| AudioProducer.AudioProducer.RecoverSession | services/audio-producer/src/audio_producer/main.py:129-142 | The stored session, if any, is resumed |
| AudioProducer.AudioProducer.CrashAndRecover | services/audio-producer/src/audio_producer/main.py:129-142 | After a crash the object is what the stored entry alone determines |
| SilenceDetection.DecibelTestIsIntegerTest | services/audio-producer/src/audio_producer/main.py:30-40 | For the true root mean square and any function with the laws of the logarithm, "silent or below -50 dBFS" is the integer test on the sum of squares |
| SilenceDetection.LevelTest | services/audio-producer/src/audio_producer/main.py:26-40 | A level is below -50 dB exactly when the squared amplitude is below one hundred thousandth |
| SilenceDetection.Samples | services/audio-producer/src/audio_producer/main.py:32-35 | Every two bytes are one sample in the signed 16-bit range that is their little-endian value or that less 65536 |
| SilenceDetection.SamplesRoundTrip | services/audio-producer/src/audio_producer/main.py:35 | Decoding the two's complement, low byte first, encoding of any signed 16-bit samples gives them back |
| SilenceDetection.BytesRoundTrip | services/audio-producer/src/audio_producer/main.py:35 | Encoding what any even number of bytes decodes to gives the bytes back |
| SilenceDetection.EnergyAdds | services/audio-producer/src/audio_producer/main.py:36 | The sum of squares of one sample is its square, and over joined pieces it adds up |
| SilenceDetection.MalformedExactlyWhen | services/audio-producer/src/audio_producer/main.py:32-35 | Less than one sample is silence, and otherwise an odd number of bytes, and only that, cannot be judged |
| TimeZipperRuns.ConservationOverRuns | services/identity-manager/src/identity_manager/main.py:165-195 | Under every interleaving each final transcript received is in exactly one place: kept, in flight, unread in the batch, pending, or settled; and the numbers add up |
| TimeZipperRuns.ArrivalsOverRuns | services/identity-manager/src/identity_manager/main.py:82-101 | What the other results account for is exactly the final transcripts delivered, in order, and the delivered interims are published at once, in order |
| TimeZipperRuns.PublicationOverRuns | services/identity-manager/src/identity_manager/main.py:184-189 | A final transcript is published at most once, among settled ones exactly when delivered or when its ack failed, never when evicted; every delivered one is acked and every other acked one was evicted |
| TimeZipperRuns.OrderOverRuns | services/identity-manager/src/identity_manager/main.py:165-195 | A transcript released before an earlier arrival that is released later or still waits had found its speaker in under three seconds, so timeouts release in arrival order; publications follow the order of release |
| TimeZipperRuns.WaitingIsBounded | services/identity-manager/src/identity_manager/main.py:165-195 | When a cycle has ended, whatever other tasks did meanwhile, everything that still waits was under three seconds old when the cycle began |
| TimeZipperRuns.CycleBeginsExactlyWhen | services/identity-manager/src/identity_manager/main.py:165-195 | A cycle begins if and only if the task sleeps and a tenth of a second has passed since the last cycle ended, and takes its time then |
| TimeZipperRuns.AttributionOverRuns | services/identity-manager/src/identity_manager/main.py:117-183 | A published transcript carries the name that the first closest event gives, strictly within two seconds, among the last 500 of the same payload class heard before the release; it carries "Unknown" if and only if there is no such event or that event has no name or this one; a release without a match had no such event; the subject follows the payload's source, live when it has none |
| TimeZipperRuns.CapExceededExactlyWhen | services/identity-manager/src/identity_manager/main.py:193-194 | A step takes the pending list past 500 if and only if it ends a cycle in which nothing more is due and kept, unread and new transcripts together exceed 500 |
| TimeZipperRuns.PendingHasNoCap | services/identity-manager/src/identity_manager/main.py:18-19 | For every length beyond 500 there is a run with a cycle every tenth of a second, nothing waiting past the timeout, whose pending list has it |
| TimeZipper.NearestIsFirstClosest | services/identity-manager/src/identity_manager/main.py:151-163 | The scan finds the first closest event inside the window, and none exactly when no parsable event is inside |
| TimeZipper.FirstClosestIsNearest | services/identity-manager/src/identity_manager/main.py:151-163 | There is at most one first closest event inside the window, and it is the one found |
| TimeZipper.KeptBefore | services/identity-manager/src/identity_manager/main.py:173-191 | The fusion task runs on over exactly those transcripts that have no match and are younger than the timeout |
| IdentityManager.IdentityManager.OnTranscript | services/identity-manager/src/identity_manager/main.py:82-105 | Refines the subscriber's step: interims are forwarded, finals queued |
| IdentityManager.IdentityManager.Enqueue | services/identity-manager/src/identity_manager/main.py:87-97 | The list keeps arrival order and gives up its oldest entry past 500 |
| IdentityManager.IdentityManager.Append | services/identity-manager/src/identity_manager/main.py:88-94 | A final transcript joins the end of the list |
| IdentityManager.IdentityManager.EvictOldest | services/identity-manager/src/identity_manager/main.py:95-97 | The oldest entry, and no other, leaves the list |
| IdentityManager.IdentityManager.OnIdentity | services/identity-manager/src/identity_manager/main.py:117-127 | An event goes to the pool of its payload's source; each pool holds its newest 500 |
| IdentityManager.IdentityManager.FindIdentity | services/identity-manager/src/identity_manager/main.py:135-163 | The loop with its best-so-far computes the nearest event of the pool for the transcript's source |
| IdentityManager.IdentityManager.BeginCycle | services/identity-manager/src/identity_manager/main.py:166-171 | The snapshot empties the shared list and the task runs to its first await |
| IdentityManager.IdentityManager.KeepUntilDue | services/identity-manager/src/identity_manager/main.py:173-191 | The loop over the batch keeps everything before the first transcript that is due, in order |
| IdentityManager.IdentityManager.RunOn | services/identity-manager/src/identity_manager/main.py:173-194 | At the end of the batch what was kept goes in front of what arrived meanwhile |
| IdentityManager.IdentityManager.EndCycle | services/identity-manager/src/identity_manager/main.py:193-195 | What was kept goes in front of what arrived meanwhile, and the task sleeps |
| IdentityManager.IdentityManager.ReleaseFirst | services/identity-manager/src/identity_manager/main.py:180-185 | The transcript that is due is taken out and its publish awaited |
| IdentityManager.IdentityManager.AfterPublish | services/identity-manager/src/identity_manager/main.py:184-189 | Refines the end of a publish: on to the ack, or to the negative ack |
| IdentityManager.IdentityManager.AfterAck | services/identity-manager/src/identity_manager/main.py:186-189 | Refines the end of an ack: settled, or a negative ack although published |
| IdentityManager.IdentityManager.AfterNak | services/identity-manager/src/identity_manager/main.py:187-189 | Refines the end of a negative ack: the transcript leaves the program |
| Windowing.NothingLostPerSession | services/identifier/src/identifier/main.py:97-114 | Since a session's last end marker, the windows emitted under its id and then its buffer are exactly the chunks sent on subjects whose last token is that id, in order, none lost, repeated or mixed in |
| Windowing.WindowsAreMinimal | services/identifier/src/identifier/main.py:33-40 | Every window has at least 24576 samples and fewer without its last chunk, and no buffer holds that many |
| Windowing.SixteenChunks | services/identifier/src/identifier/main.py:19-34 | With chunks of 1536 samples every window is exactly sixteen chunks |
| Windowing.SessionsAreIndependent | services/identifier/src/identifier/main.py:106-112 | A session's buffer and windows are what it would get if only the messages with its id as the last token of the subject had come |
| Windowing.WindowsAreOneSubjects | services/identifier/src/identifier/main.py:97-114 | On a lane of dot-free session ids every window and every buffer holds only audio sent on the subject that ends in its own session's id |
| Windowing.SessionExactlyWhen | services/identifier/src/identifier/main.py:106 | The worker's session for a message is the one dot-free string after the last dot of its subject, or the whole subject when it has no dot |
| Windowing.SubjectsShareExactlyWhen | services/identifier/src/identifier/main.py:106-107 | Whatever their prefixes, two subjects belong to one session if and only if the ids behind them are equal |
| Windowing.AudioBuffer.Add | services/identifier/src/identifier/main.py:29-31 | The sample counter stays the total of the chunks held |
| Windowing.AudioBuffer.Consume | services/identifier/src/identifier/main.py:36-40 | Hands out everything held and starts empty |
| Windowing.Worker.Deposit | services/identifier/src/identifier/main.py:106-108 | A chunk is added to its own session's buffer object, created when there is none |
| Windowing.Worker.Emit | services/identifier/src/identifier/main.py:110-112 | A full buffer is handed out as one window and emptied |
| Windowing.Worker.OnMessage | services/identifier/src/identifier/main.py:97-114 | The dictionary of buffer objects, none shared between sessions, does the specified step: a marker discards a partial window, a chunk may complete one |
| MelFilterbank.PartitionOfUnity | services/identifier/src/identifier/embedder.py:137-146 | For all non-decreasing edges inside the rows, repeated ones included, a row sums to exactly one over the filters if and only if it lies from the first peak to before the last, or on the last peak when that one still falls |
| MelFilterbank.WeightRange | services/identifier/src/identifier/embedder.py:140-145 | All weights lie between zero and one |
| MelFilterbank.AtMostTwoFilters | services/identifier/src/identifier/embedder.py:140-145 | In every row at most two filters are non-zero, and they are neighbours |
| MelFilterbank.BuildFilterbank | services/identifier/src/identifier/embedder.py:137-146 | The nested loops write in bounds, and every entry lies on its filter's slopes: times the width of the rise it is the distance from the left edge, times that of the fall the distance to the right edge, and zero elsewhere |
| MelFilterbank.FillFilter | services/identifier/src/identifier/embedder.py:141-145 | One filter fills its own column with these slopes and touches no other column |
| MelFilterbank.OneWeightOnSlopes | services/identifier/src/identifier/embedder.py:141-145 | For edges in order, empty sides included, the slopes determine the weight |
| MelFilterbank.ClampOnlyShortAudio | services/identifier/src/identifier/embedder.py:108-112 | Clamping changes no frame index if and only if the audio is at least one window long, and then less than one hop stays uncovered |
| MelFilterbank.FramesTile | services/identifier/src/identifier/embedder.py:108-110 | Every sample up to the end of the last frame is in some frame, the first frame starts at the first sample, and each frame starts a hop after the one before |
| MelFilterbank.ClippedIsNearest | services/identifier/src/identifier/embedder.py:112 | A clamped index is an index of the audio and none is nearer to the wanted one |
| MelFilterbank.ClampIsDead | services/identifier/src/identifier/embedder.py:80-112 | Audio that is long enough to be embedded at all is never clamped |
| Scheduler.FiresOnceExactlyWhenDue | services/system-manager/src/system_manager/main.py:96-165 | Over any polls on days that never go back, pruning included, a schedule fires for a kind and date if and only if some successful poll of that date came on one of its weekdays within two minutes from its time while it was enabled, and never twice |
| Scheduler.PollFiresInOrder | services/system-manager/src/system_manager/main.py:96-193 | After any run one more poll adds its fires in the order of its list, of one schedule the start before the stop; each is new that day, carries out the first due schedule of its id, and publishes its command if and only if it is a start or that schedule's policy is not soft |
| Scheduler.KeysOfTheDay | services/system-manager/src/system_manager/main.py:121-153 | After a successful poll only keys with its date in them are held, each with the minute of the poll that fired it |
| Scheduler.NoTargetMissed | services/system-manager/src/system_manager/main.py:155-165 | Polls at most two minutes apart around the target, for 23:59 at most one minute, fire every schedule that applies |
| Scheduler.LongerGapsMiss | services/system-manager/src/system_manager/main.py:155-165 | Any longer gap can step over a target: for 23:59 any gap over one minute, otherwise any over two |
| Scheduler.NeverMissedExactlyWhen | services/system-manager/src/system_manager/main.py:155-165 | A schedule that applies some day is never missed under polls with a given gap if and only if the gap is at most two minutes, or one for a target of 23:59; the service's own half minute never misses any |
| Scheduler.KeysAreDistinct | services/system-manager/src/system_manager/main.py:141-150 | A key determines the kind, the schedule id, whatever characters it has, and the date |
| Scheduler.PolledKeeps | services/system-manager/src/system_manager/main.py:118-123 | After a poll, pruning included, the keys of that day are exactly what has fired that day |
| Scheduler.SystemManager.CheckSchedules | services/system-manager/src/system_manager/main.py:96-123 | Refines a poll: a failed fetch changes nothing, otherwise every schedule is evaluated and old keys go |
| Scheduler.SystemManager.EvalSchedule | services/system-manager/src/system_manager/main.py:125-153 | Refines the evaluation of one schedule for start and stop; a soft stop uses up its key without a command |
| RateLimiter.LimitOverRuns | services/api-gateway/src/api_gateway/auth.py:27-42 | Over any non-decreasing attempt times: an attempt is refused if and only if five accepted ones lie in the closed last minute, any six accepted ones span more than a minute, and the deque is the accepted history of the window at the last attempt |
| RateLimiter.ClientsAreIndependent | services/api-gateway/src/api_gateway/auth.py:30-33 | A client's deque depends on its own attempts only |
| RateLimiter.EvictedIsRecent | services/api-gateway/src/api_gateway/auth.py:34-36 | On a sorted deque dropping from the front is filtering by the window |
| RateLimiter.RateLimiter.CheckAuthRateLimit | services/api-gateway/src/api_gateway/auth.py:27-42 | The loop and the dictionary update do the specified check for this client and leave all others alone |
| LogFanout.FanoutOverRuns | services/api-gateway/src/api_gateway/main.py:300-316 | For every interleaving of arrivals, connects, reads and disconnects the ring is the last 500 entries, and each connected client's queue is the newest entries, at most 200, of those since it registered |
| LogFanout.ClientsMissOnlyDrops | services/api-gateway/src/api_gateway/main.py:1287-1297 | What a client is sent, replay then live, never repeats or reorders; what is missing is exactly the counted drops, and with none it is every entry from the ring's start at registration on |
| LogFanout.ReadsSendInOrder | services/api-gateway/src/api_gateway/main.py:1290-1297 | After any run, reads in a row by a connected client send it that many of the next entries of its replay and then its queue, or all when there are fewer, in order and none twice, and change nothing else |
| LogFanout.ConnectedExactlyWhen | services/api-gateway/src/api_gateway/main.py:1287-1301 | A client is served from its connection on if and only if it has not disconnected since |
| LogFanout.GoneIsUntouched | services/api-gateway/src/api_gateway/main.py:310-316 | Nothing is ever offered or sent to a client that has left |
| LogFanout.LogHub.OnGlobalLog | services/api-gateway/src/api_gateway/main.py:307-316 | The loop over the subscribers offers the entry to each connected one once, dropping the oldest when full |
| LogFanout.LogHub.Register | services/api-gateway/src/api_gateway/main.py:1287-1291 | The queue and the ring snapshot start at the same instant |
| LogFanout.LogHub.Advance | services/api-gateway/src/api_gateway/main.py:1290-1297 | The entry sent next is the next of the replay, or else the head of the queue |
| LogFanout.LogHub.Unregister | services/api-gateway/src/api_gateway/main.py:1300-1301 | A client that left is offered nothing more and the others are unaffected |
| Retention.KeptExactlyWhen | services/api-gateway/src/api_gateway/main.py:361-382 | A completed session stays, unchanged, if and only if it meets both enabled policies; an active one always stays |
| Retention.CountKeepsTheNewest | services/api-gateway/src/api_gateway/main.py:361-370 | The count policy keeps as many as allowed and none older than one it purges |
| Retention.DoomedIsCompleted | services/api-gateway/src/api_gateway/main.py:361-382 | Only completed sessions are ever purged |
| Retention.ReferencesArePreserved | services/api-gateway/src/api_gateway/main.py:387-395 | Exactly the purged sessions' segments go, so every segment left has its session |
| Retention.PurgeIsIdempotent | services/api-gateway/src/api_gateway/main.py:348-398 | A second purge with the same cutoff changes nothing, however the database orders ties |
| Retention.Store.RunSessionRetention | services/api-gateway/src/api_gateway/main.py:348-398 | The accumulated set of ids, with its early exits, yields exactly the purge, and the result is the number of sessions removed |
| Retention.Store.DeleteRows | services/api-gateway/src/api_gateway/main.py:387-398 | Both deletes and the count they report |
| Backup.BackupRoundTrip | services/api-gateway/src/api_gateway/main.py:1111-1134 | Extracting the archive of any files into any file system restores, byte for byte at its own path, every file without a double dot in its path, leaves every other file as it was, wherever it lies, and counts the restored files per bucket |
| Backup.CompleteExactlyWhen | services/api-gateway/src/api_gateway/main.py:1116-1118 | Into an empty file system the backup is restored completely if and only if no path has a double dot |
| Backup.StaysInsideExactlyWhen | services/api-gateway/src/api_gateway/main.py:1115-1127 | Whatever an archive and a file system hold, extraction changes no file outside the two directories if and only if no accepted member has a slash right after its bucket's prefix followed by a path that is not below them |
| Backup.DestinationMeans | services/api-gateway/src/api_gateway/main.py:1116-1127 | An accepted name leads to what follows its prefix, below the directory of the bucket it is counted for, unless a slash follows its prefix, and then to the absolute path behind the prefix; never to a path with a double dot |
| Backup.AcceptedExactlyWhen | services/api-gateway/src/api_gateway/main.py:1116-1125 | A name is accepted if and only if it neither begins with a slash nor has a double dot anywhere, and begins with a bucket's prefix or ends as a database file does |
| Backup.FlatArchiveRestores | services/api-gateway/src/api_gateway/main.py:1121-1134 | An archive of plain names, made before there were buckets, restores beside the database exactly its database files without a double dot, changes nothing else and counts them |
| Backup.ExtractTouches | services/api-gateway/src/api_gateway/main.py:1111-1134 | A path changes only when some member is extracted to it, and then it is there |
| Backup.DestinationOfMember | services/api-gateway/src/api_gateway/main.py:1117-1127 | A member's destination is the file it was made from; the bucket's prefix neither hides nor creates a double dot |
| Backup.CreateBackup | services/api-gateway/src/api_gateway/main.py:1058-1067 | One member per listed file, under its bucket's prefix, in listing order |
| Backup.ExtractBackup | services/api-gateway/src/api_gateway/main.py:1111-1134 | The loop, with its skips and per-bucket counts, refines the extraction of the members one by one |

## Left out

- The broker, the recogniser, the databases and the vector store: ordered logs, finite maps and success or failure. Redelivery of messages that were not acked or negatively acked, and the age limit of the subjects are not modelled; a flush sees the pre-roll from some oldest position on and nothing ages out while it copies.
- Acks of end markers and of stale messages, and negative acks, are assumed to succeed: in the source their failure ends the task.
- A publish that raises although the broker accepted the message, except where the provider sends audio.
- Eventual delivery after a disconnect in the live phase is not claimed, because it is false: `DisconnectLosesTheRest`.
- EndToEnd.EverySessionIsTranscribed: assumes that the producer can still come to rest well (every session ended by its marker, perhaps repeated, flushes in order and ended with their markers) and that the consumer has no failures, because `NextSessionTakenDown`, `MixedFlushesLoseAudio` and `DisconnectLosesTheRest` show that it is false without them.
- Losses.LossesOverRuns: a message that was not acked is not delivered again, because when that happens depends on the broker's timers; and the service is not stopped meanwhile.
- A failed read of the stored entry on recovery, after which the producer stays idle and the entry stays.
- ProducerStops.CleanExactlyWhen: assumes that marker publishes succeed, because a failed one leaves nothing that could be last.
- SttPhases.Connection.FetchPhase: a fetch script that ends counts as the stop of the service, because the source's loop has no other end; `PhaseOverRuns` has no such end.
- Steps that take in more than one await: the provider's send of a message and its ack, the identity manager's forwarding of an interim and its ack, the ack of an evicted transcript, and a flush's publish and ack of one chunk. The last awaits of a start and a stop, which only announce them, are left out.
- Decoding and acking of session-control messages, lifecycle events, status messages, heartbeats and the consumer-lag warning.
- Failures to publish a transcript to the broker: the monitor sees that the provider emits it, not that it arrives.
- The pre-roll flush inside a whole run is modelled on values, one event per copied chunk; the method `FlushPreroll` is proved for one flush by itself.
- Computing and publishing embeddings and identities, the logarithmic mel bins (any non-decreasing edges are allowed instead), the Fourier transform and normalisation; rounding of floats.
- ISO timestamps, time zones and daylight saving; parsing of "HH:MM" times and of label templates; a failed publish of a scheduled command (it uses up its key in the source as well).
- Persisting log entries; the contents of log messages.
- Database errors during the purge, which undo it and return zero.
- Tar encoding, directory creation and path normalisation; data directories other than the default ones; a write that fails, which ends the restore, as for a member named like a bucket's prefix; the answer to a restore request.
- Passwords, tokens, HTTP and WebSocket plumbing, and everything else in the gateway.
