# The session engine of the KARO X2 Python SDK

This project models the client session engine `RobotImpl` of the SDK and the per-topic records `SubSlot` it
updates, and proves what every run of it keeps. `dafny verify dfyconfig.toml` checks everything.

The engine keeps one connection to a robot. It performs a handshake, carries calls and resumable per-topic
streams over the connection, watches it with heartbeats, reconnects with growing delays when it is lost,
asks the robot to resume every stream, replays an engaged emergency stop, and becomes READY again only when
every stream has been answered for.

## How it is laid out

- One stream. `Flows` is where every frame of a topic is; `Chronicles` is what an observer of the topic sees
  (status announcements, frames admitted, frames refused, acknowledgements) and two readings of it that do not
  look at the client's counters: the ledger of sequence numbers and the order of announcements. `Streams` has
  the record and what the handlers do to it as functions, `StreamLaws` what every stream keeps and how the
  chronicle is tied to the frames themselves, `SubSlot` the class updated in place, each method proved equal
  to its function.
- The session. `Sessions` is the whole engine as a step machine: one step is what runs between two
  suspensions of the event loop, that is one handler and the awaiting coroutines it wakes. Slots that leave
  the registry are kept, so that nothing is said only of those still registered. `RobotImpl` is the class with
  the source's fields; every handler is proved to do exactly what the function of its name does, and `Serve`
  that the class moves as the machine steps and keeps its invariant.
- The proofs about the machine. `SessionInvariant`, `SessionAsking`, `SessionBarrier`, `SessionAnswers`,
  `SessionRounds`, `SessionLinks`, `SessionCalls` and `SessionSteps` prove one inductive invariant.
  `SessionHistory` and `SessionCounts` prove what no step undoes. `SessionRuns`, `SessionProgress`,
  `SessionTermination`, `SessionAttempts`, `SessionEndings`, `SessionQuits`, `SessionDisplaced`, `SessionLate`,
  `SessionStranded`, `SessionSlots`, `SessionResumes` and `SessionDispatch` hold the statements about runs of any
  length. `SessionLosses`, `SessionVerdicts` and `SessionOrders` say, in terms of the session alone, what each
  loss, each answer of the robot and each request of the user does to it. `SessionWitnesses` and
  `SessionDefects` have concrete runs for what the engine does not promise.
- The numeric parts, each a class or method with loops proved against an independent definition:
  `TokenBucket`, `RateWindow`, `Backoff`, and the heartbeat loop `Heartbeat` as a timed step machine.

## What it found

Statements one would expect of the engine that its code does not meet, each with the exact condition and a
witness:

- A slot that is unsubscribed (or whose second subscribe cannot be encoded) while the reconnect barrier waits
  for its answer is removed without lowering the counter; the session then stays in RECONNECTING until the
  connection is lost again. A round can end READY if and only if it lost nobody
  (`SessionTermination.RoundCanFinishIff`, `SessionWitnesses.RoundStalled`).
- `close()` documents SHUTDOWN as terminal (API.md:86, API.md:201). It is left again when an `_establish` is
  suspended that cancelling the reconnect task does not reach (always so for the initial one), or when an
  abort was already queued; `close()` is final if and only if neither is the case
  (`SessionEndings.CloseIsFinalIff`, `SessionWitnesses.ShutdownOvertaken`).
- FATAL is documented as terminal too (API.md:202). After the abort that follows the last attempt it is, if
  and only if no `_establish` is suspended that cancelling the reconnect task does not reach
  (`SessionEndings.AbortIsFinalIff`). One that a stale timer has begun is not reached: when its connect fails
  FATAL is left (`SessionDefects.FatalLeft`, a run with a single loss: the close handler and the failing
  handshake each set a timer). The run needs the second timer's wake-up to be in the ready queue when the abort
  is created; a surviving handshake, which the condition covers as well, would need a whole connect to fit in
  there.
- `reconnect_max_attempts` (API.md:158) bounds the attempt counter, not the number of attempts: one loss can
  set several timers (the close handler and the failing handshake, or each subscribe of a failing round), and
  a stale timer attempts again under an old number. Whatever the limit, one attempt more than it allows can
  follow without READY (`SessionWitnesses.MoreAttemptsThanAllowed`), unless it is 0, which allows none
  (`SessionWitnesses.LimitExceededIff`). The counter is the number of attempts made since the last reconnect
  if and only if no stale timer attempts (`SessionAttempts.CountsAttemptsIff`), and then the limit bounds that
  number (`SessionAttempts.LimitBoundsAttempts`); so it does whenever no two timers sleep together.
- An EVENT stream is to be watched for loss (API.md:645). Numbers are accounted for from a base on: the number
  before the one granted by the last answer that did not go on where the client was, or, for a client without
  a position, the number before the first one it sees. An answer granted from number 1 (or 0) on leaves no position, so a stream that then begins with a
  later number loses the numbers before it without a GAP (`SessionDefects.NumbersUnreported`). From an answer
  granted from K on every number from K is admitted or reported missing exactly once if and only if K is at
  least 2 or the first number admitted is 1 (`SessionRuns.NumbersFromGrantIff`).
- No heartbeat runs after a reconnect that had to wait for answers: the loop is started while the state is
  still RECONNECTING and ends at once. A READY session is watched if and only if heartbeats are on, its
  connection did not wait, and the loop has not found the socket closed (`SessionRuns.HeartbeatRunsIff`,
  `SessionQuits.WatchedUnlessClosed`, `SessionDefects.ReadyUnwatched`).
- A topic that is subscribed again while an unsubscribe of it is still in flight can be taken out of the
  registry when that unsubscribe is answered, without being closed or announced as closed
  (`SessionDefects.PushedOutUnclosed`). A subscription that goes out is closed whenever it leaves the registry, on
  every continuation, if and only if no unsubscribe of its topic is in flight when it is made
  (`SessionDisplaced.SubscribedSafelyIff`). The earlier slot may announce CLOSED twice.
- A subscription made outside READY is to be established once READY is reached (API.md:105). One made while
  the reconnect barrier waits is not: at READY exactly those are PENDING and unasked
  (`SessionRuns.LateSlotsLeftBehind`, `SessionDefects.LateSlotWaits`), and they stay so until they are
  unsubscribed or the connection is lost (`SessionLate.LateSlotStaysLate`).
- TRANSIENT_FAILURE is documented as reconnecting by itself (API.md:199). A session in it can become READY
  again if and only if a reconnect timer sleeps; otherwise the last attempt has been made and an abort is on
  its way (`SessionStranded.ReconnectsIff`). No other state is ever left with nothing under way, but for the
  round that has lost somebody (`SessionStranded.NeverStranded`).
- A ping timeout that falls on the instant a frame arrives is counted as a miss, so a live link can be
  declared dead (`Heartbeat.RaceKillsLiveLink`).

## Assumptions

- A transport that is being replaced does not report its close while the next connect is in progress
  (`Sessions.Enabled`).
- No reconnect timer attempts between the creation of a replay task and its start, which is the next turn of
  the event loop (`Sessions.Enabled`). For a timer set after the replay task this is the loop's start order; for
  a stale one, left over from an earlier loss, it is an assumption, needed only where the connection is lost
  before the task starts.
- The machine lets a transport report its close more than once, where a `WsClient` reports it once
  (karo_x2_sdk/_internal/ws_client.py:159-162). What holds of every run holds all the more of fewer; every run
  that is exhibited, and every continuation that is constructed, has at most one close per connection.
- Sends and closes are atomic with an arbitrary outcome; nothing is assumed about what the robot answers, or
  when, or in which order.
- Callbacks run in DISPATCHED mode or do not suspend a handler.
- Options are validated as `_validate_opts` does (queue size at least 1, maximum delay at least the base).
- Clocks do not go back.

## Model

| member | source | states |
|---|---|---|
| SessionRuns.LedgerBalances | karo_x2_sdk/_internal/robot_impl.py:615-638 | for every slot ever registered, registered still or gone, across any number of losses and resumes: the position is the base (the number before the one granted by the last answer that did not go on from the position, or before the first one seen without a position) plus the numbered frames admitted since plus the gaps reported since; every number from the base to the position is covered exactly once and no other number at all; and while the gate is in force the frames counted are exactly the numbered ones among the frames admitted since the base |
| SessionRuns.NumbersFromGrantIff | karo_x2_sdk/_internal/robot_impl.py:966-1013 | from an EVENT answer granted from number K on, at whatever later point of the run, as long as nothing rebased the numbering: every number from K up to the position is admitted or reported missing exactly once if and only if K >= 2 or the first number admitted since is 1; if K >= 2 and the answer set the base it is still K - 1 |
| SessionResumes.ReconnectAccounts | karo_x2_sdk/_internal/robot_impl.py:863-1013 | for a slot of an EVENT stream with position P that is asked after the accepted handshake of a reconnect, and granted from K > P on: the acknowledgement on record asked for P + 1, the K - P - 1 numbers skipped are reported at once, and at whatever later point of the run, as long as nothing rebases the numbering, every number past P has been admitted or reported missing exactly once |
| SessionResumes.SubscribesAskForNext | karo_x2_sdk/_internal/robot_impl.py:809-871 | in every state of every run every outstanding subscribe went out on the current connection, under its own id, and asks an EVENT stream with a position P, if history is wanted, to go on from P + 1, and any other stream from the present on |
| SessionResumes.RoundAsksEverybody | karo_x2_sdk/_internal/robot_impl.py:863-871 | after the accepted handshake of a reconnect, if the connection has held, every registered slot is asked, may ask once more from scratch, and has its position and record unchanged |
| SessionResumes.FirstAsksEverybody | karo_x2_sdk/_internal/robot_impl.py:493-502 | after the accepted handshake of a first connection, if the session is READY, every slot that waited is asked |
| SessionResumes.LeftAloneWhileAsked | karo_x2_sdk/_internal/robot_impl.py:833-854 | over any stretch of a run a slot whose subscribe stays outstanding under one id tells and admits nothing and keeps its position |
| SessionResumes.SemanticsFollowCatalogue | karo_x2_sdk/_internal/robot_impl.py:491-492 | in every state of every run every registered slot has the semantics the catalogue of the last accepted handshake gives its topic, TELEMETRY if it names none |
| SessionDefects.NumbersUnreported | karo_x2_sdk/_internal/robot_impl.py:615-623 | for every K <= 1 and every first number f >= 2 a run in which an EVENT stream granted from K on begins with f and reports nothing missing |
| Chronicles.CoveredFromGrantIff | karo_x2_sdk/_internal/robot_impl.py:966-1013 | the same for any chronicle in step |
| Chronicles.LedgerAdds | karo_x2_sdk/_internal/robot_impl.py:966-1013 | for any chronicle in step: position = base + admitted + missed, whatever acknowledgements, retries and resumes it contains |
| Chronicles.ExactlyOnce | karo_x2_sdk/_internal/robot_impl.py:619-638 | each number after the base up to the position is admitted or reported missing exactly once, and no other number is |
| Chronicles.SinceIsAdmitted | karo_x2_sdk/_internal/robot_impl.py:619-638 | for any chronicle in step the frames the ledger counts are the numbered ones of the frames admitted since the base |
| Chronicles.Increasing | karo_x2_sdk/_internal/robot_impl.py:623-638 | as long as nothing rebases the numbering the position never falls and the numbers of the frames admitted strictly increase |
| SessionRuns.FramesConserved | karo_x2_sdk/_internal/robot_impl.py:591-670 | every frame that arrived for a slot was delivered, is queued, is buffered, or was counted as dropped, rejected or cleared; both buffers respect the queue size; the frames admitted are those the chronicle names, the frames rejected are exactly its refusals, each a duplicate or a regression when it came; delivered then queued frames are a subsequence of the admitted and of the arrived ones |
| SessionRuns.HandedOnInOrder | karo_x2_sdk/_internal/robot_impl.py:600-693 | end to end: for any stretch of a slot's history in which nothing rebased its numbering, the frames at the callback and in the queue fall into those admitted before, during and after it, and the nonzero numbers of those admitted during it strictly increase from the position at its start |
| StreamLaws.DropsAreForced | karo_x2_sdk/_internal/robot_impl.py:591-670 | a push adds to the drop count exactly if the slot is paused or the buffer it is meant for is full, and to the rejected exactly if the slot is active and the gate refuses it |
| SessionDispatch.PushReachesSlot | karo_x2_sdk/_internal/robot_impl.py:591-644 | a pushed frame arrives at the slot of its topic and changes nothing else: a PENDING slot buffers it while there is room, an ACTIVE one admits it unless it is a duplicate or a regression of an EVENT stream, whose position moves to it |
| StreamLaws.PushEvictsNothing | karo_x2_sdk/_internal/robot_impl.py:598-610 | under DROP_NEWEST a push evicts nothing: what was handed on, queued or buffered still is, in its place |
| SessionDispatch.MostRecentKept | karo_x2_sdk/_internal/robot_impl.py:598-670 | in every state of every run: with INLINE callbacks exactly what was admitted has been handed on; under DROP_OLDEST the queue is the most recent frames admitted, and the buffer the most recent frames arrived, without a break |
| SessionDispatch.TurnHandsOn | karo_x2_sdk/_internal/robot_impl.py:672-693 | a turn of a slot's worker, registered or pushed out, hands the oldest queued frame to the callback and changes nothing else; it does nothing exactly if the slot is closed or nothing is queued |
| SessionDispatch.TurnsHandOn | karo_x2_sdk/_internal/robot_impl.py:672-693 | n turns with nothing in between deliver exactly the first n queued frames, in order, and leave the rest queued |
| SessionDispatch.QueueIsHandedOn | karo_x2_sdk/_internal/robot_impl.py:672-693 | under DROP_NEWEST, over any stretch of a run in which the slot stays open, whatever else happens: by the time the worker has had as many turns as frames were queued at the start, all of them have been delivered, in order after what was delivered before; nothing queued is lost or overtaken |
| SessionRuns.StatusProtocol | karo_x2_sdk/_internal/robot_impl.py:928-1013 | the announcements of every slot ever registered follow PAUSED*, STARTED or RESUMED, GAP*, (PAUSED+ RESUMED GAP*)*, and nothing but CLOSED after CLOSED; CLOSED has been told exactly if the slot has left the registry without being pushed out; it is live exactly while ACTIVE; after it went live once STARTED never recurs |
| SessionRuns.EverySlotAccountedFor | karo_x2_sdk/_internal/robot_impl.py:747-774 | the slot registered as the n-th is either registered, and open, or out of the registry, never both nor neither; one that is out is closed exactly if it was not pushed out |
| SessionRuns.SlotsOnlyGrow | karo_x2_sdk/_internal/robot_impl.py:591-691 | over any stretch of a run a slot keeps its identity, and what it has told and admitted is never taken back |
| SessionDisplaced.GoneIsClosed | karo_x2_sdk/_internal/robot_impl.py:1076-1105 | a slot that was not subscribed while an unsubscribe of its own topic was in flight is, once out of the registry, closed, and has told so last |
| SessionDisplaced.SubscribedSafelyIff | karo_x2_sdk/_internal/robot_impl.py:1076-1105 | in every reachable state a new subscription is closed whenever it leaves the registry, on every continuation, if and only if no unsubscribe of its topic is in flight when it is made, or its request cannot be encoded |
| SessionDefects.PushedOutUnclosed | karo_x2_sdk/_internal/robot_impl.py:1076-1089 | a run in which a subscription disappears without being closed or announced as closed, and the one before it is announced as closed twice |
| SessionRuns.ResumeCursor | karo_x2_sdk/_internal/robot_impl.py:980-1013 | while a resume is outstanding the position is one before the number asked for; any accepted EVENT answer with next number K leaves it at K - 1, and the drain then admits exactly what the gate alone would |
| SessionRuns.NothingBelowNext | karo_x2_sdk/_internal/robot_impl.py:980-1022 | once an EVENT subscribe is granted from number K on, at whatever later point of the run and whatever became of the slot, every frame admitted since with a nonzero number has a number of at least K, in strictly increasing order, unless the numbering was rebased |
| SessionRuns.BookkeepingAgrees | karo_x2_sdk/_internal/robot_impl.py:833-848 | in every reachable state subscribes asked and acknowledgement timers have the same ids, disjoint from the calls in flight, all below the next id; every registered slot is keyed by its topic, not CLOSED, PENDING under an id that maps to it if outstanding, and not outstanding if ACTIVE |
| SessionRuns.IntentRemembered | karo_x2_sdk/_internal/robot_impl.py:1197-1198 | the remembered intent is that of the last emergency-stop call the robot accepted |
| SessionRuns.StopReplayedFirst | karo_x2_sdk/_internal/robot_impl.py:504-515 | on a connection opened by a reconnect while the stop was engaged nothing but handshake, subscribes and the replay goes out before the replay is accepted, and READY is not reached before; on any other connection no stop is replayed |
| SessionRuns.ReleasedStopNotReplayed | karo_x2_sdk/_internal/robot_impl.py:1486-1497 | a replay starts only while the last accepted intent is to engage, on a connection opened by a reconnect under that intent |
| SessionRuns.ReconnectsCounted | karo_x2_sdk/_internal/robot_impl.py:893-900 | the reconnect count equals the number of steps of the run that announce a reconnect |
| SessionRuns.BarrierCounts | karo_x2_sdk/_internal/robot_impl.py:504-514 | while the barrier waits its counter is exactly the slots still asked plus the slots lost; every slot of the round is registered and active or still asked; and it waits for something |
| SessionRuns.ReadyMeansEveryoneAnswered | karo_x2_sdk/_internal/robot_impl.py:890-900 | every step from RECONNECTING to READY finds all registered slots of the round ACTIVE, none unanswered, none lost, no replay pending; it sets the attempts to 0 and counts one reconnect |
| SessionRuns.OncePerRound | karo_x2_sdk/_internal/robot_impl.py:1471-1482 | between two steps from RECONNECTING to READY a reconnect timer has attempted again |
| SessionRuns.LateSlotsLeftBehind | karo_x2_sdk/_internal/robot_impl.py:770-773 | when a reconnect ends READY the registered slots that are PENDING and not asked are exactly those registered since its barrier was set up |
| SessionDefects.LateSlotWaits | karo_x2_sdk/_internal/robot_impl.py:770-773 | a run in which a topic subscribed while the barrier waits is PENDING and unasked in READY |
| SessionLate.LateSlotStaysLate | karo_x2_sdk/_internal/robot_impl.py:770-773 | whatever else happens, as long as the session stays READY and the topic is not unsubscribed, a slot left behind at READY stays registered, PENDING and unasked, announces nothing and admits nothing |
| SessionRuns.CallsEndOnce | karo_x2_sdk/_internal/robot_impl.py:575-589 | over any stretch of a run a call in flight stays in flight or has ended, never both; an ended call keeps its outcome; an answer carries the id of its own call |
| SessionOrders.CallEnds | karo_x2_sdk/_internal/robot_impl.py:575-589 | an answer ends its own call as answered and a timeout as timed out, and neither changes anything else but an accepted emergency stop, which is remembered |
| SessionOrders.ClosingEndsCalls | karo_x2_sdk/_internal/robot_impl.py:246-301 | close() ends every call in flight with a local error, the abort with a transient one, and both cancel the current reconnect timer |
| SessionOrders.CommandGoesOut | karo_x2_sdk/_internal/robot_impl.py:1115-1207 | a command goes out under a fresh id exactly in READY, and ends at once if it cannot be sent; outside READY nothing happens |
| SessionOrders.SubscribeRegisters | karo_x2_sdk/_internal/robot_impl.py:747-774 | a topic is registered once; in READY its subscribe goes out at once, from the present on, under a fresh id with its timer; outside READY it waits; if it cannot be encoded it is closed, if it cannot be sent the connection is given up |
| SessionOrders.UnsubscribeCloses | karo_x2_sdk/_internal/robot_impl.py:1041-1071 | an unsubscribe closes its slot at once, and no other, where the connection is not READY or not open, where its answer is not waited for, or where it cannot be sent; otherwise it goes out and the slot stays until the call ends |
| SessionOrders.UnsubscribeEnds | karo_x2_sdk/_internal/robot_impl.py:1073-1105 | however that call ends, the slot it was made for is closed and its topic free |
| SessionOrders.PingGoesOut | karo_x2_sdk/_internal/robot_impl.py:1358-1393 | a heartbeat sends a ping; one that cannot be sent gives the connection up; a socket found closed ends the loop |
| SessionOrders.ReplayGoesOut | karo_x2_sdk/_internal/robot_impl.py:1486-1497 | a replay that starts is sent and waited for; one that cannot be sent is a loss |
| SessionOrders.ReplayCallEnds | karo_x2_sdk/_internal/robot_impl.py:1499-1515 | an accepted replay is on record and ends the reconnect if every slot has been answered; one refused or not answered in time is a loss, with every slot suspended |
| SessionRuns.ClosingSettlesEverything | karo_x2_sdk/_internal/robot_impl.py:246-283 | close() and the abort leave no call in flight, no subscribe asked, no timer of one and no slot registered, and every call that was in flight has ended |
| SessionRuns.HeartbeatRunsIff | karo_x2_sdk/_internal/robot_impl.py:1337-1366 | in every run a READY session has its heartbeat running if and only if heartbeats are on, its connection did not have to wait for answers, and the loop has not found the socket closed; no other session has one |
| SessionQuits.WatchedUnlessClosed | karo_x2_sdk/_internal/robot_impl.py:1347-1366 | a READY session with heartbeats on, whose connection did not wait, and without a heartbeat, has at some earlier step of the same connection had its loop find the socket closed |
| SessionDefects.ReadyUnwatched | karo_x2_sdk/_internal/robot_impl.py:1347-1349 | a run that is READY with heartbeats on and no heartbeat, after a reconnect that waited for one answer |
| SessionTermination.RoundBegins | karo_x2_sdk/_internal/robot_impl.py:504-515 | the barrier starts to wait only at an accepted handshake, for as many slots as are registered, having lost exactly those whose subscribe could not be encoded |
| SessionTermination.BarrierTerminates | karo_x2_sdk/_internal/robot_impl.py:863-871 | with N slots, every subscribe encodable and nobody unsubscribing, a session still waiting has received at most 2 N answers: the answer 2 N + 1 leaves RECONNECTING |
| SessionTermination.Countdown | karo_x2_sdk/_internal/robot_impl.py:873-1013 | along any path within a round the answers received plus the answers that can still be taken never exceed the latter at the start, and what the barrier has lost is exactly what was forfeited |
| SessionTermination.NeverStuck | karo_x2_sdk/_internal/robot_impl.py:839-844 | a waiting barrier that lost nobody has a subscribe outstanding under a running timer, or a replay queued or in flight |
| SessionTermination.RoundCanFinishIff | karo_x2_sdk/_internal/robot_impl.py:890-900 | from a waiting state READY can be reached within the round if and only if the round has lost nobody |
| SessionTermination.UnsubscribeStalls | karo_x2_sdk/_internal/robot_impl.py:1046-1055 | after an asked slot is unsubscribed during the round, no continuation of the round reaches READY |
| SessionLosses.CloseGivesUp | karo_x2_sdk/_internal/robot_impl.py:533-573 | a closing socket gives the connection up: TRANSIENT_FAILURE, no socket, no call, no subscribe and no timer of one left, every call in flight ended with the reported error, every slot registered before suspended with its buffer cleared, its position kept and PAUSED told (but for those whose unsubscribe was in flight, which leave), and the next attempt planned: a timer, or past the limit an abort; a fatal error that fails a handshake ends the session instead; an ended session is left as it is |
| SessionLosses.AckTimeoutGivesUp | karo_x2_sdk/_internal/robot_impl.py:856-861 | an acknowledgement timer that runs out gives the connection up in the same way; one that is no longer set does nothing |
| SessionLosses.DeathGivesUp | karo_x2_sdk/_internal/robot_impl.py:1407-1416 | so does a heartbeat declared dead |
| SessionLosses.UnansweredTimesOut | karo_x2_sdk/_internal/robot_impl.py:839-861 | every subscribe a waiting barrier waits for has a running timer, whose end ends the round, its slot suspended |
| SessionVerdicts.RefusedAck | karo_x2_sdk/_internal/robot_impl.py:902-926 | a refused subscribe: a fatal category ends the session, every slot closed and every call ended; a transient one during a reconnect gives the connection up; any other closes exactly that slot, and is counted as its answer during a reconnect, the last one making the session READY |
| SessionVerdicts.RefusalDecides | karo_x2_sdk/_internal/robot_impl.py:902-926 | after a refusal the session is FATAL if and only if the category is fatal, TRANSIENT_FAILURE if and only if it is transient and the session was RECONNECTING, and the slot is still registered exactly in the latter case |
| SessionVerdicts.RejectedAck | karo_x2_sdk/_internal/robot_impl.py:948-978 | a rejected subscribe asks again from scratch, under a fresh id, if and only if the stream is EVENT, its history was refused and it has not done so in this round; otherwise exactly that slot is closed and counted |
| SessionVerdicts.GrantedAck | karo_x2_sdk/_internal/robot_impl.py:928-1013 | a granted subscribe: exactly that slot is ACTIVE, with RESUMED told if it was live before or suspended since it last asked from scratch and STARTED otherwise, the gap of a resume reported, its buffer drained; it is counted during a reconnect, the last one making the session READY |
| SessionVerdicts.StrayAck | karo_x2_sdk/_internal/robot_impl.py:873-887 | an acknowledgement that finds no slot changes nothing but its own booking |
| SessionVerdicts.ConnectIsOver | karo_x2_sdk/_internal/robot_impl.py:378-435 | a connect that fails, or a handshake that cannot be sent, leaves the slots as they are and plans the next attempt; a fatal failure, or a handshake that cannot be encoded, ends the session with every slot closed; otherwise the handshake is the first thing on the new connection, and waited for |
| SessionVerdicts.HandshakeRefused | karo_x2_sdk/_internal/robot_impl.py:430-475 | a handshake refused with a fatal category ends the session; refused otherwise, or not answered in time, it leaves the slots as they are and plans the next attempt |
| SessionWitnesses.RoundStalled | karo_x2_sdk/_internal/robot_impl.py:1046-1055 | a run exists that unsubscribes the only slot of a round before its answer and after which no continuation of the round reaches READY |
| SessionAttempts.NeverPastTheLimit | karo_x2_sdk/_internal/robot_impl.py:1461-1470 | with a limit M the attempt counter and every sleeping timer stay at or below M in every run |
| SessionAttempts.NoTimerAfterTheLast | karo_x2_sdk/_internal/robot_impl.py:1464-1468 | once the counter has reached M no step sets another timer |
| SessionAttempts.CountsAttemptsIff | karo_x2_sdk/_internal/robot_impl.py:1461-1482 | all along a run the counter is the number of attempts made since the last announced reconnect if and only if every timer that attempts is the one for the next attempt |
| SessionAttempts.LimitBoundsAttempts | karo_x2_sdk/_internal/robot_impl.py:1464-1470 | in a run without stale attempts at most M attempts follow each other without a reconnect, and their number is the counter |
| SessionAttempts.OneTimerIsCurrent | karo_x2_sdk/_internal/robot_impl.py:1471-1482 | so it is in every run in which no two timers ever sleep together |
| SessionAttempts.AttemptsCountRounds | karo_x2_sdk/_internal/robot_impl.py:1471-1480 | in runs in which no two timers sleep together every attempt raises the counter by exactly one |
| SessionAttempts.RaisesByOneIff | karo_x2_sdk/_internal/robot_impl.py:1470-1480 | every timer that fires was set in a definite earlier step and has slept since; its attempt raises the counter by one if and only if the counter has not moved since that step |
| SessionWitnesses.MoreAttemptsThanAllowed | karo_x2_sdk/_internal/robot_impl.py:1461-1484 | for every limit M >= 1 there is a run with M + 1 attempts and no READY |
| SessionWitnesses.LimitExceededIff | karo_x2_sdk/_internal/robot_impl.py:1461-1484 | the number of attempts without a reconnect can exceed the limit if and only if the limit is not 0 |
| SessionStranded.ReconnectsIff | karo_x2_sdk/_internal/robot_impl.py:1461-1484 | in every reachable TRANSIENT_FAILURE a continuation reaches READY if and only if a reconnect timer sleeps; if none does an abort is queued and every continuation stays in TRANSIENT_FAILURE or ends |
| SessionStranded.NeverStranded | karo_x2_sdk/_internal/robot_impl.py:367-588 | in every run: in TRANSIENT_FAILURE a timer sleeps, or the last attempt has been made and an abort is queued; in CONNECTING an _establish is suspended; in RECONNECTING one is, or the barrier has a subscribe under a running timer, a queued replay or a replay in flight, unless it has lost somebody; a suspended handshake is in flight |
| SessionEndings.EndedStays | karo_x2_sdk/_internal/robot_impl.py:533-536 | in an ended session timers, late answers, timeouts, replays and closes change nothing; FATAL is left only by close(), SHUTDOWN only by a queued abort |
| SessionEndings.CloseIsFinalIff | karo_x2_sdk/_internal/robot_impl.py:246-283 | SHUTDOWN is kept on every continuation after close() if and only if no abort is queued and no suspended _establish survives the cancellation |
| SessionEndings.AbortIsFinalIff | karo_x2_sdk/_internal/robot_impl.py:334-365 | FATAL is terminal on every continuation after the abort if and only if no suspended _establish, in its connect or its handshake, survives the cancellation |
| SessionEndings.AbortIsFatalIff | karo_x2_sdk/_internal/robot_impl.py:334-365 | right after the abort the session is FATAL if and only if it did not interrupt a surviving handshake; otherwise TRANSIENT_FAILURE |
| SessionDefects.FatalLeft | karo_x2_sdk/_internal/robot_impl.py:1464-1484 | with a limit of 1 there is a run, with one loss of one connection, in which the abort ends FATAL and a connect begun by a stale timer takes it to TRANSIENT_FAILURE |
| SessionEndings.TerminalIsTerminal | karo_x2_sdk/_internal/robot_impl.py:246-301 | in runs in which neither close() nor an abort overtakes such an _establish, a terminal state stays terminal and moves only as an ended session does |
| SessionWitnesses.ShutdownOvertaken | karo_x2_sdk/_internal/robot_impl.py:1465-1468 | with a limit of 0 a run exists in which close(), called with no _establish suspended, is followed by FATAL |
| SessionSteps.StepInv | karo_x2_sdk/_internal/robot_impl.py:367-588 | every event of the engine keeps the invariant: tables, slots, suspended coroutines, barrier, wire, timers |
| SessionCounts.StepCounts | karo_x2_sdk/_internal/robot_impl.py:893-900 | every step keeps or ends calls for good, changes the intent only at an accepted emergency stop, and moves the attempt and reconnect counters only when a timer attempts or a reconnect is announced |
| SessionCounts.StepConcluded | karo_x2_sdk/_internal/robot_impl.py:890-900 | a step from RECONNECTING to READY leaves nobody unanswered; a step that ends the session leaves it down |
| SessionBarrier.FinishInv | karo_x2_sdk/_internal/robot_impl.py:892-900 | counting one more settled slot keeps the invariant and reaches READY only when the whole round is settled |
| SessionRounds.ResubscribeRound | karo_x2_sdk/_internal/robot_impl.py:863-871 | a round of subscribes, whichever of them fail to encode or to be sent, keeps the barrier's books |
| SessionLinks.EstablishedInv | karo_x2_sdk/_internal/robot_impl.py:467-515 | an accepted handshake, first or again, leads to a state that satisfies the invariant |
| SessionAnswers.HandleAckInv | karo_x2_sdk/_internal/robot_impl.py:873-1013 | every acknowledgement, known or stray, granted, rejected or refused, keeps the invariant |
| SessionProgress.StepNearer | karo_x2_sdk/_internal/robot_impl.py:890-1013 | each answer the barrier waits for uses up at least one of the answers it can still take |
| StreamLaws.PushLawful | karo_x2_sdk/_internal/robot_impl.py:591-613 | a pushed frame, in whatever state of the slot, keeps ledger, announcements, conservation and order |
| StreamLaws.ActivateLawful | karo_x2_sdk/_internal/robot_impl.py:928-1013 | an accepted acknowledgement with its drain keeps them too |
| StreamLaws.RepositionLaws | karo_x2_sdk/_internal/robot_impl.py:980-1007 | whatever was asked for, an accepted EVENT answer leaves the position just before the server's next number, with the gap and kind of announcement that keep the ledger |
| StreamLaws.FilterRefinesGate | karo_x2_sdk/_internal/robot_impl.py:1015-1022 | the drain's filter is only a shortcut: with the position at or past next - 1 it admits, queues and announces exactly what the gate alone would |
| StreamLaws.EveryNumberOnce | karo_x2_sdk/_internal/robot_impl.py:615-638 | any lawful slot accounts for each number since its base exactly once |
| Flows.EndToEndOrder | karo_x2_sdk/_internal/robot_impl.py:655-693 | what reached the callback and the queue is a subsequence of what arrived, through buffer, drain, gate, drops and worker |
| Flows.AdmitSound | karo_x2_sdk/_internal/robot_impl.py:640-670 | admission under either drop policy and either callback mode conserves frames and their order |
| SubSlots.SubSlot.HandlePush | karo_x2_sdk/_internal/robot_impl.py:591-613 | updates the record as the function Push says, for every state and policy |
| SubSlots.SubSlot.Deliver | karo_x2_sdk/_internal/robot_impl.py:615-670 | gate, counters and queue as the function Deliver says |
| SubSlots.SubSlot.DrainPendingBuffer | karo_x2_sdk/_internal/robot_impl.py:1015-1022 | the loop empties the buffer as the recursive Drain says |
| SubSlots.SubSlot.WorkerTurn | karo_x2_sdk/_internal/robot_impl.py:672-693 | does as the function Work: one queued frame to the callback unless the slot is closed (what that adds up to: `SessionDispatch`) |
| SubSlots.SubSlot.AcceptEvent | karo_x2_sdk/_internal/robot_impl.py:966-1007 | the four cases of an accepted EVENT answer as the function Reposition says |
| SubSlots.SubSlot.MarkAccepted | karo_x2_sdk/_internal/robot_impl.py:928-1013 | both accepted branches as the function Activate says |
| SubSlots.SubSlot.MarkPaused | karo_x2_sdk/_internal/robot_impl.py:538-545 | pauses, announces, clears the buffer and forgets the id |
| SubSlots.SubSlot.constructor | karo_x2_sdk/_internal/subscription_impl.py:23-58 | a new record is lawful |
| RobotImpls.RobotImpl.constructor | karo_x2_sdk/_internal/robot_impl.py:108-169 | a new client represents the initial session |
| RobotImpls.RobotImpl.OnTransportClose | karo_x2_sdk/_internal/robot_impl.py:533-573 | the fields move as OnTransportClose says, including the coroutines it wakes |
| RobotImpls.RobotImpl.AbortToFatal | karo_x2_sdk/_internal/robot_impl.py:334-365 | as Abort says, and every slot that was registered is kept among those that have left, closed |
| RobotImpls.RobotImpl.Close | karo_x2_sdk/_internal/robot_impl.py:246-283 | as UserClose says, and every slot that was registered is kept among those that have left, closed |
| RobotImpls.RobotImpl.SendSubscribe | karo_x2_sdk/_internal/robot_impl.py:809-854 | as SendSubscribe says, for every outcome of encoding and sending |
| RobotImpls.RobotImpl.ResubscribeAll | karo_x2_sdk/_internal/robot_impl.py:863-871 | the loop over the slots in registration order, each asked from its resume point, does as the recursive Resubscribe (what that asks for: `SessionResumes`) |
| RobotImpls.RobotImpl.SubscribeWaitingSlots | karo_x2_sdk/_internal/robot_impl.py:499-502 | the loop subscribes exactly the waiting slots, as SubscribeWaiting says |
| RobotImpls.RobotImpl.HandleSubscribeAck | karo_x2_sdk/_internal/robot_impl.py:873-1013 | as HandleAck says, for every kind of answer (what that decides: `SessionVerdicts`) |
| RobotImpls.RobotImpl.EstablishFirst | karo_x2_sdk/_internal/robot_impl.py:493-502 | as Established says on a first connection, the semantics of every slot taken from the catalogue |
| RobotImpls.RobotImpl.EstablishAgain | karo_x2_sdk/_internal/robot_impl.py:504-515 | as Established says on a reconnect, the semantics of every slot taken from the catalogue |
| RobotImpls.RobotImpl.OnConnected | karo_x2_sdk/_internal/robot_impl.py:386-435 | as Connected says, for every outcome of connect, encoding and sending |
| RobotImpls.RobotImpl.SendRpc | karo_x2_sdk/_internal/robot_impl.py:1314-1335 | registers and sends, or ends the call at once |
| RobotImpls.RobotImpl.HandleResponse | karo_x2_sdk/_internal/robot_impl.py:575-589 | ends the call with its own answer and resumes its coroutine; an unknown id changes nothing |
| RobotImpls.RobotImpl.FailEverything | karo_x2_sdk/_internal/robot_impl.py:547-556 | every call in flight ends with the error, all tables are empty |
| RobotImpls.RobotImpl.DoReconnect | karo_x2_sdk/_internal/robot_impl.py:1471-1482 | a timer attempts only from TRANSIENT_FAILURE |
| RobotImpls.RobotImpl.UnsubscribeRequest | karo_x2_sdk/_internal/robot_impl.py:1041-1105 | as Unsubscribe says, connected or not, waiting or not |
| RobotImpls.RobotImpl.HandleTopicPush | karo_x2_sdk/_internal/robot_impl.py:591-613 | only the slot of the pushed topic changes, as Push says |
| RobotImpls.RobotImpl.Serve | karo_x2_sdk/_internal/robot_impl.py:210-588 | whatever runs next, the fields move as the session steps and keep its invariant |
| TokenBucket.TokenBucketState.TryAcquire | karo_x2_sdk/_internal/robot_impl.py:81-89 | one call on the fields is one call on the bucket |
| TokenBucket.RateBound | karo_x2_sdk/_internal/robot_impl.py:73-89 | over any run of calls at most burst + max_hz * (last - first) are accepted, whatever the state before |
| TokenBucket.AcceptedIff | karo_x2_sdk/_internal/robot_impl.py:73-89 | for any burst and any run of calls: a call is accepted if and only if it fits into the window since the start and into every window that begins with a full bucket at an earlier call |
| TokenBucket.BurstOneIsMinimumSpacing | karo_x2_sdk/_internal/robot_impl.py:152-152 | with burst 1 the decisions are exactly those of the rule: the first call, then any call at least 1 / max_hz after the last accepted one |
| RateWindow.RateWindowState.Slide | karo_x2_sdk/_internal/robot_impl.py:706-719 | after a slide every bucket holds exactly the count of its own second within the last sixty |
| RateWindow.RateWindowState.Record | karo_x2_sdk/_internal/robot_impl.py:643-644 | an admitted frame is added to the exact log and to its bucket |
| RateWindow.RateWindowState.ReadMinute | karo_x2_sdk/_internal/robot_impl.py:1540-1541 | the sum of the buckets is the number of logged frames of the last sixty seconds |
| RateWindow.SumOfBuckets | karo_x2_sdk/_internal/robot_impl.py:1540-1541 | buckets that each hold their own second's count add up to the count of the window |
| Backoff.NextBackoffMs | karo_x2_sdk/_internal/robot_impl.py:1444-1459 | the early-exit loop computes min(base * 2^attempt, max); the delay lies between the floor of that less the jitter and that; fewer than 1 + log2(max / base) doublings are made |
| Backoff.EnvelopeMonotone | karo_x2_sdk/_internal/robot_impl.py:1444-1453 | later attempts never wait less before jitter, none waits longer than the maximum |
| Backoff.EnvelopeDoubles | karo_x2_sdk/_internal/robot_impl.py:1444-1453 | the first undisturbed delay is the base, and each later one twice the one before, up to the maximum |
| Backoff.JitterRange | karo_x2_sdk/_internal/robot_impl.py:1454-1459 | the jitter takes off nothing or up to its ratio, which is the one asked for or 5%, whichever is more |
| Heartbeat.DeathIsJustified | karo_x2_sdk/_internal/robot_impl.py:1370-1416 | death comes after max(1, max_missed_pings) ping windows in a row without a frame, at the interval plus those windows after the last frame; earlier only if the first timeout raced with a frame, and then by a bounded time |
| Heartbeat.MissesAreConsecutive | karo_x2_sdk/_internal/robot_impl.py:1404-1416 | the misses counted are the ping timeouts in a row since anything else happened |
| Heartbeat.SilenceIsDetected | karo_x2_sdk/_internal/robot_impl.py:1347-1416 | a silent link is declared dead by interval + max(1, max_missed_pings) * ping_timeout after the last frame |
| Heartbeat.AlwaysMoves | karo_x2_sdk/_internal/robot_impl.py:1347-1368 | until death the loop can always move at its deadline |
| Heartbeat.RaceKillsLiveLink | karo_x2_sdk/_internal/robot_impl.py:1394-1416 | with one allowed miss there is a run that declares a link dead at the instant a frame arrived |
| SessionHistory.LeaveQuiet | karo_x2_sdk/_internal/robot_impl.py:1076-1105 | an unsubscribe that resumes, whether its slot is registered, gone or replaced, forgets no slot and takes back nothing any slot has told |
| RobotImpls.RobotImpl.LeaveSlots | karo_x2_sdk/_internal/robot_impl.py:547-551 | the unsubscribes woken by a loss or a close each close the slot they hold, in the order they were made, as the recursive LeaveUpTo says |

## Left out

- `ws_client.py`: sockets, TLS and the websockets library; the transport is an arbitrary source of connect, send, receive and close outcomes.
- `proto_codec.py` and the generated protocol code: answers and pushes arrive decoded; encoding fails only where the engine handles it.
- Error-code tables of `error.py`: a code is represented by its category (transient, application, fatal, local).
- Task and navigation calls, their result messages, diagnostics assembly, JSON output, logging and percentile helpers; the calls themselves are the kind `Other` of a call.
- SubSlots.SubSlot.Deliver: the rate window that lines 643-644 update is not a field of the record; `RateWindow` is proved on its own, an admitted frame being one call of its `Record`.
- RobotImpls.RobotImpl.Command: the rate limit in front of `cmd_vel` is not part of the session; `TokenBucket` is proved on its own, a command step being one that passed it.
- RobotImpls.RobotImpl.UnsubscribeRequest: the returned error code is not modelled, because codes are categories here.
- User callbacks, weak references, finalizers and garbage collection of handles.
- Two `_establish` coroutines suspended at once: a stale timer that woke between the creation of a replay task and its start, with the connection lost in between, would begin one, and the loss the failing replay then reports would lead to another; the second assumption excludes it.
- INLINE callbacks that suspend inside a handler: the step of a handler would then be split.
- Floating-point rounding in the token bucket, the delays and the heartbeat times: reals are used.
- A negative `max_missed_pings`: validation lets it through and the heartbeat loop then spins without suspending.
- Timing of calls: a call may time out at any step, and acknowledgement timers may fire at any step while set.
- The reported reasons and codes of state changes and closed slots.
- A second subscription of a registered topic: its record is refused and closed before it is registered.
- `wait_until_ready` and the state and log callbacks.
- RobotImpls.RobotImpl: futures are the map `outcomes`, suspended coroutines the fields `est` and `unsubscribing` and the entries of `inflight`, sleeping timers and unstarted tasks the record `tasks`; the identity of a record is its serial; iteration over a dictionary is over its keys in an arbitrary order, except where `order` gives the registration order.
