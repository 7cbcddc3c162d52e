# Queue bot: per-chat queue and turn countdown

A Telegram bot lets the members of a chat queue for one shared resource. A user joins with
`/join`. One user at a time holds a ten-minute turn (a "countdown"). The turn ends when its
owner sends `/stoptime` or when its timer runs out, and the bot then starts a countdown for the
user at the head of the queue. A turn started by a join or by a stop leaves its holder at the
head of the queue. A turn started by an expiry removes its holder from the queue first, so the
head is then a user who is still waiting. `/queue` lists the queue.

This project models that state machine as the bot's code has it. The model has three modules:

- `QueueTypes` (`queue_types.dfy`): chat and user ids, the queue entry `QueueItem` (label and user
  id), the cancel handle, the turn length (600 seconds), and the predicates "this user is queued"
  and "no user is queued twice".
- `Countdown` (`countdown.dfy`): the state of one chat as a value (`ChatState`: the queue and an
  optional live `Turn` with owner, deadline and cancel handle). It defines the four transitions
  as functions: `JoinStep`, `StartStep`, `StopStep` and `ExpireStep`. It also proves the lemmas
  about runs of several steps.
- `Bot` (`bot.dfy`): class `QueueBot`. It holds the bot's four global maps keyed by chat id
  (`queues`, `activeCountdowns`, `countdownOwners`, `countdownCancelFuncs`), the set of
  cancelled handles and a handle counter. Each handler is a method that updates the maps in
  place. Each method is proved to keep `Valid()` true. Its `ensures` says that the chat it
  serves moves by exactly the matching `Countdown` step, and that every other chat is
  unchanged. `Valid()` says: no chat queues a user twice; owner, deadline and cancel handle are
  present together; and a live handle was handed out, is not cancelled and belongs to one chat.

Time is an integer `now`, in seconds, passed to each operation. A countdown started at `now`
ends at `now + 600`. `context.WithCancel` becomes a counter that hands out a new handle for
each started countdown. Calling `cancel()` adds the handle to `cancelled`.

The model follows the code as written wherever it differs from the idealised design:

- A turn started by a join leaves its holder at the head of the queue
  (`JoinStartedTurnIsHead`).
- A stop starts the next countdown for the head of the queue without removing it. So an owner
  who is still at the head gets a new turn right away (`StopByHeadRestartsOwnTurn`,
  `LoneOwnerCannotStop`).
- An expiry removes the head and promotes it. So the first joiner of an idle chat, who is still
  at the head, is promoted a second time (`FirstJoinerIsPromotedAgain`).
- The "next in queue" hint reads index 1 of the queue. After an expiry has removed the head,
  that entry is not the next to be promoted (`ExpiryHintSkipsNextHolder`).
- Join checks only the queue, not the current owner (`HolderMayJoinAgain`).
- The join handler calls `startCountdown` while it holds the global mutex, and
  `startCountdown` locks the same mutex again (cmd/main.go:63-64, 93, 98). Go mutexes are not
  reentrant, so the first join into an idle chat blocks for ever. That join runs on the bot's
  only update loop (cmd/main.go:37-47) and the mutex is shared by all chats. So the whole bot
  stops: no chat gets any further command handled, and no timer can take the mutex to expire.
  Every state the model reaches after such a first join is therefore unreachable in the
  program as written. The model treats the call as an ordinary sequential call, so that it
  describes what the handlers would do without the deadlock. The deadlock is recorded here
  only, not as a proved property.
- `FirstJoinerRun` in `bot.dfy` runs the handlers of a new `QueueBot`: two joins and three
  expiries. It checks that chat 1 passes through the same states, handles included, as
  `FirstJoinerIsPromotedAgain` computes.

## Model

| member | source | states |
|---|---|---|
| `QueueTypes.Label` | cmd/main.go:79-81 | the stored label starts with the first name and ends with the user name and a closing parenthesis; its length is both names plus the four separator characters |
| `QueueTypes.AppendKeepsNoDuplicates` | cmd/main.go:70-82 | appending a user whose id the scan did not find keeps the queue duplicate-free, and the user is then queued |
| `QueueTypes.SuffixKeepsNoDuplicates` | cmd/main.go:143-145 | dropping a prefix of the queue (the re-slice `[1:]`) keeps it duplicate-free |
| `Countdown.StartStep` | cmd/main.go:97-109 | the queue is untouched; afterwards a countdown is always live; a live countdown is never replaced; otherwise the user owns a new turn whose deadline is `now` plus ten minutes |
| `Countdown.JoinStep` | cmd/main.go:62-94 | an already queued user changes nothing; anyone else is appended at the end; the queue stays duplicate-free and holds the joiner; the countdown changes if and only if the joiner was appended to an empty queue of an idle chat, and then the joiner owns it |
| `Countdown.StopStep` | cmd/main.go:163-192 | a requester who does not own the live countdown (or when none is live) changes nothing; the owner's stop leaves the queue unchanged, and the chat is idle if the queue is empty, otherwise the head owns a new countdown |
| `Countdown.ExpireStep` | cmd/main.go:135-158 | with an empty queue the chat ends empty and idle; otherwise exactly the head is removed and owns a new countdown; the queue stays duplicate-free |
| `Countdown.JoinsKeepArrivalOrder` | cmd/main.go:70-94 | joins by distinct, not yet queued users leave the queue as the old queue followed by the joiners in arrival order; only the first joiner into an empty idle chat starts a countdown, otherwise the countdown is unchanged |
| `Countdown.ExpiriesFollowQueueOrder` | cmd/main.go:135-152 | after n expiries the first n entries have left the queue, the n-th of them owns the turn, and its deadline is n turn lengths after the first expiry |
| `Countdown.ExpiriesDrainChat` | cmd/main.go:139-158 | one expiry more than there are queued entries leaves the chat with an empty queue and no countdown |
| `Countdown.JoinStartedTurnIsHead` | cmd/main.go:92-93 | a countdown started by a join belongs to the only entry of the queue, which stays at its head |
| `Countdown.HolderMayJoinAgain` | cmd/main.go:70-82 | an owner who is not in the queue is appended on joining and keeps the turn |
| `Countdown.StopByHeadRestartsOwnTurn` | cmd/main.go:178-190 | when the owner is the head of the queue, the owner's stop leaves the queue as it was and the same user owns the new countdown |
| `Countdown.StopDiffersFromExpiryOnlyByPop` | cmd/main.go:139-190 | the owner's stop and an expiry promote the same entry with the same deadline and handle; the stop keeps that entry at the head of the queue, the expiry removes it |
| `Countdown.ExpiryHintSkipsNextHolder` | cmd/main.go:115-152 | after an expiry the index-1 hint names the third entry of the old queue, while the next expiry promotes the second, a different user |
| `Countdown.FirstJoinerIsPromotedAgain` | cmd/main.go:62-158 | A then B join an idle chat: A owns the turn with queue [A, B]; the expiries give A again with queue [B], then B with an empty queue, then an empty idle chat |
| `Countdown.LoneOwnerCannotStop` | cmd/main.go:62-192 | a user alone in an idle chat joins, stops, and owns a new countdown at once, still in the queue |
| `Countdown.NonOwnerStopIsRefused` | cmd/main.go:170-175 | while A owns the turn, B's stop leaves the chat exactly as it was |
| `Bot.QueueBot.constructor` | cmd/main.go:18-21 | all four maps start empty: every chat has an empty queue and no countdown; the invariant holds |
| `Bot.QueueBot.IsQueued` | cmd/main.go:70-77 | the scan finds a match exactly when some queue entry of the chat carries the user id |
| `Bot.QueueBot.Queue` | cmd/main.go:201-207 | returns the chat's current queue, and it is empty exactly when the chat has no queue entry or an empty one |
| `Bot.QueueBot.StartCountdown` | cmd/main.go:97-123 | starts exactly when no countdown is live; the chat moves by `StartStep` with a new handle; the hint is the entry at index 1; queues, cancelled handles and other chats are unchanged; the invariant is kept |
| `Bot.QueueBot.Join` | cmd/main.go:62-95 | accepts exactly when the user is not in the chat's queue; the chat moves by `JoinStep` with the label built from both names; the handle counter advances only when the joiner was appended to an empty queue of an idle chat; so a refused join changes no chat, no handle and no cancellation; other chats are unchanged; the invariant is kept |
| `Bot.QueueBot.StopTime` | cmd/main.go:163-199 | succeeds exactly when the requester owns the live countdown; then the old handle is cancelled, the chat moves by `StopStep`, the head is returned as next, and the handle counter advances only when the queue is not empty; on refusal the chat, the cancelled handles and the counter are unchanged; other chats are unchanged; the invariant is kept |
| `Bot.QueueBot.Expire` | cmd/main.go:130-158 | the firing of the live countdown's timer at or after its deadline moves the chat by `ExpireStep` and returns the removed head; the handle counter advances exactly when the queue was not empty; no handle is cancelled; other chats are unchanged; the invariant is kept |

## Left out

- The Telegram client, the update loop and command dispatch (`main`, cmd/main.go:24-60). These are network I/O. The hard-coded bot token goes with them.
- All sent messages, their Russian texts, `fmt.Sprintf` formatting, the numbered listing in `handleQueue`, `handleHelp` and `getCommandButtons`. These are presentation. Only the data the messages carry is returned: the join verdict, the stop verdict, the next entry and the promoted entry.
- The mutex and the goroutines (`go handleQueue`, `go startCountdown`, the timer goroutine with `select` and `time.After`). Each operation is one atomic step. So the model does not capture three things. First, a stop can race with a timer that has already fired and is waiting for the mutex; that timer then clears the new countdown. Second, other commands can run between a stop or expiry and the countdown it starts with `go`. Third, the first join into an idle chat blocks for ever on the re-locked mutex. That halts the bot's single update loop for every chat and keeps every timer from firing.
- Bot.QueueBot.Expire: models only a timer that fires while its own countdown is live. The timers of cancelled countdowns return without touching state, so they are not modelled.
- The wall clock (`time.Now()`) and the `15:04:05` time format. Both are replaced by the integer `now` parameter, in seconds.
- 64-bit chat ids and machine-width user ids are unbounded integers. Ids are only compared and used as map keys, so their width does not matter.
- Removal from the queue by position and a separate start command. The modelled source has neither.
