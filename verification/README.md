# RCON client: connection supervisor and request multiplexer

This project models the core of a Go RCON (remote console) client, `client.go`. The client keeps one connection to a game server's administrative console. It funnels every command through a single multiplexer loop (`poll`) and matches each reply to its request, either by the request id the codec assigns or by a caller-supplied search substring. While idle it keeps the link alive with periodic reads. It redials when the connection is refused or times out.

The model is sequential. Time, goroutines and channels are replaced as follows:

- The codec library's connection is a `Console` whose write and read results are a script given in advance. A dial is a scripted `DialResult`.
- Operating-system errors are folded into one classification: refused, timeout, aborted, end of stream, other.
- The `select` of `poll` is driven by a sequence of events. `Receive` takes the next request from the queue. On an empty queue it changes nothing and the loop goes on, which stands for the `requests` case not being ready. `Tick` is the keepalive timer firing.
- The request channel is a queue (`Client.requests`).
- Each reply channel is a number. Every value sent on any reply channel is recorded, in order, in `Client.replies`.

Modules:

- `Strings` (`strings.dfy`): Go's `strings.HasPrefix` and `strings.Contains`.
- `Transport` (`transport.dfy`): error classes, scripted results and the `Console` class.
- `Multiplexer` (`multiplexer.dfy`): a pure specification of one `select` iteration (`Step`) and of one `poll` generation (`Poll`), with the lemmas about them.
- `Rcon` (`rcon.dfy`): dial-error handling, the `Do` options and reply translation, and the `Client` class. The class runs `poll`, `connect` and `connectAndPoll` imperatively. `Select`, `AwaitReply`, `Iterate` and `Poll` are proved against `Multiplexer`'s functions, and `Connect` against `FirstDecisive`. `ConnectAndPoll` is proved to keep the reply invariant and to bound its generations (see "Left out").

Behaviour of `client.go` that the model keeps as written:

- A `poll` that returns an error makes `connectAndPoll` panic. It does not redial.
- `Do` calls `strings.HasPrefix("error: ", res)`, which asks whether the reply is a prefix of the marker. As a result, only the eight prefixes of `"error: "` (the empty reply among them) become errors. The synthetic `"error: ..."` reply sent after an aborted read is returned as a success.
- `connected` is set by `connect` and never cleared.

## Model

| member | source | states |
|---|---|---|
| `Strings.ContainsIff` | client.go:134 | `strings.Contains(payload, search)` holds exactly when the search string occurs at some index of the payload, in both directions |
| `Multiplexer.Matches` | client.go:134 | the match rule. `Multiplexer.MatchesIff` states it in both directions |
| `Multiplexer.MatchesIff` | client.go:134 | a message answers the request exactly when its id is the one the write returned, or when the request has a search string that occurs at some index of the payload |
| `Multiplexer.Await` | client.go:120-138 | the await loop drops only messages that match neither by id nor by search. It stops at the first read that matches (with its payload) or at the first failed read (aborted or other). An exhausted script reads as end of stream |
| `Multiplexer.AwaitStopsAtFirstMatch` | client.go:120-137 | converse: if every earlier read is a non-matching message and read k matches, exactly k reads are dropped and read k's payload is delivered |
| `Multiplexer.Step` | client.go:102-147 | one `select` iteration writes at most one command, and only the one at the head of the queue. Its cases are stated by `WriteAbortRequeues`, `WriteErrorDropsRequest`, `FirstMatchIsDelivered`, `ReadAbortAnswers`, `ReadErrorDropsRequest` and `TickReadsOnce` below |
| `Multiplexer.StepConsumesFromFront` | client.go:111-146 | an iteration only takes write and read results from the front of the console's scripts. What is left is a suffix of what was there |
| `Multiplexer.Poll` | client.go:101-148 | a generation uses at most the events given. A generation that returns uses at least one event. It waits in `select` only once every event has been used |
| `Multiplexer.PollEndsAtReturningStep` | client.go:101-148 | a generation returns only from an iteration that returns. Every earlier event continues the loop, and the last event used produces the final state and `poll`'s error |
| `Multiplexer.WriteAbortRequeues` | client.go:111-116 | an aborted write puts the same request back on the queue and returns nil. No reply is sent |
| `Multiplexer.WriteErrorDropsRequest` | client.go:117-118 | any other write error is returned. The request is neither answered nor re-queued |
| `Multiplexer.FirstMatchIsDelivered` | client.go:120-138 | after a successful write, the first matching message goes to the request's reply channel and the reads before it are dropped. The loop continues |
| `Multiplexer.ReadAbortAnswers` | client.go:121-126 | an aborted read while awaiting sends `"error: " + err.Error()` to the request once and returns nil |
| `Multiplexer.ReadErrorDropsRequest` | client.go:127-128 | any other read error while awaiting is returned, with no reply |
| `Multiplexer.TickReadsOnce` | client.go:139-146 | a tick does exactly one read and changes nothing else. EOF returns nil, any other error is returned, and a message is dropped |
| `Multiplexer.StepRepliesOnlyToServed` | client.go:103-138 | one iteration sends at most one value, and only to the request it took from the queue: the matching payload or the abort reply |
| `Multiplexer.StepConservesChannels` | client.go:111-136 | an iteration never duplicates a reply channel. A request leaves unanswered only when `poll` then returns an error |
| `Multiplexer.StepKeepsAtMostOnce` | client.go:102-147 | one iteration keeps every reply channel in play at most once, either queued or answered |
| `Multiplexer.EnqueueKeepsAtMostOnce` | client.go:175-183 | queuing a request on a brand-new reply channel keeps that invariant |
| `Multiplexer.PollKeepsAtMostOnce` | client.go:101-148 | a whole generation keeps that invariant |
| `Multiplexer.OneValuePerReplyChannel` | client.go:124-135 | under the invariant, no reply channel has received two values |
| `Multiplexer.KeepaliveNeverReplies` | client.go:139-158 | ticks alone never change the queue, the written commands or any reply channel |
| `Multiplexer.PollServesInQueueOrder` | client.go:101-119 | within a generation, the commands written are those of a prefix of the queue, in queue order. A request re-queued after an aborted write goes to the back |
| `Rcon.HandleDialError` | client.go:160-172 | refused and timed-out dial errors give nil, so `connect` retries. Every other error is returned unchanged |
| `Rcon.FirstDecisive` | client.go:66-76 | every dial before position k is a refused or timed-out failure, and the dial at k (if any) is not |
| `Rcon.Opt.Apply` | client.go:193-197 | `UseSearch` sets the request's search string to its query and leaves the command and reply channel untouched |
| `Rcon.BuildRequest` | client.go:175-181 | options are applied in order (`UseSearch`, client.go:193-197). The search string is the last `UseSearch` query, or none without options. Command and reply channel are untouched |
| `Rcon.ToResult` | client.go:185-188 | `Do` fails exactly when the reply is one of the eight prefixes of `"error: "`, carrying the reply as the message. Otherwise it returns the reply |
| `Rcon.EmptyReplyFails` | client.go:185-186 | an empty reply is reported as an error |
| `Rcon.MarkedReplySucceeds` | client.go:185-188 | a reply that starts with `"error: "` and goes on is reported as a success |
| `Rcon.AbortReplyReachesCallerAsSuccess` | client.go:124 | the synthetic reply after an aborted read goes to the awaiting request, and `Do` reports it as a success whenever the error text is non-empty |
| `Rcon.StatusScenario` | client.go:134-135 | `"status"` written with id 7: an unrelated message (id 3) is dropped, `"server ok"` (id 7) is delivered, and `Do` returns it |
| `Rcon.FindReply` | client.go:184 | the value found was sent on the given reply channel. None is found exactly when nothing was sent on it |
| `Rcon.Client.constructor` | client.go:33-48 | a new client has no console, is not connected, and has no queued request and no reply |
| `Rcon.Client.Read` | client.go:151-158 | the keepalive read consumes one read result, drops its payload, and passes its error on |
| `Rcon.Client.Select` | client.go:102-147 | one `select` iteration leaves exactly the state and exit given by `Multiplexer.Step` |
| `Rcon.Client.AwaitReply` | client.go:120-138 | the read loop consumes the reads `Multiplexer.Await` decides on, sends its answer, and exits as it says |
| `Rcon.Client.Iterate` | client.go:102-147 | one pass of the loop over the remaining events leaves the state and exit that `Multiplexer.Poll` gives for its first event, and keeps the reply invariant |
| `Rcon.Client.Poll` | client.go:90-149 | runs `Multiplexer.Poll`. Whenever `poll` returns, the console is closed and `console` is nil. Reply channels stay in play at most once |
| `Rcon.Client.Connect` | client.go:66-88 | retries refused and timed-out dials. Returns any other dial error with no further dial. On success, closes any previous console, installs the new one and sets `connected` |
| `Rcon.Client.ConnectAndPoll` | client.go:50-64 | keeps the reply invariant and `nextReply`. It runs at most `fuel` connect-then-poll generations. When it spends them all, the generation count equals `fuel` and (if any ran) the console is cleared. A stall or a panic ends it with fewer than `fuel` generations |
| `Rcon.Client.Submit` | client.go:174-183 | `Do` makes a new reply channel, builds the request with its options, and appends it to the queue |
| `Rcon.Client.Collect` | client.go:184-188 | nothing while no value was sent on the reply channel (the caller is still blocked). Otherwise, that value translated by `ToResult` |

## Left out

- Goroutines, channels, `select`, `sync.Mutex`, the 200 ms ticker and the 5-second back-off (client.go:21-24, 36-38, 46, 74). They are replaced by an event sequence, a queue and plain calls. Concurrent `Do` calls interleave with `poll` only between `select` iterations: `Client.Poll` can stop while waiting and be called again after more `Submit` calls.
- The re-queue at client.go:114 sends on an unbuffered channel from its only receiver, which would block in Go. The model treats it as a push to the back of the queue, so after an aborted write the request is served after the requests already waiting, not retried first.
- Rcon.Client.ConnectAndPoll: the unbounded recursion is bounded by `fuel`, and `panic` becomes the `Panicked` result. Its contract states the reply invariant and the generation count. It does not state that `Panicked` carries the connect or poll error, nor that a `poll` that returns nil starts the next generation.
- The codec library (`Dial`, `Write`, `Read`, `Close`) is replaced by scripts. The host and password are not modelled. A read past the end of its script reads as end of stream. A write past the end fails with a non-abort error. `Close` never fails, so its logged error does not arise.
- errors.go, errors_windows.go, utils.go and `os.IsTimeout` are folded into the error classes of `Transport.ErrKind`.
- Logging has no behavioural effect and is left out.
- `Do` blocks until its reply arrives. It is split into `Client.Submit` and `Client.Collect`, with the multiplexer run in between.
- cmd/ark_ascended/main.go (terminal front end) and client_test.go (needs a live server) are not part of this model.
