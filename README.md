# TCP socket wrapper: connection and request-correlation model

This project models `TcpSocket`, the transport class of a client library for
Wi-Fi smart-home devices. `TcpSocket` keeps one TCP session to a device and
offers a request/response call on top of it. It has two parts:

- The **connection manager**. `connect()`, `disconnect()` and `send()`, and
  the socket's `data`, `error`, `close` and `timeout` handlers. These maintain
  the `connected` flag, the socket handle, and the single "next message" slot.
  They also report every connection-state change to a callback supplied by
  the user.
- The **request cycle** (`sendWaitForResponse`). It writes a request, empties
  the slot, and then polls every 10 ms. Each poll checks, in this order:
  1. a message in the slot (the cycle resolves with it);
  2. a lost connection (the cycle fails with "Socket closed without sending
     response");
  3. an exhausted counter (the cycle fails with "Response timeout exceeded").

The model has three modules:

- `Connection` (`connection.dfy`) holds the connection state as a value
  (`Conn`). Every transport event and every state-changing call is an `Event`.
  `Apply` gives the effect of one event and `Run` folds a sequence of events.
  The lemmas are about runs:
  - `connected` always equals the last value sent to the callback;
  - the socket handle is never removed;
  - the slot holds the last payload received;
  - a connect attempt is decided by whichever comes first, the connect
    callback or a close.
- `Polling` (`polling.dfy`) holds one cycle's poll loop as a value (`Cycle`:
  the `attempts` counter and the outcome). `Step` is one poll and `Ticks` is a
  sequence of polls. The lemmas show three things:
  - the first poll that sees something decisive settles the cycle for good;
  - a silent, connected cycle times out on poll 1002;
  - a payload that arrives while the request is being written is lost.
- `TcpSockets` (`tcp_socket.dfy`) is the class form. `TcpSocket` has the
  source's mutable fields and one method per handler or operation. Each method
  that changes state is specified by `Apply` on the abstract state `State()`
  (the handler wrapper by `Notify`).
  `PendingRequest` holds the local state of one cycle, with a `Tick` per
  interval. `AwaitWithoutEvents` runs the interval loop until the cycle
  settles.

A request cycle follows `sendWaitForResponse` in four steps:

1. `Send`. If it fails, the cycle rejects with the send's reason and the slot
   is not touched.
2. Any transport events that arrive while the write is in flight.
3. `BeginWait`, which empties the slot and starts the poll loop.
4. `PendingRequest.Tick`, one call per interval, with transport events in
   between.

`Polling.CycleResponse` turns the send's status and the poll loop's state into
what the caller receives. `SendWaitForResponseWithoutEvents` puts the four
steps together for a cycle during which no transport event arrives.

The model follows the code as written:

- `send` checks only whether a socket handle exists, not the `connected` flag.
- The `close` handler never clears the handle. So `send` still succeeds after
  the connection drops, despite its "please call connect()" message. A cycle
  started after a drop therefore fails with "Socket closed without sending
  response" on its first poll, not with the send error.
- The slot is overwritten on every `data` event, whether or not the socket is
  connected or a cycle is waiting.
- A cycle first polls while `attempts` is 0. The comparison
  `attempts++ > 10000 / 10` uses the value from before the increment. So a
  silent, connected cycle stays pending for polls 1 through 1001 and fails on
  poll 1002, not after exactly 1000 polls.
- The test `if (this.nextMessage)` is true for any buffer object, even an
  empty one. So any received payload, empty or not, resolves the cycle (it is
  `Some(…)` in the model).

## Model

| member | source | states |
|---|---|---|
| `Connection.Notify` | src/tcp-socket.ts:21-24 | after the wrapped handler is called with `b`, `connected` is `b`, `b` is appended exactly once to the callback log, nothing else changes, and `connected` equals the last notification |
| `Connection.Apply` | src/tcp-socket.ts:27-75 | only the connect callback (to true) and a close (to false) change `connected`, and each logs exactly one notification; a handle appears only when `connect()` runs while disconnected and is never removed; a `data` event replaces the slot whatever it held; `connect()` while connected, `error` and `timeout` change nothing; consistency of `connected` with the log is preserved |
| `Connection.Run` | src/tcp-socket.ts:17-75 | over any sequence of events: `connected` keeps equalling the last notification, a socket handle once present stays present, and the callback log only grows |
| `Connection.SendStatus` | src/tcp-socket.ts:88-96 | `send` fails, with "Socket isn't running, please call connect()", exactly when no socket handle exists; the `connected` flag plays no part |
| `Connection.DisconnectWhileConnectingEndsNothing` | src/tcp-socket.ts:78-86 | while an attempt is still connecting, `disconnect` ends nothing although a handle exists; after the connect callback it would end the transport |
| `Connection.DisconnectEndsAfterLastTransition` | src/tcp-socket.ts:78-86 | once an attempt has started, `disconnect` ends the transport exactly when the last connect callback or close was a connect callback: after a close it ends nothing, although the handle is kept |
| `Connection.LastPayloadWins` | src/tcp-socket.ts:48-50 | after any run, the slot holds exactly the payload of the last `data` event not followed by a clearing: payloads overwrite and are never appended |
| `Connection.LastTransitionWins` | src/tcp-socket.ts:41-70 | after any run, `connected` is true exactly when the last connect callback or close was a connect callback |
| `Connection.SettledAttemptStays` | src/tcp-socket.ts:41-70 | within one attempt, once its promise is settled no later event changes it |
| `Connection.AttemptSettledByFirstTransition` | src/tcp-socket.ts:35-70 | a connect attempt is fulfilled exactly when the connect callback comes before any close, rejected with "Unable to connect to device…" exactly when a close comes first, and pending otherwise |
| `Connection.SendSurvivesClose` | src/tcp-socket.ts:58-96 | once a connect attempt has started, `send` succeeds after any later events, including a close that leaves `connected` false |
| `Polling.Step` | src/tcp-socket.ts:112-124 | one poll: a settled cycle is unchanged; in a pending cycle a present message resolves with that message, else a lost connection fails with Closed, else the counter is compared and then incremented, timing out exactly when its old value exceeds 1000 |
| `Polling.CycleResponse` | src/tcp-socket.ts:99-124 | a failed send rejects the cycle at once with its own reason; after a successful send the cycle answers with the message it resolved with, rejects with the closed or timeout reason, or is still unsettled while pending |
| `Polling.Ticks` | src/tcp-socket.ts:109-125 | repeated polls add at most one attempt each, and a cycle still pending after them has counted every one |
| `Polling.CycleAfterCloseFailsClosed` | src/tcp-socket.ts:58-124 | a cycle started after the connection dropped passes `send`, because the handle is kept, and fails on its first poll with "Socket closed without sending response", never with the send error |
| `Polling.PendingWithinBudget` | src/tcp-socket.ts:105-124 | whatever each poll sees, a cycle that is still pending has counted at most 1001 attempts |
| `Polling.BudgetPlusTwoPollsSettle` | src/tcp-socket.ts:105-124 | any 1002 polls settle a cycle, whatever arrives between them |
| `Polling.ReplyResolvesWaitingCycle` | src/tcp-socket.ts:112-115 | a reply that arrives while a silent, connected cycle waits resolves it with that reply on the next poll, having counted one attempt per earlier poll |
| `Polling.SettledIsFinal` | src/tcp-socket.ts:113-123 | once a cycle has settled, no number of further polls changes its outcome or counter |
| `Polling.QuietPollsStayPending` | src/tcp-socket.ts:108-124 | polls that see no message, a live connection and a counter within budget leave the cycle pending, adding one attempt per poll |
| `Polling.FirstDecisivePollSettles` | src/tcp-socket.ts:108-124 | over any sequence of polls, the first poll that sees a message, a lost connection or an exhausted counter settles the cycle by the priority order, and the result is final |
| `Polling.TimeoutOnPollAfterBudgetPlusOne` | src/tcp-socket.ts:105-124 | connected and silent, the cycle is pending with `attempts == n` after polls 1..1001 and fails with a timeout on poll 1002, with `attempts == 1002` from then on |
| `Polling.PayloadDuringWriteIsLost` | src/tcp-socket.ts:100-103 | a payload that arrives before the slot is cleared after the write is lost: a connected, silent cycle then times out on poll 1002 instead of resolving with it |
| `Polling.CloseFailsWaitingCycle` | src/tcp-socket.ts:116-119 | a close while a silent cycle waits fails it with Closed on the next poll, having counted one attempt per earlier poll |
| `TcpSockets.TcpSocket.constructor` | src/tcp-socket.ts:17-25 | a new wrapper is not connected, has no socket, holds no message and has notified nothing |
| `TcpSockets.TcpSocket.ConnectionChanged` | src/tcp-socket.ts:21-24 | the handler wrapper sets `connected` to the value and logs it once |
| `TcpSockets.TcpSocket.Connect` | src/tcp-socket.ts:27-46 | when connected, resolves at once and changes nothing (no new socket, no notification); otherwise creates the socket and starts a fresh, unresolved attempt whose promise is returned unsettled |
| `TcpSockets.TcpSocket.OnConnect` | src/tcp-socket.ts:41-46 | the connect callback sets `connected`, logs `true`, marks the attempt resolved and fulfils its promise |
| `TcpSockets.TcpSocket.OnData` | src/tcp-socket.ts:48-50 | the `data` handler overwrites the slot with the payload and changes nothing else |
| `TcpSockets.TcpSocket.OnError` | src/tcp-socket.ts:52-56 | the `error` handler changes no field; it logs exactly when the attempt has resolved |
| `TcpSockets.TcpSocket.OnSocketTimeout` | src/tcp-socket.ts:72-74 | the `timeout` handler always logs a warning and changes no field |
| `TcpSockets.TcpSocket.OnClose` | src/tcp-socket.ts:58-70 | the `close` handler rejects the attempt with "Unable to connect to device…" only if it had not resolved, then sets `connected` false and logs `false`; the socket handle is kept |
| `TcpSockets.TcpSocket.Disconnect` | src/tcp-socket.ts:78-86 | `disconnect` ends the socket exactly when connected with one, never fails, and changes no field |
| `TcpSockets.TcpSocket.Send` | src/tcp-socket.ts:88-96 | `send` fails with "Socket isn't running…" exactly when no handle exists and changes no field |
| `TcpSockets.TcpSocket.BeginWait` | src/tcp-socket.ts:100-108 | once the write has completed, the slot is cleared and a fresh cycle starts with `attempts` 0 and outcome pending |
| `TcpSockets.PendingRequest.constructor` | src/tcp-socket.ts:108 | a new cycle's counter starts at 0, pending |
| `TcpSockets.PendingRequest.Tick` | src/tcp-socket.ts:109-125 | one interval updates the cycle exactly as `Polling.Step` does on the socket's current slot and flag |
| `TcpSockets.AwaitWithoutEvents` | src/tcp-socket.ts:105-125 | if no event arrives while waiting, the interval loop settles on poll 1 when a message is present or the socket is disconnected, and otherwise times out on poll 1002; the result agrees with `Polling.Ticks` |
| `TcpSockets.SendWaitForResponseWithoutEvents` | src/tcp-socket.ts:98-128 | a whole cycle with no transport event: without a handle it rejects with "Socket isn't running…" and changes nothing; with one it clears the slot and, since nothing can arrive, rejects with the closed reason on poll 1 when disconnected or the timeout reason on poll 1002 when connected |
| `TcpSockets.ConnectTwice` | src/tcp-socket.ts:27-46 | calling `connect()` again after a successful connect resolves at once and causes no second handshake or notification |

## Left out

- The request queue (`promise-queue`, src/tcp-socket.ts:3,15,99) is a library whose code is not part of this model. The model assumes that at most one cycle is active at a time and that cycles are admitted in FIFO order. Nothing about the queue is proved.
- Real networking is left out: `net.createConnection`, IP-family detection with `isIP`, and how writes are flushed. The socket is reduced to a "handle present" flag. Its events are method calls that the environment makes in any order.
- The bytes that `send` writes are not recorded. Only whether the write is issued is modelled.
- Timers and promises are left out. Each interval is one call to `Tick`, and a promise is a `Promise` value that settles once. The 10 ms timing itself is not modelled.
- Logging is left out. The `hadError` flag of the `close` event only chooses a log message, so `OnClose` takes no parameter. `OnError` returns whether the error would be logged. `OnSocketTimeout` returns that it always logs.
- `clearTimeout(this.interval)` (src/tcp-socket.ts:110) is left out. `this.interval` is never assigned, so the call does nothing.
- Old sockets are left out. When `connect()` replaces the socket, only the newest socket's handlers are modelled. The handlers of a replaced socket, which stay attached, are not.
- Event order is not restricted. The model accepts transport events in orders Node's sockets never produce, such as a connect callback after a close. The settle-once semantics of promises keeps these consistent, and no property depends on them.
- `AwaitWithoutEvents` and `SendWaitForResponseWithoutEvents` cover only waits during which no transport event arrives. Waits with events in between are covered on values: `Polling.FirstDecisivePollSettles` and `Polling.PendingWithinBudget` hold for arbitrary sequences of views, `Polling.BudgetPlusTwoPollsSettle` shows any 1002 polls settle a cycle, and `Polling.ReplyResolvesWaitingCycle` and `Polling.CloseFailsWaitingCycle` show a reply or a close arriving mid-wait. No method interleaves event handlers with `PendingRequest.Tick` calls.
- src/credentials-cache.ts is not part of this model. It only does filesystem I/O and JSON encoding.
