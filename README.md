# In-memory message queue: a Dafny model

This project models the in-memory message queue of pip-services3-messages-go. The queue keeps
a FIFO sequence of pending message envelopes. A receive takes the head, mints an integer lock
token, stores the token in the envelope's reference slot and records a lease (the message, an
expiration time and a timeout) under that token in a lock table. Complete and MoveToDeadLetter
drop the lease. Abandon drops it too, and sends the message again only while the lease is still
live. RenewLock sets a live lease's expiration to the renewal time plus the timeout stored in
the lease.

The Go queue type declares only its struct and constructor. Every operation is present as a
commented-out reference implementation in the same file (queues/MemoryMessageQueue.go:62-452).
The model follows that reference implementation and cites its lines.

Modules. `Wrappers` has no source counterpart, and queues/MemoryMessageQueue.go is split
between `QueueEngine` (the state as a value) and `MemoryQueue` (the class):

- `Wrappers`: `Option` (Go's nil) and `Result` (a value or an error).
- `Capabilities`: the nine-flag `MessagingCapabilities` value and its getters.
- `Envelopes`: the class `MessageEnvelope`, with its reference slot, payload accessors and
  `ToString`, plus a reader `ParseEnvelopeText` for the text `ToString` writes.
- `Locks`: `LockedMessage`, the lease record, with liveness, grant and renewal.
- `QueueBase`: the shared base queue (name, capabilities, `CheckOpen`, `String`, the guard chain
  of `Open`). The lifecycle errors are the datatype `AppError`.
- `QueueEngine`: the queue's state as a value (`Engine`). Each operation is a transition on that
  value. The transitions `OpenWithParams`, `Close` and `EndListen` only set flags and carry no
  contract of their own; the class rows for the methods of the same names state them. The lemmas here cover FIFO order, fresh tokens, peek against receive, redelivery on
  abandon, clear, and an end-to-end scenario.
- `MemoryQueue`: the class `MemoryMessageQueue`, with the fields of the Go struct and the
  embedded base queue as a field `base`. Every state-changing method ensures
  `State() == QueueEngine.<operation>(old(State()), ...)` and keeps `Valid()`. `Valid()` says
  every token in the lock table is below the token sequence, so tokens never collide.

Time is an integer `now` argument. The wall clock, `time.Time` and `time.Duration` are all
integers here. Receive's polling loop is one look at the queue at `now`. The model is
sequential, so no message can arrive between polls, and one look decides the same outcome as
the loop. A wait timeout of zero or less hands out nothing even when messages are pending,
because the reference loop tests `i < waitTimeout` before its first poll.

Behaviours of the code that the model keeps as they are written:

- PeekBatch is the JavaScript `this.messages.slice(0, messageCount)` of
  queues/MemoryMessageQueue.go:178. It clamps a count larger than the number pending, and a
  negative count counts from the end.
- RenewLock ignores its `lockTimeout` argument. A live lease's expiration becomes now plus the
  timeout stored in the lease (queues/MemoryMessageQueue.go:275-277). The transition does not
  take `lockTimeout` at all.
- SendAsObject sends a nil payload when JSON encoding fails. The fresh envelope starts with a
  nil payload (queues/MessageQueue.go:153), and a failed `json.Marshal` leaves the payload as it
  was (queues/MessageEnvelope.go:127-130).
- An Abandon whose token is not in the lock table leaves the message's reference as it was.
  A Complete in the same case clears it.

The base accessors `GetName` and `GetCapabilities`, the queue's `IsOpen`
(queues/MemoryMessageQueue.go:67-69) and the envelope's `GetReference` only return a field.
Their behaviour is stated by the rows for `InheritMessageQueue`, the queue's constructor,
`OpenWithParams`, `Open`, `Close` and `SetReference`. The nine `Can*` getters are stated by `NewMessagingCapabilities`.

## Model

| member | source | states |
|---|---|---|
| `Capabilities.NewMessagingCapabilities` | queues/MessagingCapabilities.go:33-111 | each of the nine getters CanMessageCount … CanClear answers the constructor argument at positions 1 to 9 |
| `MemoryQueue.MemoryQueueCapabilities` | queues/MemoryMessageQueue.go:58 | the memory queue supports every operation except dead-lettering |
| `QueueBase.InheritMessageQueue` | queues/MessageQueue.go:66-77 | the base queue takes the given name (GetName answers it), and its capabilities support nothing |
| `QueueBase.MessageQueue.String` | queues/MessageQueue.go:174-176 | the text is the queue name between '[' and ']', and nothing else |
| `QueueBase.MessageQueue.CheckOpen` | queues/MessageQueue.go:133-143 | InvalidStateError NOT_OPENED with the caller's correlation id when the queue is not open; no error exactly when it is open |
| `QueueBase.OpenGuard` | queues/MessageQueue.go:112-128 | a connection-resolver error is returned unchanged; an empty connection list gives ConfigError NO_CONNECTION; then a credential error is returned; only otherwise do the resolved parameters go on to OpenWithParams |
| `MemoryQueue.MemoryMessageQueue.Open` | queues/MessageQueue.go:112-127 | a failing guard is returned and leaves the state unchanged, so OpenWithParams is not reached; otherwise the queue is opened and no error is returned |
| `MemoryQueue.MemoryMessageQueue.OpenWithParams` | queues/MemoryMessageQueue.go:79-82 | the parameters are ignored; the queue is open afterwards; nothing else changes |
| `MemoryQueue.MemoryMessageQueue.constructor` | queues/MemoryMessageQueue.go:50-60 | no pending message, empty lock table, token sequence 0, not open, not cancelled, name as given, all capabilities but dead-lettering |
| `MemoryQueue.MemoryMessageQueue.Close` | queues/MemoryMessageQueue.go:90-95 | open becomes false and cancel true; nothing else changes |
| `MemoryQueue.MemoryMessageQueue.Clear` | queues/MemoryMessageQueue.go:103-109 | pending sequence and lock table become empty, cancel false; the token sequence and the open flag are kept |
| `MemoryQueue.MemoryMessageQueue.ReadMessageCount` | queues/MemoryMessageQueue.go:116-119 | the count is the number of pending messages, and nothing changes |
| `MemoryQueue.MemoryMessageQueue.Send` | queues/MemoryMessageQueue.go:128-142 | the envelope's send time becomes `now` and the envelope is appended at the tail; earlier messages, the lock table and the envelope's other fields are unchanged |
| `QueueEngine.Send` | queues/MemoryMessageQueue.go:130-132 | appending a message keeps every token below the sequence |
| `MemoryQueue.MemoryMessageQueue.SendAsObject` | queues/MessageQueue.go:152-156 | a fresh envelope with the given correlation id, type and id, a nil reference and the JSON text (nil when the value is nil or cannot be encoded) is sent through Send |
| `MemoryQueue.MemoryMessageQueue.Peek` | queues/MemoryMessageQueue.go:151-166 | answers the transition Peek on the current state, and changes nothing |
| `QueueEngine.Peek` | queues/MemoryMessageQueue.go:153-157 | the head of the pending sequence when there is one, None exactly when the queue is empty |
| `MemoryQueue.MemoryMessageQueue.PeekBatch` | queues/MemoryMessageQueue.go:176-186 | answers the transition PeekBatch on the current state, and changes nothing |
| `QueueEngine.PeekBatch` | queues/MemoryMessageQueue.go:178 | a prefix of the pending sequence of length min(n, pending) for n ≥ 0 and max(0, pending + n) for n < 0, as JavaScript's slice clamps |
| `QueueEngine.PeekBatchPastTheEnd` | queues/MemoryMessageQueue.go:178 | a count at or past the number pending gives every pending message, not an empty batch |
| `MemoryQueue.MemoryMessageQueue.Receive` | queues/MemoryMessageQueue.go:195-250 | follows the transition Receive; the handed-out message's reference is the old token sequence, and its payload and send time are untouched; when nothing is handed out, the head envelope is untouched too |
| `QueueEngine.Receive` | queues/MemoryMessageQueue.go:204-231 | a message is handed out iff the wait timeout is positive and the queue non-empty; then exactly the head is removed, the sequence grows by one, and a lease granted at `now` for the wait timeout is stored under the old sequence value, which was not in use; earlier leases are kept, and validity is preserved; otherwise nothing changes |
| `Locks.Grant` | queues/MemoryMessageQueue.go:225-231 | a lease at grant time stores the message and the wait timeout as its timeout, and expires at grant time plus that timeout |
| `Locks.GrantedLeaseLifetime` | queues/LockedMessage.go:9-20 | a granted lease is live exactly until grant time plus its timeout |
| `Locks.LockedMessage.Renewed` | queues/MemoryMessageQueue.go:273-278 | renewal keeps the message and the timeout; a live lease now expires at `now` plus its stored timeout, and an expired lease is returned unchanged |
| `Locks.RenewalKeepsLeaseLive` | queues/MemoryMessageQueue.go:275-277 | renewing a live lease with a positive timeout, no earlier than its grant, keeps it live and never shortens it |
| `MemoryQueue.MemoryMessageQueue.RenewLock` | queues/MemoryMessageQueue.go:260-288 | follows the transition RenewLock for the message's reference; the lockTimeout argument plays no part |
| `QueueEngine.RenewLock` | queues/MemoryMessageQueue.go:261-279 | only the lock table can change, its keys stay the same, and only the entry at the message's token changes, to its renewal; no reference or no lease means no change |
| `QueueEngine.RenewKeepsLeaseLive` | queues/MemoryMessageQueue.go:272-278 | renewing a live lease leaves the pending queue alone and makes the lease expire at now plus its stored timeout |
| `MemoryQueue.MemoryMessageQueue.Complete` | queues/MemoryMessageQueue.go:297-315 | follows the transition Complete for the message's old reference, and the reference is nil afterwards |
| `QueueEngine.Complete` | queues/MemoryMessageQueue.go:304-306 | only the lock table changes: the token's lease is dropped and every other lease kept; the pending queue is not touched and the message is not requeued |
| `QueueEngine.CompleteAfterReceive` | queues/MemoryMessageQueue.go:297-306 | completing a just-received message leaves the lock table as before the receive; the message is gone from the queue |
| `MemoryQueue.MemoryMessageQueue.MoveToDeadLetter` | queues/MemoryMessageQueue.go:370-389 | the same lock bookkeeping as Complete; the reference is nil afterwards and the message is discarded |
| `QueueEngine.ClearedReferenceIsNoOp` | queues/MemoryMessageQueue.go:298-301 | with a nil reference, Complete, MoveToDeadLetter, Abandon and RenewLock change nothing, so repeating one after the reference was cleared is a no-op |
| `MemoryQueue.MemoryMessageQueue.Abandon` | queues/MemoryMessageQueue.go:326-362 | follows the transition Abandon; the reference is cleared only when a lease was found; the send time becomes `now` only when the message is requeued |
| `QueueEngine.Abandon` | queues/MemoryMessageQueue.go:332-361 | no reference or no lease: nothing changes; otherwise the lease is dropped, and the message is appended at the tail exactly when the lease was still live (expiration after now) |
| `QueueEngine.AbandonBeforeExpiryRedelivers` | queues/MemoryMessageQueue.go:336-361 | receive followed by abandon before expiry puts the message back at the tail and restores the lock table; only the token sequence has advanced |
| `QueueEngine.AbandonAfterExpiryDrops` | queues/MemoryMessageQueue.go:341-345 | receive followed by abandon at or after expiry drops the message: it is neither pending nor leased |
| `MemoryQueue.MemoryMessageQueue.EndListen` | queues/MemoryMessageQueue.go:450-452 | raises the cancellation flag; nothing else changes |
| `QueueEngine.Clear` | queues/MemoryMessageQueue.go:104-106 | clearing keeps the state valid |
| `QueueEngine.ClearEmptiesQueue` | queues/MemoryMessageQueue.go:103-109 | after Clear nothing is pending or leased, and a receive hands out nothing |
| `QueueEngine.SendSendClearScenario` | queues/MemoryMessageQueue.go:103-109 | send A, send B, clear: the count is zero and a receive hands out nothing |
| `QueueEngine.NewEngine` | queues/MemoryMessageQueue.go:53-57 | the initial state is valid: an empty lock table and sequence 0 |
| `QueueEngine.SendAllAppends` | queues/MemoryMessageQueue.go:132 | a series of sends appends the series at the tail in order, and changes nothing else |
| `QueueEngine.ReceiveAllIsFifo` | queues/MemoryMessageQueue.go:217-221 | k receives on a queue of at least k messages hand out its first k in order, leave the rest pending and advance the sequence by k |
| `QueueEngine.ReceiveAllLeaseAt` | queues/MemoryMessageQueue.go:221-231 | the i-th of k receives leases the i-th message under token sequence+i, from its own receive time |
| `QueueEngine.ReceiveAllKeepsLeases` | queues/MemoryMessageQueue.go:221-231 | receives keep the state valid, keep every earlier lease, and add no token outside the range they minted |
| `QueueEngine.ReceiveAllLeases` | queues/MemoryMessageQueue.go:221-231 | tokens never collide: k receives mint exactly sequence … sequence+k-1, token sequence+i leasing the i-th message from its receive time, and every earlier lease survives |
| `QueueEngine.FifoRoundTrip` | queues/MemoryMessageQueue.go:128-231 | messages sent into an empty queue and received as many times come out in send order, and nothing stays pending |
| `QueueEngine.PeekIsNextReceive` | queues/MemoryMessageQueue.go:156-157 | Peek shows the message the next receive with a positive timeout hands out |
| `QueueEngine.PeekBatchIsNextReceives` | queues/MemoryMessageQueue.go:178 | PeekBatch(k) shows the messages the next k receives hand out, in order |
| `QueueEngine.SuccessiveReceivesUseDistinctTokens` | queues/MemoryMessageQueue.go:221-231 | two receives in a row hand out the first two messages under two different tokens, and the first lease survives the second receive |
| `QueueEngine.SendReceiveCompleteScenario` | queues/MemoryMessageQueue.go:20-31 | built on the documented send, receive, complete workflow: on a new queue, send one message (count 1), receive it (with a wait timeout of 5000 chosen here), which leases it under token 0, complete it: nothing pending or leased |
| `MemoryQueue.SendReceiveComplete` | queues/MemoryMessageQueue.go:20-31 | the documented workflow on the class, with its values: queue "myqueue", correlation id "123", payload "ABC" of type "mymessage"; count 1 after sending, the received message has type "mymessage" and reads back "ABC", count 0 after completing (the counts and the wait timeout 5000 are added here) |
| `Envelopes.MessageEnvelope.NewMessageEnvelope` | queues/MessageEnvelope.go:44-58 | correlation id, type and id are stored exactly as given, the payload only when it was encoded, the reference starts nil |
| `Envelopes.MessageEnvelope.SetReference` | queues/MessageEnvelope.go:63-74 | after SetReference(v), GetReference answers v (nil clears it); nothing else of the envelope changes |
| `Envelopes.MessageEnvelope.GetMessageAsString` | queues/MessageEnvelope.go:79-84 | a nil payload reads as the empty string |
| `Envelopes.MessageEnvelope.SetMessageAsString` | queues/MessageEnvelope.go:92-94 | after SetMessageAsString(s), GetMessageAsString answers s |
| `Envelopes.MessageEnvelope.GetMessageAsJson` | queues/MessageEnvelope.go:102-113 | a nil payload decodes to nil; otherwise the answer is the decoder's, nil on failure |
| `Envelopes.MessageEnvelope.SetMessageAsJson` | queues/MessageEnvelope.go:123-132 | nil clears the payload, encoded text replaces it, and a failed encoding leaves it as it was |
| `Envelopes.MessageEnvelope.ToString` | queues/MessageEnvelope.go:143-164 | the text is bracketed |
| `Envelopes.ThreePartsParse` | queues/MessageEnvelope.go:143-164 | the "[C,T,M]" layout is read back by ParseEnvelopeText whenever C and T hold no comma; M may hold commas |
| `Envelopes.EnvelopeTextRoundTrip` | queues/MessageEnvelope.go:143-164 | parsing ToString's text gives back the displayed id, type and payload: the value, or "---" for an empty id or type or a nil payload |
| `Envelopes.EmptyEnvelopeText` | queues/MessageEnvelope.go:145-161 | empty id, empty type and nil payload render as "[---,---,---]" |
| `Envelopes.EmptyPayloadIsNotNil` | queues/MessageEnvelope.go:157-161 | a non-nil empty payload renders as an empty part, which differs from the "---" of a nil one |

## Left out

- The polling in Receive (`async.whilst` and `setTimeout` at a 100 ms interval) is one look at the queue at time `now`. Real waiting and timers are not modelled.
- `listen`, `BeginListen` and the receiver callback are left out. They are an asynchronous loop, a goroutine and timers, so concurrency is their whole point. Only `EndListen` is modelled, as raising the cancellation flag.
- Concurrency is left out: the `sync.Mutex` field and interleaved callers. The model is sequential.
- Logging and the sent/received/dead-lettered counters are left out. They only call an external sink.
- gob and JSON encoding and decoding, and the id generator, are left out because they are foreign libraries. An encoder's outcome is the `Encoding` argument, the JSON decoder is a function argument, and the message id is an argument. So the JSON round trip of a payload is not stated, only its nil branch.
- The payload is text (`seq<char>`). The byte buffer and its UTF-8 conversion are not modelled.
- `Configure`, `SetReferences` and the connection and credential resolvers are dependency-injection plumbing. Their results are the arguments of `Open`.
- `Correlation_id`, `Message_id` and `Message_type` are constants of the envelope. No code of the queue assigns them after construction. Direct assignment by other code is not modelled.
- Integers are unbounded. The token sequence's overflow is not modelled: a Go `int` would wrap after 2^63 receives, and the JavaScript number of the reference implementation stops giving distinct tokens after 2^53.
- MemoryQueue.MemoryMessageQueue.Send: the error result is left out. The reference send can fail only when its try block throws, and nothing in it can throw here.
- MemoryQueue.MemoryMessageQueue.Peek, PeekBatch, Receive, RenewLock, Complete, Abandon and MoveToDeadLetter: the error result is left out too. The interface gives each an `err` (queues/IMessageQueue.go:86-143), and the reference code returns one only from the `catch` of its try block (queues/MemoryMessageQueue.go:152-165, 177-185, 215-240, 267-287, 303-314, 332-359, 376-388). Nothing in those blocks can throw here.
- MemoryQueue.MemoryMessageQueue.constructor: the Go constructor calls `NewMessageQueue(name)` (queues/MemoryMessageQueue.go:52), which the base file does not define; it defines `InheritMessageQueue(overrides, name)` (queues/MessageQueue.go:66). The model takes `InheritMessageQueue(name)` and drops `overrides`. In the source the base's `Open`, `CheckOpen` and `SendAsObject` reach `OpenWithParams`, `IsOpen` and `Send` through the embedded `IMessageQueueOverrides` (queues/MessageQueue.go:53, 127, 134, 155). The model calls the memory queue's own methods directly, so dispatch to some other overrides object is not modelled.
- Envelopes.MessageEnvelope.SetReference: the reference is `Option<int>`. In Go it is an `interface{}` (queues/MessageEnvelope.go:22), and the lock table is looked up with whatever value it holds. A non-integer reference set by a caller cannot be expressed in the model.
- The factories under build/ and the interface-only files are left out. They hold no queue logic.
