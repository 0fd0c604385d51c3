/**
  The in-memory message queue (queues/MemoryMessageQueue.go). Each method follows the
  reference implementation and is proved to move the queue's state as the matching
  transition of module QueueEngine does. Time is the integer `now` the caller passes.
*/
module MemoryQueue {
  import opened Wrappers
  import opened Capabilities
  import opened Envelopes
  import opened Locks
  import opened QueueBase
  import QueueEngine

  /** Every operation is supported except dead-lettering. */
  function MemoryQueueCapabilities(): (c: MessagingCapabilities)
    ensures !c.CanDeadLetter()
    ensures c.CanMessageCount() && c.CanSend() && c.CanReceive() && c.CanPeek() && c.CanPeekBatch()
    ensures c.CanRenewLock() && c.CanAbandon() && c.CanClear()
  {
    NewMessagingCapabilities(true, true, true, true, true, true, true, false, true)
  }

  class MemoryMessageQueue {
    /** The embedded base queue: name and capabilities. */
    var base: MessageQueue
    var messages: seq<MessageEnvelope>
    var lockTokenSequence: int
    var lockedMessages: map<int, LockedMessage>
    var isOpened: bool
    /** Raised by Close and EndListen so that a running listen loop stops. */
    var cancel: bool

    /** The queue's own fields as a QueueEngine state. */
    function State(): QueueEngine.Engine
      reads this
    {
      QueueEngine.Engine(messages, lockedMessages, lockTokenSequence, isOpened, cancel)
    }

    ghost predicate Valid()
      reads this
    {
      QueueEngine.Valid(State())
    }

    /**
      NewMemoryMessageQueue: the base queue for `name`, then an empty queue, token
      sequence 0, closed, not cancelled, and every capability but dead-lettering.
    */
    constructor (name: string)
      ensures Valid()
      ensures State() == QueueEngine.NewEngine()
      ensures base.GetName() == name && base.GetCapabilities() == MemoryQueueCapabilities()
    {
      var inherited := InheritMessageQueue(name);
      messages := [];
      lockTokenSequence := 0;
      lockedMessages := map[];
      isOpened := false;
      cancel := false;
      base := inherited.(capabilities := MemoryQueueCapabilities());
    }

    function IsOpen(): bool
      reads this
    {
      isOpened
    }

    /** The memory queue has no transport: the parameters are accepted and ignored. */
    method OpenWithParams<C, K>(correlationId: string, connections: seq<C>, credential: Option<K>)
      returns (err: Option<AppError>)
      requires Valid()
      modifies this
      ensures Valid() && err == None
      ensures State() == QueueEngine.OpenWithParams(old(State())) && base == old(base)
      ensures IsOpen()
    {
      isOpened := true;
      err := None;
    }

    /**
      Open over the resolvers' results: a failing guard is returned and OpenWithParams
      is not called; otherwise OpenWithParams' result is returned.
    */
    method Open<C, K>(correlationId: string, connections: Result<seq<C>, AppError>,
                      credential: Result<Option<K>, AppError>) returns (err: Option<AppError>)
      requires Valid()
      modifies this
      ensures Valid() && base == old(base)
      ensures var guard := OpenGuard(correlationId, connections, credential);
              && (guard.Failure? ==> err == Some(guard.error) && State() == old(State()))
              && (guard.Success? ==> err == None && State() == QueueEngine.OpenWithParams(old(State())))
    {
      var guard := OpenGuard(correlationId, connections, credential);
      if guard.Failure? {
        return Some(guard.error);
      }
      err := OpenWithParams(correlationId, guard.value.0, guard.value.1);
    }

    /** Closes the queue and raises the cancellation flag for a running listen loop. */
    method Close(correlationId: string)
      requires Valid()
      modifies this
      ensures Valid() && base == old(base)
      ensures State() == QueueEngine.Close(old(State()))
      ensures !IsOpen() && cancel
    {
      isOpened := false;
      cancel := true;
    }

    /** Empties the pending sequence and the lock table and lowers the cancellation flag. */
    method Clear(correlationId: string)
      requires Valid()
      modifies this
      ensures Valid() && base == old(base)
      ensures State() == QueueEngine.Clear(old(State()))
    {
      messages := [];
      lockedMessages := map[];
      cancel := false;
    }

    /** The number of messages waiting to be received. */
    method ReadMessageCount() returns (count: int)
      ensures count == |messages|
    {
      count := |messages|;
    }

    /** Stamps the send time and appends the envelope at the tail. */
    method Send(correlationId: string, envelope: MessageEnvelope, now: int)
      requires Valid()
      modifies this, envelope`sentTime
      ensures Valid() && base == old(base)
      ensures State() == QueueEngine.Send(old(State()), envelope)
      ensures envelope.sentTime == now
    {
      envelope.sentTime := now;
      messages := messages + [envelope];
    }

    /**
      SendAsObject: a fresh envelope with the given correlation id, type and id whose
      payload is the JSON encoding of the value, sent through Send.
    */
    method SendAsObject(correlationId: string, messageType: string, value: Encoding, messageId: string, now: int)
      returns (envelope: MessageEnvelope)
      requires Valid()
      modifies this
      ensures Valid() && base == old(base) && fresh(envelope)
      ensures State() == QueueEngine.Send(old(State()), envelope)
      ensures envelope.correlationId == correlationId && envelope.messageType == messageType
      ensures envelope.messageId == messageId && envelope.reference == None && envelope.sentTime == now
      ensures envelope.message == if value.Encoded? then Some(value.text) else None
    {
      envelope := new MessageEnvelope.NewMessageEnvelope(correlationId, messageType, NilValue, messageId);
      envelope.SetMessageAsJson(value);
      Send(correlationId, envelope, now);
    }

    /** The head of the queue without removing it, or None when the queue is empty. */
    method Peek(correlationId: string) returns (message: Option<MessageEnvelope>)
      ensures message == QueueEngine.Peek(State())
    {
      message := None;
      if |messages| > 0 {
        message := Some(messages[0]);
      }
    }

    /** Up to `messageCount` messages from the head, clamped as a JavaScript slice; nothing is removed. */
    method PeekBatch(correlationId: string, messageCount: int) returns (batch: seq<MessageEnvelope>)
      ensures batch == QueueEngine.PeekBatch(State(), messageCount)
    {
      var end := messageCount;
      if end < 0 {
        end := |messages| + end;
        if end < 0 {
          end := 0;
        }
      } else if end > |messages| {
        end := |messages|;
      }
      batch := messages[..end];
    }

    /**
      Receive with the polling loop collapsed into one look at time `now`: with a
      positive wait timeout and a message pending, the head is removed, stamped with
      the next lock token and leased until `now + waitTimeout`.
    */
    method Receive(correlationId: string, waitTimeout: int, now: int) returns (message: Option<MessageEnvelope>)
      requires Valid()
      modifies this, if |messages| > 0 then {messages[0]} else {}
      ensures Valid() && base == old(base)
      ensures var d := QueueEngine.Receive(old(State()), waitTimeout, now);
              State() == d.after && message == d.message
      ensures message.Some? ==> message.value.reference == Some(old(lockTokenSequence))
      ensures message.Some? ==> message.value.sentTime == old(message.value.sentTime)
                                && message.value.message == old(message.value.message)
      ensures message.None? && |old(messages)| > 0 ==> unchanged(old(messages[0]))
    {
      if waitTimeout <= 0 || |messages| == 0 {
        return None;
      }
      var head := messages[0];
      messages := messages[1..];
      var lockedToken := lockTokenSequence;
      lockTokenSequence := lockTokenSequence + 1;
      head.SetReference(Some(lockedToken));
      lockedMessages := lockedMessages[lockedToken := LockedMessage(head, now + waitTimeout, waitTimeout)];
      message := Some(head);
    }

    /**
      RenewLock: a live lease under the message's token is extended from `now` by the
      lease's stored timeout; `lockTimeout` is not used. No reference or no lease: nothing changes.
    */
    method RenewLock(message: MessageEnvelope, lockTimeout: int, now: int)
      requires Valid()
      modifies this
      ensures Valid() && base == old(base)
      ensures State() == QueueEngine.RenewLock(old(State()), message.reference, now)
    {
      if message.GetReference().None? {
        return;
      }
      var lockedToken := message.GetReference().value;
      if lockedToken in lockedMessages {
        var lockedMessage := lockedMessages[lockedToken];
        if lockedMessage.expirationTime > now {
          lockedMessages := lockedMessages[lockedToken := lockedMessage.(expirationTime := now + lockedMessage.timeout)];
        }
      }
    }

    /** Drops the lease under the message's token and clears its reference; the message is not requeued. */
    method Complete(message: MessageEnvelope)
      requires Valid()
      modifies this, message`reference
      ensures Valid() && base == old(base)
      ensures State() == QueueEngine.Complete(old(State()), old(message.reference))
      ensures message.reference == None
    {
      if message.GetReference().None? {
        return;
      }
      var lockKey := message.GetReference().value;
      lockedMessages := lockedMessages - {lockKey};
      message.SetReference(None);
    }

    /**
      Abandon: with a lease under the message's token, the lease is dropped and the
      reference cleared, and the message is sent again only if the lease was still live.
    */
    method Abandon(message: MessageEnvelope, now: int)
      requires Valid()
      modifies this, message`reference, message`sentTime
      ensures Valid() && base == old(base)
      ensures State() == QueueEngine.Abandon(old(State()), message, old(message.reference), now)
      ensures message.reference == QueueEngine.AbandonedReference(old(State()), old(message.reference))
      ensures message.sentTime == if QueueEngine.Requeues(old(State()), old(message.reference), now)
                                  then now else old(message.sentTime)
    {
      if message.GetReference().None? {
        return;
      }
      var lockedToken := message.GetReference().value;
      if lockedToken !in lockedMessages {
        return;
      }
      var lockedMessage := lockedMessages[lockedToken];
      lockedMessages := lockedMessages - {lockedToken};
      message.SetReference(None);
      if lockedMessage.expirationTime <= now {
        return;
      }
      Send(message.correlationId, message, now);
    }

    /**
      MoveToDeadLetter: the same bookkeeping as Complete; the queue has no dead-letter
      destination, so the message is discarded.
    */
    method MoveToDeadLetter(message: MessageEnvelope)
      requires Valid()
      modifies this, message`reference
      ensures Valid() && base == old(base)
      ensures State() == QueueEngine.Complete(old(State()), old(message.reference))
      ensures message.reference == None
    {
      if message.GetReference().None? {
        return;
      }
      var lockedToken := message.GetReference().value;
      lockedMessages := lockedMessages - {lockedToken};
      message.SetReference(None);
    }

    /** Asks a running listen loop to stop. */
    method EndListen(correlationId: string)
      requires Valid()
      modifies this
      ensures Valid() && base == old(base)
      ensures State() == QueueEngine.EndListen(old(State()))
    {
      cancel := true;
    }
  }

  /**
    The end-to-end scenario on the class: send "ABC" as "mymessage", count 1, receive it,
    read it back, complete it, count 0.
  */
  method SendReceiveComplete(now: int) returns (countAfterSend: int, received: Option<MessageEnvelope>, text: string, countAfterComplete: int)
    ensures countAfterSend == 1 && countAfterComplete == 0
    ensures received.Some? && received.value.messageType == "mymessage" && text == "ABC"
  {
    var queue := new MemoryMessageQueue("myqueue");
    var envelope := new MessageEnvelope.NewMessageEnvelope("", "mymessage", NilValue, "1");
    envelope.SetMessageAsString("ABC");
    queue.Send("123", envelope, now);
    countAfterSend := queue.ReadMessageCount();
    received := queue.Receive("123", 5000, now);
    text := received.value.GetMessageAsString();
    queue.Complete(received.value);
    countAfterComplete := queue.ReadMessageCount();
  }
}
