/**
  The memory queue's state as a value and each operation of queues/MemoryMessageQueue.go
  as a transition on it. The class in module MemoryQueue is proved to follow these
  transitions; the lemmas here state what the transitions promise, alone and in sequence.
*/
module QueueEngine {
  import opened Wrappers
  import opened Envelopes
  import opened Locks

  /**
    Pending messages (head first), the lock table from token to lease, the next token
    to mint, and the open and cancellation flags.
  */
  datatype Engine = Engine(
    messages: seq<MessageEnvelope>,
    lockedMessages: map<int, LockedMessage>,
    lockTokenSequence: int,
    isOpened: bool,
    cancel: bool)

  /** Every token in the lock table was minted before the current sequence value. */
  predicate Valid(e: Engine)
  {
    0 <= e.lockTokenSequence
    && forall token :: token in e.lockedMessages ==> 0 <= token < e.lockTokenSequence
  }

  /** The state of a freshly constructed queue. */
  function NewEngine(): (e: Engine)
    ensures Valid(e)
  {
    Engine([], map[], 0, false, false)
  }

  function OpenWithParams(e: Engine): Engine
  {
    e.(isOpened := true)
  }

  function Close(e: Engine): Engine
  {
    e.(isOpened := false, cancel := true)
  }

  /** Drops every pending message and every lease and lowers the cancellation flag. */
  function Clear(e: Engine): (r: Engine)
    ensures Valid(e) ==> Valid(r)
  {
    e.(messages := [], lockedMessages := map[], cancel := false)
  }

  function EndListen(e: Engine): Engine
  {
    e.(cancel := true)
  }

  /** Appends `envelope` at the tail; nothing else changes. */
  function Send(e: Engine, envelope: MessageEnvelope): (r: Engine)
    ensures Valid(e) ==> Valid(r)
  {
    e.(messages := e.messages + [envelope])
  }

  /** The head of the pending sequence, if any. */
  function Peek(e: Engine): (r: Option<MessageEnvelope>)
    ensures r.Some? <==> e.messages != []
    ensures r.Some? ==> r.value == e.messages[0]
  {
    if |e.messages| > 0 then Some(e.messages[0]) else None
  }

  function Min(a: int, b: int): int { if a <= b then a else b }

  function Max(a: int, b: int): int { if a <= b then b else a }

  /**
    The first `messageCount` pending messages, clamped as a JavaScript slice(0, n)
    clamps: a count past the end gives all of them, a negative count leaves that many
    off the end.
  */
  function PeekBatch(e: Engine, messageCount: int): (r: seq<MessageEnvelope>)
    ensures r <= e.messages
    ensures 0 <= messageCount ==> |r| == Min(messageCount, |e.messages|)
    ensures messageCount < 0 ==> |r| == Max(0, |e.messages| + messageCount)
  {
    var len := |e.messages|;
    var end := if messageCount < 0 then Max(0, len + messageCount) else Min(messageCount, len);
    e.messages[..end]
  }

  /** The state after a receive and the message it handed out, if any. */
  datatype Delivery = Delivery(after: Engine, message: Option<MessageEnvelope>)

  /**
    Receive with the polling collapsed into one look at the queue at time `now`: a
    positive wait timeout and a non-empty queue pop the head, mint the next token and
    lease the message until `now + waitTimeout`; otherwise nothing changes.
  */
  function Receive(e: Engine, waitTimeout: int, now: int): (d: Delivery)
    ensures d.message.Some? <==> 0 < waitTimeout && e.messages != []
    ensures d.message.None? ==> d.after == e
    ensures d.message.Some? ==>
              && d.message.value == e.messages[0]
              && d.after == e.(messages := e.messages[1..],
                               lockTokenSequence := e.lockTokenSequence + 1,
                               lockedMessages := d.after.lockedMessages)
              && d.after.lockedMessages.Keys == e.lockedMessages.Keys + {e.lockTokenSequence}
              && d.after.lockedMessages[e.lockTokenSequence] == Grant(e.messages[0], now, waitTimeout)
    ensures Valid(e) ==> Valid(d.after)
    ensures Valid(e) && d.message.Some? ==>
              e.lockTokenSequence !in e.lockedMessages
              && forall token :: token in e.lockedMessages ==> d.after.lockedMessages[token] == e.lockedMessages[token]
  {
    if waitTimeout <= 0 || |e.messages| == 0 then Delivery(e, None)
    else
      var token := e.lockTokenSequence;
      var lock := LockedMessage(e.messages[0], now + waitTimeout, waitTimeout);
      Delivery(e.(messages := e.messages[1..],
                  lockTokenSequence := token + 1,
                  lockedMessages := e.lockedMessages[token := lock]),
               Some(e.messages[0]))
  }

  /**
    RenewLock for a message whose reference is `reference`: a live lease under that
    token is extended from `now` by its own stored timeout. Only the lock table can
    change, and only at that token.
  */
  function RenewLock(e: Engine, reference: Option<int>, now: int): (r: Engine)
    ensures r == e.(lockedMessages := r.lockedMessages)
    ensures r.lockedMessages.Keys == e.lockedMessages.Keys
    ensures forall token :: token in e.lockedMessages && reference != Some(token) ==>
              r.lockedMessages[token] == e.lockedMessages[token]
    ensures reference.Some? && reference.value in e.lockedMessages ==>
              r.lockedMessages[reference.value] == e.lockedMessages[reference.value].Renewed(now)
    ensures Valid(e) ==> Valid(r)
  {
    if reference.None? || reference.value !in e.lockedMessages then e
    else
      var token := reference.value;
      e.(lockedMessages := e.lockedMessages[token := e.lockedMessages[token].Renewed(now)])
  }

  /**
    Complete, and equally MoveToDeadLetter, for a message whose reference is
    `reference`: the lease under that token is dropped and nothing is requeued.
  */
  function Complete(e: Engine, reference: Option<int>): (r: Engine)
    ensures r == e.(lockedMessages := r.lockedMessages)
    ensures r.lockedMessages.Keys == if reference.None? then e.lockedMessages.Keys
                                     else e.lockedMessages.Keys - {reference.value}
    ensures forall token :: token in r.lockedMessages ==> r.lockedMessages[token] == e.lockedMessages[token]
    ensures Valid(e) ==> Valid(r)
  {
    if reference.None? then e
    else e.(lockedMessages := e.lockedMessages - {reference.value})
  }

  /** Whether Abandon with this reference finds a lease that is still live at `now`. */
  predicate Requeues(e: Engine, reference: Option<int>, now: int)
  {
    reference.Some? && reference.value in e.lockedMessages && e.lockedMessages[reference.value].IsLive(now)
  }

  /**
    The message's reference after Abandon: cleared when a lease was found under it,
    left as it was when there was none.
  */
  function AbandonedReference(e: Engine, reference: Option<int>): Option<int>
  {
    if reference.Some? && reference.value in e.lockedMessages then None else reference
  }

  /**
    Abandon of `envelope`, whose reference is `reference`: with no reference or no lease
    nothing changes; otherwise the lease is dropped, and `envelope` is sent again
    (appended at the tail) only when that lease was still live at `now`.
  */
  function Abandon(e: Engine, envelope: MessageEnvelope, reference: Option<int>, now: int): (r: Engine)
    ensures r.messages == if Requeues(e, reference, now) then e.messages + [envelope] else e.messages
    ensures r.lockedMessages == if reference.Some? then e.lockedMessages - {reference.value} else e.lockedMessages
    ensures r.lockTokenSequence == e.lockTokenSequence && r.isOpened == e.isOpened && r.cancel == e.cancel
    ensures Valid(e) ==> Valid(r)
  {
    if reference.None? || reference.value !in e.lockedMessages then e
    else
      var token := reference.value;
      var lock := e.lockedMessages[token];
      var released := e.(lockedMessages := e.lockedMessages - {token});
      if lock.expirationTime <= now then released
      else Send(released, envelope)
  }

  // ---------------------------------------------------------------------------
  // Sequences of operations

  /** Sends each envelope in turn. */
  function SendAll(e: Engine, envelopes: seq<MessageEnvelope>): Engine
    decreases |envelopes|
  {
    if envelopes == [] then e else SendAll(Send(e, envelopes[0]), envelopes[1..])
  }

  /** The state after a series of receives and the messages they handed out, in order. */
  datatype Deliveries = Deliveries(after: Engine, received: seq<MessageEnvelope>)

  /** One receive per entry of `nows` (the time of that receive), all with the same wait timeout. */
  function ReceiveAll(e: Engine, waitTimeout: int, nows: seq<int>): Deliveries
    decreases |nows|
  {
    if nows == [] then Deliveries(e, [])
    else
      var d := Receive(e, waitTimeout, nows[0]);
      var rest := ReceiveAll(d.after, waitTimeout, nows[1..]);
      Deliveries(rest.after, (if d.message.Some? then [d.message.value] else []) + rest.received)
  }

  /** The lock table after a series of receives. */
  function LeasesAfter(e: Engine, waitTimeout: int, nows: seq<int>): map<int, LockedMessage>
  {
    ReceiveAll(e, waitTimeout, nows).after.lockedMessages
  }

  /** Sending a series appends it at the tail, in order, and changes nothing else. */
  lemma {:induction false} SendAllAppends(e: Engine, envelopes: seq<MessageEnvelope>)
    ensures SendAll(e, envelopes) == e.(messages := e.messages + envelopes)
    decreases |envelopes|
  {
    if envelopes != [] {
      SendAllAppends(Send(e, envelopes[0]), envelopes[1..]);
      assert e.messages + [envelopes[0]] + envelopes[1..] == e.messages + envelopes;
    }
  }

  /**
    FIFO: k receives with a positive timeout on a queue holding at least k messages
    hand out its first k messages in order, leave the rest pending and advance the
    token sequence by k.
  */
  lemma {:induction false} ReceiveAllIsFifo(e: Engine, waitTimeout: int, nows: seq<int>)
    requires 0 < waitTimeout && |nows| <= |e.messages|
    ensures var r := ReceiveAll(e, waitTimeout, nows);
            && r.received == e.messages[..|nows|]
            && r.after.messages == e.messages[|nows|..]
            && r.after.lockTokenSequence == e.lockTokenSequence + |nows|
            && r.after.isOpened == e.isOpened && r.after.cancel == e.cancel
    decreases |nows|
  {
    if nows != [] {
      var d := Receive(e, waitTimeout, nows[0]);
      ReceiveAllIsFifo(d.after, waitTimeout, nows[1..]);
      assert e.messages[1..][..|nows| - 1] == e.messages[1..|nows|];
      assert e.messages[1..][|nows| - 1..] == e.messages[|nows|..];
      assert [e.messages[0]] + e.messages[1..|nows|] == e.messages[..|nows|];
    }
  }

  /** The i-th of k receives leases the i-th message under token seq+i from its receive time. */
  lemma {:induction false} ReceiveAllLeaseAt(e: Engine, waitTimeout: int, nows: seq<int>, i: int)
    requires Valid(e) && 0 < waitTimeout && |nows| <= |e.messages| && 0 <= i < |nows|
    ensures e.lockTokenSequence + i in LeasesAfter(e, waitTimeout, nows)
    ensures LeasesAfter(e, waitTimeout, nows)[e.lockTokenSequence + i] == Grant(e.messages[i], nows[i], waitTimeout)
    decreases |nows|
  {
    var d := Receive(e, waitTimeout, nows[0]);
    ReceiveAllKeepsLeases(d.after, waitTimeout, nows[1..]);
    if i > 0 {
      ReceiveAllLeaseAt(d.after, waitTimeout, nows[1..], i - 1);
      assert d.after.messages[i - 1] == e.messages[i];
      assert nows[1..][i - 1] == nows[i];
    }
  }

  /** Receives keep the state valid, keep every earlier lease and add no token outside seq .. seq+k-1. */
  lemma {:induction false} ReceiveAllKeepsLeases(e: Engine, waitTimeout: int, nows: seq<int>)
    requires Valid(e)
    ensures var r := ReceiveAll(e, waitTimeout, nows);
            && Valid(r.after)
            && r.after.lockTokenSequence <= e.lockTokenSequence + |nows|
            && (forall token :: token in e.lockedMessages ==>
                  token in r.after.lockedMessages && r.after.lockedMessages[token] == e.lockedMessages[token])
            && (forall token :: token in r.after.lockedMessages ==>
                  token in e.lockedMessages || e.lockTokenSequence <= token < e.lockTokenSequence + |nows|)
    decreases |nows|
  {
    if nows != [] {
      var d := Receive(e, waitTimeout, nows[0]);
      ReceiveAllKeepsLeases(d.after, waitTimeout, nows[1..]);
    }
  }

  /**
    Tokens never collide: k receives mint the tokens seq, seq+1, ..., seq+k-1, the token
    seq+i leasing the i-th message from its receive time; every earlier lease survives and
    no other token appears.
  */
  lemma {:induction false} ReceiveAllLeases(e: Engine, waitTimeout: int, nows: seq<int>)
    requires Valid(e) && 0 < waitTimeout && |nows| <= |e.messages|
    ensures Valid(ReceiveAll(e, waitTimeout, nows).after)
    ensures forall token :: e.lockTokenSequence <= token < e.lockTokenSequence + |nows| ==>
              token in LeasesAfter(e, waitTimeout, nows)
              && LeasesAfter(e, waitTimeout, nows)[token]
                 == Grant(e.messages[token - e.lockTokenSequence], nows[token - e.lockTokenSequence], waitTimeout)
    ensures forall token :: token in e.lockedMessages ==>
              token in LeasesAfter(e, waitTimeout, nows) && LeasesAfter(e, waitTimeout, nows)[token] == e.lockedMessages[token]
    ensures forall token :: token in LeasesAfter(e, waitTimeout, nows) ==>
              token in e.lockedMessages || e.lockTokenSequence <= token < e.lockTokenSequence + |nows|
  {
    ReceiveAllKeepsLeases(e, waitTimeout, nows);
    forall token | e.lockTokenSequence <= token < e.lockTokenSequence + |nows|
      ensures token in LeasesAfter(e, waitTimeout, nows)
      ensures LeasesAfter(e, waitTimeout, nows)[token]
              == Grant(e.messages[token - e.lockTokenSequence], nows[token - e.lockTokenSequence], waitTimeout)
    {
      ReceiveAllLeaseAt(e, waitTimeout, nows, token - e.lockTokenSequence);
    }
  }

  /** Receive order equals send order: sending a series into an empty queue and receiving as many times gives it back. */
  lemma FifoRoundTrip(e: Engine, envelopes: seq<MessageEnvelope>, waitTimeout: int, nows: seq<int>)
    requires e.messages == [] && 0 < waitTimeout && |nows| == |envelopes|
    ensures ReceiveAll(SendAll(e, envelopes), waitTimeout, nows).received == envelopes
    ensures ReceiveAll(SendAll(e, envelopes), waitTimeout, nows).after.messages == []
  {
    SendAllAppends(e, envelopes);
    ReceiveAllIsFifo(SendAll(e, envelopes), waitTimeout, nows);
  }

  /** Peek shows the message the next receive with a positive timeout hands out. */
  lemma PeekIsNextReceive(e: Engine, waitTimeout: int, now: int)
    requires 0 < waitTimeout
    ensures Peek(e) == Receive(e, waitTimeout, now).message
  {
  }

  /** PeekBatch(k) shows the messages the next k receives hand out, in order. */
  lemma PeekBatchIsNextReceives(e: Engine, waitTimeout: int, nows: seq<int>)
    requires 0 < waitTimeout && |nows| <= |e.messages|
    ensures PeekBatch(e, |nows|) == ReceiveAll(e, waitTimeout, nows).received
  {
    ReceiveAllIsFifo(e, waitTimeout, nows);
  }

  /** A count at or past the end gives every pending message: the slice clamps rather than returning nothing. */
  lemma PeekBatchPastTheEnd(e: Engine, messageCount: int)
    requires |e.messages| <= messageCount
    ensures PeekBatch(e, messageCount) == e.messages
  {
  }

  /**
    Abandon undoes Receive before the lease expires: the message returns at the tail
    and the lock table is as before; only the token sequence has moved on.
  */
  lemma AbandonBeforeExpiryRedelivers(e: Engine, waitTimeout: int, now: int, later: int)
    requires Valid(e) && 0 < waitTimeout && e.messages != [] && later < now + waitTimeout
    ensures var d := Receive(e, waitTimeout, now);
            Abandon(d.after, d.message.value, Some(e.lockTokenSequence), later)
              == e.(messages := e.messages[1..] + [e.messages[0]], lockTokenSequence := e.lockTokenSequence + 1)
  {
    var d := Receive(e, waitTimeout, now);
    var token := e.lockTokenSequence;
    assert d.after.lockedMessages - {token} == e.lockedMessages;
  }

  /** Abandon after the lease expired drops the message: it is neither pending nor leased. */
  lemma AbandonAfterExpiryDrops(e: Engine, waitTimeout: int, now: int, later: int)
    requires Valid(e) && 0 < waitTimeout && e.messages != [] && now + waitTimeout <= later
    ensures var d := Receive(e, waitTimeout, now);
            Abandon(d.after, d.message.value, Some(e.lockTokenSequence), later)
              == e.(messages := e.messages[1..], lockTokenSequence := e.lockTokenSequence + 1)
  {
    var d := Receive(e, waitTimeout, now);
    assert d.after.lockedMessages - {e.lockTokenSequence} == e.lockedMessages;
  }

  /** Completing a received message removes it for good: the lock table is as before the receive. */
  lemma CompleteAfterReceive(e: Engine, waitTimeout: int, now: int)
    requires Valid(e) && 0 < waitTimeout && e.messages != []
    ensures Complete(Receive(e, waitTimeout, now).after, Some(e.lockTokenSequence))
              == e.(messages := e.messages[1..], lockTokenSequence := e.lockTokenSequence + 1)
  {
    var d := Receive(e, waitTimeout, now);
    assert d.after.lockedMessages - {e.lockTokenSequence} == e.lockedMessages;
  }

  /** A second Complete, MoveToDeadLetter or Abandon on a message whose reference was cleared changes nothing. */
  lemma ClearedReferenceIsNoOp(e: Engine, envelope: MessageEnvelope, now: int)
    ensures Complete(e, None) == e
    ensures Abandon(e, envelope, None, now) == e
    ensures RenewLock(e, None, now) == e
  {
  }

  /** Renewing a live lease with a positive timeout keeps it live at the renewal time; the pending queue is untouched. */
  lemma RenewKeepsLeaseLive(e: Engine, token: int, now: int)
    requires token in e.lockedMessages && e.lockedMessages[token].IsLive(now) && 0 < e.lockedMessages[token].timeout
    ensures var r := RenewLock(e, Some(token), now);
            r.messages == e.messages && r.lockedMessages[token].IsLive(now)
            && r.lockedMessages[token].expirationTime == now + e.lockedMessages[token].timeout
  {
  }

  /** After Clear nothing is pending or leased, and a receive hands out nothing. */
  lemma ClearEmptiesQueue(e: Engine, waitTimeout: int, now: int)
    ensures |Clear(e).messages| == 0 && Clear(e).lockedMessages == map[]
    ensures Receive(Clear(e), waitTimeout, now).message == None
  {
  }

  /** Send "A", send "B", Clear: the count is zero and a receive hands out nothing. */
  lemma SendSendClearScenario(a: MessageEnvelope, b: MessageEnvelope, waitTimeout: int, now: int)
    ensures |Clear(Send(Send(NewEngine(), a), b)).messages| == 0
    ensures Receive(Clear(Send(Send(NewEngine(), a), b)), waitTimeout, now).message == None
  {
  }

  /**
    End to end: on a new queue, send one message (count 1), receive it with timeout
    5000 under token 0, complete it: nothing is pending or leased afterwards.
  */
  lemma SendReceiveCompleteScenario(m: MessageEnvelope, now: int)
    ensures var e1 := Send(NewEngine(), m);
            var d := Receive(e1, 5000, now);
            && |e1.messages| == 1
            && d.message == Some(m)
            && 0 in d.after.lockedMessages && d.after.lockedMessages[0] == Grant(m, now, 5000)
            && |d.after.messages| == 0
            && Complete(d.after, Some(0)).lockedMessages == map[]
            && |Complete(d.after, Some(0)).messages| == 0
  {
    var d := Receive(Send(NewEngine(), m), 5000, now);
    assert d.after.lockedMessages - {0} == map[];
  }

  /** Two receives in a row mint different tokens, and the first lease survives the second receive. */
  lemma SuccessiveReceivesUseDistinctTokens(e: Engine, waitTimeout: int, now1: int, now2: int)
    requires Valid(e) && 0 < waitTimeout && |e.messages| >= 2
    ensures var d1 := Receive(e, waitTimeout, now1);
            var d2 := Receive(d1.after, waitTimeout, now2);
            && d2.message == Some(e.messages[1])
            && e.lockTokenSequence in d2.after.lockedMessages
            && d2.after.lockedMessages[e.lockTokenSequence] == Grant(e.messages[0], now1, waitTimeout)
            && d2.after.lockedMessages[e.lockTokenSequence + 1] == Grant(e.messages[1], now2, waitTimeout)
  {
  }
}
