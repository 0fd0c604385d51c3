/** The nine-flag capability descriptor of a message queue (queues/MessagingCapabilities.go). */
module Capabilities {

  /** The flags are only read through the getters; a value never changes after construction. */
  datatype MessagingCapabilities = MessagingCapabilities(
    canMessageCount: bool,
    canSend: bool,
    canReceive: bool,
    canPeek: bool,
    canPeekBatch: bool,
    canRenewLock: bool,
    canAbandon: bool,
    canDeadLetter: bool,
    canClear: bool)
  {
    function CanMessageCount(): bool { canMessageCount }
    function CanSend(): bool { canSend }
    function CanReceive(): bool { canReceive }
    function CanPeek(): bool { canPeek }
    function CanPeekBatch(): bool { canPeekBatch }
    function CanRenewLock(): bool { canRenewLock }
    function CanAbandon(): bool { canAbandon }
    function CanDeadLetter(): bool { canDeadLetter }
    function CanClear(): bool { canClear }
  }

  /** Each getter of the constructed descriptor answers the argument at its position. */
  function NewMessagingCapabilities(
    canMessageCount: bool, canSend: bool, canReceive: bool,
    canPeek: bool, canPeekBatch: bool, canRenewLock: bool, canAbandon: bool,
    canDeadLetter: bool, canClear: bool): (c: MessagingCapabilities)
    ensures c.CanMessageCount() == canMessageCount && c.CanSend() == canSend
    ensures c.CanReceive() == canReceive && c.CanPeek() == canPeek
    ensures c.CanPeekBatch() == canPeekBatch && c.CanRenewLock() == canRenewLock
    ensures c.CanAbandon() == canAbandon && c.CanDeadLetter() == canDeadLetter
    ensures c.CanClear() == canClear
  {
    MessagingCapabilities(canMessageCount, canSend, canReceive, canPeek, canPeekBatch,
                          canRenewLock, canAbandon, canDeadLetter, canClear)
  }

  /** True when no operation is declared supported. */
  predicate NoneSupported(c: MessagingCapabilities)
  {
    !c.CanMessageCount() && !c.CanSend() && !c.CanReceive() && !c.CanPeek() && !c.CanPeekBatch()
    && !c.CanRenewLock() && !c.CanAbandon() && !c.CanDeadLetter() && !c.CanClear()
  }
}
