/**
  The lease the memory queue keeps for a received message (queues/LockedMessage.go):
  the message, when the lease expires and the lock timeout that produced it.
*/
module Locks {
  import opened Envelopes

  datatype LockedMessage = LockedMessage(message: MessageEnvelope, expirationTime: int, timeout: int)
  {
    /** A lease is live while its expiration lies strictly after `now`. */
    predicate IsLive(now: int)
    {
      expirationTime > now
    }

    /**
      Renewal at `now`: a live lease is pushed to `now` plus its own stored timeout,
      an expired one is left as it is. Only the expiration can change.
    */
    function Renewed(now: int): (r: LockedMessage)
      ensures r.message == message && r.timeout == timeout
      ensures IsLive(now) ==> r.expirationTime == now + timeout
      ensures !IsLive(now) ==> r == this
    {
      if IsLive(now) then this.(expirationTime := now + timeout) else this
    }
  }

  /** The lease granted at time `now` for `timeout`, as the queue records it on receive. */
  function Grant(message: MessageEnvelope, now: int, timeout: int): (lock: LockedMessage)
    ensures lock.message == message && lock.timeout == timeout
    ensures lock.expirationTime - lock.timeout == now
  {
    LockedMessage(message, now + timeout, timeout)
  }

  /** A granted lease is live exactly until grant time plus timeout. */
  lemma GrantedLeaseLifetime(message: MessageEnvelope, grantTime: int, timeout: int, now: int)
    ensures Grant(message, grantTime, timeout).IsLive(now) <==> now < grantTime + timeout
  {
  }

  /** Renewing a live lease with a positive timeout keeps it live at the renewal time and never shortens a lease renewed no earlier than it was granted. */
  lemma RenewalKeepsLeaseLive(lock: LockedMessage, grantTime: int, now: int)
    requires lock.expirationTime == grantTime + lock.timeout && grantTime <= now
    requires 0 < lock.timeout && lock.IsLive(now)
    ensures lock.Renewed(now).IsLive(now)
    ensures lock.Renewed(now).expirationTime >= lock.expirationTime
  {
  }
}
