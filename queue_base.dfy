/**
  The scaffolding every queue shares (queues/MessageQueue.go): its name, its capability
  descriptor, the open check, the text form and the guard chain of Open.
*/
module QueueBase {
  import opened Wrappers
  import opened Capabilities

  /** The application errors the base layer raises or passes through. */
  datatype AppError =
    | ConfigError(correlationId: string, code: string, message: string)
    | InvalidStateError(correlationId: string, code: string, message: string)
    | OtherError(code: string, message: string)

  datatype MessageQueue = MessageQueue(name: string, capabilities: MessagingCapabilities)
  {
    function GetName(): string { name }

    function GetCapabilities(): MessagingCapabilities { capabilities }

    /** The queue's name between square brackets. */
    function String(): (r: string)
      ensures |r| == |GetName()| + 2
      ensures r[0] == '[' && r[|r| - 1] == ']' && r[1..|r| - 1] == GetName()
    {
      "[" + GetName() + "]"
    }

    /**
      Fails with InvalidStateError NOT_OPENED exactly when the queue reports it is
      not open; `isOpen` is the specialised queue's IsOpen answer.
    */
    function CheckOpen(correlationId: string, isOpen: bool): (r: Option<AppError>)
      ensures r.None? <==> isOpen
      ensures r.Some? ==> r.value.InvalidStateError? && r.value.code == "NOT_OPENED"
                          && r.value.correlationId == correlationId
    {
      if !isOpen then Some(InvalidStateError(correlationId, "NOT_OPENED", "The queue is not opened"))
      else None
    }
  }

  /** A base queue gets the given name and a descriptor that supports nothing. */
  function InheritMessageQueue(name: string): (q: MessageQueue)
    ensures q.GetName() == name
    ensures NoneSupported(q.GetCapabilities())
  {
    MessageQueue(name, NewMessagingCapabilities(false, false, false, false, false, false, false, false, false))
  }

  /**
    The early-return chain of Open over what the connection and credential resolvers
    returned: a resolver error is passed on unchanged, an empty connection list is
    ConfigError NO_CONNECTION, and otherwise the resolved parameters go on to
    OpenWithParams.
  */
  function OpenGuard<C, K>(correlationId: string, connections: Result<seq<C>, AppError>,
                           credential: Result<Option<K>, AppError>): (r: Result<(seq<C>, Option<K>), AppError>)
    ensures connections.Failure? ==> r == Failure(connections.error)
    ensures connections.Success? && connections.value == [] ==>
              r == Failure(ConfigError(correlationId, "NO_CONNECTION", "Connection parameters are not set"))
    ensures connections.Success? && connections.value != [] && credential.Failure? ==> r == Failure(credential.error)
    ensures r.Success? <==> connections.Success? && connections.value != [] && credential.Success?
    ensures r.Success? ==> r.value == (connections.value, credential.value)
  {
    if connections.Failure? then Failure(connections.error)
    else if |connections.value| == 0 then
      Failure(ConfigError(correlationId, "NO_CONNECTION", "Connection parameters are not set"))
    else if credential.Failure? then Failure(credential.error)
    else Success((connections.value, credential.value))
  }
}
