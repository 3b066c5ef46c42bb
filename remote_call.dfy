/** The remote-call logic shared by both versions of `BonjourActorSystem`:
    how the caller turns a transport reply into a result, and how the callee
    turns an incoming invocation into a reply. The transport itself (sending,
    matching replies to invocations by id, time-outs) is not part of this model:
    what `send` produced is an input here. */
module RemoteCalls {
  import opened Common
  import opened Invocation
  import opened PeerRegistry
  import opened ResultHandling

  /** `remoteCall`/`remoteCallVoid` copy the caller's encoder and set the copy's
      call signature to the target identifier; nothing else changes. */
  function PrepareInvocation(recorded: InvocationMessage, target: string): (sent: InvocationMessage)
    ensures sent.callSignature == target
    ensures sent.id == recorded.id && sent.arguments == recorded.arguments
    ensures sent.errorType == recorded.errorType && sent.returnType == recorded.returnType
  {
    recorded.(callSignature := target)
  }

  /** `remoteCall`: a transport failure propagates; a reply without a result
      fails with "Result not found in response"; otherwise the result is
      decoded as the declared return type. */
  function RemoteCallResult(reply: Result<TaskResponse>, returning: TypeTag): (r: Result<Value>)
    ensures reply.Err? ==> r == Err(reply.error)
    ensures reply.Ok? && reply.value.result.None? ==> r == Err(Message("Result not found in response"))
    ensures reply.Ok? && reply.value.result.Some? ==> r == DecodeValue(reply.value.result.value, returning)
    ensures r.Ok? ==> TypeOf(r.value) == returning
  {
    if reply.Err? then Err(reply.error)
    else if reply.value.result.None? then Err(Message("Result not found in response"))
    else DecodeValue(reply.value.result.value, returning)
  }

  /** `remoteCallVoid`: only a transport failure matters; the reply is ignored. */
  function RemoteCallVoidResult(reply: Result<TaskResponse>): (r: Result<()>)
    ensures r.Ok? <==> reply.Ok?
    ensures reply.Err? ==> r == Err(reply.error)
  {
    if reply.Err? then Err(reply.error) else Ok(())
  }

  /** What the callee does with an incoming invocation. */
  datatype Dispatch =
    | Dropped                          // no local actor registered: returns at once
    | NoReply(error: Error)            // execution or the result threw: logged only
    | Replied(response: TaskResponse)  // a response is sent back to the caller

  /** `didReceiveInvocation`: with no actor registered under `localName` the
      invocation is dropped. Otherwise the target is executed (`execution`) and
      the handler's slot read with `result?.get()`: a failure produces no reply,
      an empty slot a reply without result, a success a reply with its data.
      The reply carries the invocation's id. */
  function ReceiveInvocation(
    registry: map<string, Handle>, localName: string, invocation: InvocationMessage,
    execution: Result<()>, slot: Option<Result<Option<Blob>>>): (d: Dispatch)
    ensures d.Dropped? <==> localName !in registry
    ensures d.Replied? <==> localName in registry && execution.Ok? && (slot.None? || slot.value.Ok?)
    ensures d.Replied? ==> d.response.id == invocation.id
    ensures d.Replied? ==> d.response.result == (if slot.None? then None else slot.value.value)
    ensures d.NoReply? && execution.Err? ==> d.error == execution.error
  {
    if localName !in registry then Dropped
    else if execution.Err? then NoReply(execution.error)
    else if slot.None? then Replied(TaskResponse(None, invocation.id))
    else if slot.value.Err? then NoReply(slot.value.error)
    else Replied(TaskResponse(slot.value.value, invocation.id))
  }

  /** End to end: when the callee's target returns an encodable value `v`, the
      reply carries the invocation's id and the caller's `remoteCall` decodes
      exactly `v`; a target returning nothing yields a reply that `remoteCall`
      rejects with "Result not found in response" and `remoteCallVoid` accepts. */
  lemma ReturnValueReachesCaller(
    registry: map<string, Handle>, localName: string, invocation: InvocationMessage,
    calls: seq<HandlerCall>)
    requires localName in registry
    requires calls != []
    ensures var d := ReceiveInvocation(registry, localName, invocation, Ok(()),
                                       Some(SlotAfter(calls[|calls| - 1])));
            match calls[|calls| - 1]
            case OnReturn(v) =>
              (Encodable(v) ==> d.Replied? && d.response.id == invocation.id
                                && RemoteCallResult(Ok(d.response), TypeOf(v)) == Ok(v))
              && (!Encodable(v) ==> d == NoReply(EncodeFailure))
            case OnReturnVoid =>
              d == Replied(TaskResponse(None, invocation.id))
              && RemoteCallResult(Ok(d.response), IntType) == Err(Message("Result not found in response"))
              && RemoteCallVoidResult(Ok(d.response)) == Ok(())
            case OnThrow(e) => d == NoReply(e)
  {
  }
}
