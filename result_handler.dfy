/** `BonjourResultHandler`: the slot into which the distributed-actor runtime
    writes the outcome of an executed invocation. */
module ResultHandling {
  import opened Common
  import opened Invocation

  /** The three ways the runtime reports an outcome. */
  datatype HandlerCall = OnThrow(error: Error) | OnReturn(value: Value) | OnReturnVoid

  /** The slot value one call leaves behind: a failure, the encoded return
      value (or the encoder's failure), or a success carrying no data. */
  function SlotAfter(call: HandlerCall): (r: Result<Option<Blob>>)
    ensures call.OnThrow? ==> r == Err(call.error)
    ensures call.OnReturn? && Encodable(call.value) ==> r == Ok(Some(ValueBlob(call.value)))
    ensures call.OnReturn? && !Encodable(call.value) ==> r == Err(EncodeFailure)
    ensures call.OnReturnVoid? ==> r == Ok(None)
  {
    match call
    case OnThrow(e) => Err(e)
    case OnReturn(v) =>
      var encoded := EncodeValue(v);
      if encoded.Ok? then Ok(Some(encoded.value)) else Err(encoded.error)
    case OnReturnVoid => Ok(None)
  }

  class ResultHandler {
    var result: Option<Result<Option<Blob>>>

    /** A fresh handler holds no result. */
    constructor ()
      ensures result == None
    {
      result := None;
    }

    method OnThrow(e: Error)
      modifies this
      ensures result == Some(Err(e))
    {
      result := Some(Err(e));
    }

    /** `onReturn`: `Result { try JSONEncoder().encode(value) }`. */
    method OnReturn(v: Value)
      modifies this
      ensures Encodable(v) ==> result == Some(Ok(Some(ValueBlob(v))))
      ensures !Encodable(v) ==> result == Some(Err(EncodeFailure))
    {
      var encoded := EncodeValue(v);
      if encoded.Ok? {
        result := Some(Ok(Some(encoded.value)));
      } else {
        result := Some(Err(encoded.error));
      }
    }

    method OnReturnVoid()
      modifies this
      ensures result == Some(Ok(None))
    {
      result := Some(Ok(None));
    }
  }

  /** Feeds `calls` to a fresh handler in order: the slot ends up holding what
      the last call wrote (last writer wins), and nil when there was no call. */
  method Replay(calls: seq<HandlerCall>) returns (slot: Option<Result<Option<Blob>>>)
    ensures calls == [] ==> slot == None
    ensures calls != [] ==> slot == Some(SlotAfter(calls[|calls| - 1]))
  {
    var handler := new ResultHandler();
    for i := 0 to |calls|
      invariant i == 0 ==> handler.result == None
      invariant i > 0 ==> handler.result == Some(SlotAfter(calls[i - 1]))
    {
      match calls[i]
      case OnThrow(e) => handler.OnThrow(e);
      case OnReturn(v) => handler.OnReturn(v);
      case OnReturnVoid => handler.OnReturnVoid();
    }
    slot := handler.result;
  }
}
