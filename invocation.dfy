/** The wire records of the Bonjour actor system and its invocation codec:
    `InvocationMessage`, `TaskResponse`, the encoder that records a call and the
    decoder that replays it on the receiving side.

    JSON encoding is represented symbolically: an encoded document is a `Blob`
    that remembers what was encoded, so decoding an encoded value gives it back
    by construction. Decoding bytes that were never produced by the encoder
    fails. Decoding into a different type also fails, which is stricter than
    JSONDecoder: that one also reads a JSON integer as a `Double`, a whole
    `Double` as an `Int` and base64 `Data` as a `String`. */
module Invocation {
  import opened Common

  type UUID = nat

  /** The Swift types that cross the wire in Sky. */
  datatype TypeTag = IntType | DataType | StringType | DoubleType | ScanTaskType | ErrorType | NeverType

  /** `String(reflecting: type)`: the fully qualified name the encoder records. */
  function ReflectingName(t: TypeTag): string
  {
    match t
    case IntType => "Swift.Int"
    case DataType => "Foundation.Data"
    case StringType => "Swift.String"
    case DoubleType => "Swift.Double"
    case ScanTaskType => "Sky.ScanTask"
    case ErrorType => "Swift.Error"
    case NeverType => "Swift.Never"
  }

  /** A Codable argument or return value. */
  datatype Value =
    | IntValue(i: int)
    | DataValue(bytes: seq<bv8>)
    | StringValue(s: string)
    | DoubleValue(x: real)
    | NonFiniteDouble            // NaN or infinity: JSONEncoder refuses it by default
    | ScanTaskValue(input: int)

  function TypeOf(v: Value): TypeTag
  {
    match v
    case IntValue(_) => IntType
    case DataValue(_) => DataType
    case StringValue(_) => StringType
    case DoubleValue(_) => DoubleType
    case NonFiniteDouble => DoubleType
    case ScanTaskValue(_) => ScanTaskType
  }

  /** An encoded JSON document, or bytes of unknown shape. */
  datatype Blob =
    | ValueBlob(v: Value)
    | MessageBlob(m: InvocationMessage)
    | ResponseBlob(r: TaskResponse)
    | OpaqueBlob(bytes: seq<bv8>)

  /** `InvocationMessage`: one remote call. */
  datatype InvocationMessage = InvocationMessage(
    id: UUID,
    callSignature: string,
    arguments: seq<Blob>,
    errorType: string,
    returnType: string)

  /** `TaskResponse`: the reply to the invocation with the same `id`. */
  datatype TaskResponse = TaskResponse(result: Option<Blob>, id: UUID)

  /** `InvocationMessage()`: every field at its default; `id` is the fresh UUID
      the initializer draws, passed in here. */
  function DefaultMessage(id: UUID): (m: InvocationMessage)
    ensures m.id == id && m.callSignature == "" && m.arguments == []
    ensures m.errorType == "" && m.returnType == ""
  {
    InvocationMessage(id, "", [], "", "")
  }

  /** Whether JSONEncoder accepts the value. */
  predicate Encodable(v: Value)
  {
    !v.NonFiniteDouble?
  }

  /** `JSONEncoder().encode(value)`. */
  function EncodeValue(v: Value): (r: Result<Blob>)
    ensures r.Ok? <==> Encodable(v)
  {
    if Encodable(v) then Ok(ValueBlob(v)) else Err(EncodeFailure)
  }

  /** `JSONDecoder().decode(T.self, from: blob)` for the type `t`, accepting
      only a value encoded at that same type. */
  function DecodeValue(b: Blob, t: TypeTag): (r: Result<Value>)
    ensures r.Ok? ==> TypeOf(r.value) == t
  {
    if b.ValueBlob? && TypeOf(b.v) == t then Ok(b.v) else Err(DecodeFailure)
  }

  /** Decoding what was encoded, at the value's own type, gives the value back. */
  lemma ValueRoundTrip(v: Value)
    requires Encodable(v)
    ensures EncodeValue(v).Ok? && DecodeValue(EncodeValue(v).value, TypeOf(v)) == Ok(v)
  {
  }

  /** `JSONDecoder().decode(InvocationMessage.self, from: data)`, `try?`-style. */
  function DecodeMessage(b: Blob): (r: Option<InvocationMessage>)
    ensures r.Some? <==> b.MessageBlob?
  {
    if b.MessageBlob? then Some(b.m) else None
  }

  /** `InvocationMessage.typeWithName`: a closed registry of two type names. */
  function TypeWithName(name: string): (t: Option<TypeTag>)
    ensures t == Some(IntType) <==> name == "Swift.Int"
    ensures t == Some(DataType) <==> name == "Foundation.Data"
    ensures t.Some? ==> t == Some(IntType) || t == Some(DataType)
  {
    match name
    case "Swift.Int" => Some(IntType)
    case "Foundation.Data" => Some(DataType)
    case _ => None
  }

  /** A recorded type name resolves back to its type exactly for the two
      registered types; every other recorded type resolves to nil. */
  lemma TypeNameRoundTrip(t: TypeTag)
    ensures TypeWithName(ReflectingName(t)) == (if t == IntType || t == DataType then Some(t) else None)
  {
    match t
    case IntType =>
    case DataType =>
    case StringType =>
      assert ReflectingName(t)[6] != "Swift.Int"[6];
    case DoubleType =>
      assert ReflectingName(t)[6] != "Swift.Int"[6];
    case ScanTaskType =>
    case ErrorType =>
      assert ReflectingName(t)[6] != "Swift.Int"[6];
    case NeverType =>
      assert ReflectingName(t)[6] != "Swift.Int"[6];
  }

  /** `BonjourInvocationEncoder`: records one call into `message`. */
  class InvocationEncoder {
    var message: InvocationMessage

    constructor (id: UUID)
      ensures message == DefaultMessage(id)
    {
      message := DefaultMessage(id);
    }

    method SetCallSignature(signature: string)
      modifies this
      ensures message == old(message).(callSignature := signature)
    {
      message := message.(callSignature := signature);
    }

    /** Generic substitutions are not recorded. */
    method RecordGenericSubstitution(t: TypeTag)
      ensures message == old(message)
    {
    }

    method RecordErrorType(t: TypeTag)
      modifies this
      ensures message == old(message).(errorType := ReflectingName(t))
    {
      message := message.(errorType := ReflectingName(t));
    }

    method RecordReturnType(t: TypeTag)
      modifies this
      ensures message == old(message).(returnType := ReflectingName(t))
    {
      message := message.(returnType := ReflectingName(t));
    }

    /** Appends the argument's own encoding; when encoding throws, the message
        is left as it was and the error propagates. */
    method RecordArgument(v: Value) returns (r: Result<()>)
      modifies this
      ensures r.Ok? <==> Encodable(v)
      ensures r.Ok? ==> message == old(message).(arguments := old(message.arguments) + [ValueBlob(v)])
      ensures r.Err? ==> message == old(message) && r.error == EncodeFailure
    {
      var blob := EncodeValue(v);
      if blob.Ok? {
        message := message.(arguments := message.arguments + [blob.value]);
        r := Ok(());
      } else {
        r := Err(blob.error);
      }
    }

    method DoneRecording()
      ensures message == old(message)
    {
    }

    /** `data`: the encoding of the current message; reading it changes nothing. */
    function Data(): (b: Blob)
      reads this
      ensures DecodeMessage(b) == Some(message)
    {
      MessageBlob(message)
    }
  }

  /** `BonjourInvocationDecoder`: a forward-only cursor over a received message. */
  class InvocationDecoder {
    var message: InvocationMessage

    /** `init(data:)`: the decoded message, or a default one when `data` is not
        a message (`freshId` is the UUID the default message draws). */
    constructor (data: Blob, freshId: UUID)
      ensures DecodeMessage(data).Some? ==> message == DecodeMessage(data).value
      ensures DecodeMessage(data).None? ==> message == DefaultMessage(freshId)
    {
      var decoded := DecodeMessage(data);
      if decoded.Some? {
        message := decoded.value;
      } else {
        message := DefaultMessage(freshId);
      }
    }

    method DecodeGenericSubstitutions() returns (types: seq<TypeTag>)
      ensures types == []
    {
      types := [];
    }

    /** Removes the front argument and decodes it as `t`. The Swift code calls
        `removeFirst` unguarded, which traps on an empty list; hence the
        precondition. The argument is consumed even when decoding fails. */
    method DecodeNextArgument(t: TypeTag) returns (r: Result<Value>)
      requires |message.arguments| > 0
      modifies this
      ensures message == old(message).(arguments := old(message.arguments)[1..])
      ensures |message.arguments| == |old(message.arguments)| - 1
      ensures r == DecodeValue(old(message.arguments)[0], t)
    {
      var front := message.arguments[0];
      message := message.(arguments := message.arguments[1..]);
      r := DecodeValue(front, t);
    }

    method DecodeErrorType() returns (t: Option<TypeTag>)
      ensures t == TypeWithName(message.errorType)
    {
      t := TypeWithName(message.errorType);
    }

    method DecodeReturnType() returns (t: Option<TypeTag>)
      ensures t == TypeWithName(message.returnType)
    {
      t := TypeWithName(message.returnType);
    }
  }

  /** One call through the codec: record a signature and arguments, take the
      encoder's data, open a decoder on it and read back one argument per
      recorded argument, at each argument's own type. The decoder yields the
      same signature and the same arguments in the same order, and is left
      with no argument to read. */
  method RoundTrip(id: UUID, signature: string, values: seq<Value>)
    returns (decodedSignature: string, decoded: seq<Value>, remaining: nat)
    requires forall i :: 0 <= i < |values| ==> Encodable(values[i])
    ensures decodedSignature == signature
    ensures decoded == values
    ensures remaining == 0
  {
    var encoder := new InvocationEncoder(id);
    encoder.SetCallSignature(signature);
    for i := 0 to |values|
      invariant encoder.message.callSignature == signature
      invariant |encoder.message.arguments| == i
      invariant forall k :: 0 <= k < i ==> encoder.message.arguments[k] == ValueBlob(values[k])
    {
      var recorded := encoder.RecordArgument(values[i]);
    }
    var data := encoder.Data();
    var decoder := new InvocationDecoder(data, id);
    decodedSignature := decoder.message.callSignature;
    decoded := [];
    for i := 0 to |values|
      invariant |decoder.message.arguments| == |values| - i
      invariant forall k :: 0 <= k < |values| - i ==> decoder.message.arguments[k] == ValueBlob(values[i + k])
      invariant decoded == values[..i]
    {
      var r := decoder.DecodeNextArgument(TypeOf(values[i]));
      decoded := decoded + [r.value];
    }
    remaining := |decoder.message.arguments|;
  }
}
