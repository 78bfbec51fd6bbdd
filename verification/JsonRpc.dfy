/**
 The JSON-RPC envelope (JSON-RPC 2.0, sections 4, 5 and 5.1). A response does not name its method, so reading
 one consumes the entry that its id has in a map from request ids to methods.
 An object is a sequence of keys and values, in the order of the text.
 */
module JsonRpc {
  import opened Types
  import opened Messages
  import opened JsonCodecs

  type Fields = seq<(string, Json)>
  type IdMap = map<RequestId, LSPSMethod>

  const JSONRPC_INVALID_MESSAGE_ERROR_CODE: Int32 := -32700

  datatype DecodeError =
    | IllTyped            // a field or a parameter is not of its type
    | UnknownNotification // a method but no id
    | UnknownError        // no id, no method, and not the invalid-message error
    | UnknownRequestId
    | NeitherResultNorError

  function MethodName(called: LSPSMethod): string {
    match called
    case LSPS0ListProtocols => "lsps0.list_protocols"
    case LSPS2GetInfo => "lsps2.get_info"
    case LSPS2Buy => "lsps2.buy"
  }

  function MethodOfName(name: string): Option<LSPSMethod> {
    if name == "lsps0.list_protocols" then Some(LSPS0ListProtocols)
    else if name == "lsps2.get_info" then Some(LSPS2GetInfo)
    else if name == "lsps2.buy" then Some(LSPS2Buy)
    else None
  }

  lemma {:induction false} MethodNameRoundTrip(called: LSPSMethod, name: string)
    ensures MethodOfName(name) == Some(called) <==> name == MethodName(called)
  {
    assert "lsps0.list_protocols"[4] == '0' && "lsps2.get_info"[4] == '2' && "lsps2.buy"[4] == '2';
    assert |"lsps2.get_info"| != |"lsps2.buy"|;
  }

  // ---- Writing ----

  /** The fields of a message. */
  function Encode(message: LSPSMessage, dates: DateCodec): Fields {
    [("jsonrpc", JString("2.0"))] +
    match message
    case Invalid(error) => [("id", JNull), ("error", WriteError(error))]
    case RequestMessage(id, request) =>
      [("id", JString(id.text)), ("method", JString(MethodName(MethodOf(request)))),
       ("params", WriteRequest(request, dates))]
    case ResponseMessage(id, response) =>
      [("id", JString(id.text)),
       if IsError(response) then ("error", WriteError(response.error)) else ("result", WriteResult(response, dates))]
  }

  // ---- Reading, by the last value of every key ----

  function Last(fields: Fields, key: string): Option<Json> {
    if fields == [] then None
    else
      var last := fields[|fields| - 1];
      if last.0 == key then Some(last.1) else Last(fields[..|fields| - 1], key)
  }

  function ReadMethod(json: Json): Option<LSPSMethod> { Bind(ReadString(json), MethodOfName) }

  /** The keys that the envelope gives a meaning to must have values of their types, every time they occur. */
  predicate WellTyped(field: (string, Json)) {
    match field.0
    case "id" => field.1.JNull? || field.1.JString?
    case "method" => ReadMethod(field.1).Some?
    case "error" => ReadError(field.1).Some?
    case _ => true
  }

  predicate AllWellTyped(fields: Fields) {
    forall i :: 0 <= i < |fields| ==> WellTyped(fields[i])
  }

  function IdOf(fields: Fields): Option<RequestId> {
    match Last(fields, "id")
    case Some(JString(text)) => Some(RequestId(text))
    case _ => None
  }

  function MethodField(fields: Fields): Option<LSPSMethod> { Bind(Last(fields, "method"), ReadMethod) }

  function ErrorField(fields: Fields): Option<ResponseError> { Bind(Last(fields, "error"), ReadError) }

  function DecodeWithoutId(called: Option<LSPSMethod>, error: Option<ResponseError>): Result<LSPSMessage, DecodeError> {
    if called.Some? then Err(UnknownNotification)
    else if error.Some? && error.value.code == JSONRPC_INVALID_MESSAGE_ERROR_CODE then Ok(Invalid(error.value))
    else Err(UnknownError)
  }

  function DecodeRequest(id: RequestId, called: LSPSMethod, params: Option<Json>, dates: DateCodec)
    : Result<LSPSMessage, DecodeError>
  {
    var request := ReadRequest(called, if params.Some? then params.value else JObject(map[]), dates);
    if request.Some? then Ok(RequestMessage(id, request.value)) else Err(IllTyped)
  }

  /** An error takes precedence over a result. */
  function DecodeResponse(
    id: RequestId, called: LSPSMethod, result: Option<Json>, error: Option<ResponseError>, dates: DateCodec)
    : Result<LSPSMessage, DecodeError>
  {
    if error.Some? then Ok(ResponseMessage(id, ErrorFor(called, error.value)))
    else if result.None? then Err(NeitherResultNorError)
    else
      var response := ReadResult(called, result.value, dates);
      if response.Some? then Ok(ResponseMessage(id, response.value)) else Err(IllTyped)
  }

  /** The message read, and the id map after reading it. */
  function Decode(fields: Fields, ids: IdMap, dates: DateCodec): (Result<LSPSMessage, DecodeError>, IdMap) {
    if !AllWellTyped(fields) then (Err(IllTyped), ids)
    else
      var called := MethodField(fields);
      match IdOf(fields)
      case None => (DecodeWithoutId(called, ErrorField(fields)), ids)
      case Some(id) =>
        if called.Some? then (DecodeRequest(id, called.value, Last(fields, "params"), dates), ids)
        else if id !in ids then (Err(UnknownRequestId), ids)
        else (DecodeResponse(id, ids[id], Last(fields, "result"), ErrorField(fields), dates), ids - {id})
  }

  // ---- Field order ----

  predicate DistinctKeys(fields: Fields) {
    forall i, j :: 0 <= i < j < |fields| ==> fields[i].0 != fields[j].0
  }

  /** Without duplicate keys, the last value of a key is the value of the key. */
  lemma {:induction false} LastIsOnly(fields: Fields, key: string)
    requires DistinctKeys(fields)
    ensures forall value :: Last(fields, key) == Some(value) <==> (key, value) in fields
  {
    if fields != [] {
      var n := |fields| - 1;
      LastIsOnly(fields[..n], key);
      assert fields == fields[..n] + [fields[n]];
    }
  }

  lemma {:induction false} LastUnordered(fields: Fields, fields': Fields, key: string)
    requires DistinctKeys(fields) && DistinctKeys(fields')
    requires forall field :: field in fields <==> field in fields'
    ensures Last(fields, key) == Last(fields', key)
  {
    LastIsOnly(fields, key);
    LastIsOnly(fields', key);
    if Last(fields, key).Some? {
      assert (key, Last(fields, key).value) in fields';
    }
    if Last(fields', key).Some? {
      assert (key, Last(fields', key).value) in fields;
    }
  }

  /** Two objects without duplicate keys and with the same fields mean the same, whatever the order. */
  lemma {:induction false} FieldOrderIrrelevant(fields: Fields, fields': Fields, ids: IdMap, dates: DateCodec)
    requires DistinctKeys(fields) && DistinctKeys(fields')
    requires forall field :: field in fields <==> field in fields'
    ensures Decode(fields, ids, dates) == Decode(fields', ids, dates)
  {
    LastUnordered(fields, fields', "id");
    LastUnordered(fields, fields', "method");
    LastUnordered(fields, fields', "params");
    LastUnordered(fields, fields', "result");
    LastUnordered(fields, fields', "error");
    assert AllWellTyped(fields) <==> forall field :: field in fields ==> WellTyped(field);
    assert AllWellTyped(fields') <==> forall field :: field in fields' ==> WellTyped(field);
  }

  // ---- Round trip ----

  /** What the receiver of a message has to know for it to be understood. */
  predicate Understandable(message: LSPSMessage, ids: IdMap) {
    match message
    case Invalid(error) => error.code == JSONRPC_INVALID_MESSAGE_ERROR_CODE
    case RequestMessage(_, _) => true
    case ResponseMessage(id, response) => id in ids && ids[id] == Answers(response)
  }

  /** The id map once a message has been read. */
  function Consumed(message: LSPSMessage, ids: IdMap): IdMap {
    if message.ResponseMessage? then ids - {message.id} else ids
  }

  lemma {:induction false} LastSnoc(fields: Fields, field: (string, Json), key: string)
    ensures Last(fields + [field], key) == if field.0 == key then Some(field.1) else Last(fields, key)
  {
    assert (fields + [field])[..|fields|] == fields;
  }

  lemma {:induction false} LastOfThree(a: (string, Json), b: (string, Json), c: (string, Json), key: string)
    ensures Last([a, b, c], key) ==
            if c.0 == key then Some(c.1) else if b.0 == key then Some(b.1) else if a.0 == key then Some(a.1) else None
  {
    assert [] + [a] == [a] && [a] + [b] == [a, b] && [a, b] + [c] == [a, b, c];
    LastSnoc([], a, key);
    LastSnoc([a], b, key);
    LastSnoc([a, b], c, key);
  }

  lemma {:induction false} LastOfFour(
    a: (string, Json), b: (string, Json), c: (string, Json), d: (string, Json), key: string)
    ensures Last([a, b, c, d], key) ==
            if d.0 == key then Some(d.1) else Last([a, b, c], key)
  {
    assert [a, b, c] + [d] == [a, b, c, d];
    LastSnoc([a, b, c], d, key);
  }

  /** The object carries these and no other meaningful fields. */
  predicate Carries(
    fields: Fields, id: Json, called: Option<Json>, params: Option<Json>, result: Option<Json>, error: Option<Json>)
  {
    && Last(fields, "id") == Some(id)
    && Last(fields, "method") == called
    && Last(fields, "params") == params
    && Last(fields, "result") == result
    && Last(fields, "error") == error
  }

  lemma {:induction false} InvalidCarries(error: ResponseError, dates: DateCodec)
    ensures Carries(Encode(Invalid(error), dates), JNull, None, None, None, Some(WriteError(error)))
    ensures AllWellTyped(Encode(Invalid(error), dates))
  {
    ErrorRoundTrip(error);
    var a, b, c := ("jsonrpc", JString("2.0")), ("id", JNull), ("error", WriteError(error));
    assert Encode(Invalid(error), dates) == [a, b, c];
    forall key
      ensures Last([a, b, c], key) ==
              if c.0 == key then Some(c.1) else if b.0 == key then Some(b.1) else if a.0 == key then Some(a.1) else None
    {
      LastOfThree(a, b, c, key);
    }
  }

  lemma {:induction false} RequestCarries(id: RequestId, request: Request, dates: DateCodec)
    ensures Carries(Encode(RequestMessage(id, request), dates), JString(id.text),
                    Some(JString(MethodName(MethodOf(request)))), Some(WriteRequest(request, dates)), None, None)
    ensures AllWellTyped(Encode(RequestMessage(id, request), dates))
    ensures ReadMethod(JString(MethodName(MethodOf(request)))) == Some(MethodOf(request))
  {
    MethodNameRoundTrip(MethodOf(request), MethodName(MethodOf(request)));
    var a, b := ("jsonrpc", JString("2.0")), ("id", JString(id.text));
    var c, d := ("method", JString(MethodName(MethodOf(request)))), ("params", WriteRequest(request, dates));
    assert Encode(RequestMessage(id, request), dates) == [a, b, c, d];
    forall key
      ensures Last([a, b, c, d], key) == if d.0 == key then Some(d.1) else if c.0 == key then Some(c.1)
                                         else if b.0 == key then Some(b.1) else if a.0 == key then Some(a.1) else None
    {
      LastOfFour(a, b, c, d, key);
      LastOfThree(a, b, c, key);
    }
  }

  lemma {:induction false} ResponseCarries(id: RequestId, response: Response, dates: DateCodec)
    ensures if IsError(response)
            then Carries(Encode(ResponseMessage(id, response), dates), JString(id.text), None, None, None,
                         Some(WriteError(response.error)))
            else Carries(Encode(ResponseMessage(id, response), dates), JString(id.text), None, None,
                         Some(WriteResult(response, dates)), None)
    ensures AllWellTyped(Encode(ResponseMessage(id, response), dates))
  {
    var a, b := ("jsonrpc", JString("2.0")), ("id", JString(id.text));
    var c := if IsError(response) then ("error", WriteError(response.error))
             else ("result", WriteResult(response, dates));
    if IsError(response) {
      ErrorRoundTrip(response.error);
    }
    assert Encode(ResponseMessage(id, response), dates) == [a, b, c];
    forall key
      ensures Last([a, b, c], key) ==
              if c.0 == key then Some(c.1) else if b.0 == key then Some(b.1) else if a.0 == key then Some(a.1) else None
    {
      LastOfThree(a, b, c, key);
    }
  }

  lemma {:induction false} ResponseReads(
    id: RequestId, response: Response, ids: IdMap, dates: DateCodec)
    requires RoundTrips(dates) && id in ids && ids[id] == Answers(response)
    ensures Decode(Encode(ResponseMessage(id, response), dates), ids, dates) ==
            (Ok(ResponseMessage(id, response)), ids - {id})
  {
    ResponseCarries(id, response, dates);
    if IsError(response) {
      ErrorRoundTrip(response.error);
    } else {
      ResultRoundTrip(response, dates);
    }
  }

  lemma {:induction false} RequestReads(id: RequestId, request: Request, ids: IdMap, dates: DateCodec)
    requires RoundTrips(dates)
    ensures Decode(Encode(RequestMessage(id, request), dates), ids, dates) == (Ok(RequestMessage(id, request)), ids)
  {
    RequestCarries(id, request, dates);
    RequestRoundTrip(request, dates);
  }

  lemma {:induction false} InvalidReads(error: ResponseError, ids: IdMap, dates: DateCodec)
    requires error.code == JSONRPC_INVALID_MESSAGE_ERROR_CODE
    ensures Decode(Encode(Invalid(error), dates), ids, dates) == (Ok(Invalid(error)), ids)
  {
    InvalidCarries(error, dates);
    ErrorRoundTrip(error);
  }

  lemma {:induction false} EncodeReads(message: LSPSMessage, ids: IdMap, dates: DateCodec)
    requires RoundTrips(dates) && Understandable(message, ids)
    ensures Decode(Encode(message, dates), ids, dates) == (Ok(message), Consumed(message, ids))
  {
    match message
    case Invalid(error) => InvalidReads(error, ids, dates);
    case RequestMessage(id, request) => RequestReads(id, request, ids, dates);
    case ResponseMessage(id, response) => ResponseReads(id, response, ids, dates);
  }

  /**
   Whatever reading yields: a response was awaited under its id, answers the method recorded there and uses
   that entry up; nothing else that is understood touches the map.
   */
  lemma {:induction false} DecodeSound(fields: Fields, ids: IdMap, dates: DateCodec)
    ensures var (result, ids') := Decode(fields, ids, dates);
            result.Ok? ==> Understandable(result.value, ids) && ids' == Consumed(result.value, ids)
  {
  }

  /** A rejected object uses up an entry exactly if all is well-typed, no method is named, and its id is awaited. */
  lemma {:induction false} RejectionUsesUpEntryIff(fields: Fields, ids: IdMap, dates: DateCodec)
    requires Decode(fields, ids, dates).0.Err?
    ensures Decode(fields, ids, dates).1 != ids <==>
            AllWellTyped(fields) && MethodField(fields).None? && IdOf(fields).Some? && IdOf(fields).value in ids
    ensures Decode(fields, ids, dates).1 != ids ==> Decode(fields, ids, dates).1 == ids - {IdOf(fields).value}
  {
  }

  /** A response with neither result nor error uses up the entry of its id; one with an ill-typed error does not. */
  lemma {:induction false} RejectionExamples(id: RequestId, called: LSPSMethod, dates: DateCodec)
    ensures var ids := map[id := called];
            && Decode([("id", JString(id.text))], ids, dates) == (Err(NeitherResultNorError), map[])
            && Decode([("id", JString(id.text)), ("error", JInteger(5))], ids, dates) == (Err(IllTyped), ids)
  {
    var field, ill := ("id", JString(id.text)), ("error", JInteger(5));
    assert [] + [field] == [field];
    forall key
      ensures Last([field], key) == if key == "id" then Some(field.1) else None
    {
      LastSnoc([], field, key);
    }
    assert map[id := called] - {id} == map[];
    assert !WellTyped([field, ill][1]);
  }

  lemma {:induction false} EncodedKeys(message: LSPSMessage, dates: DateCodec)
    ensures DistinctKeys(Encode(message, dates))
  {
  }

  /**
   A message survives being written and read, in any order of its fields, exactly if the reader awaits it; and
   then the id map loses exactly the id of a response.
   */
  lemma {:induction false} RoundTripIff(message: LSPSMessage, fields: Fields, ids: IdMap, dates: DateCodec)
    requires RoundTrips(dates)
    requires DistinctKeys(fields) && forall field :: field in fields <==> field in Encode(message, dates)
    ensures Decode(fields, ids, dates).0 == Ok(message) <==> Understandable(message, ids)
    ensures Understandable(message, ids) ==> Decode(fields, ids, dates).1 == Consumed(message, ids)
  {
    EncodedKeys(message, dates);
    FieldOrderIrrelevant(fields, Encode(message, dates), ids, dates);
    DecodeSound(fields, ids, dates);
    if Understandable(message, ids) {
      EncodeReads(message, ids, dates);
    }
  }

  // ---- The serializer and the visitor ----

  class RequestIdMap {
    var methods: IdMap

    constructor ()
      ensures methods == map[]
    {
      methods := map[];
    }

    method Insert(id: RequestId, called: LSPSMethod)
      modifies this
      ensures methods == old(methods)[id := called]
    {
      methods := methods[id := called];
    }

    method Remove(id: RequestId) returns (called: Option<LSPSMethod>)
      modifies this
      ensures methods == old(methods) - {id}
      ensures called == if id in old(methods) then Some(old(methods)[id]) else None
    {
      called := if id in methods then Some(methods[id]) else None;
      methods := methods - {id};
    }
  }

  class JsonrpcObject {
    var fields: Fields

    constructor ()
      ensures fields == []
    {
      fields := [];
    }

    method SerializeField(key: string, value: Json)
      modifies this
      ensures fields == old(fields) + [(key, value)]
    {
      fields := fields + [(key, value)];
    }
  }

  method Serialize(message: LSPSMessage, dates: DateCodec) returns (fields: Fields)
    ensures fields == Encode(message, dates)
  {
    var jsonrpcObject := new JsonrpcObject();
    jsonrpcObject.SerializeField("jsonrpc", JString("2.0"));
    match message {
      case RequestMessage(id, request) =>
        jsonrpcObject.SerializeField("id", JString(id.text));
        jsonrpcObject.SerializeField("method", JString(MethodName(MethodOf(request))));
        jsonrpcObject.SerializeField("params", WriteRequest(request, dates));
      case ResponseMessage(id, response) =>
        jsonrpcObject.SerializeField("id", JString(id.text));
        if IsError(response) {
          jsonrpcObject.SerializeField("error", WriteError(response.error));
        } else {
          jsonrpcObject.SerializeField("result", WriteResult(response, dates));
        }
      case Invalid(error) =>
        jsonrpcObject.SerializeField("id", JNull);
        jsonrpcObject.SerializeField("error", WriteError(error));
    }
    fields := jsonrpcObject.fields;
  }

  /** What the visitor has gathered from the fields it has seen. */
  predicate Gathered(
    fields: Fields, id: Option<RequestId>, called: Option<LSPSMethod>, params: Option<Json>, result: Option<Json>,
    error: Option<ResponseError>)
  {
    && AllWellTyped(fields)
    && id == IdOf(fields)
    && called == MethodField(fields)
    && params == Last(fields, "params")
    && result == Last(fields, "result")
    && error == ErrorField(fields)
  }

  lemma {:induction false} GatherOne(fields: Fields, i: nat)
    requires i < |fields|
    ensures forall key ::
              Last(fields[..i + 1], key) == if fields[i].0 == key then Some(fields[i].1) else Last(fields[..i], key)
    ensures AllWellTyped(fields[..i + 1]) <==> AllWellTyped(fields[..i]) && WellTyped(fields[i])
  {
    var seen, next := fields[..i], fields[..i + 1];
    assert next == seen + [fields[i]];
    forall key
      ensures Last(next, key) == if fields[i].0 == key then Some(fields[i].1) else Last(seen, key)
    {
      LastSnoc(seen, fields[i], key);
    }
    assert forall k :: 0 <= k < i ==> next[k] == seen[k];
  }

  /** Goes through the fields; a later occurrence of a key replaces an earlier one. */
  method Gather(fields: Fields)
    returns (wellTyped: bool, id: Option<RequestId>, called: Option<LSPSMethod>, params: Option<Json>,
             result: Option<Json>, error: Option<ResponseError>)
    ensures wellTyped <==> AllWellTyped(fields)
    ensures wellTyped ==> Gathered(fields, id, called, params, result, error)
  {
    wellTyped, id, called, params, result, error := true, None, None, None, None, None;
    for i := 0 to |fields|
      invariant wellTyped && Gathered(fields[..i], id, called, params, result, error)
    {
      GatherOne(fields, i);
      var (key, value) := fields[i];
      match key {
        case "id" =>
          if value.JString? {
            id := Some(RequestId(value.text));
          } else if value.JNull? {
            id := None;
          } else {
            wellTyped := false;
          }
        case "method" =>
          called := ReadMethod(value);
          wellTyped := called.Some?;
        case "params" =>
          params := Some(value);
        case "result" =>
          result := Some(value);
        case "error" =>
          error := ReadError(value);
          wellTyped := error.Some?;
        case _ =>
      }
      if !wellTyped {
        assert !WellTyped(fields[i]);
        return;
      }
    }
    assert fields[..|fields|] == fields;
  }

  method VisitMap(fields: Fields, requestIdToMethodMap: RequestIdMap, dates: DateCodec)
    returns (message: Result<LSPSMessage, DecodeError>)
    modifies requestIdToMethodMap
    ensures (message, requestIdToMethodMap.methods) == Decode(fields, old(requestIdToMethodMap.methods), dates)
  {
    var wellTyped, maybeId, called, params, result, error := Gather(fields);
    if !wellTyped {
      return Err(IllTyped);
    }
    if maybeId.None? {
      if called.Some? {
        return Err(UnknownNotification);
      }
      if error.Some? {
        if error.value.code == JSONRPC_INVALID_MESSAGE_ERROR_CODE {
          return Ok(Invalid(error.value));
        }
      }
      return Err(UnknownError);
    }
    var id := maybeId.value;
    if called.Some? {
      var request := ReadRequest(called.value, if params.Some? then params.value else JObject(map[]), dates);
      return if request.Some? then Ok(RequestMessage(id, request.value)) else Err(IllTyped);
    }
    var awaited := requestIdToMethodMap.Remove(id);
    if awaited.None? {
      assert requestIdToMethodMap.methods == old(requestIdToMethodMap.methods);
      return Err(UnknownRequestId);
    }
    if error.Some? {
      return Ok(ResponseMessage(id, ErrorFor(awaited.value, error.value)));
    } else if result.Some? {
      var response := ReadResult(awaited.value, result.value, dates);
      return if response.Some? then Ok(ResponseMessage(id, response.value)) else Err(IllTyped);
    } else {
      return Err(NeitherResultNorError);
    }
  }
}
