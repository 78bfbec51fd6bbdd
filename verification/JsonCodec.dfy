/**
 JSON values, and how the parts of LSPS0 and LSPS2 messages are written into them and read back.
 The text form of a date is a parameter.
 */
module JsonCodecs {
  import opened Types
  import opened Decimals
  import opened Messages

  datatype Json =
    | JNull
    | JBool(flag: bool)
    | JInteger(value: int)
    | JFraction(text: string) // a number with a fraction or an exponent
    | JString(text: string)
    | JArray(items: seq<Json>)
    | JObject(fields: map<string, Json>)

  datatype DateCodec = DateCodec(toText: DateTime -> string, fromText: string -> Option<DateTime>)

  ghost predicate RoundTrips(dates: DateCodec) {
    forall d :: dates.fromText(dates.toText(d)) == Some(d)
  }

  // ---- Reading plain values ----

  function ReadString(json: Json): Option<string> {
    if json.JString? then Some(json.text) else None
  }

  function ReadUInt32(json: Json): Option<UInt32> {
    if json.JInteger? && 0 <= json.value < 0x1_0000_0000 then Some(json.value) else None
  }

  function ReadUInt16(json: Json): Option<UInt16> {
    if json.JInteger? && 0 <= json.value < 0x1_0000 then Some(json.value) else None
  }

  function ReadInt32(json: Json): Option<Int32> {
    if json.JInteger? && -0x8000_0000 <= json.value < 0x8000_0000 then Some(json.value) else None
  }

  /** A missing or null value is an absent one. */
  function ReadOptionalString(json: Option<Json>): Option<Option<string>> {
    match json
    case None => Some(None)
    case Some(JNull) => Some(None)
    case Some(JString(text)) => Some(Some(text))
    case _ => None
  }

  /** Values under the names of their positions. */
  function Zip(names: seq<string>, items: seq<Json>): map<string, Json>
    requires |items| <= |names|
  {
    if items == [] then map[]
    else Zip(names[..|items| - 1], items[..|items| - 1])[names[|items| - 1] := items[|items| - 1]]
  }

  /**
   The fields of a structure: an object, or an array of the values of all fields in order, of which only those
   after the first `required` may be left off.
   */
  function Record(json: Json, names: seq<string>, required: nat): Option<map<string, Json>> {
    if json.JObject? then Some(json.fields)
    else if json.JArray? && required <= |json.items| <= |names| then Some(Zip(names, json.items))
    else None
  }

  function Field(fields: map<string, Json>, name: string): Option<Json> {
    if name in fields then Some(fields[name]) else None
  }

  function Bind<A, B>(a: Option<A>, f: A -> Option<B>): Option<B> {
    if a.Some? then f(a.value) else None
  }

  // ---- Amounts as decimal strings ----

  function WriteAmount(amount: UInt64): Json { JString(Print(amount)) }

  function ReadAmount(json: Json): Option<UInt64> {
    Bind(ReadString(json), ParseUInt64)
  }

  function ReadOptionalAmount(json: Option<Json>): Option<Option<UInt64>> {
    match json
    case None => Some(None)
    case Some(JNull) => Some(None)
    case Some(value) => Bind(ReadAmount(value), amount => Some(Some(amount)))
  }

  // ---- Errors ----

  function WriteOptionalString(s: Option<string>): Json {
    if s.Some? then JString(s.value) else JNull
  }

  function WriteError(error: ResponseError): Json {
    JObject(map["code" := JInteger(error.code), "message" := JString(error.message),
                "data" := WriteOptionalString(error.data)])
  }

  const ERROR_FIELDS: seq<string> := ["code", "message", "data"]

  function ReadError(json: Json): Option<ResponseError> {
    Bind(Record(json, ERROR_FIELDS, 3), ReadErrorFields)
  }

  function ReadErrorFields(fields: map<string, Json>): Option<ResponseError> {
    var code := Bind(Field(fields, "code"), ReadInt32);
    var message := Bind(Field(fields, "message"), ReadString);
    var data := ReadOptionalString(Field(fields, "data"));
    if code.Some? && message.Some? && data.Some?
    then Some(ResponseError(code.value, message.value, data.value)) else None
  }

  // ---- Fee parameters ----

  function WriteFeeParams(params: OpeningFeeParams, dates: DateCodec): Json {
    JObject(map[
      "min_fee_msat" := WriteAmount(params.minFeeMsat),
      "proportional" := JInteger(params.proportional),
      "valid_until" := JString(dates.toText(params.validUntil)),
      "min_lifetime" := JInteger(params.minLifetime),
      "max_client_to_self_delay" := JInteger(params.maxClientToSelfDelay),
      "min_payment_size_msat" := WriteAmount(params.minPaymentSizeMsat),
      "max_payment_size_msat" := WriteAmount(params.maxPaymentSizeMsat),
      "promise" := JString(params.promise)])
  }

  const FEE_PARAMS_FIELDS: seq<string> := [
    "min_fee_msat", "proportional", "valid_until", "min_lifetime", "max_client_to_self_delay",
    "min_payment_size_msat", "max_payment_size_msat", "promise"]

  function ReadFeeParams(json: Json, dates: DateCodec): Option<OpeningFeeParams> {
    Bind(Record(json, FEE_PARAMS_FIELDS, 8), fields => ReadFeeParamsFields(fields, dates))
  }

  function ReadFeeParamsFields(fields: map<string, Json>, dates: DateCodec): Option<OpeningFeeParams> {
    var minFee := Bind(Field(fields, "min_fee_msat"), ReadAmount);
    var proportional := Bind(Field(fields, "proportional"), ReadUInt32);
    var validUntil := Bind(Bind(Field(fields, "valid_until"), ReadString), dates.fromText);
    var minLifetime := Bind(Field(fields, "min_lifetime"), ReadUInt32);
    var maxDelay := Bind(Field(fields, "max_client_to_self_delay"), ReadUInt32);
    var minSize := Bind(Field(fields, "min_payment_size_msat"), ReadAmount);
    var maxSize := Bind(Field(fields, "max_payment_size_msat"), ReadAmount);
    var promise := Bind(Field(fields, "promise"), ReadString);
    if minFee.Some? && proportional.Some? && validUntil.Some? && minLifetime.Some? && maxDelay.Some? && minSize.Some?
       && maxSize.Some? && promise.Some?
    then Some(OpeningFeeParams(minFee.value, proportional.value, validUntil.value, minLifetime.value, maxDelay.value,
                               minSize.value, maxSize.value, promise.value))
    else None
  }

  function WriteAll<T>(items: seq<T>, write: T -> Json): (json: seq<Json>)
    ensures |json| == |items|
  {
    seq(|items|, i requires 0 <= i < |items| => write(items[i]))
  }

  function ReadAll<T>(items: seq<Json>, read: Json -> Option<T>): Option<seq<T>> {
    if items == [] then Some([])
    else
      var init := ReadAll(items[..|items| - 1], read);
      var last := read(items[|items| - 1]);
      if init.Some? && last.Some? then Some(init.value + [last.value]) else None
  }

  function ReadArray<T>(json: Json, read: Json -> Option<T>): Option<seq<T>> {
    if json.JArray? then ReadAll(json.items, read) else None
  }

  // ---- Requests and results ----

  function WriteRequest(request: Request, dates: DateCodec): Json {
    match request
    case ListProtocols => JObject(map[])
    case GetInfo(token) => JObject(map["token" := WriteOptionalString(token)])
    case Buy(params, None) => JObject(map["opening_fee_params" := WriteFeeParams(params, dates)])
    case Buy(params, Some(size)) =>
      JObject(map["opening_fee_params" := WriteFeeParams(params, dates), "payment_size_msat" := WriteAmount(size)])
  }

  /** The parameters of `lsps0.list_protocols` are not looked at. */
  function ReadRequest(called: LSPSMethod, params: Json, dates: DateCodec): Option<Request> {
    match called
    case LSPS0ListProtocols => Some(ListProtocols)
    case LSPS2GetInfo => Bind(Record(params, ["token"], 1), ReadGetInfo)
    case LSPS2Buy =>
      Bind(Record(params, ["opening_fee_params", "payment_size_msat"], 1), fields => ReadBuy(fields, dates))
  }

  function ReadGetInfo(fields: map<string, Json>): Option<Request> {
    Bind(ReadOptionalString(Field(fields, "token")), token => Some(GetInfo(token)))
  }

  function ReadBuy(fields: map<string, Json>, dates: DateCodec): Option<Request> {
    var feeParams := Bind(Field(fields, "opening_fee_params"), json => ReadFeeParams(json, dates));
    var size := ReadOptionalAmount(Field(fields, "payment_size_msat"));
    if feeParams.Some? && size.Some? then Some(Buy(feeParams.value, size.value)) else None
  }

  predicate IsError(response: Response) {
    response.ListProtocolsError? || response.GetInfoError? || response.BuyError?
  }

  function WriteResult(response: Response, dates: DateCodec): Json
    requires !IsError(response)
  {
    match response
    case ListProtocolsResult(protocols) =>
      JObject(map["protocols" := JArray(WriteAll(protocols, (n: UInt16) => JInteger(n)))])
    case GetInfoResult(menu) =>
      JObject(map["opening_fee_params_menu" :=
                    JArray(WriteAll(menu, (params: OpeningFeeParams) => WriteFeeParams(params, dates)))])
    case BuyResult(scid, delta, trusts) =>
      JObject(map["intercept_scid" := JString(scid), "lsp_cltv_expiry_delta" := JInteger(delta),
                  "client_trusts_lsp" := JBool(trusts)])
  }

  function ReadFlag(json: Option<Json>): Option<bool> {
    match json
    case None => Some(false)
    case Some(JBool(flag)) => Some(flag)
    case _ => None
  }

  function ReadResult(called: LSPSMethod, json: Json, dates: DateCodec): Option<Response> {
    match called
    case LSPS0ListProtocols => Bind(Record(json, ["protocols"], 1), ReadProtocols)
    case LSPS2GetInfo => Bind(Record(json, ["opening_fee_params_menu"], 1), fields => ReadMenu(fields, dates))
    case LSPS2Buy =>
      Bind(Record(json, ["intercept_scid", "lsp_cltv_expiry_delta", "client_trusts_lsp"], 2), ReadPurchase)
  }

  function ReadProtocols(fields: map<string, Json>): Option<Response> {
    Bind(Bind(Field(fields, "protocols"), items => ReadArray(items, ReadUInt16)),
         protocols => Some(ListProtocolsResult(protocols)))
  }

  function ReadMenu(fields: map<string, Json>, dates: DateCodec): Option<Response> {
    Bind(Bind(Field(fields, "opening_fee_params_menu"),
              items => ReadArray(items, params => ReadFeeParams(params, dates))),
         menu => Some(GetInfoResult(menu)))
  }

  function ReadPurchase(fields: map<string, Json>): Option<Response> {
    var scid := Bind(Field(fields, "intercept_scid"), ReadString);
    var delta := Bind(Field(fields, "lsp_cltv_expiry_delta"), ReadUInt32);
    var trusts := ReadFlag(Field(fields, "client_trusts_lsp"));
    if scid.Some? && delta.Some? && trusts.Some? then Some(BuyResult(scid.value, delta.value, trusts.value)) else None
  }

  function ErrorFor(called: LSPSMethod, error: ResponseError): Response {
    match called
    case LSPS0ListProtocols => ListProtocolsError(error)
    case LSPS2GetInfo => GetInfoError(error)
    case LSPS2Buy => BuyError(error)
  }

  // ---- What is written is read back ----

  lemma {:induction false} ErrorRoundTrip(error: ResponseError)
    ensures ReadError(WriteError(error)) == Some(error)
  {
  }

  lemma {:induction false} AmountRoundTrip(amount: UInt64)
    ensures ReadAmount(WriteAmount(amount)) == Some(amount)
    ensures ReadOptionalAmount(Some(WriteAmount(amount))) == Some(Some(amount))
  {
    UInt64RoundTrip(amount);
  }

  lemma {:induction false} FeeParamsRoundTrip(params: OpeningFeeParams, dates: DateCodec)
    requires RoundTrips(dates)
    ensures ReadFeeParams(WriteFeeParams(params, dates), dates) == Some(params)
  {
    AmountRoundTrip(params.minFeeMsat);
    AmountRoundTrip(params.minPaymentSizeMsat);
    AmountRoundTrip(params.maxPaymentSizeMsat);
  }

  lemma {:induction false} AllRoundTrip<T>(items: seq<T>, write: T -> Json, read: Json -> Option<T>)
    requires forall i :: 0 <= i < |items| ==> read(write(items[i])) == Some(items[i])
    ensures ReadAll(WriteAll(items, write), read) == Some(items)
  {
    if items != [] {
      var n := |items| - 1;
      AllRoundTrip(items[..n], write, read);
      assert WriteAll(items, write)[..n] == WriteAll(items[..n], write);
      assert items == items[..n] + [items[n]];
    }
  }

  lemma {:induction false} BuyRoundTrip(params: OpeningFeeParams, size: Option<UInt64>, dates: DateCodec)
    requires RoundTrips(dates)
    ensures ReadBuy(WriteRequest(Buy(params, size), dates).fields, dates) == Some(Buy(params, size))
  {
    FeeParamsRoundTrip(params, dates);
    if size.Some? {
      AmountRoundTrip(size.value);
    }
  }

  lemma {:induction false} RequestRoundTrip(request: Request, dates: DateCodec)
    requires RoundTrips(dates)
    ensures ReadRequest(MethodOf(request), WriteRequest(request, dates), dates) == Some(request)
  {
    if request.Buy? {
      BuyRoundTrip(request.openingFeeParams, request.paymentSizeMsat, dates);
    }
  }

  lemma {:induction false} ResultRoundTrip(response: Response, dates: DateCodec)
    requires RoundTrips(dates) && !IsError(response)
    ensures ReadResult(Answers(response), WriteResult(response, dates), dates) == Some(response)
  {
    match response
    case ListProtocolsResult(protocols) =>
      AllRoundTrip(protocols, (n: UInt16) => JInteger(n), ReadUInt16);
    case GetInfoResult(menu) =>
      forall i | 0 <= i < |menu|
        ensures ReadFeeParams(WriteFeeParams(menu[i], dates), dates) == Some(menu[i])
      {
        FeeParamsRoundTrip(menu[i], dates);
      }
      AllRoundTrip(menu, (params: OpeningFeeParams) => WriteFeeParams(params, dates),
                   json => ReadFeeParams(json, dates));
    case BuyResult(_, _, _) =>
  }
}
