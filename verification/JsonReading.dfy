/**
 What a received object means, by the members it has: every required and every optional one. Nothing here refers to
 what this implementation writes itself.
 */
module JsonReadings {
  import opened Types
  import opened Decimals
  import opened Messages
  import opened JsonCodecs
  import opened JsonRpc

  type Members = map<string, Json>

  // ---- Members ----

  predicate TextAt(members: Members, name: string, text: string) { name in members && members[name] == JString(text) }

  predicate IntegerAt(members: Members, name: string, n: int) { name in members && members[name] == JInteger(n) }

  /** An amount is a string of decimal digits. */
  predicate AmountAt(members: Members, name: string, amount: nat) {
    name in members && members[name].JString? && Denotes(members[name].text, amount)
  }

  predicate DateAt(members: Members, name: string, date: DateTime, dates: DateCodec) {
    name in members && members[name].JString? && dates.fromText(members[name].text) == Some(date)
  }

  /** Left out, or null. */
  predicate AbsentAt(members: Members, name: string) { name !in members || members[name] == JNull }

  /** A flag that is left out is false. */
  predicate FlagAt(members: Members, name: string, flag: bool) {
    if name in members then members[name] == JBool(flag) else !flag
  }

  predicate OptionalTextAt(members: Members, name: string, text: Option<string>) {
    if text.Some? then TextAt(members, name, text.value) else AbsentAt(members, name)
  }

  predicate OptionalAmountAt(members: Members, name: string, amount: Option<UInt64>) {
    if amount.Some? then AmountAt(members, name, amount.value) else AbsentAt(members, name)
  }

  // ---- Structures ----

  predicate IsErrorObject(members: Members, error: ResponseError) {
    && IntegerAt(members, "code", error.code)
    && TextAt(members, "message", error.message)
    && OptionalTextAt(members, "data", error.data)
  }

  predicate IsFeeParams(members: Members, params: OpeningFeeParams, dates: DateCodec) {
    && AmountAt(members, "min_fee_msat", params.minFeeMsat)
    && IntegerAt(members, "proportional", params.proportional)
    && DateAt(members, "valid_until", params.validUntil, dates)
    && IntegerAt(members, "min_lifetime", params.minLifetime)
    && IntegerAt(members, "max_client_to_self_delay", params.maxClientToSelfDelay)
    && AmountAt(members, "min_payment_size_msat", params.minPaymentSizeMsat)
    && AmountAt(members, "max_payment_size_msat", params.maxPaymentSizeMsat)
    && TextAt(members, "promise", params.promise)
  }

  predicate IsBuyResult(members: Members, scid: string, delta: UInt32, trusts: bool) {
    && TextAt(members, "intercept_scid", scid)
    && IntegerAt(members, "lsp_cltv_expiry_delta", delta)
    && FlagAt(members, "client_trusts_lsp", trusts)
  }

  predicate IsBuy(members: Members, params: OpeningFeeParams, size: Option<UInt64>, dates: DateCodec) {
    && "opening_fee_params" in members && members["opening_fee_params"].JObject?
    && IsFeeParams(members["opening_fee_params"].fields, params, dates)
    && OptionalAmountAt(members, "payment_size_msat", size)
  }

  lemma {:induction false} AmountReadIff(members: Members, name: string, amount: UInt64)
    ensures Bind(Field(members, name), ReadAmount) == Some(amount) <==> AmountAt(members, name, amount)
  {
    if name in members && members[name].JString? {
      ParsesUInt64Iff(members[name].text, amount);
    }
  }

  lemma {:induction false} OptionalAmountReadIff(members: Members, name: string, amount: Option<UInt64>)
    ensures ReadOptionalAmount(Field(members, name)) == Some(amount) <==> OptionalAmountAt(members, name, amount)
  {
    if name in members && amount.Some? {
      AmountReadIff(members, name, amount.value);
    }
  }

  lemma {:induction false} ErrorReadIff(members: Members, error: ResponseError)
    ensures ReadError(JObject(members)) == Some(error) <==> IsErrorObject(members, error)
  {
  }

  lemma {:induction false} FeeParamsReadIff(members: Members, params: OpeningFeeParams, dates: DateCodec)
    ensures ReadFeeParams(JObject(members), dates) == Some(params) <==> IsFeeParams(members, params, dates)
  {
    AmountReadIff(members, "min_fee_msat", params.minFeeMsat);
    AmountReadIff(members, "min_payment_size_msat", params.minPaymentSizeMsat);
    AmountReadIff(members, "max_payment_size_msat", params.maxPaymentSizeMsat);
    FeeParamsFieldsIff(members, params, dates);
  }

  lemma {:induction false} FeeParamsFieldsIff(members: Members, params: OpeningFeeParams, dates: DateCodec)
    ensures ReadFeeParams(JObject(members), dates) == Some(params) <==>
            && Bind(Field(members, "min_fee_msat"), ReadAmount) == Some(params.minFeeMsat)
            && IntegerAt(members, "proportional", params.proportional)
            && DateAt(members, "valid_until", params.validUntil, dates)
            && IntegerAt(members, "min_lifetime", params.minLifetime)
            && IntegerAt(members, "max_client_to_self_delay", params.maxClientToSelfDelay)
            && Bind(Field(members, "min_payment_size_msat"), ReadAmount) == Some(params.minPaymentSizeMsat)
            && Bind(Field(members, "max_payment_size_msat"), ReadAmount) == Some(params.maxPaymentSizeMsat)
            && TextAt(members, "promise", params.promise)
  {
  }

  lemma {:induction false} BuyReadIff(
    members: Members, params: OpeningFeeParams, size: Option<UInt64>, dates: DateCodec)
    requires "opening_fee_params" in members ==> !members["opening_fee_params"].JArray?
    ensures ReadRequest(LSPS2Buy, JObject(members), dates) == Some(Buy(params, size)) <==>
            IsBuy(members, params, size, dates)
  {
    OptionalAmountReadIff(members, "payment_size_msat", size);
    if "opening_fee_params" in members && members["opening_fee_params"].JObject? {
      FeeParamsReadIff(members["opening_fee_params"].fields, params, dates);
    }
  }

  lemma {:induction false} ReadAllIff<T>(items: seq<Json>, read: Json -> Option<T>, values: seq<T>)
    ensures ReadAll(items, read) == Some(values) <==>
            |values| == |items| && forall i :: 0 <= i < |items| ==> read(items[i]) == Some(values[i])
  {
    if items != [] {
      var n := |items| - 1;
      if values != [] {
        ReadAllIff(items[..n], read, values[..|values| - 1]);
        assert values == values[..|values| - 1] + [values[|values| - 1]];
      }
      var init, last := ReadAll(items[..n], read), read(items[n]);
      if init.Some? && last.Some? && values == init.value + [last.value] {
        assert values[..|values| - 1] == init.value;
      }
    }
  }

  // ---- What a whole object means ----

  /** Well-typed, with this id, method, parameters, result and error as the last ones; other keys do not matter. */
  predicate Says(
    fields: Fields, id: RequestId, called: Option<string>, params: Option<Json>, result: Option<Json>,
    error: Option<Json>)
  {
    && AllWellTyped(fields)
    && Last(fields, "id") == Some(JString(id.text))
    && Last(fields, "method") == (if called.Some? then Some(JString(called.value)) else None)
    && Last(fields, "params") == params
    && Last(fields, "result") == result
    && Last(fields, "error") == error
  }

  lemma {:induction false} LastWellTyped(fields: Fields, key: string)
    requires AllWellTyped(fields) && Last(fields, key).Some?
    ensures WellTyped((key, Last(fields, key).value))
  {
    if fields[|fields| - 1].0 != key {
      LastWellTyped(fields[..|fields| - 1], key);
    } else {
      assert fields[|fields| - 1] == (key, Last(fields, key).value);
    }
  }

  /** A fee enquiry: without the token, or without any parameters, there is no token. */
  lemma {:induction false} GetInfoMeans(
    fields: Fields, ids: IdMap, dates: DateCodec, id: RequestId, params: Option<Json>, result: Option<Json>,
    error: Option<Json>, members: Members, token: Option<string>)
    requires Says(fields, id, Some("lsps2.get_info"), params, result, error)
    requires params == Some(JObject(members)) || (params == None && members == map[])
    ensures Decode(fields, ids, dates) == (Ok(RequestMessage(id, GetInfo(token))), ids) <==>
            OptionalTextAt(members, "token", token)
  {
    MethodNameRoundTrip(LSPS2GetInfo, "lsps2.get_info");
  }

  /** A purchase: without a payment size, or with null, the size is not fixed. */
  lemma {:induction false} BuyMeans(
    fields: Fields, ids: IdMap, dates: DateCodec, id: RequestId, result: Option<Json>, error: Option<Json>,
    members: Members, feeParams: OpeningFeeParams, size: Option<UInt64>)
    requires Says(fields, id, Some("lsps2.buy"), Some(JObject(members)), result, error)
    requires "opening_fee_params" in members ==> !members["opening_fee_params"].JArray?
    ensures Decode(fields, ids, dates) == (Ok(RequestMessage(id, Buy(feeParams, size))), ids) <==>
            IsBuy(members, feeParams, size, dates)
  {
    MethodNameRoundTrip(LSPS2Buy, "lsps2.buy");
    BuyReadIff(members, feeParams, size, dates);
  }

  /** The parameters of `lsps0.list_protocols` are not looked at. */
  lemma {:induction false} ListProtocolsMeans(
    fields: Fields, ids: IdMap, dates: DateCodec, id: RequestId, params: Option<Json>, result: Option<Json>,
    error: Option<Json>)
    requires Says(fields, id, Some("lsps0.list_protocols"), params, result, error)
    ensures Decode(fields, ids, dates) == (Ok(RequestMessage(id, ListProtocols)), ids)
  {
    MethodNameRoundTrip(LSPS0ListProtocols, "lsps0.list_protocols");
  }

  /** An awaited error, whatever the result: without data, or with null, it has none. */
  lemma {:induction false} ErrorMeans(
    fields: Fields, ids: IdMap, dates: DateCodec, id: RequestId, params: Option<Json>, result: Option<Json>,
    members: Members, response: Response)
    requires Says(fields, id, None, params, result, Some(JObject(members))) && id in ids
    ensures Decode(fields, ids, dates) == (Ok(ResponseMessage(id, response)), ids - {id}) <==>
            IsError(response) && Answers(response) == ids[id] && IsErrorObject(members, response.error)
  {
    LastWellTyped(fields, "error");
    if IsError(response) {
      ErrorReadIff(members, response.error);
    }
  }

  /** An awaited answer to a purchase: without the flag, the client does not trust the LSP. */
  lemma {:induction false} BuyResultMeans(
    fields: Fields, ids: IdMap, dates: DateCodec, id: RequestId, params: Option<Json>, members: Members,
    scid: string, delta: UInt32, trusts: bool)
    requires Says(fields, id, None, params, Some(JObject(members)), None) && id in ids && ids[id] == LSPS2Buy
    ensures Decode(fields, ids, dates) == (Ok(ResponseMessage(id, BuyResult(scid, delta, trusts))), ids - {id}) <==>
            IsBuyResult(members, scid, delta, trusts)
  {
  }

  /** An awaited answer to a fee enquiry: the menu, entry by entry. */
  lemma {:induction false} MenuMeans(
    fields: Fields, ids: IdMap, dates: DateCodec, id: RequestId, params: Option<Json>, members: Members,
    items: seq<Json>, menu: seq<OpeningFeeParams>)
    requires Says(fields, id, None, params, Some(JObject(members)), None) && id in ids && ids[id] == LSPS2GetInfo
    requires "opening_fee_params_menu" in members && members["opening_fee_params_menu"] == JArray(items)
    requires forall i :: 0 <= i < |items| ==> items[i].JObject?
    ensures Decode(fields, ids, dates) == (Ok(ResponseMessage(id, GetInfoResult(menu))), ids - {id}) <==>
            |menu| == |items| && forall i :: 0 <= i < |items| ==> IsFeeParams(items[i].fields, menu[i], dates)
  {
    var read := (json: Json) => ReadFeeParams(json, dates);
    ReadAllIff(items, read, menu);
    if |menu| == |items| {
      forall i | 0 <= i < |items|
        ensures read(items[i]) == Some(menu[i]) <==> IsFeeParams(items[i].fields, menu[i], dates)
      {
        FeeParamsReadIff(items[i].fields, menu[i], dates);
      }
    }
  }

  /** An awaited list of protocols. */
  lemma {:induction false} ProtocolsMean(
    fields: Fields, ids: IdMap, dates: DateCodec, id: RequestId, params: Option<Json>, members: Members,
    items: seq<Json>, protocols: seq<UInt16>)
    requires Says(fields, id, None, params, Some(JObject(members)), None)
    requires id in ids && ids[id] == LSPS0ListProtocols
    requires "protocols" in members && members["protocols"] == JArray(items)
    ensures Decode(fields, ids, dates) == (Ok(ResponseMessage(id, ListProtocolsResult(protocols))), ids - {id}) <==>
            |protocols| == |items| && forall i :: 0 <= i < |items| ==> items[i] == JInteger(protocols[i])
  {
    ReadAllIff(items, ReadUInt16, protocols);
  }

  // ---- Structures written as arrays ----

  predicate DistinctNames(names: seq<string>) {
    forall i, j :: 0 <= i < j < |names| ==> names[i] != names[j]
  }

  lemma {:induction false} ZipIs(names: seq<string>, items: seq<Json>, i: nat)
    requires DistinctNames(names) && i < |items| <= |names|
    ensures names[i] in Zip(names, items) && Zip(names, items)[names[i]] == items[i]
    decreases |items|
  {
    var n := |items| - 1;
    if i < n {
      ZipIs(names[..n], items[..n], i);
    }
  }

  lemma {:induction false} ZipNames(names: seq<string>, items: seq<Json>, name: string)
    requires |items| <= |names| && name in Zip(names, items)
    ensures name in names[..|items|]
    decreases |items|
  {
    var n := |items| - 1;
    if name != names[n] {
      ZipNames(names[..n], items[..n], name);
    }
  }

  /** An array of values means the object that has them under the names of its first fields, if none is required. */
  lemma {:induction false} ArrayMeansObject(names: seq<string>, required: nat, items: seq<Json>, members: Members)
    requires DistinctNames(names) && required <= |items| <= |names|
    requires forall name :: name in members <==> name in names[..|items|]
    requires forall i :: 0 <= i < |items| ==> names[i] in members && members[names[i]] == items[i]
    ensures Record(JArray(items), names, required) == Record(JObject(members), names, required)
  {
    var zip := Zip(names, items);
    forall name
      ensures name in zip <==> name in members
      ensures name in zip ==> zip[name] == members[name]
    {
      if name in zip {
        ZipNames(names, items, name);
      }
      if name in names[..|items|] {
        var i :| 0 <= i < |items| && names[..|items|][i] == name;
        ZipIs(names, items, i);
      }
    }
    assert zip == members;
  }

  /** Of the members of an array only the flag of a purchase and the size of one may be left off. */
  lemma {:induction false} ArraysMayOmit(scid: string, delta: UInt32, code: Json, feeParams: Json, dates: DateCodec)
    ensures ReadResult(LSPS2Buy, JArray([JString(scid), JInteger(delta)]), dates) == Some(BuyResult(scid, delta, false))
    ensures ReadRequest(LSPS2Buy, JArray([feeParams]), dates) ==
            ReadRequest(LSPS2Buy, JObject(map["opening_fee_params" := feeParams]), dates)
    ensures ReadRequest(LSPS2GetInfo, JArray([]), dates) == None
    ensures ReadError(JArray([code, JString(scid)])) == None
  {
    var result, request := ["intercept_scid", "lsp_cltv_expiry_delta", "client_trusts_lsp"],
                           ["opening_fee_params", "payment_size_msat"];
    assert |result[0]| < |result[2]| < |result[1]| && |request[1]| < |request[0]|;
    assert result[..2] == [result[0], result[1]] && request[..1] == [request[0]];
    ArrayMeansObject(result, 2, [JString(scid), JInteger(delta)],
                     map[result[0] := JString(scid), result[1] := JInteger(delta)]);
    ArrayMeansObject(request, 1, [feeParams], map[request[0] := feeParams]);
  }

  // ---- What is written ----

  /** The version comes first; an enquiry without a token says null, a purchase without a size says nothing. */
  lemma {:induction false} WrittenForm(message: LSPSMessage, params: OpeningFeeParams, dates: DateCodec)
    ensures Encode(message, dates)[0] == ("jsonrpc", JString("2.0"))
    ensures WriteRequest(GetInfo(None), dates) == JObject(map["token" := JNull])
    ensures "payment_size_msat" !in WriteRequest(Buy(params, None), dates).fields
  {
  }
}
