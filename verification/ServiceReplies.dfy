/** What a service announces to the LSP about requests, and what it answers to its peers, over whole runs. */
module ServiceReplies {
  import opened Types
  import opened JitChannels
  import opened Messages
  import opened ServiceSpec
  import opened ServiceRuns
  import opened ServiceTheorems
  import opened ServiceOutputs
  import Scids

  // ---- Purchases that are turned down ----

  predicate TooSmall(params: OpeningFeeParams, size: nat) { size < params.minPaymentSizeMsat }

  predicate TooLarge(params: OpeningFeeParams, size: nat) { size > params.maxPaymentSizeMsat }

  /** Code 3: below the minimum, or eaten up by the fee. Code 4: above the maximum, or the fee overflows. */
  ghost predicate SizeRefusedWith(params: OpeningFeeParams, size: nat, code: int) {
    || (code == 3 && (TooSmall(params, size)
                      || (!TooLarge(params, size) && !FeeOverflows(params, size) && !LeavesSomething(params, size))))
    || (code == 4 && !TooSmall(params, size) && (TooLarge(params, size) || FeeOverflows(params, size)))
  }

  /** A purchase is turned down for its size, or with code 2 for a promise that is not valid. */
  lemma {:induction false} BuyTurnedDownIff(terms: ChannelTerms, promiseValid: bool, code: Int32)
    ensures AnswerToBuy(terms, promiseValid) == TurnedDown(code) <==>
            || (terms.paymentSizeMsat.Some?
                && SizeRefusedWith(terms.openingFeeParams, terms.paymentSizeMsat.value, code))
            || (code == 2 && !promiseValid && terms.openingFeeParams.validUntil.seconds >= 0
                && (terms.paymentSizeMsat.Some? ==> PaysForItself(terms, terms.paymentSizeMsat.value)))
  {
    if terms.paymentSizeMsat.Some? {
      SizeRefusalMeans(terms.openingFeeParams, terms.paymentSizeMsat.value);
    }
  }

  // ---- Requests that wait for an answer ----

  /** The request that waits under an id after a call, given what waited there before it. */
  function Next(before: Option<Request>, call: ServiceCall, peer: PublicKey, id: RequestId): Option<Request> {
    if !AboutRequests(call) || call.peer != peer || call.request != id then before
    else
      match call
      case GetInfoRequested(_, _, token) => Some(GetInfo(token))
      case BuyRequested(_, _, terms, valid) =>
        if AnswerToBuy(terms, valid) == Accepted then Some(Buy(terms.openingFeeParams, terms.paymentSizeMsat))
        else before
      case _ => None
  }

  /** The last request under an id, unless it was answered since: by the calls alone. */
  function Waiting(calls: seq<ServiceCall>, peer: PublicKey, id: RequestId): Option<Request> {
    if calls == [] then None else Next(Waiting(calls[..|calls| - 1], peer, id), calls[|calls| - 1], peer, id)
  }

  lemma {:induction false} DeliveryKeepsRequests(
    s: Service, to: PublicKey, scid: UInt64, event: ChannelEvent, peer: PublicKey, id: RequestId)
    ensures PendingRequest(Deliver(s, to, scid, event), peer, id) == PendingRequest(s, peer, id)
    ensures Deliver(s, to, scid, event).messages == s.messages
  {
  }

  lemma {:induction false} AnnouncingKeepsRequests(
    s: Service, userChannelId: UInt128, channelId: ChannelId, to: PublicKey, peer: PublicKey, id: RequestId)
    ensures PendingRequest(Announced(s, userChannelId, channelId, to), peer, id) == PendingRequest(s, peer, id)
    ensures Announced(s, userChannelId, channelId, to).messages == s.messages
  {
  }

  /** Channels' calls are no request's business. */
  lemma {:induction false} ChannelCallsKeepRequests(s: Service, call: ServiceCall, peer: PublicKey, id: RequestId)
    requires !AboutRequests(call)
    ensures PendingRequest(After(s, call), peer, id) == PendingRequest(s, peer, id)
    ensures After(s, call).messages == s.messages
  {
    match call
    case HtlcIntercepted(scid, htlc) =>
      if scid in s.scidPeers {
        DeliveryKeepsRequests(s, s.scidPeers[scid], scid, Intercepted(htlc), peer, id);
      }
    case HtlcHandlingFailed(failed) =>
      if failed.Some? && ByChannelId(s, failed.value).Some? {
        var (to, scid) := ByChannelId(s, failed.value).value;
        DeliveryKeepsRequests(s, to, scid, HandlingFailed, peer, id);
      }
    case PaymentForwarded(next) =>
      if ByChannelId(s, next).Some? {
        var (to, scid) := ByChannelId(s, next).value;
        DeliveryKeepsRequests(s, to, scid, Succeeded, peer, id);
      }
    case ChannelReady(user, ready, to) =>
      AnnouncingKeepsRequests(s, user, ready, to, peer, id);
      if ByUserChannelId(s, to, user).Some? {
        DeliveryKeepsRequests(Announced(s, user, ready, to), to, ByUserChannelId(s, to, user).value, Ready(ready),
                              peer, id);
      }
  }

  lemma {:induction false} TakingTakesOne(s: Service, from: PublicKey, taken: RequestId, peer: PublicKey, id: RequestId)
    ensures PendingRequest(RequestTaken(s, from, taken), peer, id) ==
            if from == peer && taken == id then None else PendingRequest(s, peer, id)
    ensures RequestTaken(s, from, taken).messages == s.messages
  {
  }

  lemma {:induction false} AddingAddsOne(
    s: Service, to: PublicKey, added: RequestId, request: Request, peer: PublicKey, id: RequestId)
    ensures PendingRequest(RequestAdded(s, to, added, request), peer, id) ==
            if to == peer && added == id then Some(request) else PendingRequest(s, peer, id)
  {
  }

  lemma {:induction false} CreatingKeepsRequests(
    s: Service, to: PublicKey, scid: UInt64, userChannelId: UInt128, terms: ChannelTerms, peer: PublicKey,
    id: RequestId)
    requires to in s.peers
    ensures PendingRequest(ChannelAdded(s, to, scid, userChannelId, terms), peer, id) == PendingRequest(s, peer, id)
  {
  }

  lemma {:induction false} InvoiceParametersTake(s: Service, call: ServiceCall, peer: PublicKey, id: RequestId)
    requires call.InvoiceParametersGenerated?
    ensures PendingRequest(After(s, call), peer, id) ==
            if call.peer == peer && call.request == id then None else PendingRequest(s, peer, id)
  {
    TakingTakesOne(s, call.peer, call.request, peer, id);
    if AwaitsInvoiceParameters(s, call.peer, call.request) {
      var buy := s.peers[call.peer].requests[call.request];
      CreatingKeepsRequests(RequestTaken(s, call.peer, call.request), call.peer, call.scid, call.userChannelId,
                            ChannelTerms(buy.openingFeeParams, buy.paymentSizeMsat), peer, id);
    }
  }

  lemma {:induction false} RequestCallsMoveOn(s: Service, call: ServiceCall, peer: PublicKey, id: RequestId)
    requires AboutRequests(call)
    ensures PendingRequest(After(s, call), peer, id) == Next(PendingRequest(s, peer, id), call, peer, id)
  {
    match call
    case GetInfoRequested(p, i, token) => AddingAddsOne(s, p, i, GetInfo(token), peer, id);
    case BuyRequested(p, i, terms, _) =>
      AddingAddsOne(s, p, i, Buy(terms.openingFeeParams, terms.paymentSizeMsat), peer, id);
    case InvoiceParametersGenerated(_, _, _, _, _, _) => InvoiceParametersTake(s, call, peer, id);
    case OpeningFeeParamsGenerated(p, i, _) => TakingTakesOne(s, p, i, peer, id);
    case InvalidTokenProvided(p, i) => TakingTakesOne(s, p, i, peer, id);
  }

  /** What the handler keeps for a peer under an id is the last request that was not answered. */
  lemma {:induction false} WaitingIsPending(calls: seq<ServiceCall>, peer: PublicKey, id: RequestId)
    ensures PendingRequest(Run(calls), peer, id) == Waiting(calls, peer, id)
  {
    if calls != [] {
      var init, last := calls[..|calls| - 1], calls[|calls| - 1];
      WaitingIsPending(init, peer, id);
      if AboutRequests(last) {
        RequestCallsMoveOn(Run(init), last, peer, id);
      } else {
        ChannelCallsKeepRequests(Run(init), last, peer, id);
      }
    }
  }

  // ---- Replies ----

  /** The text names this scid. */
  predicate Names(text: string, scid: UInt64) { Scids.ToScid(text) == Some(scid) }

  /** What the last call makes the service answer, given what was waiting, and to whom. */
  ghost predicate RightReply(
    waiting: Option<Request>, call: ServiceCall, replies: seq<(PublicKey, LSPSMessage)>)
  {
    match call
    case OpeningFeeParamsGenerated(peer, id, menu) =>
      if waiting.Some? && waiting.value.GetInfo?
      then replies == [(peer, ResponseMessage(id, GetInfoResult(menu)))] else replies == []
    case InvalidTokenProvided(peer, id) =>
      if waiting.Some? && waiting.value.GetInfo?
      then && |replies| == 1 && replies[0].0 == peer && replies[0].1.ResponseMessage? && replies[0].1.id == id
           && replies[0].1.response.GetInfoError? && replies[0].1.response.error.code == 2
      else replies == []
    case InvoiceParametersGenerated(peer, id, scid, delta, trusts, _) =>
      if waiting.Some? && waiting.value.Buy?
      then && |replies| == 1 && replies[0].0 == peer && replies[0].1.ResponseMessage? && replies[0].1.id == id
           && replies[0].1.response.BuyResult? && Names(replies[0].1.response.interceptScid, scid)
           && replies[0].1.response.lspCltvExpiryDelta == delta && replies[0].1.response.clientTrustsLsp == trusts
      else replies == []
    case BuyRequested(peer, id, terms, valid) =>
      if AnswerToBuy(terms, valid).TurnedDown?
      then && |replies| == 1 && replies[0].0 == peer && replies[0].1.ResponseMessage? && replies[0].1.id == id
           && replies[0].1.response.BuyError? && replies[0].1.response.error.code == AnswerToBuy(terms, valid).code
      else replies == []
    case _ => replies == []
  }

  /** The request that a call answers. */
  function Answered(calls: seq<ServiceCall>, call: ServiceCall): Option<Request> {
    if call.OpeningFeeParamsGenerated? || call.InvalidTokenProvided? || call.InvoiceParametersGenerated?
    then Waiting(calls, call.peer, call.request) else None
  }

  /**
   Over every run: a call adds exactly the reply that is due to the request waiting under its id, or the error code
   of the purchase that is turned down, and no other call adds a reply.
   */
  lemma {:induction false} EveryReplyIsDue(calls: seq<ServiceCall>, call: ServiceCall)
    ensures Run(calls).messages <= Run(calls + [call]).messages
    ensures RightReply(Answered(calls, call), call, Run(calls + [call]).messages[|Run(calls).messages|..])
  {
    assert (calls + [call])[..|calls|] == calls;
    var s := Run(calls);
    if AboutRequests(call) {
      WaitingIsPending(calls, call.peer, call.request);
      RequestCallReplies(s, call);
    } else {
      ChannelCallsKeepRequests(s, call, PublicKey([]), RequestId(""));
    }
  }

  lemma {:induction false} FeeAnswerReplies(s: Service, call: ServiceCall)
    requires call.OpeningFeeParamsGenerated? || call.InvalidTokenProvided?
    ensures s.messages <= After(s, call).messages
    ensures RightReply(PendingRequest(s, call.peer, call.request), call, After(s, call).messages[|s.messages|..])
  {
  }

  lemma {:induction false} InvoiceMessages(s: Service, call: ServiceCall)
    requires call.InvoiceParametersGenerated?
    ensures After(s, call).messages == s.messages +
            if !AwaitsInvoiceParameters(s, call.peer, call.request) then []
            else [(call.peer, ResponseMessage(call.request, BuyResult(Scids.FromScid(call.scid), call.cltvExpiryDelta,
                                                                      call.clientTrustsLsp)))]
  {
  }

  lemma {:induction false} InvoiceParametersReply(s: Service, call: ServiceCall)
    requires call.InvoiceParametersGenerated?
    ensures s.messages <= After(s, call).messages
    ensures RightReply(PendingRequest(s, call.peer, call.request), call, After(s, call).messages[|s.messages|..])
  {
    InvoiceMessages(s, call);
    Scids.ScidRoundTrip(call.scid);
  }

  lemma {:induction false} RequestReplies(s: Service, call: ServiceCall)
    requires call.GetInfoRequested? || call.BuyRequested?
    ensures s.messages <= After(s, call).messages
    ensures RightReply(PendingRequest(s, call.peer, call.request), call, After(s, call).messages[|s.messages|..])
  {
  }

  lemma {:induction false} RequestCallReplies(s: Service, call: ServiceCall)
    requires AboutRequests(call)
    ensures s.messages <= After(s, call).messages
    ensures RightReply(PendingRequest(s, call.peer, call.request), call, After(s, call).messages[|s.messages|..])
  {
    match call
    case InvoiceParametersGenerated(_, _, _, _, _, _) => InvoiceParametersReply(s, call);
    case OpeningFeeParamsGenerated(_, _, _) => FeeAnswerReplies(s, call);
    case InvalidTokenProvided(_, _) => FeeAnswerReplies(s, call);
    case _ => RequestReplies(s, call);
  }

  // ---- Each request is answered at most once ----

  function Indicator(b: bool): nat { if b then 1 else 0 }

  /** The call brings in a request of this peer under this id. */
  predicate Asks(call: ServiceCall, peer: PublicKey, id: RequestId) {
    (call.GetInfoRequested? || call.BuyRequested?) && call.peer == peer && call.request == id
  }

  function Requests(calls: seq<ServiceCall>, peer: PublicKey, id: RequestId): nat {
    if calls == [] then 0
    else Requests(calls[..|calls| - 1], peer, id) + Indicator(Asks(calls[|calls| - 1], peer, id))
  }

  predicate IsReply(message: (PublicKey, LSPSMessage), peer: PublicKey, id: RequestId) {
    message.0 == peer && message.1.ResponseMessage? && message.1.id == id
  }

  function Replies(messages: seq<(PublicKey, LSPSMessage)>, peer: PublicKey, id: RequestId): nat {
    if messages == [] then 0
    else Replies(messages[..|messages| - 1], peer, id) + Indicator(IsReply(messages[|messages| - 1], peer, id))
  }

  lemma {:induction false} RepliesGrow(
    messages: seq<(PublicKey, LSPSMessage)>, more: seq<(PublicKey, LSPSMessage)>, peer: PublicKey, id: RequestId)
    requires |more| <= 1
    ensures Replies(messages + more, peer, id) ==
            Replies(messages, peer, id) + if more == [] then 0 else Indicator(IsReply(more[0], peer, id))
  {
    if more == [] {
      assert messages + more == messages;
    } else {
      assert (messages + more)[..|messages|] == messages;
    }
  }

  /** Replies to a peer under an id, together with a request still waiting there, never outnumber its requests. */
  lemma {:induction false} RepliesAtMostRequests(calls: seq<ServiceCall>, peer: PublicKey, id: RequestId)
    ensures Replies(Run(calls).messages, peer, id) + Indicator(Waiting(calls, peer, id).Some?)
         <= Requests(calls, peer, id)
  {
    if calls != [] {
      var init, last := calls[..|calls| - 1], calls[|calls| - 1];
      var before, after := Run(init).messages, Run(calls).messages;
      RepliesAtMostRequests(init, peer, id);
      assert init + [last] == calls;
      EveryReplyIsDue(init, last);
      assert after == before + after[|before|..];
      RepliesGrow(before, after[|before|..], peer, id);
    }
  }

  // ---- The scid in a reply ----

  /** The peer was told this text in answer to a purchase. */
  predicate Told(message: (PublicKey, LSPSMessage), peer: PublicKey, text: string) {
    && message.0 == peer && message.1.ResponseMessage? && message.1.response.BuyResult?
    && message.1.response.interceptScid == text
  }

  lemma {:induction false} OnlyPurchasesTell(
    waiting: Option<Request>, call: ServiceCall, replies: seq<(PublicKey, LSPSMessage)>, i: nat, peer: PublicKey,
    text: string)
    requires RightReply(waiting, call, replies) && i < |replies| && Told(replies[i], peer, text)
    ensures call.InvoiceParametersGenerated? && waiting.Some? && waiting.value.Buy?
    ensures call.peer == peer && Names(text, call.scid)
  {
  }

  lemma {:induction false} CreatesWhatItTells(s: Service, call: ServiceCall, m: nat, peer: PublicKey, text: string)
    requires |s.messages| <= m < |After(s, call).messages| && Told(After(s, call).messages[m], peer, text)
    ensures var created := Created(s, call);
            created.Some? && Names(text, created.value.0) && created.value.1.peer == peer
  {
    if AboutRequests(call) {
      var replies := After(s, call).messages[|s.messages|..];
      RequestCallReplies(s, call);
      OnlyPurchasesTell(PendingRequest(s, call.peer, call.request), call, replies, m - |s.messages|, peer, text);
    } else {
      ChannelCallsKeepRequests(s, call, peer, RequestId(""));
    }
  }

  lemma {:induction false} OneName(text: string, scid: UInt64, other: UInt64)
    requires Names(text, scid) && Names(text, other)
    ensures scid == other
  {
  }

  lemma {:induction false} StepKeepsOwner(
    flat: map<UInt64, Owned>, addressed: Option<(UInt64, ChannelEvent)>, created: Option<(UInt64, Owned)>,
    scid: UInt64, peer: PublicKey)
    requires New(flat, addressed, created)
    requires (scid in flat && flat[scid].peer == peer)
          || (created.Some? && created.value.0 == scid && created.value.1.peer == peer)
    ensures scid in FlatStep(flat, addressed, created) && FlatStep(flat, addressed, created)[scid].peer == peer
  {
  }

  lemma {:induction false} ToldEarlierOrCreated(
    calls: seq<ServiceCall>, call: ServiceCall, m: nat, peer: PublicKey, text: string, scid: UInt64)
    requires m < |Run(calls + [call]).messages| && Told(Run(calls + [call]).messages[m], peer, text)
    requires Names(text, scid)
    ensures var (s, created) := (Run(calls), Created(Run(calls), call));
            || (m < |s.messages| && Told(s.messages[m], peer, text))
            || (created.Some? && created.value.0 == scid && created.value.1.peer == peer)
  {
    EveryReplyIsDue(calls, call);
    assert (calls + [call])[..|calls|] == calls;
    if m >= |Run(calls).messages| {
      CreatesWhatItTells(Run(calls), call, m, peer, text);
      OneName(text, scid, Created(Run(calls), call).value.0);
    }
  }

  /** Every scid that a peer was ever told leads to a channel of that peer. */
  lemma {:induction false} ToldScidsLeadToChannels(
    calls: seq<ServiceCall>, m: nat, peer: PublicKey, text: string, scid: UInt64)
    requires FreshRun(calls) && m < |Run(calls).messages|
    requires Told(Run(calls).messages[m], peer, text) && Names(text, scid)
    ensures scid in Flat(Run(calls)) && Flat(Run(calls))[scid].peer == peer
  {
    var init, last := calls[..|calls| - 1], calls[|calls| - 1];
    assert calls == init + [last];
    RunSound(init);
    StepIsFlat(Run(init), last);
    ToldEarlierOrCreated(init, last, m, peer, text, scid);
    if m < |Run(init).messages| && Told(Run(init).messages[m], peer, text) {
      ToldScidsLeadToChannels(init, m, peer, text, scid);
    }
    StepKeepsOwner(Flat(Run(init)), Addressed(Run(init), last), Created(Run(init), last), scid, peer);
  }

  // ---- Requests are announced to the LSP ----

  /** What the LSP learns from a call besides openings: every enquiry, and every purchase that is accepted. */
  predicate RightNews(call: ServiceCall, news: seq<ServiceEvent>) {
    match call
    case GetInfoRequested(peer, id, token) => news == [GetInfoEvent(id, peer, token)]
    case BuyRequested(peer, id, terms, valid) =>
      news == if AnswerToBuy(terms, valid) == Accepted then [BuyRequestEvent(id, peer, terms)] else []
    case _ => forall e :: 0 <= e < |news| ==> news[e].OpenChannelEvent?
  }

  lemma {:induction false} AskedIsOpening(flat: map<UInt64, Owned>, addressed: Option<(UInt64, ChannelEvent)>, e: nat)
    requires e < |Asked(flat, addressed)|
    ensures Asked(flat, addressed)[e].OpenChannelEvent?
  {
  }

  lemma {:induction false} RequestCallNews(s: Service, call: ServiceCall)
    requires AboutRequests(call)
    ensures s.events <= After(s, call).events && RightNews(call, After(s, call).events[|s.events|..])
  {
  }

  /** Over every run: exactly the enquiries and the purchases that are accepted are announced, as they came in. */
  lemma {:induction false} EveryRequestIsAnnounced(calls: seq<ServiceCall>, call: ServiceCall)
    requires FreshRun(calls + [call])
    ensures Run(calls).events <= Run(calls + [call]).events
    ensures RightNews(call, Run(calls + [call]).events[|Run(calls).events|..])
  {
    assert (calls + [call])[..|calls|] == calls;
    var s := Run(calls);
    RunSound(calls);
    if AboutRequests(call) {
      RequestCallNews(s, call);
    } else {
      ChannelsAsk(s, call);
      var news := Asked(Flat(s), Addressed(s, call));
      assert After(s, call).events[|s.events|..] == news;
      forall e | 0 <= e < |news|
        ensures news[e].OpenChannelEvent?
      {
        AskedIsOpening(Flat(s), Addressed(s, call), e);
      }
    }
  }
}
