/**
 The LSPS2 service: all channels of all peers, and what every call does to them.
 A `Service` is the value of the handler's maps, with the history of each channel added.
 */
module ServiceSpec {
  import opened Types
  import opened PaymentQueues
  import opened OpeningFees
  import opened JitChannels
  import opened Messages
  import Scids

  datatype ServiceEvent =
    | GetInfoEvent(requestId: RequestId, counterparty: PublicKey, token: Option<string>)
    | BuyRequestEvent(requestId: RequestId, counterparty: PublicKey, terms: ChannelTerms)
    | OpenChannelEvent(counterparty: PublicKey, amtToForwardMsat: nat, openingFeeMsat: UInt64,
                       userChannelId: UInt128, interceptScid: UInt64)

  /** A channel ever created: what it was created with and its life so far. */
  datatype Entry = Entry(userChannelId: UInt128, terms: ChannelTerms, life: Life)

  /** What is kept for one peer. */
  datatype Peer = Peer(
    channels: map<UInt64, Entry>,
    scidByUserChannelId: map<UInt128, UInt64>,
    scidByChannelId: map<ChannelId, UInt64>,
    requests: map<RequestId, Request>)
  {
    /** The channel exists and has not been dropped. */
    predicate LiveAt(scid: UInt64) { scid in channels && !channels[scid].life.removed }

    /** A channel has answered an event with a new state and an action. */
    function Answered(scid: UInt64, event: ChannelEvent, view: ChannelView, action: Action): Peer
      requires scid in channels
    {
      var entry := channels[scid];
      var life := Life(view, event.Intercepted? && action.Refused?, entry.life.log + [Handled(event, action)]);
      this.(channels := channels[scid := entry.(life := life)])
    }
  }

  const NEW_PEER := Peer(map[], map[], map[], map[])

  datatype Service = Service(
    peers: map<PublicKey, Peer>,
    scidPeers: map<UInt64, PublicKey>,
    channelPeers: map<ChannelId, PublicKey>,
    calls: seq<ManagerCall>,
    events: seq<ServiceEvent>,
    messages: seq<(PublicKey, LSPSMessage)>)
  {
    predicate LiveAt(peer: PublicKey, scid: UInt64) { peer in peers && peers[peer].LiveAt(scid) }
  }

  const EMPTY_SERVICE := Service(map[], map[], map[], [], [], [])

  function OpenEvents(peer: PublicKey, scid: UInt64, userChannelId: UInt128, action: Action): seq<ServiceEvent> {
    if action.OpenChannel?
    then [OpenChannelEvent(peer, action.amtToForwardMsat, action.openingFeeMsat, userChannelId, scid)]
    else []
  }

  /** The answer of one channel is recorded. */
  function Answered(
    s: Service, peer: PublicKey, scid: UInt64, event: ChannelEvent, view: ChannelView, action: Action): Service
    requires peer in s.peers && scid in s.peers[peer].channels
  {
    s.(peers := s.peers[peer := s.peers[peer].Answered(scid, event, view, action)])
  }

  /** ... and its action carried out. */
  function Settled(
    s: Service, peer: PublicKey, scid: UInt64, event: ChannelEvent, view: ChannelView, action: Action): Service
    requires peer in s.peers && scid in s.peers[peer].channels
  {
    var s' := Answered(s, peer, scid, event, view, action);
    s'.(calls := s.calls + Calls(peer, event, action),
        events := s.events + OpenEvents(peer, scid, s.peers[peer].channels[scid].userChannelId, action))
  }

  function AnswerOf(entry: Entry, event: ChannelEvent): (ChannelView, Action) {
    OnEvent(entry.terms, entry.life.view, event)
  }

  /** A channel hears an event, if it is still there. */
  function Deliver(s: Service, peer: PublicKey, scid: UInt64, event: ChannelEvent): Service {
    if s.LiveAt(peer, scid) then
      var (view, action) := AnswerOf(s.peers[peer].channels[scid], event);
      Settled(s, peer, scid, event, view, action)
    else s
  }

  function AfterIntercepted(s: Service, scid: UInt64, htlc: InterceptedHTLC): Service {
    if scid in s.scidPeers then Deliver(s, s.scidPeers[scid], scid, Intercepted(htlc)) else s
  }

  /** The channel would refuse the event. */
  predicate Refuses(s: Service, peer: PublicKey, scid: UInt64, event: ChannelEvent) {
    s.LiveAt(peer, scid) && AnswerOf(s.peers[peer].channels[scid], event).1.Refused?
  }

  predicate InterceptFails(s: Service, scid: UInt64, htlc: InterceptedHTLC) {
    scid in s.scidPeers && (s.scidPeers[scid] !in s.peers || Refuses(s, s.scidPeers[scid], scid, Intercepted(htlc)))
  }

  /** The peer and scid that a channel id leads to. */
  function ByChannelId(s: Service, id: ChannelId): Option<(PublicKey, UInt64)> {
    if id in s.channelPeers && s.channelPeers[id] in s.peers && id in s.peers[s.channelPeers[id]].scidByChannelId
    then Some((s.channelPeers[id], s.peers[s.channelPeers[id]].scidByChannelId[id])) else None
  }

  function AfterByChannelId(s: Service, id: ChannelId, event: ChannelEvent): Service {
    match ByChannelId(s, id)
    case None => s
    case Some((peer, scid)) => Deliver(s, peer, scid, event)
  }

  /** A failure for an id that leads nowhere is ignored, a success for one that leads half-way is not. */
  predicate HandlingFailedFails(s: Service, id: ChannelId) {
    match ByChannelId(s, id)
    case None => false
    case Some((peer, scid)) => Refuses(s, peer, scid, HandlingFailed)
  }

  predicate SucceededFails(s: Service, id: ChannelId) {
    match ByChannelId(s, id)
    case None => id in s.channelPeers
    case Some((peer, scid)) => Refuses(s, peer, scid, Succeeded)
  }

  function ByUserChannelId(s: Service, peer: PublicKey, userChannelId: UInt128): Option<UInt64> {
    if peer in s.peers && userChannelId in s.peers[peer].scidByUserChannelId
    then Some(s.peers[peer].scidByUserChannelId[userChannelId]) else None
  }

  function ChannelIdAdded(s: Service, peer: PublicKey, id: ChannelId, scid: UInt64): Service
    requires peer in s.peers
  {
    var state := s.peers[peer];
    s.(peers := s.peers[peer := state.(scidByChannelId := state.scidByChannelId[id := scid])])
  }

  /** The two indexes that lead from a channel id to its channel. */
  function Announced(s: Service, userChannelId: UInt128, id: ChannelId, peer: PublicKey): Service {
    var s' := s.(channelPeers := s.channelPeers[id := peer]);
    match ByUserChannelId(s, peer, userChannelId)
    case None => s'
    case Some(scid) => ChannelIdAdded(s', peer, id, scid)
  }

  lemma {:induction false} AnnouncedKeepsChannels(
    s: Service, userChannelId: UInt128, id: ChannelId, peer: PublicKey, scid: UInt64, event: ChannelEvent)
    ensures var s' := Announced(s, userChannelId, id, peer);
            && s'.LiveAt(peer, scid) == s.LiveAt(peer, scid)
            && Refuses(s', peer, scid, event) == Refuses(s, peer, scid, event)
            && s'.peers.Keys == s.peers.Keys
  {
    var s' := Announced(s, userChannelId, id, peer);
    if peer in s.peers {
      assert s'.peers[peer].channels == s.peers[peer].channels;
    }
  }

  function AfterReady(s: Service, userChannelId: UInt128, id: ChannelId, peer: PublicKey): Service {
    var s' := Announced(s, userChannelId, id, peer);
    match ByUserChannelId(s, peer, userChannelId)
    case None => s'
    case Some(scid) => Deliver(s', peer, scid, Ready(id))
  }

  predicate ReadyFails(s: Service, userChannelId: UInt128, id: ChannelId, peer: PublicKey) {
    match ByUserChannelId(s, peer, userChannelId)
    case None => true
    case Some(scid) => !s.LiveAt(peer, scid) || Refuses(s, peer, scid, Ready(id))
  }

  function Reply(s: Service, peer: PublicKey, id: RequestId, response: Response): Service {
    s.(messages := s.messages + [(peer, ResponseMessage(id, response))])
  }

  function PendingRequest(s: Service, peer: PublicKey, id: RequestId): Option<Request> {
    if peer in s.peers && id in s.peers[peer].requests then Some(s.peers[peer].requests[id]) else None
  }

  /** Answering takes the pending request off the books even when it is of the wrong kind. */
  function RequestTaken(s: Service, peer: PublicKey, id: RequestId): Service {
    if peer in s.peers
    then s.(peers := s.peers[peer := s.peers[peer].(requests := s.peers[peer].requests - {id})]) else s
  }

  predicate AwaitsFeeParams(s: Service, peer: PublicKey, id: RequestId) {
    var request := PendingRequest(s, peer, id);
    request.Some? && request.value.GetInfo?
  }

  predicate AwaitsInvoiceParameters(s: Service, peer: PublicKey, id: RequestId) {
    var request := PendingRequest(s, peer, id);
    request.Some? && request.value.Buy?
  }

  function UserChannelIdAdded(s: Service, peer: PublicKey, userChannelId: UInt128, scid: UInt64): Service
    requires peer in s.peers
  {
    var state := s.peers[peer];
    s.(peers := s.peers[peer := state.(scidByUserChannelId := state.scidByUserChannelId[userChannelId := scid])])
  }

  function EntryAdded(s: Service, peer: PublicKey, scid: UInt64, userChannelId: UInt128, terms: ChannelTerms): Service
    requires peer in s.peers
  {
    var state := s.peers[peer];
    s.(peers := s.peers[peer := state.(channels := state.channels[scid := Entry(userChannelId, terms, NEWBORN)])])
  }

  /** A new channel and the two indexes that lead to it. */
  function ChannelAdded(s: Service, peer: PublicKey, scid: UInt64, userChannelId: UInt128, terms: ChannelTerms): Service
    requires peer in s.peers
  {
    var s' := s.(scidPeers := s.scidPeers[scid := peer]);
    EntryAdded(UserChannelIdAdded(s', peer, userChannelId, scid), peer, scid, userChannelId, terms)
  }

  function AfterInvoiceParameters(
    s: Service, peer: PublicKey, id: RequestId, scid: UInt64, cltvExpiryDelta: UInt32, clientTrustsLsp: bool,
    userChannelId: UInt128): Service
  {
    var s' := RequestTaken(s, peer, id);
    if AwaitsInvoiceParameters(s, peer, id) then
      var request := s.peers[peer].requests[id];
      var terms := ChannelTerms(request.openingFeeParams, request.paymentSizeMsat);
      Reply(ChannelAdded(s', peer, scid, userChannelId, terms),
            peer, id, BuyResult(Scids.FromScid(scid), cltvExpiryDelta, clientTrustsLsp))
    else s'
  }

  function AfterFeeAnswer(s: Service, peer: PublicKey, id: RequestId, response: Response): Service {
    var s' := RequestTaken(s, peer, id);
    if AwaitsFeeParams(s, peer, id) then Reply(s', peer, id, response) else s'
  }

  function RequestAdded(s: Service, peer: PublicKey, id: RequestId, request: Request): Service {
    var state := if peer in s.peers then s.peers[peer] else NEW_PEER;
    s.(peers := s.peers[peer := state.(requests := state.requests[id := request])])
  }

  function PeerEntered(s: Service, peer: PublicKey): Service {
    if peer in s.peers then s else s.(peers := s.peers[peer := NEW_PEER])
  }

  lemma {:induction false} RequestAddedToEntry(s: Service, peer: PublicKey, id: RequestId, request: Request)
    ensures RequestAdded(PeerEntered(s, peer), peer, id, request) == RequestAdded(s, peer, id, request)
  {
    if peer !in s.peers {
      var state := NEW_PEER.(requests := NEW_PEER.requests[id := request]);
      assert s.peers[peer := NEW_PEER][peer := state] == s.peers[peer := state];
    }
  }

  function AfterGetInfo(s: Service, peer: PublicKey, id: RequestId, token: Option<string>): Service {
    var s' := RequestAdded(s, peer, id, GetInfo(token));
    s'.(events := s.events + [GetInfoEvent(id, peer, token)])
  }

  /** Why a fixed payment size is turned down: the error code of the reply. */
  function SizeRefusal(params: OpeningFeeParams, size: UInt64): Option<Int32> {
    if size < params.minPaymentSizeMsat then Some(PAYMENT_SIZE_TOO_SMALL)
    else if size > params.maxPaymentSizeMsat then Some(PAYMENT_SIZE_TOO_LARGE)
    else
      match ComputeOpeningFee(size, params.minFeeMsat, params.proportional)
      case None => Some(PAYMENT_SIZE_TOO_LARGE)
      case Some(fee) => if fee >= size then Some(PAYMENT_SIZE_TOO_SMALL) else None
  }

  /**
   When each code is returned: too small below the minimum, or if no fee below the payment covers it; too large
   from the minimum on if the maximum is exceeded or the fee overflows.
   */
  lemma {:induction false} SizeRefusalMeans(params: OpeningFeeParams, size: UInt64)
    ensures SizeRefusal(params, size) == Some(PAYMENT_SIZE_TOO_SMALL) <==>
            || size < params.minPaymentSizeMsat
            || (size <= params.maxPaymentSizeMsat && !FeeOverflows(params, size) && !LeavesSomething(params, size))
    ensures SizeRefusal(params, size) == Some(PAYMENT_SIZE_TOO_LARGE) <==>
            size >= params.minPaymentSizeMsat && (size > params.maxPaymentSizeMsat || FeeOverflows(params, size))
    ensures SizeRefusal(params, size) == None <==>
            && params.minPaymentSizeMsat <= size <= params.maxPaymentSizeMsat
            && !FeeOverflows(params, size) && LeavesSomething(params, size)
  {
    PayableIff(params, size);
  }

  /** What becomes of a buy request. */
  datatype BuyAnswer = Accepted | TurnedDown(code: Int32) | Panics

  /** The size is checked first; an expiry before 1970 panics before the promise is looked at. */
  function AnswerToBuy(terms: ChannelTerms, promiseValid: bool): BuyAnswer {
    var refusal := if terms.paymentSizeMsat.Some? then SizeRefusal(terms.openingFeeParams, terms.paymentSizeMsat.value)
                   else None;
    if refusal.Some? then TurnedDown(refusal.value)
    else if terms.openingFeeParams.validUntil.seconds < 0 then Panics
    else if promiseValid then Accepted
    else TurnedDown(INVALID_OPENING_FEE_PARAMS)
  }

  /** A panic leaves the service as it was. */
  function AfterBuy(s: Service, peer: PublicKey, id: RequestId, terms: ChannelTerms, promiseValid: bool): Service {
    match AnswerToBuy(terms, promiseValid)
    case Panics => s
    case TurnedDown(code) => Reply(s, peer, id, BuyError(ErrorOf(code)))
    case Accepted =>
      var s' := RequestAdded(s, peer, id, Buy(terms.openingFeeParams, terms.paymentSizeMsat));
      s'.(events := s.events + [BuyRequestEvent(id, peer, terms)])
  }
}
