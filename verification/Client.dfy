/** The LSPS2 client: the requests it has pending with every LSP, and what the responses do to them. */
module Clients {
  import opened Types
  import opened Messages
  import Scids

  datatype ClientEvent =
    | OpeningParametersReady(requestId: RequestId, counterparty: PublicKey, menu: seq<OpeningFeeParams>)
    | InvoiceParametersReady(requestId: RequestId, counterparty: PublicKey, interceptScid: UInt64,
                             cltvExpiryDelta: UInt32, paymentSizeMsat: Option<UInt64>)

  /** What is pending with one LSP; a purchase is kept with its payment size. */
  datatype PeerState = PeerState(
    pendingGetInfoRequests: set<RequestId>,
    pendingBuyRequests: map<RequestId, Option<UInt64>>)

  const NEW_PEER := PeerState({}, map[])

  datatype Client = Client(peers: map<PublicKey, PeerState>, events: seq<ClientEvent>)

  function StateOf(c: Client, peer: PublicKey): PeerState {
    if peer in c.peers then c.peers[peer] else NEW_PEER
  }

  function Size(c: Client, peer: PublicKey, id: RequestId): Option<Option<UInt64>> {
    var buys := StateOf(c, peer).pendingBuyRequests;
    if id in buys then Some(buys[id]) else None
  }

  function AfterRequest(c: Client, peer: PublicKey, id: RequestId): Client {
    var state := StateOf(c, peer);
    c.(peers := c.peers[peer := state.(pendingGetInfoRequests := state.pendingGetInfoRequests + {id})])
  }

  /** A repeated id is an error, but the new size has replaced the old one by then. */
  function AfterSelect(c: Client, peer: PublicKey, id: RequestId, paymentSizeMsat: Option<UInt64>): Client {
    var state := StateOf(c, peer);
    c.(peers := c.peers[peer := state.(pendingBuyRequests := state.pendingBuyRequests[id := paymentSizeMsat])])
  }

  predicate Expected(c: Client, peer: PublicKey, id: RequestId, response: Response) {
    match response
    case GetInfoResult(_) => id in StateOf(c, peer).pendingGetInfoRequests
    case GetInfoError(_) => id in StateOf(c, peer).pendingGetInfoRequests
    case BuyResult(_, _, _) => id in StateOf(c, peer).pendingBuyRequests
    case BuyError(_) => id in StateOf(c, peer).pendingBuyRequests
    case _ => false
  }

  /** The handler is content: the response was expected, and the scid in it can be read. */
  predicate Welcome(c: Client, peer: PublicKey, id: RequestId, response: Response) {
    Expected(c, peer, id, response) && (response.BuyResult? ==> Scids.ToScid(response.interceptScid).Some?)
  }

  function EventFor(c: Client, peer: PublicKey, id: RequestId, response: Response): seq<ClientEvent>
    requires Expected(c, peer, id, response)
  {
    match response
    case GetInfoResult(menu) => [OpeningParametersReady(id, peer, menu)]
    case BuyResult(text, delta, _) =>
      var scid := Scids.ToScid(text);
      if scid.Some?
      then [InvoiceParametersReady(id, peer, scid.value, delta, StateOf(c, peer).pendingBuyRequests[id])] else []
    case _ => []
  }

  /** An expected response settles its request, even when the scid in it cannot be read. */
  function AfterResponse(c: Client, peer: PublicKey, id: RequestId, response: Response): Client {
    if !Expected(c, peer, id, response) then c
    else
      var state := StateOf(c, peer);
      var settled := if Answers(response) == LSPS2GetInfo
                     then state.(pendingGetInfoRequests := state.pendingGetInfoRequests - {id})
                     else state.(pendingBuyRequests := state.pendingBuyRequests - {id});
      Client(c.peers[peer := settled], c.events + EventFor(c, peer, id, response))
  }

  // ---- The handler ----

  class MessageQueue {
    var queue: seq<(PublicKey, LSPSMessage)>

    constructor ()
      ensures queue == []
    {
      queue := [];
    }

    method Enqueue(peer: PublicKey, message: LSPSMessage)
      modifies this
      ensures queue == old(queue) + [(peer, message)]
    {
      queue := queue + [(peer, message)];
    }

    method GetAndClearPendingMsgs() returns (messages: seq<(PublicKey, LSPSMessage)>)
      modifies this
      ensures queue == [] && messages == old(queue)
    {
      messages := queue;
      queue := [];
    }
  }

  class LSPS2ClientHandler {
    const pendingMessages: MessageQueue
    var pendingEvents: seq<ClientEvent>
    var perPeerState: map<PublicKey, PeerState>

    ghost function View(): Client
      reads this
    {
      Client(perPeerState, pendingEvents)
    }

    constructor (pendingMessages: MessageQueue)
      ensures View() == Client(map[], []) && this.pendingMessages == pendingMessages
    {
      this.pendingMessages := pendingMessages;
      pendingEvents := [];
      perPeerState := map[];
    }

    /** The id comes from the entropy source. */
    method RequestOpeningParams(counterpartyNodeId: PublicKey, token: Option<string>, requestId: RequestId)
      modifies this, pendingMessages
      ensures View() == AfterRequest(old(View()), counterpartyNodeId, requestId)
      ensures pendingMessages.queue ==
              old(pendingMessages.queue) + [(counterpartyNodeId, RequestMessage(requestId, GetInfo(token)))]
    {
      var state := if counterpartyNodeId in perPeerState then perPeerState[counterpartyNodeId] else NEW_PEER;
      state := state.(pendingGetInfoRequests := state.pendingGetInfoRequests + {requestId});
      perPeerState := perPeerState[counterpartyNodeId := state];
      pendingMessages.Enqueue(counterpartyNodeId, RequestMessage(requestId, GetInfo(token)));
    }

    method SelectOpeningParams(
      counterpartyNodeId: PublicKey, paymentSizeMsat: Option<UInt64>, openingFeeParams: OpeningFeeParams,
      requestId: RequestId)
      returns (ok: bool)
      modifies this, pendingMessages
      ensures View() == AfterSelect(old(View()), counterpartyNodeId, requestId, paymentSizeMsat)
      ensures ok <==> old(Size(View(), counterpartyNodeId, requestId)).None?
      ensures pendingMessages.queue == old(pendingMessages.queue) +
              if ok then [(counterpartyNodeId, RequestMessage(requestId, Buy(openingFeeParams, paymentSizeMsat)))]
              else []
    {
      var state := if counterpartyNodeId in perPeerState then perPeerState[counterpartyNodeId] else NEW_PEER;
      ok := requestId !in state.pendingBuyRequests;
      state := state.(pendingBuyRequests := state.pendingBuyRequests[requestId := paymentSizeMsat]);
      perPeerState := perPeerState[counterpartyNodeId := state];
      if ok {
        pendingMessages.Enqueue(counterpartyNodeId, RequestMessage(requestId, Buy(openingFeeParams, paymentSizeMsat)));
      }
    }

    /** Takes a pending fee enquiry off the books. */
    method SettleGetInfo(requestId: RequestId, peer: PublicKey) returns (found: bool)
      modifies this`perPeerState
      ensures found <==> requestId in StateOf(old(View()), peer).pendingGetInfoRequests
      ensures perPeerState ==
              if found then old(perPeerState)[peer := StateOf(old(View()), peer).(pendingGetInfoRequests :=
                              StateOf(old(View()), peer).pendingGetInfoRequests - {requestId})]
              else old(perPeerState)
    {
      found := peer in perPeerState && requestId in perPeerState[peer].pendingGetInfoRequests;
      if found {
        var state := perPeerState[peer];
        state := state.(pendingGetInfoRequests := state.pendingGetInfoRequests - {requestId});
        perPeerState := perPeerState[peer := state];
      }
    }

    /** Takes a pending purchase off the books. */
    method SettleBuy(requestId: RequestId, peer: PublicKey) returns (size: Option<Option<UInt64>>)
      modifies this`perPeerState
      ensures size == Size(old(View()), peer, requestId)
      ensures perPeerState ==
              if size.Some? then old(perPeerState)[peer := StateOf(old(View()), peer).(pendingBuyRequests :=
                                   StateOf(old(View()), peer).pendingBuyRequests - {requestId})]
              else old(perPeerState)
    {
      size := None;
      if peer in perPeerState && requestId in perPeerState[peer].pendingBuyRequests {
        var state := perPeerState[peer];
        size := Some(state.pendingBuyRequests[requestId]);
        perPeerState := perPeerState[peer := state.(pendingBuyRequests := state.pendingBuyRequests - {requestId})];
      }
    }

    method HandleBuyResponse(requestId: RequestId, peer: PublicKey, interceptScid: string, cltvExpiryDelta: UInt32)
      returns (ok: bool)
      modifies this
      ensures forall trusts ::
                var response := BuyResult(interceptScid, cltvExpiryDelta, trusts);
                && View() == AfterResponse(old(View()), peer, requestId, response)
                && (ok <==> Welcome(old(View()), peer, requestId, response))
    {
      var size := SettleBuy(requestId, peer);
      if size.None? {
        return false;
      }
      var scid := Scids.ScidFromHumanReadableString(interceptScid);
      if scid.Some? {
        pendingEvents :=
          pendingEvents + [InvoiceParametersReady(requestId, peer, scid.value, cltvExpiryDelta, size.value)];
      }
      return scid.Some?;
    }

    method HandleMessage(requestId: RequestId, response: Response, peer: PublicKey) returns (ok: bool)
      modifies this
      ensures View() == AfterResponse(old(View()), peer, requestId, response)
      ensures ok <==> Welcome(old(View()), peer, requestId, response)
    {
      match response {
        case GetInfoResult(menu) =>
          ok := SettleGetInfo(requestId, peer);
          if ok {
            pendingEvents := pendingEvents + [OpeningParametersReady(requestId, peer, menu)];
          }
        case GetInfoError(_) =>
          ok := SettleGetInfo(requestId, peer);
        case BuyResult(scid, delta, _) =>
          ok := HandleBuyResponse(requestId, peer, scid, delta);
        case BuyError(_) =>
          var size := SettleBuy(requestId, peer);
          ok := size.Some?;
        case _ =>
          ok := false;
      }
    }
  }
}
