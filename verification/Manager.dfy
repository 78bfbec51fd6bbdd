/**
 The manager's message path: outgoing requests are recorded by id when they are flushed, incoming payloads are
 read with that record, and a peer whose payload cannot be read is ignored from then on.
 */
module Managers {
  import opened Types
  import opened Messages
  import opened JsonCodecs
  import opened JsonRpc
  import opened Clients

  datatype Node = Node(
    client: Client,
    ids: IdMap,
    ignored: set<PublicKey>,
    pending: seq<(PublicKey, LSPSMessage)>)

  const EMPTY_NODE := Node(Client(map[], []), map[], {}, [])

  const PARSE_ERROR := Invalid(ResponseError(JSONRPC_INVALID_MESSAGE_ERROR_CODE, "parse error", None))

  datatype Outcome =
    | Ignored
    | Undecodable
    // A message for a component other than the LSPS2 client.
    | Elsewhere(message: LSPSMessage)
    // A response for the LSPS2 client, and whether it was welcome.
    | Answered(id: RequestId, response: Response, welcome: bool)

  function RequestIdAndMethod(message: LSPSMessage): Option<(RequestId, LSPSMethod)> {
    match message
    case RequestMessage(id, request) => Some((id, MethodOf(request)))
    case _ => None
  }

  /** The ids of all requests among the messages are recorded, later ones over earlier ones. */
  function WithRequests(ids: IdMap, messages: seq<(PublicKey, LSPSMessage)>): IdMap {
    if messages == [] then ids
    else
      var init := WithRequests(ids, messages[..|messages| - 1]);
      match RequestIdAndMethod(messages[|messages| - 1].1)
      case None => init
      case Some((id, called)) => init[id := called]
  }

  function AfterFlush(node: Node): Node {
    node.(ids := WithRequests(node.ids, node.pending), pending := [])
  }

  function Payloads(messages: seq<(PublicKey, LSPSMessage)>, dates: DateCodec): (r: seq<(PublicKey, Fields)>)
    ensures |r| == |messages|
  {
    seq(|messages|, i requires 0 <= i < |messages| => (messages[i].0, Encode(messages[i].1, dates)))
  }

  /** A payload that is no JSON object, or one that cannot be understood, leaves nothing to dispatch. */
  function Read(payload: Option<Fields>, ids: IdMap, dates: DateCodec): (Option<LSPSMessage>, IdMap) {
    if payload.None? then (None, ids)
    else
      var (result, ids') := Decode(payload.value, ids, dates);
      (if result.Ok? then Some(result.value) else None, ids')
  }

  predicate ForClient(message: LSPSMessage) {
    message.ResponseMessage? && Answers(message.response) != LSPS0ListProtocols
  }

  function OutcomeOf(node: Node, peer: PublicKey, payload: Option<Fields>, dates: DateCodec): Outcome {
    if peer in node.ignored then Ignored
    else
      match Read(payload, node.ids, dates).0
      case None => Undecodable
      case Some(message) =>
        if ForClient(message)
        then Answered(message.id, message.response, Welcome(node.client, peer, message.id, message.response))
        else Elsewhere(message)
  }

  function AfterReceive(node: Node, peer: PublicKey, payload: Option<Fields>, dates: DateCodec): Node {
    var read := node.(ids := Read(payload, node.ids, dates).1);
    match OutcomeOf(node, peer, payload, dates)
    case Ignored => node
    case Undecodable => read.(ignored := node.ignored + {peer}, pending := node.pending + [(peer, PARSE_ERROR)])
    case Elsewhere(_) => read
    case Answered(id, response, _) => read.(client := AfterResponse(node.client, peer, id, response))
  }

  class LiquidityManager {
    const pendingMessages: MessageQueue
    const requestIdToMethodMap: RequestIdMap
    const lsps2ClientHandler: LSPS2ClientHandler
    const dates: DateCodec
    var ignoredPeers: set<PublicKey>

    ghost const Repr: set<object>

    ghost predicate Valid()
      reads this
    {
      && Repr == {this, pendingMessages, requestIdToMethodMap, lsps2ClientHandler}
      && lsps2ClientHandler.pendingMessages == pendingMessages
    }

    ghost function View(): Node
      requires Valid()
      reads Repr
    {
      Node(lsps2ClientHandler.View(), requestIdToMethodMap.methods, ignoredPeers, pendingMessages.queue)
    }

    constructor (dates: DateCodec)
      ensures Valid() && fresh(Repr) && View() == EMPTY_NODE && this.dates == dates
    {
      var queue := new MessageQueue();
      var ids := new RequestIdMap();
      var client := new LSPS2ClientHandler(queue);
      this.dates := dates;
      pendingMessages := queue;
      requestIdToMethodMap := ids;
      lsps2ClientHandler := client;
      ignoredPeers := {};
      Repr := {this, queue, ids, client};
    }

    method HandleLspsMessage(message: LSPSMessage, sender: PublicKey) returns (outcome: Outcome)
      requires Valid()
      modifies lsps2ClientHandler
      ensures if ForClient(message)
              then && outcome == Answered(message.id, message.response,
                                          Welcome(old(View()).client, sender, message.id, message.response))
                   && View() == old(View()).(client :=
                                  AfterResponse(old(View()).client, sender, message.id, message.response))
              else outcome == Elsewhere(message) && View() == old(View())
    {
      if message.ResponseMessage? && Answers(message.response) != LSPS0ListProtocols {
        var welcome := lsps2ClientHandler.HandleMessage(message.id, message.response, sender);
        outcome := Answered(message.id, message.response, welcome);
      } else {
        outcome := Elsewhere(message);
      }
    }

    method HandleCustomMessage(payload: Option<Fields>, sender: PublicKey) returns (outcome: Outcome)
      requires Valid()
      modifies Repr
      ensures View() == AfterReceive(old(View()), sender, payload, dates)
      ensures outcome == OutcomeOf(old(View()), sender, payload, dates)
    {
      if sender in ignoredPeers {
        return Ignored;
      }
      var message: Option<LSPSMessage> := None;
      if payload.Some? {
        var result := VisitMap(payload.value, requestIdToMethodMap, dates);
        message := if result.Ok? then Some(result.value) else None;
      }
      if message.None? {
        pendingMessages.Enqueue(sender, PARSE_ERROR);
        ignoredPeers := ignoredPeers + {sender};
        return Undecodable;
      }
      outcome := HandleLspsMessage(message.value, sender);
    }

    method GetAndClearPendingMsg() returns (payloads: seq<(PublicKey, Fields)>)
      requires Valid()
      modifies pendingMessages, requestIdToMethodMap
      ensures View() == AfterFlush(old(View()))
      ensures payloads == Payloads(old(View()).pending, dates)
    {
      var messages := pendingMessages.GetAndClearPendingMsgs();
      for i := 0 to |messages|
        invariant pendingMessages.queue == []
        invariant requestIdToMethodMap.methods == WithRequests(old(requestIdToMethodMap.methods), messages[..i])
      {
        assert messages[..i + 1][..i] == messages[..i];
        match RequestIdAndMethod(messages[i].1) {
          case Some((id, called)) => requestIdToMethodMap.Insert(id, called);
          case None =>
        }
      }
      assert messages[..|messages|] == messages;
      payloads := [];
      for i := 0 to |messages|
        modifies {}
        invariant payloads == Payloads(messages, dates)[..i]
      {
        var fields := Serialize(messages[i].1, dates);
        payloads := payloads + [(messages[i].0, fields)];
      }
    }
  }
}
