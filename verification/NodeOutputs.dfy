/**
 What a client announces, what its manager sends and whom it ignores, over whole runs; each stated by the calls made
 so far and the responses read from payloads, not by the state that the code keeps.
 */
module NodeOutputs {
  import opened Types
  import opened Messages
  import opened JsonCodecs
  import opened JsonRpc
  import opened Clients
  import opened Managers
  import opened Correlation
  import Scids

  // ---- What is pending, by the calls ----

  /** The response that the last call of a run reads, if it answers a request of this peer under this id. */
  function Settles(calls: seq<NodeCall>, dates: DateCodec, peer: PublicKey, id: RequestId): Option<Response>
    requires calls != []
  {
    var last := calls[|calls| - 1];
    var read := AcceptedBy(Run(calls[..|calls| - 1], dates), last, dates);
    if last.Receive? && last.peer == peer && read.Some? && read.value.0 == id then Some(read.value.1) else None
  }

  /** A fee enquiry was made and not answered since. */
  function Enquired(calls: seq<NodeCall>, dates: DateCodec, peer: PublicKey, id: RequestId): bool {
    if calls == [] then false
    else
      var last, settles := calls[|calls| - 1], Settles(calls, dates, peer, id);
      if last.RequestOpeningParams? && last.peer == peer && last.id == id then true
      else if settles.Some? && Answers(settles.value) == LSPS2GetInfo then false
      else Enquired(calls[..|calls| - 1], dates, peer, id)
  }

  /** The payment size of the last selection that was not answered since. */
  function Selecting(calls: seq<NodeCall>, dates: DateCodec, peer: PublicKey, id: RequestId): Option<Option<UInt64>> {
    if calls == [] then None
    else
      var last, settles := calls[|calls| - 1], Settles(calls, dates, peer, id);
      if last.SelectOpeningParams? && last.peer == peer && last.id == id then Some(last.paymentSizeMsat)
      else if settles.Some? && Answers(settles.value) == LSPS2Buy then None
      else Selecting(calls[..|calls| - 1], dates, peer, id)
  }

  /** A payload of this peer could not be read. */
  function Shunned(calls: seq<NodeCall>, dates: DateCodec, peer: PublicKey): bool {
    if calls == [] then false
    else
      var init, last := calls[..|calls| - 1], calls[|calls| - 1];
      || Shunned(init, dates, peer)
      || (last.Receive? && last.peer == peer && Read(last.payload, Run(init, dates).ids, dates).0.None?)
  }

  predicate EnquiryPends(c: Client, peer: PublicKey, id: RequestId) { id in StateOf(c, peer).pendingGetInfoRequests }

  lemma {:induction false} ResponseSettlesOnly(
    c: Client, sender: PublicKey, settled: RequestId, response: Response, peer: PublicKey, id: RequestId)
    ensures var c' := AfterResponse(c, sender, settled, response);
            var own := sender == peer && settled == id;
            && (EnquiryPends(c', peer, id) <==>
                  EnquiryPends(c, peer, id) && !(own && Answers(response) == LSPS2GetInfo))
            && Size(c', peer, id) == if own && Answers(response) == LSPS2Buy then None else Size(c, peer, id)
  {
  }

  /** What a payload does to the client, by the response it is read as. */
  lemma {:induction false} ReceiveSettles(
    node: Node, sender: PublicKey, payload: Option<Fields>, dates: DateCodec, peer: PublicKey, id: RequestId)
    ensures var read := AcceptedBy(node, Receive(sender, payload), dates);
            var after := AfterReceive(node, sender, payload, dates).client;
            var own := sender == peer && read.Some? && read.value.0 == id;
            && (EnquiryPends(after, peer, id) <==>
                  EnquiryPends(node.client, peer, id) && !(own && Answers(read.value.1) == LSPS2GetInfo))
            && Size(after, peer, id) ==
               if own && Answers(read.value.1) == LSPS2Buy then None else Size(node.client, peer, id)
  {
    ReceiveToClient(node, sender, payload, dates);
    var read := AcceptedBy(node, Receive(sender, payload), dates);
    if read.Some? {
      ResponseSettlesOnly(node.client, sender, read.value.0, read.value.1, peer, id);
    }
  }

  lemma {:induction false} PendingAsCalled(calls: seq<NodeCall>, dates: DateCodec, peer: PublicKey, id: RequestId)
    ensures EnquiryPends(Run(calls, dates).client, peer, id) <==> Enquired(calls, dates, peer, id)
    ensures Size(Run(calls, dates).client, peer, id) == Selecting(calls, dates, peer, id)
  {
    if calls != [] {
      var init, last := calls[..|calls| - 1], calls[|calls| - 1];
      PendingAsCalled(init, dates, peer, id);
      if last.Receive? {
        ReceiveSettles(Run(init, dates), last.peer, last.payload, dates, peer, id);
      }
    }
  }

  lemma {:induction false} IgnoredAsCalled(calls: seq<NodeCall>, dates: DateCodec, peer: PublicKey)
    ensures peer in Run(calls, dates).ignored <==> Shunned(calls, dates, peer)
  {
    if calls != [] {
      IgnoredAsCalled(calls[..|calls| - 1], dates, peer);
    }
  }

  // ---- What the client announces ----

  /** What is announced for a response: a fee enquiry's menu, or a purchase's parameters with its size. */
  predicate RightAnnouncement(
    enquired: bool, selecting: Option<Option<UInt64>>, sender: PublicKey, id: RequestId, response: Response,
    news: seq<ClientEvent>)
  {
    match response
    case GetInfoResult(menu) => news == if enquired then [OpeningParametersReady(id, sender, menu)] else []
    case BuyResult(text, delta, _) =>
      var scid := Scids.ToScid(text);
      news == if selecting.Some? && scid.Some?
              then [InvoiceParametersReady(id, sender, scid.value, delta, selecting.value)] else []
    case _ => news == []
  }

  lemma {:induction false} ResponseAnnounces(c: Client, sender: PublicKey, id: RequestId, response: Response)
    ensures c.events <= AfterResponse(c, sender, id, response).events
    ensures RightAnnouncement(EnquiryPends(c, sender, id), Size(c, sender, id), sender, id, response,
                              AfterResponse(c, sender, id, response).events[|c.events|..])
  {
  }

  lemma {:induction false} ReceiveAnnounces(node: Node, sender: PublicKey, payload: Option<Fields>, dates: DateCodec)
    ensures var (was, now) := (node.client.events, AfterReceive(node, sender, payload, dates).client.events);
            var read := AcceptedBy(node, Receive(sender, payload), dates);
            && was <= now
            && if read.None? then now == was
               else RightAnnouncement(EnquiryPends(node.client, sender, read.value.0),
                                      Size(node.client, sender, read.value.0), sender, read.value.0, read.value.1,
                                      now[|was|..])
  {
    var read := AcceptedBy(node, Receive(sender, payload), dates);
    if read.Some? {
      ResponseAnnounces(node.client, sender, read.value.0, read.value.1);
    }
  }

  /**
   Over every run: a payload that is read as a response makes the client announce exactly what that response says,
   if it was enquired or selected with that peer and id before; nothing else makes it announce anything.
   */
  lemma {:induction false} EveryAnnouncementIsDue(calls: seq<NodeCall>, call: NodeCall, dates: DateCodec)
    ensures var (was, now) := (Run(calls, dates).client.events, Run(calls + [call], dates).client.events);
            var read := AcceptedBy(Run(calls, dates), call, dates);
            && was <= now
            && if read.None? then now == was
               else RightAnnouncement(Enquired(calls, dates, call.peer, read.value.0),
                                      Selecting(calls, dates, call.peer, read.value.0), call.peer, read.value.0,
                                      read.value.1, now[|was|..])
  {
    assert (calls + [call])[..|calls|] == calls;
    if call.Receive? {
      ReceiveAnnounces(Run(calls, dates), call.peer, call.payload, dates);
      var read := AcceptedBy(Run(calls, dates), call, dates);
      if read.Some? {
        PendingAsCalled(calls, dates, call.peer, read.value.0);
      }
    }
  }

  /** What becomes of a payload: ignored, unreadable, for the client, or for another component. */
  predicate RightOutcome(
    shunned: bool, message: Option<LSPSMessage>, enquired: bool, selecting: bool, outcome: Outcome)
  {
    if shunned then outcome == Ignored
    else if message.None? then outcome == Undecodable
    else
      match message.value
      case ResponseMessage(id, GetInfoResult(menu)) => outcome == Answered(id, GetInfoResult(menu), enquired)
      case ResponseMessage(id, GetInfoError(error)) => outcome == Answered(id, GetInfoError(error), enquired)
      case ResponseMessage(id, BuyResult(text, delta, trusts)) =>
        outcome == Answered(id, BuyResult(text, delta, trusts), selecting && Scids.ToScid(text).Some?)
      case ResponseMessage(id, BuyError(error)) => outcome == Answered(id, BuyError(error), selecting)
      case other => outcome == Elsewhere(other)
  }

  /** Over every run: the client welcomes an answer exactly if its request is pending and a scid in it can be read. */
  lemma {:induction false} EveryOutcomeIsRight(
    calls: seq<NodeCall>, sender: PublicKey, payload: Option<Fields>, dates: DateCodec)
    ensures var node := Run(calls, dates);
            var message := Read(payload, node.ids, dates).0;
            var id := if message.Some? && message.value.ResponseMessage? then message.value.id else RequestId("");
            RightOutcome(Shunned(calls, dates, sender), message, Enquired(calls, dates, sender, id),
                         Selecting(calls, dates, sender, id).Some?, OutcomeOf(node, sender, payload, dates))
  {
    var message := Read(payload, Run(calls, dates).ids, dates).0;
    IgnoredAsCalled(calls, dates, sender);
    if message.Some? && message.value.ResponseMessage? {
      PendingAsCalled(calls, dates, sender, message.value.id);
    }
  }

  // ---- What the manager sends ----

  /** Everything flushed so far. */
  function Sent(calls: seq<NodeCall>, dates: DateCodec): seq<(PublicKey, LSPSMessage)> {
    if calls == [] then []
    else
      var init := calls[..|calls| - 1];
      Sent(init, dates) + if calls[|calls| - 1].Flush? then Run(init, dates).pending else []
  }

  /** Everything enqueued so far. */
  function Posted(calls: seq<NodeCall>, dates: DateCodec): seq<(PublicKey, LSPSMessage)> {
    Sent(calls, dates) + Run(calls, dates).pending
  }

  /** What a call enqueues: the request it makes, unless its id is in use, or the error for an unreadable payload. */
  predicate RightPost(
    selecting: bool, shunned: bool, readable: bool, call: NodeCall, posts: seq<(PublicKey, LSPSMessage)>)
  {
    match call
    case RequestOpeningParams(peer, token, id) => posts == [(peer, RequestMessage(id, GetInfo(token)))]
    case SelectOpeningParams(peer, size, params, id) =>
      posts == if selecting then [] else [(peer, RequestMessage(id, Buy(params, size)))]
    case Enqueue(peer, message) => posts == [(peer, message)]
    case Receive(peer, _) =>
      if shunned || readable then posts == []
      else |posts| == 1 && posts[0].0 == peer && posts[0].1.Invalid? && posts[0].1.error.code == -32700
    case Flush => posts == []
  }

  lemma {:induction false} CallPosts(node: Node, call: NodeCall, dates: DateCodec)
    requires !call.Flush?
    ensures node.pending <= After(node, call, dates).pending
    ensures RightPost(
              call.SelectOpeningParams? && Size(node.client, call.peer, call.id).Some?,
              call.Receive? && call.peer in node.ignored,
              call.Receive? && Read(call.payload, node.ids, dates).0.Some?, call,
              After(node, call, dates).pending[|node.pending|..])
  {
  }

  /**
   Over every run: exactly the requests made, the messages handed in and the errors for unreadable payloads are
   enqueued, to the right peers, and everything enqueued is flushed in that order or still pending.
   */
  lemma {:induction false} EveryPostIsDue(calls: seq<NodeCall>, call: NodeCall, dates: DateCodec)
    ensures var (was, now) := (Posted(calls, dates), Posted(calls + [call], dates));
            && was <= now
            && RightPost(
                 call.SelectOpeningParams? && Selecting(calls, dates, call.peer, call.id).Some?,
                 call.Receive? && Shunned(calls, dates, call.peer),
                 call.Receive? && Read(call.payload, Run(calls, dates).ids, dates).0.Some?, call, now[|was|..])
    ensures call.Flush? ==> Run(calls + [call], dates).pending == []
  {
    assert (calls + [call])[..|calls|] == calls;
    var node := Run(calls, dates);
    if call.Flush? {
      assert Posted(calls + [call], dates) == Posted(calls, dates);
    } else {
      var posts := After(node, call, dates).pending[|node.pending|..];
      CallPosts(node, call, dates);
      assert Sent(calls + [call], dates) == Sent(calls, dates);
      assert Posted(calls + [call], dates) == Posted(calls, dates) + posts;
      if call.SelectOpeningParams? {
        PendingAsCalled(calls, dates, call.peer, call.id);
      } else if call.Receive? {
        IgnoredAsCalled(calls, dates, call.peer);
      }
    }
  }

  // ---- From one node to the other ----

  /** What is flushed reaches the peer it is for, and is read there as it was meant if it is awaited. */
  lemma {:induction false} PayloadsAreRead(
    messages: seq<(PublicKey, LSPSMessage)>, i: nat, ids: IdMap, dates: DateCodec)
    requires RoundTrips(dates) && i < |messages|
    ensures Payloads(messages, dates)[i].0 == messages[i].0
    ensures Read(Some(Payloads(messages, dates)[i].1), ids, dates).0 == Some(messages[i].1) <==>
            Understandable(messages[i].1, ids)
  {
    EncodedKeys(messages[i].1, dates);
    RoundTripIff(messages[i].1, Encode(messages[i].1, dates), ids, dates);
  }

  /** A flushed answer is accepted as it was meant, exactly if it is awaited; its sender must not be ignored. */
  lemma {:induction false} AnswersArrive(
    node: Node, lsp: PublicKey, messages: seq<(PublicKey, LSPSMessage)>, i: nat, dates: DateCodec)
    requires RoundTrips(dates) && lsp !in node.ignored
    requires i < |messages| && messages[i].1.ResponseMessage?
    ensures var ResponseMessage(id, response) := messages[i].1;
            id in node.ids && node.ids[id] == Answers(response) <==>
            AcceptedBy(node, Receive(lsp, Some(Payloads(messages, dates)[i].1)), dates) == Some((id, response))
  {
    PayloadsAreRead(messages, i, node.ids, dates);
  }
}
