/** Requests and responses over whole runs of the manager and the LSPS2 client, whatever arrives from peers. */
module Correlation {
  import opened Types
  import opened Messages
  import opened JsonCodecs
  import opened JsonRpc
  import opened Clients
  import opened Managers

  datatype NodeCall =
    | RequestOpeningParams(peer: PublicKey, token: Option<string>, id: RequestId)
    | SelectOpeningParams(peer: PublicKey, paymentSizeMsat: Option<UInt64>, params: OpeningFeeParams, id: RequestId)
    // Some other component enqueues a message.
    | Enqueue(peer: PublicKey, message: LSPSMessage)
    | Flush
    | Receive(peer: PublicKey, payload: Option<Fields>)

  function After(node: Node, call: NodeCall, dates: DateCodec): Node {
    match call
    case RequestOpeningParams(peer, token, id) =>
      node.(client := AfterRequest(node.client, peer, id),
            pending := node.pending + [(peer, RequestMessage(id, GetInfo(token)))])
    case SelectOpeningParams(peer, size, params, id) =>
      node.(client := AfterSelect(node.client, peer, id, size),
            pending := node.pending + if Size(node.client, peer, id).None?
                                      then [(peer, RequestMessage(id, Buy(params, size)))] else [])
    case Enqueue(peer, message) => node.(pending := node.pending + [(peer, message)])
    case Flush => AfterFlush(node)
    case Receive(peer, payload) => AfterReceive(node, peer, payload, dates)
  }

  function Run(calls: seq<NodeCall>, dates: DateCodec): Node {
    if calls == [] then EMPTY_NODE else After(Run(calls[..|calls| - 1], dates), calls[|calls| - 1], dates)
  }

  // ---- Requests that left and responses that came back ----

  /** How many of the messages are requests with this id. */
  function Requests(messages: seq<(PublicKey, LSPSMessage)>, id: RequestId): nat {
    if messages == [] then 0
    else
      var last := RequestIdAndMethod(messages[|messages| - 1].1);
      Requests(messages[..|messages| - 1], id) + if last.Some? && last.value.0 == id then 1 else 0
  }

  /** How often a request with this id was flushed. */
  function Flushed(calls: seq<NodeCall>, dates: DateCodec, id: RequestId): nat {
    if calls == [] then 0
    else
      var init := calls[..|calls| - 1];
      Flushed(init, dates, id)
      + if calls[|calls| - 1].Flush? then Requests(Run(init, dates).pending, id) else 0
  }

  /** The response that a call yields from the payload of a peer that is not ignored. */
  function AcceptedBy(node: Node, call: NodeCall, dates: DateCodec): Option<(RequestId, Response)> {
    if call.Receive? && call.peer !in node.ignored then
      var message := Read(call.payload, node.ids, dates).0;
      if message.Some? && message.value.ResponseMessage? then Some((message.value.id, message.value.response)) else None
    else None
  }

  /** How many responses with this id were accepted. */
  function Accepted(calls: seq<NodeCall>, dates: DateCodec, id: RequestId): nat {
    if calls == [] then 0
    else
      var init := calls[..|calls| - 1];
      var response := AcceptedBy(Run(init, dates), calls[|calls| - 1], dates);
      Accepted(init, dates, id) + if response.Some? && response.value.0 == id then 1 else 0
  }

  /** The method of the last request with this id among the messages. */
  function LastIn(messages: seq<(PublicKey, LSPSMessage)>, id: RequestId): Option<LSPSMethod> {
    if messages == [] then None
    else
      var last := RequestIdAndMethod(messages[|messages| - 1].1);
      if last.Some? && last.value.0 == id then Some(last.value.1) else LastIn(messages[..|messages| - 1], id)
  }

  /** The method of the last request with this id that was flushed. */
  function LastFlushed(calls: seq<NodeCall>, dates: DateCodec, id: RequestId): Option<LSPSMethod> {
    if calls == [] then None
    else
      var init := calls[..|calls| - 1];
      var now := if calls[|calls| - 1].Flush? then LastIn(Run(init, dates).pending, id) else None;
      if now.Some? then now else LastFlushed(init, dates, id)
  }

  function Indicator(b: bool): nat { if b then 1 else 0 }

  lemma {:induction false} FlushRecords(ids: IdMap, messages: seq<(PublicKey, LSPSMessage)>, id: RequestId)
    ensures Indicator(id in WithRequests(ids, messages)) <= Indicator(id in ids) + Requests(messages, id)
    ensures LastIn(messages, id).Some? ==>
              id in WithRequests(ids, messages) && WithRequests(ids, messages)[id] == LastIn(messages, id).value
    ensures LastIn(messages, id).None? ==>
              && (id in WithRequests(ids, messages) <==> id in ids)
              && (id in ids ==> WithRequests(ids, messages)[id] == ids[id])
  {
    if messages != [] {
      FlushRecords(ids, messages[..|messages| - 1], id);
    }
  }

  lemma {:induction false} ReceiveConsumes(node: Node, peer: PublicKey, payload: Option<Fields>, dates: DateCodec)
    ensures AfterReceive(node, peer, payload, dates).ids.Keys <= node.ids.Keys
    ensures forall id :: id in AfterReceive(node, peer, payload, dates).ids ==>
              AfterReceive(node, peer, payload, dates).ids[id] == node.ids[id]
    ensures var response := AcceptedBy(node, Receive(peer, payload), dates);
            response.Some? ==>
              && response.value.0 in node.ids && node.ids[response.value.0] == Answers(response.value.1)
              && response.value.0 !in AfterReceive(node, peer, payload, dates).ids
  {
    if payload.Some? {
      DecodeSound(payload.value, node.ids, dates);
      if Decode(payload.value, node.ids, dates).0.Err? {
        RejectionUsesUpEntryIff(payload.value, node.ids, dates);
      }
    }
  }

  /** Responses under an id never outnumber the requests that left with it. */
  lemma {:induction false} AcceptedAtMostFlushed(calls: seq<NodeCall>, dates: DateCodec, id: RequestId)
    ensures Accepted(calls, dates, id) + Indicator(id in Run(calls, dates).ids) <= Flushed(calls, dates, id)
  {
    if calls != [] {
      var init, last := calls[..|calls| - 1], calls[|calls| - 1];
      var node := Run(init, dates);
      AcceptedAtMostFlushed(init, dates, id);
      if last.Flush? {
        FlushRecords(node.ids, node.pending, id);
      } else if last.Receive? {
        ReceiveConsumes(node, last.peer, last.payload, dates);
      }
    }
  }

  /** The method on record for an id is the one last flushed with it. */
  lemma {:induction false} RecordIsLastFlushed(calls: seq<NodeCall>, dates: DateCodec, id: RequestId)
    requires id in Run(calls, dates).ids
    ensures LastFlushed(calls, dates, id) == Some(Run(calls, dates).ids[id])
  {
    var init, last := calls[..|calls| - 1], calls[|calls| - 1];
    var node := Run(init, dates);
    if last.Flush? {
      FlushRecords(node.ids, node.pending, id);
    } else if last.Receive? {
      ReceiveConsumes(node, last.peer, last.payload, dates);
    }
    if id in node.ids {
      RecordIsLastFlushed(init, dates, id);
    }
  }

  /** ... so an accepted response answers the request last flushed with its id. */
  lemma {:induction false} AcceptedAnswersLastFlushed(
    calls: seq<NodeCall>, dates: DateCodec, peer: PublicKey, payload: Option<Fields>)
    ensures var response := AcceptedBy(Run(calls, dates), Receive(peer, payload), dates);
            response.Some? ==>
              LastFlushed(calls, dates, response.value.0) == Some(Answers(response.value.1))
  {
    var node := Run(calls, dates);
    ReceiveConsumes(node, peer, payload, dates);
    var response := AcceptedBy(node, Receive(peer, payload), dates);
    if response.Some? {
      RecordIsLastFlushed(calls, dates, response.value.0);
    }
  }

  // ---- Purchases ----

  predicate IsReady(event: ClientEvent, peer: PublicKey, id: RequestId) {
    event.InvoiceParametersReady? && event.counterparty == peer && event.requestId == id
  }

  /** How often the invoice parameters of this purchase were announced. */
  function Ready(events: seq<ClientEvent>, peer: PublicKey, id: RequestId): nat {
    if events == [] then 0
    else Ready(events[..|events| - 1], peer, id) + Indicator(IsReady(events[|events| - 1], peer, id))
  }

  predicate IsSelect(call: NodeCall, peer: PublicKey, id: RequestId) {
    call.SelectOpeningParams? && call.peer == peer && call.id == id
  }

  /** How often parameters were selected with this peer and id. */
  function Selects(calls: seq<NodeCall>, peer: PublicKey, id: RequestId): nat {
    if calls == [] then 0
    else Selects(calls[..|calls| - 1], peer, id) + Indicator(IsSelect(calls[|calls| - 1], peer, id))
  }

  lemma {:induction false} ReadySnoc(events: seq<ClientEvent>, event: ClientEvent, peer: PublicKey, id: RequestId)
    ensures Ready(events + [event], peer, id) == Ready(events, peer, id) + Indicator(IsReady(event, peer, id))
  {
    assert (events + [event])[..|events|] == events;
  }

  lemma {:induction false} OneEventAtMost(c: Client, sender: PublicKey, settled: RequestId, response: Response)
    requires Expected(c, sender, settled, response)
    ensures var added := EventFor(c, sender, settled, response);
            added == [] || (added == [added[0]] && (added[0].InvoiceParametersReady? ==>
              response.BuyResult? && IsReady(added[0], sender, settled) && Size(c, sender, settled).Some?))
  {
  }

  /** Settling a request touches no other one. */
  lemma {:induction false} OthersPending(
    c: Client, sender: PublicKey, settled: RequestId, response: Response, peer: PublicKey, id: RequestId)
    ensures var after := Size(AfterResponse(c, sender, settled, response), peer, id);
            && (after.Some? ==> after == Size(c, peer, id))
            && (Expected(c, sender, settled, response) && response.BuyResult? && peer == sender && id == settled ==>
                  after.None?)
  {
  }

  lemma {:induction false} ReadyGrows(
    events: seq<ClientEvent>, added: seq<ClientEvent>, sender: PublicKey, settled: RequestId, peer: PublicKey,
    id: RequestId)
    requires added == []
          || (added == [added[0]] && (added[0].InvoiceParametersReady? ==> IsReady(added[0], sender, settled)))
    ensures Ready(events + added, peer, id) <= Ready(events, peer, id) + Indicator(peer == sender && id == settled)
    ensures (added == [] || !added[0].InvoiceParametersReady?) ==>
              Ready(events + added, peer, id) == Ready(events, peer, id)
  {
    if added == [] {
      assert events + [] == events;
    } else {
      ReadySnoc(events, added[0], peer, id);
    }
  }

  /** A response announces at most its own purchase, which is no longer pending then. */
  lemma {:induction false} ResponseSettles(
    c: Client, sender: PublicKey, settled: RequestId, response: Response, peer: PublicKey, id: RequestId)
    ensures var c' := AfterResponse(c, sender, settled, response);
            && Ready(c'.events, peer, id) + Indicator(Size(c', peer, id).Some?)
               <= Ready(c.events, peer, id) + Indicator(Size(c, peer, id).Some?)
            && Ready(c'.events, peer, id) <= Ready(c.events, peer, id) + Indicator(settled == id)
            && (Size(c', peer, id).Some? ==> Size(c', peer, id) == Size(c, peer, id))
  {
    OthersPending(c, sender, settled, response, peer, id);
    if Expected(c, sender, settled, response) {
      OneEventAtMost(c, sender, settled, response);
      ReadyGrows(c.events, EventFor(c, sender, settled, response), sender, settled, peer, id);
    }
  }

  /** What a received payload does to the client. */
  lemma {:induction false} ReceiveToClient(node: Node, sender: PublicKey, payload: Option<Fields>, dates: DateCodec)
    ensures var response := AcceptedBy(node, Receive(sender, payload), dates);
            var after := AfterReceive(node, sender, payload, dates).client;
            after == node.client ||
            (response.Some? && after == AfterResponse(node.client, sender, response.value.0, response.value.1))
  {
  }

  /** Every selection leads to at most one announcement. */
  lemma {:induction false} ReadyAtMostSelected(calls: seq<NodeCall>, dates: DateCodec, peer: PublicKey, id: RequestId)
    ensures var c := Run(calls, dates).client;
            Ready(c.events, peer, id) + Indicator(Size(c, peer, id).Some?) <= Selects(calls, peer, id)
  {
    if calls != [] {
      var init, last := calls[..|calls| - 1], calls[|calls| - 1];
      var node := Run(init, dates);
      ReadyAtMostSelected(init, dates, peer, id);
      if last.Receive? {
        ReceiveToClient(node, last.peer, last.payload, dates);
        var response := AcceptedBy(node, last, dates);
        if response.Some? {
          ResponseSettles(node.client, last.peer, response.value.0, response.value.1, peer, id);
        }
      }
    }
  }

  /** ... and to none before the LSP's response to a request that was flushed. */
  lemma {:induction false} ReadyAtMostAccepted(calls: seq<NodeCall>, dates: DateCodec, peer: PublicKey, id: RequestId)
    ensures Ready(Run(calls, dates).client.events, peer, id) <= Accepted(calls, dates, id) <= Flushed(calls, dates, id)
  {
    AcceptedAtMostFlushed(calls, dates, id);
    if calls != [] {
      var init, last := calls[..|calls| - 1], calls[|calls| - 1];
      var node := Run(init, dates);
      ReadyAtMostAccepted(init, dates, peer, id);
      if last.Receive? {
        ReceiveToClient(node, last.peer, last.payload, dates);
        var response := AcceptedBy(node, last, dates);
        if response.Some? {
          ResponseSettles(node.client, last.peer, response.value.0, response.value.1, peer, id);
        }
      }
    }
  }

  /** Parameters were selected with this peer, id and payment size. */
  ghost predicate Selected(calls: seq<NodeCall>, peer: PublicKey, id: RequestId, size: Option<UInt64>) {
    exists i :: 0 <= i < |calls| && IsSelect(calls[i], peer, id) && calls[i].paymentSizeMsat == size
  }

  ghost predicate EventsSelected(calls: seq<NodeCall>, events: seq<ClientEvent>) {
    forall e :: 0 <= e < |events| && events[e].InvoiceParametersReady? ==>
      Selected(calls, events[e].counterparty, events[e].requestId, events[e].paymentSizeMsat)
  }

  ghost predicate PendingSelected(calls: seq<NodeCall>, c: Client) {
    forall peer, id :: Size(c, peer, id).Some? ==> Selected(calls, peer, id, Size(c, peer, id).value)
  }

  lemma {:induction false} SelectedEarlier(
    calls: seq<NodeCall>, peer: PublicKey, id: RequestId, size: Option<UInt64>)
    requires calls != [] && Selected(calls[..|calls| - 1], peer, id, size)
    ensures Selected(calls, peer, id, size)
  {
    var i :| 0 <= i < |calls| - 1 && IsSelect(calls[..|calls| - 1][i], peer, id)
             && calls[..|calls| - 1][i].paymentSizeMsat == size;
    assert IsSelect(calls[i], peer, id);
  }

  lemma {:induction false} SelectionKept(calls: seq<NodeCall>, c: Client)
    requires calls != []
    requires EventsSelected(calls[..|calls| - 1], c.events) && PendingSelected(calls[..|calls| - 1], c)
    ensures EventsSelected(calls, c.events) && PendingSelected(calls, c)
  {
    forall e | 0 <= e < |c.events| && c.events[e].InvoiceParametersReady?
      ensures Selected(calls, c.events[e].counterparty, c.events[e].requestId, c.events[e].paymentSizeMsat)
    {
      SelectedEarlier(calls, c.events[e].counterparty, c.events[e].requestId, c.events[e].paymentSizeMsat);
    }
    forall peer, id | Size(c, peer, id).Some?
      ensures Selected(calls, peer, id, Size(c, peer, id).value)
    {
      SelectedEarlier(calls, peer, id, Size(c, peer, id).value);
    }
  }

  lemma {:induction false} ResponseKeepsSelection(
    calls: seq<NodeCall>, c: Client, sender: PublicKey, settled: RequestId, response: Response)
    requires EventsSelected(calls, c.events) && PendingSelected(calls, c)
    ensures var c' := AfterResponse(c, sender, settled, response);
            EventsSelected(calls, c'.events) && PendingSelected(calls, c')
  {
    var c' := AfterResponse(c, sender, settled, response);
    forall peer, id | Size(c', peer, id).Some?
      ensures Selected(calls, peer, id, Size(c', peer, id).value)
    {
      ResponseSettles(c, sender, settled, response, peer, id);
    }
    if Expected(c, sender, settled, response) && response.BuyResult? {
      assert Size(c, sender, settled).Some?;
    }
  }

  lemma {:induction false} RunSelected(calls: seq<NodeCall>, dates: DateCodec)
    ensures EventsSelected(calls, Run(calls, dates).client.events)
    ensures PendingSelected(calls, Run(calls, dates).client)
  {
    if calls != [] {
      var init, last := calls[..|calls| - 1], calls[|calls| - 1];
      var node := Run(init, dates);
      RunSelected(init, dates);
      SelectionKept(calls, node.client);
      match last
      case Receive(peer, payload) =>
        ReceiveToClient(node, peer, payload, dates);
        var response := AcceptedBy(node, last, dates);
        if response.Some? {
          ResponseKeepsSelection(calls, node.client, peer, response.value.0, response.value.1);
        }
      case SelectOpeningParams(_, _, _, _) =>
        SelectKeepsSelection(calls, node.client);
      case RequestOpeningParams(peer, _, id) =>
        forall p, i
          ensures Size(AfterRequest(node.client, peer, id), p, i) == Size(node.client, p, i)
        {
        }
      case _ =>
    }
  }

  lemma {:induction false} SelectKeepsSelection(calls: seq<NodeCall>, c: Client)
    requires calls != [] && calls[|calls| - 1].SelectOpeningParams?
    requires PendingSelected(calls, c)
    ensures var SelectOpeningParams(peer, size, _, id) := calls[|calls| - 1];
            PendingSelected(calls, AfterSelect(c, peer, id, size))
  {
    var SelectOpeningParams(peer, size, _, id) := calls[|calls| - 1];
    assert IsSelect(calls[|calls| - 1], peer, id);
    forall p, i | Size(AfterSelect(c, peer, id, size), p, i).Some?
      ensures Selected(calls, p, i, Size(AfterSelect(c, peer, id, size), p, i).value)
    {
      if p != peer || i != id {
        assert Size(AfterSelect(c, peer, id, size), p, i) == Size(c, p, i);
      }
    }
  }

  /** No id is used for two selections with the same peer. */
  predicate FreshSelections(calls: seq<NodeCall>) {
    forall i, j :: 0 <= i < j < |calls| && calls[i].SelectOpeningParams? && calls[j].SelectOpeningParams? ==>
      calls[i].peer != calls[j].peer || calls[i].id != calls[j].id
  }

  lemma {:induction false} FreshSelectedOnce(calls: seq<NodeCall>, peer: PublicKey, id: RequestId)
    requires FreshSelections(calls)
    ensures Selects(calls, peer, id) <= 1
    ensures Selects(calls, peer, id) == 1 ==> exists i :: 0 <= i < |calls| && IsSelect(calls[i], peer, id)
  {
    if calls != [] {
      var n := |calls| - 1;
      FreshSelectedOnce(calls[..n], peer, id);
      if Selects(calls[..n], peer, id) == 1 {
        var i :| 0 <= i < n && IsSelect(calls[..n][i], peer, id);
        assert IsSelect(calls[i], peer, id);
      }
    }
  }

  /**
   With fresh ids, every announcement of invoice parameters belongs to one earlier selection, with the same peer,
   id and payment size, and is the only one of that selection.
   */
  lemma {:induction false} EachReadyMatchesOneSelection(calls: seq<NodeCall>, dates: DateCodec, e: nat)
    requires FreshSelections(calls)
    requires e < |Run(calls, dates).client.events| && Run(calls, dates).client.events[e].InvoiceParametersReady?
    ensures var event := Run(calls, dates).client.events[e];
            && Selected(calls, event.counterparty, event.requestId, event.paymentSizeMsat)
            && Selects(calls, event.counterparty, event.requestId) == 1
            && Ready(Run(calls, dates).client.events, event.counterparty, event.requestId) == 1
  {
    var events := Run(calls, dates).client.events;
    var event := events[e];
    RunSelected(calls, dates);
    FreshSelectedOnce(calls, event.counterparty, event.requestId);
    ReadyAtMostSelected(calls, dates, event.counterparty, event.requestId);
    CountsAtLeastOne(events, e);
  }

  lemma {:induction false} CountsAtLeastOne(events: seq<ClientEvent>, e: nat)
    requires e < |events| && events[e].InvoiceParametersReady?
    ensures Ready(events, events[e].counterparty, events[e].requestId) >= 1
  {
    if e < |events| - 1 {
      CountsAtLeastOne(events[..|events| - 1], e);
    }
  }
}
