/**
 The LSPS2 service handler with its nested and cross-referencing maps.
 Every method is proved to do to the maps what ServiceSpec.dfy says, for all inputs.
 */
module ServiceHandlers {
  import opened Types
  import opened PaymentQueues
  import opened OpeningFees
  import opened FeeSplit
  import opened FeeParams
  import opened JitChannels
  import opened OutboundChannels
  import opened Messages
  import opened ServiceSpec
  import Scids

  datatype Outcome = Success | Failure | Panic

  /** Records what the LSP's channel manager is told to do; its calls always succeed. */
  class ChannelManager {
    var log: seq<ManagerCall>

    constructor ()
      ensures log == []
    {
      log := [];
    }

    method ForwardIntercepted(id: InterceptId, channelId: ChannelId, nextNode: PublicKey, amountMsat: nat)
      modifies this
      ensures log == old(log) + [ForwardInterceptedHtlc(id, channelId, nextNode, amountMsat)]
    {
      log := log + [ForwardInterceptedHtlc(id, channelId, nextNode, amountMsat)];
    }

    method FailIntercepted(id: InterceptId)
      modifies this
      ensures log == old(log) + [FailInterceptedHtlc(id)]
    {
      log := log + [FailInterceptedHtlc(id)];
    }
  }

  class PeerState {
    var outboundChannelsByInterceptScid: map<UInt64, OutboundJITChannel>
    var interceptScidByUserChannelId: map<UInt128, UInt64>
    var interceptScidByChannelId: map<ChannelId, UInt64>
    var pendingRequests: map<RequestId, Request>

    // What the maps mean, and the objects they own.
    ghost var view: Peer
    ghost var Repr: set<object>

    static ghost predicate ChannelMatches(channel: OutboundJITChannel, entry: Entry)
      reads channel, channel.paymentQueue
    {
      && channel.Valid()
      && channel.Terms() == entry.terms
      && channel.userChannelId == entry.userChannelId
      && channel.View() == entry.life.view
    }

    /** Every live channel has an object and a queue of its own. */
    ghost predicate Owned()
      reads this
    {
      && this in Repr
      && interceptScidByUserChannelId == view.scidByUserChannelId
      && interceptScidByChannelId == view.scidByChannelId
      && pendingRequests == view.requests
      && (forall k :: k in outboundChannelsByInterceptScid <==> view.LiveAt(k))
      && (forall k :: k in outboundChannelsByInterceptScid ==>
            outboundChannelsByInterceptScid[k] in Repr && outboundChannelsByInterceptScid[k].paymentQueue in Repr)
      && (forall k, l :: k in outboundChannelsByInterceptScid && l in outboundChannelsByInterceptScid && k != l ==>
            && outboundChannelsByInterceptScid[k] != outboundChannelsByInterceptScid[l]
            && outboundChannelsByInterceptScid[k].paymentQueue != outboundChannelsByInterceptScid[l].paymentQueue)
    }

    ghost predicate Valid()
      reads this, Repr
    {
      && Owned()
      && (forall k :: k in outboundChannelsByInterceptScid ==>
            ChannelMatches(outboundChannelsByInterceptScid[k], view.channels[k]))
    }

    constructor ()
      ensures Valid() && Repr == {this} && view == NEW_PEER
    {
      outboundChannelsByInterceptScid := map[];
      interceptScidByUserChannelId := map[];
      interceptScidByChannelId := map[];
      pendingRequests := map[];
      view := NEW_PEER;
      Repr := {this};
    }

    method InsertPendingRequest(id: RequestId, request: Request)
      requires Valid()
      modifies this
      ensures Valid() && Repr == old(Repr)
      ensures view == old(view).(requests := old(view).requests[id := request])
    {
      pendingRequests := pendingRequests[id := request];
      view := view.(requests := view.requests[id := request]);
    }

    method RemovePendingRequest(id: RequestId) returns (request: Option<Request>)
      requires Valid()
      modifies this
      ensures Valid() && Repr == old(Repr)
      ensures view == old(view).(requests := old(view).requests - {id})
      ensures request == if id in old(view).requests then Some(old(view).requests[id]) else None
    {
      request := if id in pendingRequests then Some(pendingRequests[id]) else None;
      pendingRequests := pendingRequests - {id};
      view := view.(requests := view.requests - {id});
    }

    /** The channel belongs to this peer but is not in use yet. */
    ghost predicate Unused(channel: OutboundJITChannel)
      reads this
    {
      && channel in Repr && channel.paymentQueue in Repr
      && forall k :: k in outboundChannelsByInterceptScid ==>
           && outboundChannelsByInterceptScid[k] != channel
           && outboundChannelsByInterceptScid[k].paymentQueue != channel.paymentQueue
    }

    ghost method Claim(channel: OutboundJITChannel)
      requires Valid() && channel !in Repr && channel.paymentQueue !in Repr
      modifies this`Repr
      ensures Valid() && Unused(channel)
      ensures Repr == old(Repr) + {channel, channel.paymentQueue}
    {
      Repr := Repr + {channel, channel.paymentQueue};
    }

    method InsertOutboundChannel(interceptScid: UInt64, channel: OutboundJITChannel)
      requires Valid() && Unused(channel) && channel.Valid() && channel.View() == NEWBORN.view
      modifies this
      ensures Valid() && Repr == old(Repr)
      ensures view == old(view).(channels :=
                old(view).channels[interceptScid := Entry(channel.userChannelId, channel.Terms(), NEWBORN)])
    {
      ghost var others := outboundChannelsByInterceptScid - {interceptScid};
      outboundChannelsByInterceptScid := outboundChannelsByInterceptScid[interceptScid := channel];
      view := view.(channels := view.channels[interceptScid := Entry(channel.userChannelId, channel.Terms(), NEWBORN)]);
      assert unchanged(channel) && unchanged(channel.paymentQueue);
      assert ChannelMatches(channel, view.channels[interceptScid]);
      forall k | k in others
        ensures ChannelMatches(others[k], view.channels[k])
      {
        assert unchanged(others[k]) && unchanged(others[k].paymentQueue);
      }
    }

    method InsertUserChannelId(userChannelId: UInt128, interceptScid: UInt64)
      requires Valid()
      modifies this
      ensures Valid() && Repr == old(Repr)
      ensures view == old(view).(scidByUserChannelId := old(view).scidByUserChannelId[userChannelId := interceptScid])
    {
      interceptScidByUserChannelId := interceptScidByUserChannelId[userChannelId := interceptScid];
      view := view.(scidByUserChannelId := view.scidByUserChannelId[userChannelId := interceptScid]);
    }

    method InsertChannelId(id: ChannelId, interceptScid: UInt64)
      requires Valid()
      modifies this
      ensures Valid() && Repr == old(Repr)
      ensures view == old(view).(scidByChannelId := old(view).scidByChannelId[id := interceptScid])
    {
      interceptScidByChannelId := interceptScidByChannelId[id := interceptScid];
      view := view.(scidByChannelId := view.scidByChannelId[id := interceptScid]);
    }

    /** Records the answer of a channel that has just heard an event; one that refused an HTLC is removed. */
    method Record(
      interceptScid: UInt64, ghost channel: OutboundJITChannel, event: ChannelEvent, ghost answer: ChannelView,
      action: Action)
      requires Owned() && view.LiveAt(interceptScid) && channel == outboundChannelsByInterceptScid[interceptScid]
      requires forall k :: k in outboundChannelsByInterceptScid && k != interceptScid ==>
                 ChannelMatches(outboundChannelsByInterceptScid[k], view.channels[k])
      requires ChannelMatches(channel, view.channels[interceptScid].(life := Life(answer, false, [])))
      modifies this
      ensures Valid() && Repr == old(Repr)
      ensures view == old(view).Answered(interceptScid, event, answer, action)
    {
      ghost var others := outboundChannelsByInterceptScid - {interceptScid};
      view := view.Answered(interceptScid, event, answer, action);
      if event.Intercepted? && action.Refused? {
        outboundChannelsByInterceptScid := outboundChannelsByInterceptScid - {interceptScid};
      }
      assert unchanged(channel) && unchanged(channel.paymentQueue);
      assert ChannelMatches(channel, view.channels[interceptScid]);
      forall k | k in others
        ensures ChannelMatches(others[k], view.channels[k])
      {
        assert unchanged(others[k]) && unchanged(others[k].paymentQueue);
      }
    }

    /** Lets a channel hear an event. */
    method Hear(interceptScid: UInt64, event: ChannelEvent) returns (action: Action, ghost answer: ChannelView)
      requires Valid() && view.LiveAt(interceptScid)
      requires AmountFits(view.channels[interceptScid].life.view, event)
      modifies Repr
      ensures Valid() && Repr == old(Repr)
      ensures (answer, action) == AnswerOf(old(view).channels[interceptScid], event)
      ensures view == old(view).Answered(interceptScid, event, answer, action)
      ensures action.ForwardPayment? ==> 0 < Total(action.htlcs) < UINT64_LIMIT
    {
      var channel := outboundChannelsByInterceptScid[interceptScid];
      action := channel.Hear(event);
      answer := channel.View();
      Record(interceptScid, channel, event, answer, action);
    }
  }

  class LSPS2ServiceHandler {
    const promiseSecret: seq<Byte>
    const mac: Mac
    const dateText: DateText
    const channelManager: ChannelManager
    var perPeerState: map<PublicKey, PeerState>
    var peerByInterceptScid: map<UInt64, PublicKey>
    var peerByChannelId: map<ChannelId, PublicKey>
    var pendingEvents: seq<ServiceEvent>
    var pendingMessages: seq<(PublicKey, LSPSMessage)>

    // What the maps mean, and the objects they own.
    ghost var spec: Service
    ghost var Repr: set<object>

    ghost predicate FieldsMatch(s: Service)
      reads this, channelManager
    {
      && perPeerState.Keys == s.peers.Keys
      && peerByInterceptScid == s.scidPeers
      && peerByChannelId == s.channelPeers
      && pendingEvents == s.events
      && pendingMessages == s.messages
      && channelManager.log == s.calls
    }

    /** No two peers share an object, and none holds the handler or the channel manager. */
    ghost predicate PeersApart()
      reads this, Repr
    {
      && this in Repr && channelManager in Repr
      && (forall p :: p in perPeerState ==>
            && perPeerState[p] in Repr && perPeerState[p].Repr <= Repr
            && this !in perPeerState[p].Repr && channelManager !in perPeerState[p].Repr)
      && (forall p, q :: p in perPeerState && q in perPeerState && p != q ==>
            perPeerState[p] != perPeerState[q] && perPeerState[p].Repr !! perPeerState[q].Repr)
    }

    ghost predicate PeersMatch(peers: map<PublicKey, Peer>)
      requires PeersApart() && perPeerState.Keys == peers.Keys
      reads this, Repr
    {
      forall p :: p in perPeerState ==> perPeerState[p].Valid() && perPeerState[p].view == peers[p]
    }

    /** The maps hold exactly what `s` says. */
    ghost predicate Represents(s: Service)
      reads this, Repr
    {
      PeersApart() && FieldsMatch(s) && PeersMatch(s.peers)
    }

    ghost predicate Valid()
      reads this, Repr
    {
      Represents(spec)
    }

    constructor (promiseSecret: seq<Byte>, mac: Mac, dateText: DateText, channelManager: ChannelManager)
      requires channelManager.log == []
      ensures Valid() && spec == EMPTY_SERVICE
      ensures Repr == {this, channelManager}
    {
      this.promiseSecret := promiseSecret;
      this.mac := mac;
      this.dateText := dateText;
      this.channelManager := channelManager;
      perPeerState := map[];
      peerByInterceptScid := map[];
      peerByChannelId := map[];
      pendingEvents := [];
      pendingMessages := [];
      spec := EMPTY_SERVICE;
      Repr := {this, channelManager};
    }

    /** Carries out a fee payment: splits the fee and forwards every HTLC. */
    method ForwardFeePayment(peer: PublicKey, channelId: ChannelId, htlcs: seq<InterceptedHTLC>, openingFeeMsat: UInt64)
      requires 0 < Total(htlcs) < UINT64_LIMIT
      modifies channelManager
      ensures channelManager.log ==
              old(channelManager.log) + ForwardSplit(Split(htlcs, openingFeeMsat), channelId, peer)
    {
      var amounts := CalculateAmountToForwardPerHtlc(htlcs, openingFeeMsat);
      for i := 0 to |amounts|
        invariant channelManager.log == old(channelManager.log) + ForwardSplit(amounts, channelId, peer)[..i]
      {
        channelManager.ForwardIntercepted(amounts[i].interceptId, channelId, peer, amounts[i].amountMsat);
      }
    }

    /** Forwards HTLCs in full. */
    method ForwardHeldHtlcs(peer: PublicKey, channelId: ChannelId, htlcs: seq<InterceptedHTLC>)
      modifies channelManager
      ensures channelManager.log == old(channelManager.log) + ForwardAll(htlcs, channelId, peer)
    {
      for i := 0 to |htlcs|
        invariant channelManager.log == old(channelManager.log) + ForwardAll(htlcs, channelId, peer)[..i]
      {
        channelManager.ForwardIntercepted(htlcs[i].interceptId, channelId, peer, htlcs[i].expectedOutboundAmountMsat);
      }
    }

    /** Does what a channel's action asks of the channel manager and the event queue. */
    method CarryOut(peer: PublicKey, scid: UInt64, userChannelId: UInt128, event: ChannelEvent, action: Action)
      requires action.ForwardPayment? ==> 0 < Total(action.htlcs) < UINT64_LIMIT
      modifies channelManager, this`pendingEvents
      ensures channelManager.log == old(channelManager.log) + Calls(peer, event, action)
      ensures pendingEvents == old(pendingEvents) + OpenEvents(peer, scid, userChannelId, action)
    {
      match action {
        case OpenChannel(fee, amtToForward) =>
          pendingEvents := pendingEvents + [OpenChannelEvent(peer, amtToForward, fee, userChannelId, scid)];
        case ForwardHTLC(channelId) =>
          if event.Intercepted? {
            ForwardHeldHtlcs(peer, channelId, [event.htlc]);
          }
        case ForwardPayment(channelId, htlcs, fee) =>
          ForwardFeePayment(peer, channelId, htlcs, fee);
        case ForwardHTLCs(channelId, htlcs) =>
          ForwardHeldHtlcs(peer, channelId, htlcs);
        case Refused =>
          if event.Intercepted? {
            channelManager.FailIntercepted(event.htlc.interceptId);
          }
        case NoAction =>
      }
    }

    /** What changed belongs to one peer, to the handler or to the channel manager; so the other peers are as before. */
    twostate lemma OthersKept(peer: PublicKey)
      requires old(PeersApart()) && old(forall p :: p in perPeerState ==> perPeerState[p].Valid())
      requires forall o ::
                 (o in old(Repr) && o != this && o != channelManager
                  && (peer in old(perPeerState) ==> o !in old(perPeerState[peer].Repr))) ==> unchanged(o)
      ensures forall p :: p in old(perPeerState) && p != peer ==>
                && old(perPeerState[p]).Valid()
                && old(perPeerState[p]).view == old(perPeerState[p].view)
                && old(perPeerState[p]).Repr == old(perPeerState[p].Repr)
    {
      forall p | p in old(perPeerState) && p != peer
        ensures old(perPeerState[p]).Valid()
        ensures old(perPeerState[p]).view == old(perPeerState[p].view)
        ensures old(perPeerState[p]).Repr == old(perPeerState[p].Repr)
      {
        assert unchanged(old(perPeerState[p])) && unchanged(old(perPeerState[p].Repr));
      }
    }

    /** Peers that own the same objects as before are as far apart as before. */
    twostate lemma StillApart()
      requires old(PeersApart()) && perPeerState == old(perPeerState) && Repr == old(Repr)
      requires forall p :: p in perPeerState ==> perPeerState[p].Repr == old(perPeerState[p].Repr)
      ensures PeersApart()
    {
    }

    ghost method Become(next: Service)
      requires Represents(next)
      modifies this`spec
      ensures Valid() && spec == next && Repr == old(Repr)
    {
      spec := next;
    }

    /** Carries out an action; the peers are as `s` says already. */
    method Perform(
      peer: PublicKey, scid: UInt64, userChannelId: UInt128, event: ChannelEvent, action: Action, ghost s: Service)
      requires Represents(s)
      requires action.ForwardPayment? ==> 0 < Total(action.htlcs) < UINT64_LIMIT
      modifies channelManager, this`pendingEvents
      ensures Represents(s.(calls := s.calls + Calls(peer, event, action),
                            events := s.events + OpenEvents(peer, scid, userChannelId, action)))
      ensures Repr == old(Repr)
    {
      CarryOut(peer, scid, userChannelId, event, action);
      forall p | p in perPeerState
        ensures perPeerState[p].Valid() && perPeerState[p].view == s.peers[p]
      {
        assert unchanged(perPeerState[p]) && unchanged(perPeerState[p].Repr);
      }
    }

    /** A live channel hears an event; its answer is recorded, its action not yet carried out. */
    method Consult(peer: PublicKey, interceptScid: UInt64, event: ChannelEvent)
      returns (action: Action, ghost answer: ChannelView, ghost heard: Service)
      requires Valid() && spec.LiveAt(peer, interceptScid)
      requires AmountFits(spec.peers[peer].channels[interceptScid].life.view, event)
      modifies perPeerState[peer].Repr
      ensures (answer, action) == AnswerOf(spec.peers[peer].channels[interceptScid], event)
      ensures action.ForwardPayment? ==> 0 < Total(action.htlcs) < UINT64_LIMIT
      ensures heard == Answered(spec, peer, interceptScid, event, answer, action)
      ensures PeersApart() && PeersMatch(heard.peers)
      ensures unchanged(this) && unchanged(channelManager) && Repr == old(Repr)
    {
      action, answer := perPeerState[peer].Hear(interceptScid, event);
      heard := Answered(spec, peer, interceptScid, event, answer, action);
      OthersKept(peer);
      StillApart();
      forall p | p in perPeerState
        ensures perPeerState[p].Valid() && perPeerState[p].view == heard.peers[p]
      {
      }
    }

    /** ... and now its action is carried out. */
    method PassToChannel(peer: PublicKey, interceptScid: UInt64, userChannelId: UInt128, event: ChannelEvent)
      returns (action: Action, ghost answer: ChannelView)
      requires Valid() && spec.LiveAt(peer, interceptScid)
      requires userChannelId == spec.peers[peer].channels[interceptScid].userChannelId
      requires AmountFits(spec.peers[peer].channels[interceptScid].life.view, event)
      modifies Repr
      ensures Valid() && Repr == old(Repr)
      ensures (answer, action) == AnswerOf(old(spec).peers[peer].channels[interceptScid], event)
      ensures spec == Settled(old(spec), peer, interceptScid, event, answer, action)
    {
      ghost var heard;
      action, answer, heard := Consult(peer, interceptScid, event);
      ghost var settled := heard.(calls := heard.calls + Calls(peer, event, action),
                                  events := heard.events + OpenEvents(peer, interceptScid, userChannelId, action));
      Perform(peer, interceptScid, userChannelId, event, action, heard);
      Become(settled);
    }

    /** Passes an event on to a channel, if it is still there. */
    method Pass(peer: PublicKey, interceptScid: UInt64, event: ChannelEvent) returns (heard: bool, refused: bool)
      requires Valid() && peer in perPeerState
      requires spec.LiveAt(peer, interceptScid) ==>
                 AmountFits(spec.peers[peer].channels[interceptScid].life.view, event)
      modifies Repr
      ensures Valid() && Repr == old(Repr)
      ensures spec == Deliver(old(spec), peer, interceptScid, event)
      ensures heard == old(spec).LiveAt(peer, interceptScid)
      ensures refused == Refuses(old(spec), peer, interceptScid, event)
    {
      var state := perPeerState[peer];
      if interceptScid !in state.outboundChannelsByInterceptScid {
        return false, false;
      }
      var userChannelId := state.outboundChannelsByInterceptScid[interceptScid].userChannelId;
      var action, _ := PassToChannel(peer, interceptScid, userChannelId, event);
      return true, action.Refused?;
    }

    method HtlcIntercepted(
      interceptScid: UInt64, interceptId: InterceptId, expectedOutboundAmountMsat: UInt64, paymentHash: PaymentHash)
      returns (outcome: Outcome)
      requires Valid()
      requires interceptScid in spec.scidPeers && spec.LiveAt(spec.scidPeers[interceptScid], interceptScid) ==>
                 AmountFits(spec.peers[spec.scidPeers[interceptScid]].channels[interceptScid].life.view,
                            Intercepted(InterceptedHTLC(interceptId, expectedOutboundAmountMsat, paymentHash)))
      modifies Repr
      ensures Valid() && Repr == old(Repr)
      ensures var htlc := InterceptedHTLC(interceptId, expectedOutboundAmountMsat, paymentHash);
              && spec == AfterIntercepted(old(spec), interceptScid, htlc)
              && (outcome == Failure <==> InterceptFails(old(spec), interceptScid, htlc))
    {
      if interceptScid !in peerByInterceptScid {
        return Success;
      }
      var peer := peerByInterceptScid[interceptScid];
      if peer !in perPeerState {
        return Failure;
      }
      var htlc := InterceptedHTLC(interceptId, expectedOutboundAmountMsat, paymentHash);
      var heard, refused := Pass(peer, interceptScid, Intercepted(htlc));
      outcome := if refused then Failure else Success;
    }

    method HtlcHandlingFailed(failedNextChannel: Option<ChannelId>) returns (outcome: Outcome)
      requires Valid()
      modifies Repr
      ensures Valid() && Repr == old(Repr)
      ensures if failedNextChannel.Some?
              then && spec == AfterByChannelId(old(spec), failedNextChannel.value, HandlingFailed)
                   && (outcome == Failure <==> HandlingFailedFails(old(spec), failedNextChannel.value))
              else spec == old(spec) && outcome == Success
    {
      outcome := Success;
      if failedNextChannel.Some? && failedNextChannel.value in peerByChannelId {
        var id := failedNextChannel.value;
        var peer := peerByChannelId[id];
        if peer in perPeerState && id in perPeerState[peer].interceptScidByChannelId {
          var heard, refused := Pass(peer, perPeerState[peer].interceptScidByChannelId[id], HandlingFailed);
          outcome := if refused then Failure else Success;
        }
      }
    }

    method PaymentForwarded(nextChannelId: ChannelId) returns (outcome: Outcome)
      requires Valid()
      modifies Repr
      ensures Valid() && Repr == old(Repr)
      ensures spec == AfterByChannelId(old(spec), nextChannelId, Succeeded)
      ensures outcome == Failure <==> SucceededFails(old(spec), nextChannelId)
    {
      outcome := Success;
      if nextChannelId in peerByChannelId {
        var peer := peerByChannelId[nextChannelId];
        if peer in perPeerState && nextChannelId in perPeerState[peer].interceptScidByChannelId {
          var heard, refused := Pass(peer, perPeerState[peer].interceptScidByChannelId[nextChannelId], Succeeded);
          outcome := if refused then Failure else Success;
        } else {
          outcome := Failure;
        }
      }
    }

    /** Enters a channel id into the index of its peer. */
    method AnnounceToPeer(peer: PublicKey, channelId: ChannelId, interceptScid: UInt64)
      requires Valid() && peer in perPeerState
      modifies perPeerState[peer], this`spec
      ensures Valid() && Repr == old(Repr)
      ensures spec == ChannelIdAdded(old(spec), peer, channelId, interceptScid)
    {
      perPeerState[peer].InsertChannelId(channelId, interceptScid);
      OthersKept(peer);
      StillApart();
      Become(ChannelIdAdded(spec, peer, channelId, interceptScid));
    }

    /** Enters a channel id into the two indexes that lead to its channel. */
    method Announce(userChannelId: UInt128, channelId: ChannelId, peer: PublicKey) returns (scid: Option<UInt64>)
      requires Valid()
      modifies Repr
      ensures Valid() && Repr == old(Repr)
      ensures spec == Announced(old(spec), userChannelId, channelId, peer)
      ensures scid == ByUserChannelId(old(spec), peer, userChannelId)
    {
      peerByChannelId := peerByChannelId[channelId := peer];
      Become(spec.(channelPeers := spec.channelPeers[channelId := peer]));
      if peer !in perPeerState || userChannelId !in perPeerState[peer].interceptScidByUserChannelId {
        return None;
      }
      var interceptScid := perPeerState[peer].interceptScidByUserChannelId[userChannelId];
      AnnounceToPeer(peer, channelId, interceptScid);
      scid := Some(interceptScid);
    }

    method ChannelReady(userChannelId: UInt128, channelId: ChannelId, counterpartyNodeId: PublicKey)
      returns (outcome: Outcome)
      requires Valid()
      modifies Repr
      ensures Valid() && Repr == old(Repr)
      ensures spec == AfterReady(old(spec), userChannelId, channelId, counterpartyNodeId)
      ensures outcome == Failure <==> ReadyFails(old(spec), userChannelId, channelId, counterpartyNodeId)
    {
      var scid := Announce(userChannelId, channelId, counterpartyNodeId);
      if scid.None? {
        return Failure;
      }
      AnnouncedKeepsChannels(old(spec), userChannelId, channelId, counterpartyNodeId, scid.value, Ready(channelId));
      var heard, refused := Pass(counterpartyNodeId, scid.value, Ready(channelId));
      outcome := if !heard || refused then Failure else Success;
    }

    // ---- Requests and their answers ----

    method TakeRequestOf(peer: PublicKey, id: RequestId) returns (request: Option<Request>)
      requires Valid() && peer in perPeerState
      modifies perPeerState[peer], this`spec
      ensures Valid() && Repr == old(Repr)
      ensures spec == RequestTaken(old(spec), peer, id)
      ensures request == PendingRequest(old(spec), peer, id)
    {
      request := perPeerState[peer].RemovePendingRequest(id);
      OthersKept(peer);
      StillApart();
      Become(RequestTaken(spec, peer, id));
    }

    /** Takes a pending request off the books of its peer. */
    method TakeRequest(peer: PublicKey, id: RequestId) returns (request: Option<Request>)
      requires Valid()
      modifies Repr
      ensures Valid() && Repr == old(Repr)
      ensures spec == RequestTaken(old(spec), peer, id)
      ensures request == PendingRequest(old(spec), peer, id)
    {
      if peer !in perPeerState {
        return None;
      }
      request := TakeRequestOf(peer, id);
    }

    method EnqueueResponse(peer: PublicKey, id: RequestId, response: Response)
      requires Valid()
      modifies this`pendingMessages, this`spec
      ensures Valid() && Repr == old(Repr)
      ensures spec == Reply(old(spec), peer, id, response)
    {
      pendingMessages := pendingMessages + [(peer, ResponseMessage(id, response))];
      Become(Reply(spec, peer, id, response));
    }

    method EnqueueEvent(event: ServiceEvent)
      requires Valid()
      modifies this`pendingEvents, this`spec
      ensures Valid() && Repr == old(Repr)
      ensures spec == old(spec).(events := old(spec).events + [event])
    {
      pendingEvents := pendingEvents + [event];
      Become(spec.(events := spec.events + [event]));
    }

    method InvalidTokenProvided(counterpartyNodeId: PublicKey, requestId: RequestId) returns (outcome: Outcome)
      requires Valid()
      modifies Repr
      ensures Valid() && Repr == old(Repr)
      ensures spec == AfterFeeAnswer(old(spec), counterpartyNodeId, requestId,
                                     GetInfoError(ErrorOf(UNRECOGNIZED_OR_STALE_TOKEN)))
      ensures outcome == Success <==>
              AwaitsFeeParams(old(spec), counterpartyNodeId, requestId)
    {
      var request := TakeRequest(counterpartyNodeId, requestId);
      match request {
        case Some(GetInfo(_)) =>
          EnqueueResponse(counterpartyNodeId, requestId, GetInfoError(ErrorOf(UNRECOGNIZED_OR_STALE_TOKEN)));
          outcome := Success;
        case _ =>
          outcome := Failure;
      }
    }

    method OpeningFeeParamsGenerated(
      counterpartyNodeId: PublicKey, requestId: RequestId, openingFeeParamsMenu: seq<RawOpeningFeeParams>)
      returns (outcome: Outcome)
      requires Valid()
      modifies Repr
      ensures Valid() && Repr == old(Repr)
      ensures spec == AfterFeeAnswer(old(spec), counterpartyNodeId, requestId,
                                     GetInfoResult(MintedMenu(openingFeeParamsMenu, promiseSecret, mac, dateText)))
      ensures outcome == Success <==>
              AwaitsFeeParams(old(spec), counterpartyNodeId, requestId)
    {
      var request := TakeRequest(counterpartyNodeId, requestId);
      match request {
        case Some(GetInfo(_)) =>
          var menu := MintMenu(openingFeeParamsMenu);
          EnqueueResponse(counterpartyNodeId, requestId, GetInfoResult(menu));
          outcome := Success;
        case _ =>
          outcome := Failure;
      }
    }

    method MintMenu(menu: seq<RawOpeningFeeParams>) returns (minted: seq<OpeningFeeParams>)
      ensures minted == MintedMenu(menu, promiseSecret, mac, dateText)
    {
      minted := [];
      for i := 0 to |menu|
        invariant minted == MintedMenu(menu, promiseSecret, mac, dateText)[..i]
      {
        var params := IntoOpeningFeeParams(menu[i], promiseSecret, mac, dateText);
        minted := minted + [params];
      }
    }

    method IndexIntercept(interceptScid: UInt64, peer: PublicKey)
      requires Valid()
      modifies this`peerByInterceptScid, this`spec
      ensures Valid() && Repr == old(Repr)
      ensures spec == old(spec).(scidPeers := old(spec).scidPeers[interceptScid := peer])
    {
      peerByInterceptScid := peerByInterceptScid[interceptScid := peer];
      Become(spec.(scidPeers := spec.scidPeers[interceptScid := peer]));
    }

    method IndexUserChannelId(peer: PublicKey, userChannelId: UInt128, interceptScid: UInt64)
      requires Valid() && peer in perPeerState
      modifies perPeerState[peer], this`spec
      ensures Valid() && Repr == old(Repr)
      ensures spec == UserChannelIdAdded(old(spec), peer, userChannelId, interceptScid)
    {
      perPeerState[peer].InsertUserChannelId(userChannelId, interceptScid);
      OthersKept(peer);
      StillApart();
      Become(UserChannelIdAdded(spec, peer, userChannelId, interceptScid));
    }

    /** The handler comes to own new objects that no peer owns yet. */
    ghost method Adopt(objects: set<object>)
      requires Valid() && objects !! Repr
      modifies this`Repr
      ensures Valid() && Repr == old(Repr) + objects
      ensures Unclaimed(objects)
    {
      Repr := Repr + objects;
    }

    /** These objects belong to the handler but to no peer. */
    ghost predicate Unclaimed(objects: set<object>)
      requires PeersApart()
      reads this, Repr
    {
      && objects <= Repr && this !in objects && channelManager !in objects
      && forall p :: p in perPeerState ==> objects !! perPeerState[p].Repr
    }

    /** ... and then one peer comes to own it. */
    ghost method Assign(peer: PublicKey, channel: OutboundJITChannel)
      requires Valid() && peer in perPeerState && Unclaimed({channel, channel.paymentQueue})
      modifies perPeerState[peer]
      ensures Valid() && Repr == old(Repr)
      ensures perPeerState[peer].Unused(channel)
    {
      perPeerState[peer].Claim(channel);
      OthersKept(peer);
    }

    method InsertChannel(peer: PublicKey, interceptScid: UInt64, channel: OutboundJITChannel)
      requires Valid() && peer in perPeerState && perPeerState[peer].Unused(channel)
      requires channel.Valid() && channel.View() == NEWBORN.view
      modifies perPeerState[peer], this`spec
      ensures Valid() && Repr == old(Repr)
      ensures spec == EntryAdded(old(spec), peer, interceptScid, channel.userChannelId, channel.Terms())
    {
      perPeerState[peer].InsertOutboundChannel(interceptScid, channel);
      OthersKept(peer);
      StillApart();
      Become(EntryAdded(spec, peer, interceptScid, channel.userChannelId, channel.Terms()));
    }

    method NewChannel(peer: PublicKey, interceptScid: UInt64, userChannelId: UInt128, terms: ChannelTerms)
      returns (ghost added: set<object>)
      requires Valid() && peer in perPeerState
      modifies perPeerState[peer], this`spec, this`Repr
      ensures Valid() && Repr == old(Repr) + added && fresh(added)
      ensures spec == EntryAdded(old(spec), peer, interceptScid, userChannelId, terms)
    {
      var channel := new OutboundJITChannel(terms.paymentSizeMsat, terms.openingFeeParams, userChannelId);
      added := {channel, channel.paymentQueue};
      assert fresh(added);
      Adopt(added);
      Assign(peer, channel);
      InsertChannel(peer, interceptScid, channel);
    }

    /** Creates a channel and the two indexes that lead to it. */
    method AddChannel(peer: PublicKey, interceptScid: UInt64, userChannelId: UInt128, terms: ChannelTerms)
      returns (ghost added: set<object>)
      requires Valid() && peer in perPeerState
      modifies perPeerState[peer], this
      ensures Valid() && Repr == old(Repr) + added && fresh(added)
      ensures spec == ChannelAdded(old(spec), peer, interceptScid, userChannelId, terms)
    {
      IndexIntercept(interceptScid, peer);
      IndexUserChannelId(peer, userChannelId, interceptScid);
      added := NewChannel(peer, interceptScid, userChannelId, terms);
    }

    /** Creates the channel and tells the peer. */
    method CompletePurchase(
      peer: PublicKey, requestId: RequestId, interceptScid: UInt64, cltvExpiryDelta: UInt32, clientTrustsLsp: bool,
      userChannelId: UInt128, terms: ChannelTerms)
      returns (ghost added: set<object>)
      requires Valid() && peer in perPeerState
      modifies Repr
      ensures Valid() && Repr == old(Repr) + added && fresh(added)
      ensures spec == Reply(ChannelAdded(old(spec), peer, interceptScid, userChannelId, terms), peer, requestId,
                            BuyResult(Scids.FromScid(interceptScid), cltvExpiryDelta, clientTrustsLsp))
    {
      added := AddChannel(peer, interceptScid, userChannelId, terms);
      EnqueueResponse(peer, requestId, BuyResult(Scids.FromScid(interceptScid), cltvExpiryDelta, clientTrustsLsp));
    }

    method InvoiceParametersGenerated(
      counterpartyNodeId: PublicKey, requestId: RequestId, interceptScid: UInt64, cltvExpiryDelta: UInt32,
      clientTrustsLsp: bool, userChannelId: UInt128)
      returns (outcome: Outcome, ghost added: set<object>)
      requires Valid()
      modifies Repr
      ensures Valid() && Repr == old(Repr) + added && fresh(added)
      ensures spec == AfterInvoiceParameters(old(spec), counterpartyNodeId, requestId, interceptScid, cltvExpiryDelta,
                                             clientTrustsLsp, userChannelId)
      ensures outcome == Success <==>
              AwaitsInvoiceParameters(old(spec), counterpartyNodeId, requestId)
    {
      added := {};
      var request := TakeRequest(counterpartyNodeId, requestId);
      match request {
        case Some(Buy(params, size)) =>
          added := CompletePurchase(counterpartyNodeId, requestId, interceptScid, cltvExpiryDelta, clientTrustsLsp,
                           userChannelId, ChannelTerms(params, size));
          outcome := Success;
        case _ =>
          outcome := Failure;
      }
    }

    method Enter(peer: PublicKey, state: PeerState)
      requires Valid() && peer !in perPeerState
      requires state.Repr == {state} && Unclaimed({state}) && state.Valid() && state.view == NEW_PEER
      modifies this`perPeerState, this`spec
      ensures Valid() && Repr == old(Repr)
      ensures spec == PeerEntered(old(spec), peer)
    {
      perPeerState := perPeerState[peer := state];
      OthersKept(peer);
      Become(PeerEntered(spec, peer));
    }

    /** Finds or makes the state of a peer. */
    method EntryOfPeer(peer: PublicKey) returns (ghost added: set<object>)
      requires Valid()
      modifies this
      ensures Valid() && Repr == old(Repr) + added && fresh(added)
      ensures spec == PeerEntered(old(spec), peer)
    {
      added := {};
      if peer !in perPeerState {
        var state := new PeerState();
        added := {state};
        Adopt(added);
        Enter(peer, state);
      }
    }

    method InsertRequest(peer: PublicKey, id: RequestId, request: Request)
      requires Valid() && peer in perPeerState
      modifies perPeerState[peer], this`spec
      ensures Valid() && Repr == old(Repr)
      ensures spec == RequestAdded(old(spec), peer, id, request)
    {
      perPeerState[peer].InsertPendingRequest(id, request);
      OthersKept(peer);
      StillApart();
      Become(RequestAdded(spec, peer, id, request));
    }

    method AddRequest(peer: PublicKey, id: RequestId, request: Request) returns (ghost added: set<object>)
      requires Valid()
      modifies Repr
      ensures Valid() && Repr == old(Repr) + added && fresh(added)
      ensures spec == RequestAdded(old(spec), peer, id, request)
    {
      RequestAddedToEntry(spec, peer, id, request);
      added := EntryOfPeer(peer);
      InsertRequest(peer, id, request);
    }

    method HandleGetInfoRequest(requestId: RequestId, counterpartyNodeId: PublicKey, token: Option<string>)
      returns (ghost added: set<object>)
      requires Valid()
      modifies Repr
      ensures Valid() && Repr == old(Repr) + added && fresh(added)
      ensures spec == AfterGetInfo(old(spec), counterpartyNodeId, requestId, token)
    {
      added := AddRequest(counterpartyNodeId, requestId, GetInfo(token));
      EnqueueEvent(GetInfoEvent(requestId, counterpartyNodeId, token));
    }

    /** The checks on a fixed payment size: the error code of the reply, if it is turned down. */
    method CheckPaymentSize(
      openingFeeParams: OpeningFeeParams, paymentSizeMsat: UInt64) returns (refusal: Option<Int32>)
      ensures refusal == SizeRefusal(openingFeeParams, paymentSizeMsat)
    {
      if paymentSizeMsat < openingFeeParams.minPaymentSizeMsat {
        return Some(PAYMENT_SIZE_TOO_SMALL);
      }
      if paymentSizeMsat > openingFeeParams.maxPaymentSizeMsat {
        return Some(PAYMENT_SIZE_TOO_LARGE);
      }
      var openingFee := ComputeOpeningFee(paymentSizeMsat, openingFeeParams.minFeeMsat, openingFeeParams.proportional);
      if openingFee.None? {
        return Some(PAYMENT_SIZE_TOO_LARGE);
      }
      if openingFee.value >= paymentSizeMsat {
        return Some(PAYMENT_SIZE_TOO_SMALL);
      }
      return None;
    }

    method HandleBuyRequest(
      requestId: RequestId, counterpartyNodeId: PublicKey, openingFeeParams: OpeningFeeParams,
      paymentSizeMsat: Option<UInt64>, now: nat)
      returns (outcome: Outcome, ghost added: set<object>)
      requires Valid()
      modifies Repr
      ensures Valid() && Repr == old(Repr) + added && fresh(added)
      ensures var terms := ChannelTerms(openingFeeParams, paymentSizeMsat);
              var promiseValid := ValidParams(openingFeeParams, promiseSecret, now, mac, dateText);
              && spec == AfterBuy(old(spec), counterpartyNodeId, requestId, terms, promiseValid)
              && (outcome == Success <==> AnswerToBuy(terms, promiseValid) == Accepted)
              && (outcome == Panic <==> AnswerToBuy(terms, promiseValid) == Panics)
    {
      added := {};
      outcome := Failure;
      if paymentSizeMsat.Some? {
        var refusal := CheckPaymentSize(openingFeeParams, paymentSizeMsat.value);
        if refusal.Some? {
          EnqueueResponse(counterpartyNodeId, requestId, BuyError(ErrorOf(refusal.value)));
          return;
        }
      }
      var valid := IsValidOpeningFeeParams(openingFeeParams, promiseSecret, now, mac, dateText);
      if valid.None? {
        outcome := Panic;
        return;
      }
      if !valid.value {
        EnqueueResponse(counterpartyNodeId, requestId, BuyError(ErrorOf(INVALID_OPENING_FEE_PARAMS)));
        return;
      }
      added := AddRequest(counterpartyNodeId, requestId, Buy(openingFeeParams, paymentSizeMsat));
      EnqueueEvent(BuyRequestEvent(requestId, counterpartyNodeId, ChannelTerms(openingFeeParams, paymentSizeMsat)));
      outcome := Success;
    }
  }
}
