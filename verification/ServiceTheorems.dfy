/** The service as one flat map of channels: what its calls do to it, when they fail, and what is conserved. */
module ServiceTheorems {
  import opened Types
  import opened PaymentQueues
  import opened FeeParams
  import opened JitChannels
  import opened ChannelRuns
  import opened ChannelConservation
  import opened ChannelSequencing
  import opened Messages
  import opened ServiceSpec
  import opened ServiceRuns

  // ---- The flat map ----

  datatype Owned = Owned(peer: PublicKey, entry: Entry)

  /** All channels by scid, each with its peer. */
  function Flat(s: Service): map<UInt64, Owned> {
    map k | k in s.scidPeers && Known(s.peers, s.scidPeers[k], k) ::
      Owned(s.scidPeers[k], s.peers[s.scidPeers[k]].channels[k])
  }

  /** The channel that the handler's maps lead a call to, and what the channel is told. */
  function Addressed(s: Service, call: ServiceCall): Option<(UInt64, ChannelEvent)> {
    match call
    case HtlcIntercepted(scid, htlc) => if scid in s.scidPeers then Some((scid, Intercepted(htlc))) else None
    case HtlcHandlingFailed(Some(id)) =>
      if ByChannelId(s, id).Some? then Some((ByChannelId(s, id).value.1, HandlingFailed)) else None
    case PaymentForwarded(id) =>
      if ByChannelId(s, id).Some? then Some((ByChannelId(s, id).value.1, Succeeded)) else None
    case ChannelReady(user, id, peer) =>
      if ByUserChannelId(s, peer, user).Some? then Some((ByUserChannelId(s, peer, user).value, Ready(id))) else None
    case _ => None
  }

  /** The channel that a call creates. */
  function Created(s: Service, call: ServiceCall): Option<(UInt64, Owned)> {
    if call.InvoiceParametersGenerated? && AwaitsInvoiceParameters(s, call.peer, call.request) then
      var buy := s.peers[call.peer].requests[call.request];
      var terms := ChannelTerms(buy.openingFeeParams, buy.paymentSizeMsat);
      Some((call.scid, Owned(call.peer, Entry(call.userChannelId, terms, NEWBORN))))
    else None
  }

  function Heard(owned: Owned, event: ChannelEvent): Owned {
    owned.(entry := owned.entry.(life := Advance(owned.entry.terms, owned.entry.life, event)))
  }

  /** One step of the flat map: a channel is created, or the addressed one hears its event. */
  function FlatStep(
    flat: map<UInt64, Owned>, addressed: Option<(UInt64, ChannelEvent)>, created: Option<(UInt64, Owned)>)
    : map<UInt64, Owned>
  {
    if created.Some? then flat[created.value.0 := created.value.1]
    else if addressed.Some? && addressed.value.0 in flat then
      flat[addressed.value.0 := Heard(flat[addressed.value.0], addressed.value.1)]
    else flat
  }

  lemma {:induction false} FlatIs(s: Service, peer: PublicKey, scid: UInt64)
    requires Indexed(s)
    ensures Known(s.peers, peer, scid) <==> scid in Flat(s) && Flat(s)[scid].peer == peer
    ensures Known(s.peers, peer, scid) ==> Flat(s)[scid] == Owned(peer, s.peers[peer].channels[scid])
    ensures scid in s.scidPeers <==> scid in Flat(s)
  {
    assert Known(s.peers, peer, scid) <==> scid in s.scidPeers && s.scidPeers[scid] == peer;
    if scid in s.scidPeers {
      assert Known(s.peers, s.scidPeers[scid], scid);
    }
  }

  lemma {:induction false} DeliverFlat(s: Service, peer: PublicKey, scid: UInt64, event: ChannelEvent)
    requires Indexed(s) && Known(s.peers, peer, scid)
    ensures Flat(Deliver(s, peer, scid, event)) == Flat(s)[scid := Heard(Flat(s)[scid], event)]
  {
    FlatIs(s, peer, scid);
  }

  /** Channels and scids are as before. */
  lemma {:induction false} SameFlat(s: Service, s': Service, peer: PublicKey)
    requires s'.scidPeers == s.scidPeers
    requires s'.peers.Keys == s.peers.Keys + {peer}
    requires forall p :: p in s.peers ==> s'.peers[p].channels == s.peers[p].channels
    requires peer !in s.peers ==> s'.peers[peer].channels == map[]
    ensures Flat(s') == Flat(s)
  {
  }

  lemma {:induction false} NewChannelFlat(
    s: Service, s': Service, peer: PublicKey, scid: UInt64, entry: Entry, state: Peer)
    requires peer in s.peers && scid !in s.scidPeers
    requires s'.scidPeers == s.scidPeers[scid := peer] && s'.peers == s.peers[peer := state]
    requires state.channels == s.peers[peer].channels[scid := entry]
    ensures Flat(s') == Flat(s)[scid := Owned(peer, entry)]
  {
    var flat, flat' := Flat(s)[scid := Owned(peer, entry)], Flat(s');
    forall k
      ensures k in flat' <==> k in flat
      ensures k in flat' ==> flat'[k] == flat[k]
    {
      if k == scid {
        assert Known(s'.peers, peer, k);
      } else if k in s.scidPeers {
        assert Known(s'.peers, s.scidPeers[k], k) <==> Known(s.peers, s.scidPeers[k], k);
      }
    }
  }

  lemma {:induction false} ChannelAddedFlat(
    s: Service, peer: PublicKey, scid: UInt64, userChannelId: UInt128, terms: ChannelTerms)
    requires Indexed(s) && peer in s.peers && scid !in s.scidPeers
    ensures Flat(ChannelAdded(s, peer, scid, userChannelId, terms)) ==
            Flat(s)[scid := Owned(peer, Entry(userChannelId, terms, NEWBORN))]
  {
    var s' := ChannelAdded(s, peer, scid, userChannelId, terms);
    var state := WithChannel(s.peers[peer], scid, userChannelId, terms);
    assert s'.peers == s.peers[peer := state];
    NewChannelFlat(s, s', peer, scid, Entry(userChannelId, terms, NEWBORN), state);
  }

  lemma {:induction false} DeliverRefinesFlat(s: Service, peer: PublicKey, scid: UInt64, event: ChannelEvent)
    requires Indexed(s) && Known(s.peers, peer, scid)
    ensures Flat(Deliver(s, peer, scid, event)) == FlatStep(Flat(s), Some((scid, event)), None)
  {
    FlatIs(s, peer, scid);
    DeliverFlat(s, peer, scid, event);
  }

  lemma {:induction false} KnownChannels(s: Service, peer: PublicKey)
    requires Sound(s) && peer in s.peers
    ensures forall u :: u in s.peers[peer].scidByUserChannelId ==>
              Known(s.peers, peer, s.peers[peer].scidByUserChannelId[u])
    ensures forall id :: id in s.peers[peer].scidByChannelId ==>
              Known(s.peers, peer, s.peers[peer].scidByChannelId[id])
  {
    assert StateSound(s.peers[peer]);
  }

  lemma {:induction false} InterceptRefinesFlat(s: Service, scid: UInt64, htlc: InterceptedHTLC)
    requires Sound(s)
    ensures Flat(AfterIntercepted(s, scid, htlc)) ==
            FlatStep(Flat(s), Addressed(s, HtlcIntercepted(scid, htlc)), None)
  {
    if scid in s.scidPeers {
      FlatIs(s, s.scidPeers[scid], scid);
      DeliverRefinesFlat(s, s.scidPeers[scid], scid, Intercepted(htlc));
    }
  }

  lemma {:induction false} ByChannelIdRefinesFlat(s: Service, id: ChannelId, event: ChannelEvent)
    requires Sound(s)
    ensures Flat(AfterByChannelId(s, id, event)) ==
            FlatStep(Flat(s), if ByChannelId(s, id).Some? then Some((ByChannelId(s, id).value.1, event)) else None,
                     None)
  {
    if ByChannelId(s, id).Some? {
      var (peer, scid) := ByChannelId(s, id).value;
      KnownChannels(s, peer);
      DeliverRefinesFlat(s, peer, scid, event);
    }
  }

  lemma {:induction false} AnnouncedSameFlat(s: Service, userChannelId: UInt128, id: ChannelId, peer: PublicKey)
    ensures Flat(Announced(s, userChannelId, id, peer)) == Flat(s)
  {
    if peer in s.peers {
      SameFlat(s, Announced(s, userChannelId, id, peer), peer);
    }
  }

  lemma {:induction false} ReadyRefinesFlat(s: Service, userChannelId: UInt128, id: ChannelId, peer: PublicKey)
    requires Sound(s) && Fresh(s, ChannelReady(userChannelId, id, peer))
    ensures Flat(AfterReady(s, userChannelId, id, peer)) ==
            FlatStep(Flat(s), Addressed(s, ChannelReady(userChannelId, id, peer)), None)
  {
    var s' := Announced(s, userChannelId, id, peer);
    AnnouncedSameFlat(s, userChannelId, id, peer);
    AnnouncedKeepsSound(s, userChannelId, id, peer);
    var found := ByUserChannelId(s, peer, userChannelId);
    if found.Some? {
      KnownChannels(s', peer);
      DeliverRefinesFlat(s', peer, found.value, Ready(id));
    }
  }

  lemma {:induction false} RequestTakenSameFlat(s: Service, peer: PublicKey, id: RequestId)
    ensures Flat(RequestTaken(s, peer, id)) == Flat(s)
  {
    if peer in s.peers {
      SameFlat(s, RequestTaken(s, peer, id), peer);
    }
  }

  lemma {:induction false} InvoiceParametersRefinesFlat(s: Service, call: ServiceCall)
    requires Sound(s) && Fresh(s, call) && call.InvoiceParametersGenerated?
    ensures Flat(After(s, call)) == FlatStep(Flat(s), None, Created(s, call))
  {
    RequestTakenSound(s, call.peer, call.request);
    RequestTakenSameFlat(s, call.peer, call.request);
    var created := Created(s, call);
    if created.Some? {
      ChannelAddedFlat(RequestTaken(s, call.peer, call.request), call.peer, call.scid, call.userChannelId,
                       created.value.1.entry.terms);
    }
  }

  lemma {:induction false} RequestAddedSameFlat(s: Service, peer: PublicKey, id: RequestId, request: Request)
    ensures Flat(RequestAdded(s, peer, id, request)) == Flat(s)
  {
    SameFlat(s, RequestAdded(s, peer, id, request), peer);
  }

  lemma {:induction false} AnswerSameFlat(s: Service, peer: PublicKey, request: RequestId, response: Response)
    ensures Flat(AfterFeeAnswer(s, peer, request, response)) == Flat(s)
  {
    RequestTakenSameFlat(s, peer, request);
  }

  lemma {:induction false} GetInfoSameFlat(s: Service, peer: PublicKey, request: RequestId, token: Option<string>)
    ensures Flat(AfterGetInfo(s, peer, request, token)) == Flat(s)
  {
    RequestAddedSameFlat(s, peer, request, GetInfo(token));
  }

  lemma {:induction false} BuySameFlat(
    s: Service, peer: PublicKey, request: RequestId, terms: ChannelTerms, promiseValid: bool)
    ensures Flat(AfterBuy(s, peer, request, terms, promiseValid)) == Flat(s)
  {
    RequestAddedSameFlat(s, peer, request, Buy(terms.openingFeeParams, terms.paymentSizeMsat));
  }

  lemma {:induction false} FailuresRefineFlat(s: Service, call: ServiceCall)
    requires Sound(s) && (call.HtlcHandlingFailed? || call.PaymentForwarded?)
    ensures Flat(After(s, call)) == FlatStep(Flat(s), Addressed(s, call), None)
  {
    match call
    case HtlcHandlingFailed(id) =>
      if id.Some? {
        ByChannelIdRefinesFlat(s, id.value, HandlingFailed);
      }
    case PaymentForwarded(id) => ByChannelIdRefinesFlat(s, id, Succeeded);
  }

  lemma {:induction false} RequestsKeepFlat(s: Service, call: ServiceCall)
    requires AboutRequests(call) && !call.InvoiceParametersGenerated?
    ensures Flat(After(s, call)) == Flat(s)
  {
    match call
    case OpeningFeeParamsGenerated(peer, request, menu) => AnswerSameFlat(s, peer, request, GetInfoResult(menu));
    case InvalidTokenProvided(peer, request) =>
      AnswerSameFlat(s, peer, request, GetInfoError(ErrorOf(UNRECOGNIZED_OR_STALE_TOKEN)));
    case GetInfoRequested(peer, request, token) => GetInfoSameFlat(s, peer, request, token);
    case BuyRequested(peer, request, terms, valid) => BuySameFlat(s, peer, request, terms, valid);
  }

  lemma {:induction false} ChannelCallsRefineFlat(s: Service, call: ServiceCall)
    requires Sound(s) && Fresh(s, call) && !AboutRequests(call)
    ensures Flat(After(s, call)) == FlatStep(Flat(s), Addressed(s, call), None)
  {
    match call
    case HtlcIntercepted(scid, htlc) => InterceptRefinesFlat(s, scid, htlc);
    case HtlcHandlingFailed(_) => FailuresRefineFlat(s, call);
    case PaymentForwarded(_) => FailuresRefineFlat(s, call);
    case ChannelReady(user, id, peer) => ReadyRefinesFlat(s, user, id, peer);
  }

  /**
   The nested, cross-referencing maps refine one flat map: every call creates one channel, or lets the one
   addressed channel hear one event, or leaves all channels alone.
   */
  lemma {:induction false} CallsRefineFlatMap(s: Service, call: ServiceCall)
    requires Sound(s) && Fresh(s, call)
    ensures Flat(After(s, call)) == FlatStep(Flat(s), Addressed(s, call), Created(s, call))
  {
    if !AboutRequests(call) {
      ChannelCallsRefineFlat(s, call);
    } else if call.InvoiceParametersGenerated? {
      InvoiceParametersRefinesFlat(s, call);
    } else {
      RequestsKeepFlat(s, call);
    }
  }

  lemma {:induction false} UserIdLeads(state: Peer, userChannelId: UInt128, scid: UInt64)
    requires UserIdsLead(state.channels, state.scidByUserChannelId)
    ensures (userChannelId in state.scidByUserChannelId && state.scidByUserChannelId[userChannelId] == scid)
       <==> (scid in state.channels && state.channels[scid].userChannelId == userChannelId)
  {
    assert scid in state.channels || scid !in state.channels;
    assert userChannelId in state.scidByUserChannelId || userChannelId !in state.scidByUserChannelId;
  }

  lemma {:induction false} ChannelIdLeads(s: Service, peer: PublicKey, scid: UInt64)
    requires Indexed(s) && peer in s.peers && StateSound(s.peers[peer]) && scid in s.peers[peer].channels
    ensures var id := ChannelIdOf(s.peers[peer].channels[scid].life.view);
            id.Some? ==> ByChannelId(s, id.value) == Some((peer, scid))
  {
    var id := ChannelIdOf(s.peers[peer].channels[scid].life.view);
    if id.Some? {
      assert id.value in s.peers[peer].scidByChannelId;
    }
  }

  /** A user channel id leads to the channel of that peer which bears it, and to no other. */
  lemma {:induction false} ReadyAddresses(
    s: Service, userChannelId: UInt128, id: ChannelId, peer: PublicKey, scid: UInt64)
    requires Sound(s)
    ensures Addressed(s, ChannelReady(userChannelId, id, peer)) == Some((scid, Ready(id))) <==>
            scid in Flat(s) && Flat(s)[scid].peer == peer && Flat(s)[scid].entry.userChannelId == userChannelId
  {
    FlatIs(s, peer, scid);
    if peer in s.peers {
      assert StateSound(s.peers[peer]);
      UserIdLeads(s.peers[peer], userChannelId, scid);
    }
  }

  /** Every channel is reached by its scid and by its user channel id. */
  lemma {:induction false} IndexesLeadToChannels(s: Service, scid: UInt64, htlc: InterceptedHTLC, id: ChannelId)
    requires Sound(s) && scid in Flat(s)
    ensures var Owned(peer, entry) := Flat(s)[scid];
            && Addressed(s, HtlcIntercepted(scid, htlc)) == Some((scid, Intercepted(htlc)))
            && Addressed(s, ChannelReady(entry.userChannelId, id, peer)) == Some((scid, Ready(id)))
  {
    FlatIs(s, Flat(s)[scid].peer, scid);
    ReadyAddresses(s, Flat(s)[scid].entry.userChannelId, id, Flat(s)[scid].peer, scid);
  }

  /** Once a channel is ready, it is reached by its channel id. */
  lemma {:induction false} ChannelIdLeadsToChannel(s: Service, scid: UInt64, id: ChannelId)
    requires Sound(s) && scid in Flat(s) && ChannelIdOf(Flat(s)[scid].entry.life.view) == Some(id)
    ensures Addressed(s, ServiceCall.PaymentForwarded(id)) == Some((scid, Succeeded))
    ensures Addressed(s, HtlcHandlingFailed(Some(id))) == Some((scid, HandlingFailed))
  {
    FlatIs(s, Flat(s)[scid].peer, scid);
    ChannelIdLeads(s, Flat(s)[scid].peer, scid);
  }

  lemma {:induction false} AcceptedPurchasePends(
    s: Service, peer: PublicKey, request: RequestId, terms: ChannelTerms, userChannelId: UInt128)
    requires AnswerToBuy(terms, true) == Accepted
    ensures var bought := AfterBuy(s, peer, request, terms, true);
            && PendingRequest(bought, peer, request) == Some(Buy(terms.openingFeeParams, terms.paymentSizeMsat))
            && bought.scidPeers == s.scidPeers
            && ByUserChannelId(bought, peer, userChannelId) == ByUserChannelId(s, peer, userChannelId)
  {
  }

  lemma {:induction false} PendingPurchaseCreates(s: Service, call: ServiceCall, terms: ChannelTerms)
    requires Sound(s) && Fresh(s, call) && call.InvoiceParametersGenerated?
    requires PendingRequest(s, call.peer, call.request) == Some(Buy(terms.openingFeeParams, terms.paymentSizeMsat))
    ensures Flat(After(s, call)) == Flat(s)[call.scid := Owned(call.peer, Entry(call.userChannelId, terms, NEWBORN))]
  {
    InvoiceParametersRefinesFlat(s, call);
  }

  /** An accepted purchase that is given fresh ids becomes one new channel, with the terms that were bought. */
  lemma {:induction false} PurchaseCreatesChannel(
    s: Service, peer: PublicKey, request: RequestId, terms: ChannelTerms, scid: UInt64, cltvExpiryDelta: UInt32,
    clientTrustsLsp: bool, userChannelId: UInt128)
    requires Sound(s) && AnswerToBuy(terms, true) == Accepted
    requires scid !in s.scidPeers && ByUserChannelId(s, peer, userChannelId).None?
    ensures var bought := AfterBuy(s, peer, request, terms, true);
            Flat(AfterInvoiceParameters(bought, peer, request, scid, cltvExpiryDelta, clientTrustsLsp, userChannelId))
            == Flat(s)[scid := Owned(peer, Entry(userChannelId, terms, NEWBORN))]
  {
    AfterSound(s, BuyRequested(peer, request, terms, true));
    AcceptedPurchasePends(s, peer, request, terms, userChannelId);
    BuySameFlat(s, peer, request, terms, true);
    PendingPurchaseCreates(
      AfterBuy(s, peer, request, terms, true),
      InvoiceParametersGenerated(peer, request, scid, cltvExpiryDelta, clientTrustsLsp, userChannelId), terms);
  }

  // ---- When the calls fail ----

  /** The one reason why an admitted channel refuses an HTLC. */
  lemma {:induction false} RefusedIff(entry: Entry, htlc: InterceptedHTLC)
    requires Reached(entry) && Admitted(entry.terms) && !entry.life.removed
    ensures AnswerOf(entry, Intercepted(htlc)).1.Refused? <==>
            && entry.terms.paymentSizeMsat.None?
            && entry.life.view.PendingInitialPayment?
            && !PaysForItself(entry.terms, htlc.expectedOutboundAmountMsat)
  {
    var events :| entry.life == Live(entry.terms, events);
    PayableIff(entry.terms.openingFeeParams, htlc.expectedOutboundAmountMsat);
    if entry.terms.paymentSizeMsat.Some? {
      FixedSizeNeverRefuses(entry.terms, events);
      assert AnswerOf(entry, Intercepted(htlc)) == OnIntercepted(entry.terms, entry.life.view, htlc);
    } else if entry.life.view.PendingInitialPayment? {
      VariableSizeQueueEmpty(entry.terms, events, htlc);
      AddedGroup([], htlc, htlc.paymentHash);
      TotalSnoc([], htlc);
      assert Group(Added([], htlc), htlc.paymentHash) == [htlc] == [] + [htlc];
    }
  }

  /** Terms that the LSP issued can be bought until they expire, for any size that is payable under them. */
  lemma {:induction false} IssuedTermsCanBeBought(
    raw: RawOpeningFeeParams, size: Option<UInt64>, secret: seq<Byte>, now: nat, mac: Mac, dateText: DateText)
    ensures var params := Minted(raw, secret, mac, dateText);
            var terms := ChannelTerms(params, size);
            AnswerToBuy(terms, ValidParams(params, secret, now, mac, dateText)) == Accepted <==>
            && now <= raw.validUntil.seconds
            && (size.Some? ==> PaysForItself(terms, size.value))
  {
    if size.Some? {
      PayableIff(Minted(raw, secret, mac, dateText), size.value);
    }
    MintedValidUntilExpiry(raw, secret, now, mac, dateText);
    BuyAdmits(ChannelTerms(Minted(raw, secret, mac, dateText), size),
              ValidParams(Minted(raw, secret, mac, dateText), secret, now, mac, dateText));
  }

  lemma {:induction false} EntrySound(s: Service, scid: UInt64)
    requires Sound(s) && scid in Flat(s)
    ensures Reached(Flat(s)[scid].entry) && Admitted(Flat(s)[scid].entry.terms)
  {
    assert StateSound(s.peers[Flat(s)[scid].peer]);
  }

  lemma {:induction false} RefusesInFlat(s: Service, scid: UInt64, event: ChannelEvent)
    requires Indexed(s) && scid in s.scidPeers
    ensures s.scidPeers[scid] in s.peers
    ensures Refuses(s, s.scidPeers[scid], scid, event) <==>
            && scid in Flat(s) && !Flat(s)[scid].entry.life.removed
            && AnswerOf(Flat(s)[scid].entry, event).1.Refused?
  {
    FlatIs(s, s.scidPeers[scid], scid);
  }

  /**
   An intercept fails exactly when a variable amount that does not pay for itself reaches a channel that is
   yet to be opened. In particular a known scid always has peer state, and channels bought for a fixed size
   never fail.
   */
  lemma {:induction false} InterceptFailsIff(s: Service, scid: UInt64, htlc: InterceptedHTLC)
    requires Sound(s)
    ensures InterceptFails(s, scid, htlc) <==>
            && scid in Flat(s)
            && var entry := Flat(s)[scid].entry;
               && !entry.life.removed
               && entry.terms.paymentSizeMsat.None?
               && entry.life.view.PendingInitialPayment?
               && !PaysForItself(entry.terms, htlc.expectedOutboundAmountMsat)
  {
    if scid in s.scidPeers {
      RefusesInFlat(s, scid, Intercepted(htlc));
      FlatIs(s, s.scidPeers[scid], scid);
      if scid in Flat(s) && !Flat(s)[scid].entry.life.removed {
        EntrySound(s, scid);
        RefusedIff(Flat(s)[scid].entry, htlc);
      }
    } else {
      FlatIs(s, PublicKey([]), scid);
    }
  }

  lemma {:induction false} ReadyRefusedIff(entry: Entry, id: ChannelId)
    requires Reached(entry)
    ensures AnswerOf(entry, Ready(id)).1.Refused? <==> !entry.life.view.PendingChannelOpen?
  {
    var events :| entry.life == Live(entry.terms, events);
    if entry.life.view.PendingChannelOpen? {
      ReadyAlwaysForwards(entry.terms, events, id);
    }
  }

  /** `channel_ready` fails exactly when no live channel of that peer and user channel id is being opened. */
  lemma {:induction false} ReadyFailsIff(
    s: Service, userChannelId: UInt128, id: ChannelId, peer: PublicKey, scid: UInt64)
    requires Sound(s) && scid in Flat(s)
    requires Flat(s)[scid].peer == peer && Flat(s)[scid].entry.userChannelId == userChannelId
    ensures ReadyFails(s, userChannelId, id, peer) <==>
            Flat(s)[scid].entry.life.removed || !Flat(s)[scid].entry.life.view.PendingChannelOpen?
  {
    ReadyAddresses(s, userChannelId, id, peer, scid);
    assert ByUserChannelId(s, peer, userChannelId) == Some(scid);
    FlatIs(s, peer, scid);
    EntrySound(s, scid);
    ReadyRefusedIff(Flat(s)[scid].entry, id);
  }

  lemma {:induction false} RefusesAddressed(s: Service, id: ChannelId, scid: UInt64, event: ChannelEvent)
    requires Sound(s) && ByChannelId(s, id).Some? && ByChannelId(s, id).value.1 == scid
    ensures scid in Flat(s)
    ensures Refuses(s, ByChannelId(s, id).value.0, scid, event) <==>
            !Flat(s)[scid].entry.life.removed && AnswerOf(Flat(s)[scid].entry, event).1.Refused?
  {
    var peer := ByChannelId(s, id).value.0;
    KnownChannels(s, peer);
    FlatIs(s, peer, scid);
    RefusesInFlat(s, scid, event);
  }

  lemma {:induction false} RefusedOutsideReady(terms: ChannelTerms, view: ChannelView)
    ensures OnEvent(terms, view, Succeeded).1.Refused? <==> !view.PendingPaymentForward? && !view.PaymentForwarded?
    ensures OnEvent(terms, view, HandlingFailed).1.Refused? <==> ChannelIdOf(view).None?
  {
  }

  /** An id that leads to no channel: `payment_forwarded` fails exactly if it was announced, the other call never. */
  lemma {:induction false} LostIdFailsIff(s: Service, id: ChannelId)
    requires Addressed(s, ServiceCall.PaymentForwarded(id)).None?
    ensures SucceededFails(s, id) <==> id in s.channelPeers
    ensures !HandlingFailedFails(s, id)
  {
  }

  /**
   An id that leads to a channel: `payment_forwarded` fails exactly if it is live with no payment in flight and none
   forwarded, `htlc_handling_failed` exactly if it is live and not ready.
   */
  lemma {:induction false} ChannelIdFailsIff(s: Service, id: ChannelId, scid: UInt64)
    requires Sound(s) && Addressed(s, ServiceCall.PaymentForwarded(id)) == Some((scid, Succeeded))
    ensures scid in Flat(s)
    ensures var life := Flat(s)[scid].entry.life;
            && (SucceededFails(s, id) <==>
                  !life.removed && !life.view.PendingPaymentForward? && !life.view.PaymentForwarded?)
            && (HandlingFailedFails(s, id) <==> !life.removed && ChannelIdOf(life.view).None?)
  {
    RefusesAddressed(s, id, scid, Succeeded);
    RefusesAddressed(s, id, scid, HandlingFailed);
    RefusedOutsideReady(Flat(s)[scid].entry.terms, Flat(s)[scid].entry.life.view);
  }

  // ---- Conservation ----

  /** What the channel that hears an event hands to the channel manager. */
  function HandedOver(flat: map<UInt64, Owned>, addressed: Option<(UInt64, ChannelEvent)>): seq<ManagerCall> {
    if addressed.Some? && addressed.value.0 in flat && !flat[addressed.value.0].entry.life.removed then
      var Owned(peer, entry) := flat[addressed.value.0];
      Calls(peer, addressed.value.1, AnswerOf(entry, addressed.value.1).1)
    else []
  }

  /** What the channel that hears an event asks of the LSP. */
  function Asked(flat: map<UInt64, Owned>, addressed: Option<(UInt64, ChannelEvent)>): seq<ServiceEvent> {
    if addressed.Some? && addressed.value.0 in flat && !flat[addressed.value.0].entry.life.removed then
      var Owned(peer, entry) := flat[addressed.value.0];
      OpenEvents(peer, addressed.value.0, entry.userChannelId, AnswerOf(entry, addressed.value.1).1)
    else []
  }

  lemma {:induction false} DeliverHandsOver(s: Service, peer: PublicKey, scid: UInt64, event: ChannelEvent)
    requires Indexed(s) && Known(s.peers, peer, scid)
    ensures Deliver(s, peer, scid, event).calls == s.calls + HandedOver(Flat(s), Some((scid, event)))
    ensures Deliver(s, peer, scid, event).events == s.events + Asked(Flat(s), Some((scid, event)))
  {
    FlatIs(s, peer, scid);
  }

  lemma {:induction false} ReadyDelivers(
    s: Service, userChannelId: UInt128, id: ChannelId, peer: PublicKey, scid: UInt64)
    requires ByUserChannelId(s, peer, userChannelId) == Some(scid)
    ensures var s' := Announced(s, userChannelId, id, peer);
            && AfterReady(s, userChannelId, id, peer) == Deliver(s', peer, scid, Ready(id))
            && s'.calls == s.calls && s'.events == s.events
    ensures Addressed(s, ChannelReady(userChannelId, id, peer)) == Some((scid, Ready(id)))
  {
  }

  lemma {:induction false} ReadyHandsOver(
    s: Service, userChannelId: UInt128, id: ChannelId, peer: PublicKey, scid: UInt64)
    requires Sound(s) && Fresh(s, ChannelReady(userChannelId, id, peer))
    requires ByUserChannelId(s, peer, userChannelId) == Some(scid)
    ensures AfterReady(s, userChannelId, id, peer).calls ==
            s.calls + HandedOver(Flat(s), Addressed(s, ChannelReady(userChannelId, id, peer)))
    ensures AfterReady(s, userChannelId, id, peer).events ==
            s.events + Asked(Flat(s), Addressed(s, ChannelReady(userChannelId, id, peer)))
  {
    var s' := Announced(s, userChannelId, id, peer);
    AnnouncedSameFlat(s, userChannelId, id, peer);
    AnnouncedKeepsSound(s, userChannelId, id, peer);
    KnownChannels(s', peer);
    DeliverHandsOver(s', peer, scid, Ready(id));
    ReadyDelivers(s, userChannelId, id, peer, scid);
  }

  lemma {:induction false} ByChannelIdHandsOver(s: Service, id: ChannelId, event: ChannelEvent)
    requires Sound(s)
    ensures AfterByChannelId(s, id, event).calls == s.calls +
            HandedOver(Flat(s), if ByChannelId(s, id).Some? then Some((ByChannelId(s, id).value.1, event)) else None)
    ensures AfterByChannelId(s, id, event).events == s.events +
            Asked(Flat(s), if ByChannelId(s, id).Some? then Some((ByChannelId(s, id).value.1, event)) else None)
  {
    if ByChannelId(s, id).Some? {
      var (peer, scid) := ByChannelId(s, id).value;
      KnownChannels(s, peer);
      DeliverHandsOver(s, peer, scid, event);
    }
  }

  lemma {:induction false} InterceptHandsOver(s: Service, scid: UInt64, htlc: InterceptedHTLC)
    requires Sound(s)
    ensures AfterIntercepted(s, scid, htlc).calls ==
            s.calls + HandedOver(Flat(s), Addressed(s, HtlcIntercepted(scid, htlc)))
    ensures AfterIntercepted(s, scid, htlc).events ==
            s.events + Asked(Flat(s), Addressed(s, HtlcIntercepted(scid, htlc)))
  {
    if scid in s.scidPeers {
      FlatIs(s, s.scidPeers[scid], scid);
      DeliverHandsOver(s, s.scidPeers[scid], scid, Intercepted(htlc));
    }
  }

  lemma {:induction false} RequestsHandNothingOver(s: Service, call: ServiceCall)
    requires AboutRequests(call)
    ensures After(s, call).calls == s.calls
    ensures Addressed(s, call).None?
  {
  }

  lemma {:induction false} FailuresHandOver(s: Service, call: ServiceCall)
    requires Sound(s) && (call.HtlcHandlingFailed? || call.PaymentForwarded?)
    ensures After(s, call).calls == s.calls + HandedOver(Flat(s), Addressed(s, call))
    ensures After(s, call).events == s.events + Asked(Flat(s), Addressed(s, call))
  {
    match call
    case HtlcHandlingFailed(id) =>
      if id.Some? {
        ByChannelIdHandsOver(s, id.value, HandlingFailed);
      }
    case PaymentForwarded(id) => ByChannelIdHandsOver(s, id, Succeeded);
  }

  lemma {:induction false} AnnouncementOnly(s: Service, userChannelId: UInt128, id: ChannelId, peer: PublicKey)
    requires ByUserChannelId(s, peer, userChannelId).None?
    ensures AfterReady(s, userChannelId, id, peer).calls == s.calls
    ensures AfterReady(s, userChannelId, id, peer).events == s.events
    ensures Addressed(s, ChannelReady(userChannelId, id, peer)).None?
  {
  }

  lemma {:induction false} AnnouncementHandsOver(
    s: Service, userChannelId: UInt128, id: ChannelId, peer: PublicKey)
    requires Sound(s) && Fresh(s, ChannelReady(userChannelId, id, peer))
    ensures AfterReady(s, userChannelId, id, peer).calls ==
            s.calls + HandedOver(Flat(s), Addressed(s, ChannelReady(userChannelId, id, peer)))
    ensures AfterReady(s, userChannelId, id, peer).events ==
            s.events + Asked(Flat(s), Addressed(s, ChannelReady(userChannelId, id, peer)))
  {
    if ByUserChannelId(s, peer, userChannelId).None? {
      AnnouncementOnly(s, userChannelId, id, peer);
    } else {
      ReadyHandsOver(s, userChannelId, id, peer, ByUserChannelId(s, peer, userChannelId).value);
    }
  }

  /** Only the addressed channel hands anything over. */
  lemma {:induction false} CallsHandOver(s: Service, call: ServiceCall)
    requires Sound(s) && Fresh(s, call)
    ensures After(s, call).calls == s.calls + HandedOver(Flat(s), Addressed(s, call))
  {
    match call
    case HtlcIntercepted(scid, htlc) => InterceptHandsOver(s, scid, htlc);
    case HtlcHandlingFailed(_) => FailuresHandOver(s, call);
    case PaymentForwarded(_) => FailuresHandOver(s, call);
    case ChannelReady(userChannelId, id, peer) => AnnouncementHandsOver(s, userChannelId, id, peer);
    case _ => RequestsHandNothingOver(s, call);
  }

  /** How often the LSP was asked to open the channel with this scid. */
  function OpensFor(events: seq<ServiceEvent>, scid: UInt64): nat {
    if events == [] then 0
    else
      var last := events[|events| - 1];
      OpensFor(events[..|events| - 1], scid) + if last.OpenChannelEvent? && last.interceptScid == scid then 1 else 0
  }

  lemma {:induction false} OpensForSnoc(events: seq<ServiceEvent>, event: ServiceEvent, scid: UInt64)
    ensures OpensFor(events + [event], scid) ==
            OpensFor(events, scid) + if event.OpenChannelEvent? && event.interceptScid == scid then 1 else 0
  {
    assert (events + [event])[..|events|] == events;
  }

  lemma {:induction false} RequestsAskNothing(s: Service, call: ServiceCall, scid: UInt64)
    requires AboutRequests(call)
    ensures OpensFor(After(s, call).events, scid) == OpensFor(s.events, scid)
  {
    if call.GetInfoRequested? {
      OpensForSnoc(s.events, GetInfoEvent(call.request, call.peer, call.token), scid);
    } else if call.BuyRequested? && AnswerToBuy(call.terms, call.promiseValid) == Accepted {
      OpensForSnoc(s.events, BuyRequestEvent(call.request, call.peer, call.terms), scid);
    }
  }

  lemma {:induction false} ChannelsAsk(s: Service, call: ServiceCall)
    requires Sound(s) && Fresh(s, call)
    requires !AboutRequests(call)
    ensures After(s, call).events == s.events + Asked(Flat(s), Addressed(s, call))
  {
    match call
    case HtlcIntercepted(scid, htlc) => InterceptHandsOver(s, scid, htlc);
    case HtlcHandlingFailed(_) => FailuresHandOver(s, call);
    case PaymentForwarded(_) => FailuresHandOver(s, call);
    case ChannelReady(userChannelId, id, peer) => AnnouncementHandsOver(s, userChannelId, id, peer);
  }

  /** The openings that the LSP was asked for are those that the channels' own histories record. */
  ghost predicate OpensRecorded(events: seq<ServiceEvent>, flat: map<UInt64, Owned>, scid: UInt64) {
    OpensFor(events, scid) == if scid in flat then Opens(flat[scid].entry.life.log) else 0
  }

  lemma {:induction false} HearingRecordsOpen(owned: Owned, event: ChannelEvent)
    requires !owned.entry.life.removed
    ensures Opens(Heard(owned, event).entry.life.log) ==
            Opens(owned.entry.life.log) + if AnswerOf(owned.entry, event).1.OpenChannel? then 1 else 0
  {
    var (view, action) := AnswerOf(owned.entry, event);
    CountsSnoc(owned.entry.life.log, Handled(event, action));
  }

  lemma {:induction false} AskingRecords(
    events: seq<ServiceEvent>, flat: map<UInt64, Owned>, addressed: Option<(UInt64, ChannelEvent)>, scid: UInt64)
    requires OpensRecorded(events, flat, scid)
    ensures OpensRecorded(events + Asked(flat, addressed), FlatStep(flat, addressed, None), scid)
  {
    var asked := Asked(flat, addressed);
    if asked == [] {
      assert events + asked == events;
    } else {
      assert asked == [asked[0]];
      OpensForSnoc(events, asked[0], scid);
    }
    if addressed.Some? && addressed.value.0 in flat && !flat[addressed.value.0].entry.life.removed {
      HearingRecordsOpen(flat[addressed.value.0], addressed.value.1);
    }
  }

  lemma {:induction false} RunRecordsOpens(calls: seq<ServiceCall>, scid: UInt64)
    requires FreshRun(calls)
    ensures OpensRecorded(Run(calls).events, Flat(Run(calls)), scid)
  {
    if calls != [] {
      var init, last := calls[..|calls| - 1], calls[|calls| - 1];
      var s := Run(init);
      RunRecordsOpens(init, scid);
      RunSound(init);
      CallsRefineFlatMap(s, last);
      if !AboutRequests(last) {
        ChannelsAsk(s, last);
        AskingRecords(s.events, Flat(s), Addressed(s, last), scid);
      } else {
        RequestsAskNothing(s, last, scid);
        NewcomerIsNew(s, last);
      }
    }
  }

  lemma {:induction false} NewcomerIsNew(s: Service, call: ServiceCall)
    requires Sound(s) && Fresh(s, call)
    ensures Created(s, call).Some? ==> Created(s, call).value.0 !in Flat(s)
    ensures Created(s, call).Some? ==> Created(s, call).value.1.entry.life == NEWBORN
  {
    if Created(s, call).Some? {
      FlatIs(s, call.peer, call.scid);
    }
  }

  /** Over every run the LSP is asked at most once to open a channel, and only for a channel that was bought. */
  lemma {:induction false} EveryChannelOpenedOnce(calls: seq<ServiceCall>, scid: UInt64)
    requires FreshRun(calls)
    ensures OpensFor(Run(calls).events, scid) ==
            if scid in Flat(Run(calls)) && !Flat(Run(calls))[scid].entry.life.view.PendingInitialPayment? then 1 else 0
  {
    RunRecordsOpens(calls, scid);
    RunSound(calls);
    if scid in Flat(Run(calls)) {
      EntrySound(Run(calls), scid);
      var entry := Flat(Run(calls))[scid].entry;
      var events :| entry.life == Live(entry.terms, events);
      OpensOnce(entry.terms, events);
    }
  }

  /** The scids of the channels created so far, oldest first. */
  function CreatedScids(calls: seq<ServiceCall>): seq<UInt64> {
    if calls == [] then []
    else
      var created := Created(Run(calls[..|calls| - 1]), calls[|calls| - 1]);
      CreatedScids(calls[..|calls| - 1]) + if created.Some? then [created.value.0] else []
  }

  function HeldAt(flat: map<UInt64, Owned>, scid: UInt64): multiset<InterceptId> {
    if scid in flat then HeldIds(flat[scid].entry.life) else multiset{}
  }

  /** The HTLCs held by the listed channels. */
  function AllHeld(flat: map<UInt64, Owned>, scids: seq<UInt64>): multiset<InterceptId> {
    if scids == [] then multiset{}
    else AllHeld(flat, scids[..|scids| - 1]) + HeldAt(flat, scids[|scids| - 1])
  }

  /** The id of the HTLC that a call delivers to a live channel. */
  function DeliveredBy(flat: map<UInt64, Owned>, addressed: Option<(UInt64, ChannelEvent)>): multiset<InterceptId> {
    if addressed.Some? && addressed.value.0 in flat && !flat[addressed.value.0].entry.life.removed
    then Entering(addressed.value.1) else multiset{}
  }

  /** The ids of all HTLCs ever delivered to a live channel. */
  function AllDelivered(calls: seq<ServiceCall>): multiset<InterceptId> {
    if calls == [] then multiset{}
    else
      var s := Run(calls[..|calls| - 1]);
      AllDelivered(calls[..|calls| - 1]) + DeliveredBy(Flat(s), Addressed(s, calls[|calls| - 1]))
  }

  predicate NoRepeats(scids: seq<UInt64>) {
    forall i, j :: 0 <= i < j < |scids| ==> scids[i] != scids[j]
  }

  lemma {:induction false} HeldWithout(flat: map<UInt64, Owned>, scids: seq<UInt64>, scid: UInt64, owned: Owned)
    requires scid !in scids
    ensures AllHeld(flat[scid := owned], scids) == AllHeld(flat, scids)
  {
    if scids != [] {
      var n := |scids| - 1;
      HeldWithout(flat, scids[..n], scid, owned);
      assert HeldAt(flat[scid := owned], scids[n]) == HeldAt(flat, scids[n]);
    }
  }

  lemma {:induction false} Trade<T>(
    rest: multiset<T>, rest': multiset<T>, other: multiset<T>, was: multiset<T>, now: multiset<T>)
    requires rest' + was == rest + now
    ensures (rest' + other) + was == (rest + other) + now
  {
    assert (rest' + other) + was == (rest' + was) + other;
    assert (rest + other) + now == (rest + now) + other;
  }

  lemma {:induction false} Swap<T>(rest: multiset<T>, was: multiset<T>, now: multiset<T>)
    ensures (rest + now) + was == (rest + was) + now
  {
  }

  /** Replacing one channel trades what it held for what it holds. */
  lemma {:induction false} HeldTrade(flat: map<UInt64, Owned>, scids: seq<UInt64>, scid: UInt64, owned: Owned)
    requires NoRepeats(scids) && scid in scids && scid in flat
    ensures AllHeld(flat[scid := owned], scids) + HeldAt(flat, scid) ==
            AllHeld(flat, scids) + HeldAt(flat[scid := owned], scid)
  {
    var init, last := scids[..|scids| - 1], scids[|scids| - 1];
    if last == scid {
      HeldWithout(flat, init, scid, owned);
      Swap(AllHeld(flat, init), HeldAt(flat, scid), HeldAt(flat[scid := owned], scid));
    } else {
      OthersUntouched(flat, scid, owned, last);
      HeldTrade(flat, init, scid, owned);
      Trade(AllHeld(flat, init), AllHeld(flat[scid := owned], init), HeldAt(flat, last), HeldAt(flat, scid),
            HeldAt(flat[scid := owned], scid));
    }
  }

  lemma {:induction false} OthersUntouched(flat: map<UInt64, Owned>, scid: UInt64, owned: Owned, other: UInt64)
    requires other != scid
    ensures HeldAt(flat[scid := owned], other) == HeldAt(flat, other)
  {
  }

  /** A live channel's step balances: what it held and takes in, it holds or hands over. */
  lemma {:induction false} ChannelBalances(owned: Owned, event: ChannelEvent)
    requires Reached(owned.entry) && !owned.entry.life.removed
    ensures HeldIds(owned.entry.life) + Entering(event) ==
            HeldIds(Heard(owned, event).entry.life)
            + Handed(owned.peer, event, AnswerOf(owned.entry, event).1)
  {
    var entry := owned.entry;
    var events :| entry.life == Live(entry.terms, events);
    LiveInv(entry.terms, events);
    var (view, action) := AnswerOf(entry, event);
    StepConserves(entry.terms, owned.peer, entry.life.view, event, view, action);
  }

  /** The balance of one step, over all channels. */
  lemma {:induction false} StepBalancesAll(
    flat: map<UInt64, Owned>, scids: seq<UInt64>, addressed: Option<(UInt64, ChannelEvent)>)
    requires NoRepeats(scids) && forall k :: k in flat ==> k in scids && Reached(flat[k].entry)
    ensures AllHeld(flat, scids) + DeliveredBy(flat, addressed) ==
            AllHeld(FlatStep(flat, addressed, None), scids) + multiset(CallIds(HandedOver(flat, addressed)))
  {
    if addressed.Some? && addressed.value.0 in flat {
      var (scid, event) := addressed.value;
      var owned := flat[scid];
      if owned.entry.life.removed {
        assert flat[scid := Heard(owned, event)] == flat;
        assert CallIds([]) == [];
      } else {
        ChannelBalances(owned, event);
        HeldTrade(flat, scids, scid, Heard(owned, event));
        Rebalance(AllHeld(flat, scids), AllHeld(flat[scid := Heard(owned, event)], scids), HeldIds(owned.entry.life),
                  HeldIds(Heard(owned, event).entry.life), Entering(event),
                  Handed(owned.peer, event, AnswerOf(owned.entry, event).1));
      }
    } else {
      assert CallIds([]) == [];
    }
  }

  lemma {:induction false} Rebalance<T>(
    all: multiset<T>, all': multiset<T>, held: multiset<T>, held': multiset<T>, entering: multiset<T>,
    handed: multiset<T>)
    requires all' + held == all + held'
    requires held + entering == held' + handed
    ensures all + entering == all' + handed
  {
    forall x
      ensures (all + entering)[x] == (all' + handed)[x]
    {
      assert (all' + held)[x] == (all + held')[x];
      assert (held + entering)[x] == (held' + handed)[x];
    }
  }

  lemma {:induction false} FlatSound(s: Service)
    requires Sound(s)
    ensures forall k :: k in Flat(s) ==> Reached(Flat(s)[k].entry)
  {
    forall k | k in Flat(s)
      ensures Reached(Flat(s)[k].entry)
    {
      EntrySound(s, k);
    }
  }

  /** The channels created are those of the flat map, each created once. */
  lemma {:induction false} CreatedAreFlat(calls: seq<ServiceCall>)
    requires FreshRun(calls)
    ensures NoRepeats(CreatedScids(calls))
    ensures forall k :: k in CreatedScids(calls) <==> k in Flat(Run(calls))
  {
    if calls != [] {
      var init, last := calls[..|calls| - 1], calls[|calls| - 1];
      var s := Run(init);
      CreatedAreFlat(init);
      RunSound(init);
      CallsRefineFlatMap(s, last);
      if Created(s, last).Some? {
        FlatIs(s, last.peer, last.scid);
      }
    }
  }

  ghost predicate AllConserved(calls: seq<ServiceCall>) {
    AllHeld(Flat(Run(calls)), CreatedScids(calls)) + multiset(CallIds(Run(calls).calls)) == AllDelivered(calls)
  }

  lemma {:induction false} CreationConserves(flat: map<UInt64, Owned>, scids: seq<UInt64>, scid: UInt64, owned: Owned)
    requires scid !in scids && owned.entry.life == NEWBORN
    ensures AllHeld(flat[scid := owned], scids + [scid]) == AllHeld(flat, scids)
  {
    assert (scids + [scid])[..|scids|] == scids;
    HeldWithout(flat, scids, scid, owned);
    EmptyQueue();
  }

  lemma {:induction false} SumStep<T>(
    held: multiset<T>, handed: multiset<T>, delivered: multiset<T>, entering: multiset<T>, held': multiset<T>,
    handing: multiset<T>)
    requires held + handed == delivered
    requires held + entering == held' + handing
    ensures held' + (handed + handing) == delivered + entering
  {
    BalanceSum(held, handed, entering, handing, held');
  }

  lemma {:induction false} StepConservesAll(
    flat: map<UInt64, Owned>, scids: seq<UInt64>, addressed: Option<(UInt64, ChannelEvent)>,
    created: Option<(UInt64, Owned)>)
    requires NoRepeats(scids) && forall k :: k in flat ==> k in scids && Reached(flat[k].entry)
    requires created.Some? ==> addressed.None? && created.value.0 !in scids && created.value.1.entry.life == NEWBORN
    ensures AllHeld(flat, scids) + DeliveredBy(flat, addressed) ==
            AllHeld(FlatStep(flat, addressed, created), scids + if created.Some? then [created.value.0] else [])
            + multiset(CallIds(HandedOver(flat, addressed)))
  {
    if created.Some? {
      CreationConserves(flat, scids, created.value.0, created.value.1);
      assert CallIds([]) == [];
    } else {
      StepBalancesAll(flat, scids, addressed);
      assert scids + [] == scids;
    }
  }

  /**
   Over every run of the service: the HTLCs delivered to live channels are those that some channel holds
   together with those handed to the channel manager, each as often as it was delivered.
   */
  lemma {:induction false} ServiceConserves(calls: seq<ServiceCall>)
    requires FreshRun(calls)
    ensures AllConserved(calls)
  {
    if calls == [] {
      assert CallIds([]) == [];
    } else {
      var init, last := calls[..|calls| - 1], calls[|calls| - 1];
      var s := Run(init);
      ServiceConserves(init);
      RunSound(init);
      CreatedAreFlat(init);
      FlatSound(s);
      NewScid(s, last, CreatedScids(init));
      StepConservesAll(Flat(s), CreatedScids(init), Addressed(s, last), Created(s, last));
      CallsRefineFlatMap(s, last);
      CallsHandOver(s, last);
      CallIdsConcat(s.calls, HandedOver(Flat(s), Addressed(s, last)));
      SumStep(AllHeld(Flat(s), CreatedScids(init)), multiset(CallIds(s.calls)), AllDelivered(init),
              DeliveredBy(Flat(s), Addressed(s, last)), AllHeld(Flat(Run(calls)), CreatedScids(calls)),
              multiset(CallIds(HandedOver(Flat(s), Addressed(s, last)))));
    }
  }

  lemma {:induction false} NewScid(s: Service, call: ServiceCall, scids: seq<UInt64>)
    requires Sound(s) && Fresh(s, call) && forall k :: k in scids <==> k in Flat(s)
    ensures var created := Created(s, call);
            created.Some? ==>
              && Addressed(s, call).None? && created.value.0 !in scids && created.value.1.entry.life == NEWBORN
  {
    if Created(s, call).Some? {
      FlatIs(s, call.peer, call.scid);
    }
  }

  /** No two intercepts of the run carry the same id. */
  predicate FreshIntercepts(calls: seq<ServiceCall>) {
    forall i, j :: 0 <= i < j < |calls| && calls[i].HtlcIntercepted? && calls[j].HtlcIntercepted? ==>
      calls[i].htlc.interceptId != calls[j].htlc.interceptId
  }

  lemma {:induction false} DeliveredOnce(calls: seq<ServiceCall>, id: InterceptId)
    requires FreshIntercepts(calls)
    ensures AllDelivered(calls)[id] <= 1
    ensures id in AllDelivered(calls) ==>
              exists i :: 0 <= i < |calls| && calls[i].HtlcIntercepted? && calls[i].htlc.interceptId == id
  {
    if calls != [] {
      var n := |calls| - 1;
      DeliveredOnce(calls[..n], id);
      var s := Run(calls[..n]);
      OnlyInterceptsDeliver(Flat(s), s, calls[n]);
    }
  }

  lemma {:induction false} OnlyInterceptsDeliver(flat: map<UInt64, Owned>, s: Service, call: ServiceCall)
    ensures var delivered := DeliveredBy(flat, Addressed(s, call));
            delivered == multiset{} || (call.HtlcIntercepted? && delivered == multiset{call.htlc.interceptId})
  {
  }

  /**
   With fresh intercept ids, every HTLC delivered to a live channel is held by one channel or was handed to
   the channel manager, never both, never twice.
   */
  lemma {:induction false} EveryHtlcInOnePlace(calls: seq<ServiceCall>, id: InterceptId)
    requires FreshRun(calls) && FreshIntercepts(calls)
    ensures AllHeld(Flat(Run(calls)), CreatedScids(calls))[id] + multiset(CallIds(Run(calls).calls))[id]
            == if id in AllDelivered(calls) then 1 else 0
  {
    ServiceConserves(calls);
    DeliveredOnce(calls, id);
  }
}
