/** What holds of the service in every state it can reach, for all sequences of calls. */
module ServiceRuns {
  import opened Types
  import opened PaymentQueues
  import opened OpeningFees
  import opened JitChannels
  import opened ChannelRuns
  import opened ChannelSequencing
  import opened Messages
  import opened ServiceSpec

  datatype ServiceCall =
    | HtlcIntercepted(scid: UInt64, htlc: InterceptedHTLC)
    | HtlcHandlingFailed(failedNextChannel: Option<ChannelId>)
    | PaymentForwarded(nextChannelId: ChannelId)
    | ChannelReady(userChannelId: UInt128, id: ChannelId, peer: PublicKey)
    | InvoiceParametersGenerated(
        peer: PublicKey, request: RequestId, scid: UInt64, cltvExpiryDelta: UInt32, clientTrustsLsp: bool,
        userChannelId: UInt128)
    // With the parameters minted for the menu.
    | OpeningFeeParamsGenerated(peer: PublicKey, request: RequestId, menu: seq<OpeningFeeParams>)
    | InvalidTokenProvided(peer: PublicKey, request: RequestId)
    | GetInfoRequested(peer: PublicKey, request: RequestId, token: Option<string>)
    | BuyRequested(peer: PublicKey, request: RequestId, terms: ChannelTerms, promiseValid: bool)

  function After(s: Service, call: ServiceCall): Service {
    match call
    case HtlcIntercepted(scid, htlc) => AfterIntercepted(s, scid, htlc)
    case HtlcHandlingFailed(id) => if id.Some? then AfterByChannelId(s, id.value, HandlingFailed) else s
    case PaymentForwarded(id) => AfterByChannelId(s, id, Succeeded)
    case ChannelReady(user, id, peer) => AfterReady(s, user, id, peer)
    case InvoiceParametersGenerated(peer, request, scid, delta, trusts, user) =>
      AfterInvoiceParameters(s, peer, request, scid, delta, trusts, user)
    case OpeningFeeParamsGenerated(peer, request, menu) => AfterFeeAnswer(s, peer, request, GetInfoResult(menu))
    case InvalidTokenProvided(peer, request) =>
      AfterFeeAnswer(s, peer, request, GetInfoError(ErrorOf(UNRECOGNIZED_OR_STALE_TOKEN)))
    case GetInfoRequested(peer, request, token) => AfterGetInfo(s, peer, request, token)
    case BuyRequested(peer, request, terms, valid) => AfterBuy(s, peer, request, terms, valid)
  }

  /** The calls that are no channel's business. */
  predicate AboutRequests(call: ServiceCall) {
    || call.InvoiceParametersGenerated? || call.OpeningFeeParamsGenerated? || call.InvalidTokenProvided?
    || call.GetInfoRequested? || call.BuyRequested?
  }

  function Run(calls: seq<ServiceCall>): Service {
    if calls == [] then EMPTY_SERVICE else After(Run(calls[..|calls| - 1]), calls[|calls| - 1])
  }

  /**
   What the LSP owes the handler: it never gives out an scid twice, nor a user channel id twice to one peer,
   and a channel id belongs to one channel.
   */
  predicate Fresh(s: Service, call: ServiceCall) {
    match call
    case InvoiceParametersGenerated(peer, _, scid, _, _, user) =>
      scid !in s.scidPeers && ByUserChannelId(s, peer, user).None?
    case ChannelReady(user, id, peer) =>
      id in s.channelPeers ==>
        && s.channelPeers[id] == peer
        && (ByChannelId(s, id).Some? && ByUserChannelId(s, peer, user).Some? ==>
              ByChannelId(s, id).value.1 == ByUserChannelId(s, peer, user).value)
    case _ => true
  }

  predicate FreshRun(calls: seq<ServiceCall>) {
    calls == [] ||
    (FreshRun(calls[..|calls| - 1]) && Fresh(Run(calls[..|calls| - 1]), calls[|calls| - 1]))
  }

  // ---- The invariant ----

  predicate Known(peers: map<PublicKey, Peer>, peer: PublicKey, scid: UInt64) {
    peer in peers && scid in peers[peer].channels
  }

  /** The scid index leads exactly to the channels, each to its own peer; that peer has state. */
  ghost predicate ScidsLead(peers: map<PublicKey, Peer>, scidPeers: map<UInt64, PublicKey>) {
    forall p, k :: Known(peers, p, k) <==> k in scidPeers && scidPeers[k] == p
  }

  /** The user channel id index leads exactly to the channels. */
  ghost predicate UserIdsLead(channels: map<UInt64, Entry>, scidByUserChannelId: map<UInt128, UInt64>) {
    forall k, u {:trigger k in channels, u in scidByUserChannelId} ::
      (k in channels && channels[k].userChannelId == u) <==> (u in scidByUserChannelId && scidByUserChannelId[u] == k)
  }

  /** Once a channel is ready, its channel id leads to it. */
  ghost predicate ChannelIdsLead(channels: map<UInt64, Entry>, scidByChannelId: map<ChannelId, UInt64>) {
    && (forall k, id {:trigger k in channels, id in scidByChannelId} ::
          k in channels && ChannelIdOf(channels[k].life.view) == Some(id) ==>
            id in scidByChannelId && scidByChannelId[id] == k)
    && (forall id :: id in scidByChannelId ==> scidByChannelId[id] in channels)
  }

  /** The channel is in a state that a run of its own leads to. */
  ghost predicate Reached(entry: Entry) {
    exists events :: entry.life == Live(entry.terms, events)
  }

  predicate Admitted(terms: ChannelTerms) { terms.paymentSizeMsat.Some? ==> AdmittedFixedSize(terms) }

  ghost predicate EntriesSound(channels: map<UInt64, Entry>) {
    forall k :: k in channels ==> Reached(channels[k]) && Admitted(channels[k].terms)
  }

  predicate PurchaseAdmitted(request: Request) {
    request.Buy? ==> Admitted(ChannelTerms(request.openingFeeParams, request.paymentSizeMsat))
  }

  ghost predicate RequestsSound(requests: map<RequestId, Request>) {
    forall id :: id in requests ==> PurchaseAdmitted(requests[id])
  }

  ghost predicate StateSound(state: Peer) {
    && UserIdsLead(state.channels, state.scidByUserChannelId)
    && ChannelIdsLead(state.channels, state.scidByChannelId)
    && EntriesSound(state.channels)
    && RequestsSound(state.requests)
  }

  /** A channel id known to a peer leads to that peer. */
  ghost predicate ChannelPeersLead(peers: map<PublicKey, Peer>, channelPeers: map<ChannelId, PublicKey>) {
    forall p, id :: p in peers && id in peers[p].scidByChannelId ==> id in channelPeers && channelPeers[id] == p
  }

  ghost predicate Indexed(s: Service) { ScidsLead(s.peers, s.scidPeers) && ChannelPeersLead(s.peers, s.channelPeers) }

  ghost predicate StatesSound(peers: map<PublicKey, Peer>) {
    forall p :: p in peers ==> StateSound(peers[p])
  }

  ghost predicate Sound(s: Service) { Indexed(s) && StatesSound(s.peers) }

  // ---- Every elementary change keeps the invariant ----

  lemma {:induction false} ReachedStep(entry: Entry, event: ChannelEvent, view: ChannelView, action: Action)
    requires Reached(entry) && !entry.life.removed
    requires (view, action) == AnswerOf(entry, event)
    ensures Reached(entry.(life := Life(view, event.Intercepted? && action.Refused?,
                                        entry.life.log + [Handled(event, action)])))
  {
    var events :| entry.life == Live(entry.terms, events);
    LiveSnoc(entry.terms, events, event);
    assert Live(entry.terms, events + [event]) == Life(view, event.Intercepted? && action.Refused?,
                                                       entry.life.log + [Handled(event, action)]);
  }

  /** An id is announced for a channel before the channel can take it. */
  predicate IdAnnounced(s: Service, peer: PublicKey, scid: UInt64, event: ChannelEvent) {
    event.Ready? ==>
      && peer in s.peers && event.channelId in s.peers[peer].scidByChannelId
      && s.peers[peer].scidByChannelId[event.channelId] == scid
  }

  lemma {:induction false} NextChannelId(terms: ChannelTerms, view: ChannelView, event: ChannelEvent)
    ensures var next := OnEvent(terms, view, event).0;
            ChannelIdOf(next) == ChannelIdOf(view) || (event.Ready? && ChannelIdOf(next) == Some(event.channelId))
  {
    StepKeepsFeeAndChannel(terms, view, event);
  }

  lemma {:induction false} OneStateChanges(peers: map<PublicKey, Peer>, peer: PublicKey, state: Peer)
    requires StatesSound(peers) && StateSound(state)
    ensures StatesSound(peers[peer := state])
  {
    var peers' := peers[peer := state];
    forall p | p in peers'
      ensures StateSound(peers'[p])
    {
      if p != peer {
        assert StateSound(peers[p]);
      }
    }
  }

  /** Only one peer's state changes, and neither its channels' scids nor its channel ids. */
  lemma {:induction false} OnePeerKeepsIndexed(s: Service, s': Service, peer: PublicKey, state: Peer)
    requires Indexed(s) && peer in s.peers
    requires s'.scidPeers == s.scidPeers && s'.channelPeers == s.channelPeers && s'.peers == s.peers[peer := state]
    requires state.channels.Keys == s.peers[peer].channels.Keys
    requires state.scidByChannelId.Keys == s.peers[peer].scidByChannelId.Keys
    ensures Indexed(s')
  {
    forall p, k
      ensures Known(s'.peers, p, k) <==> Known(s.peers, p, k)
    {
    }
  }

  lemma {:induction false} EntryKeepsUserIds(
    channels: map<UInt64, Entry>, scidByUserChannelId: map<UInt128, UInt64>, scid: UInt64, entry: Entry)
    requires UserIdsLead(channels, scidByUserChannelId)
    requires scid in channels && entry.userChannelId == channels[scid].userChannelId
    ensures UserIdsLead(channels[scid := entry], scidByUserChannelId)
  {
  }

  lemma {:induction false} EntryKeepsChannelIds(
    channels: map<UInt64, Entry>, scidByChannelId: map<ChannelId, UInt64>, scid: UInt64, entry: Entry)
    requires ChannelIdsLead(channels, scidByChannelId)
    requires ChannelIdOf(entry.life.view).Some? ==>
               && ChannelIdOf(entry.life.view).value in scidByChannelId
               && scidByChannelId[ChannelIdOf(entry.life.view).value] == scid
    ensures ChannelIdsLead(channels[scid := entry], scidByChannelId)
  {
  }

  lemma {:induction false} EntryKeepsEntries(channels: map<UInt64, Entry>, scid: UInt64, entry: Entry)
    requires EntriesSound(channels) && Reached(entry) && Admitted(entry.terms)
    ensures EntriesSound(channels[scid := entry])
  {
  }

  lemma {:induction false} AnsweredKeepsSound(
    state: Peer, scid: UInt64, event: ChannelEvent, view: ChannelView, action: Action)
    requires StateSound(state) && state.LiveAt(scid)
    requires Reached(state.Answered(scid, event, view, action).channels[scid])
    requires ChannelIdOf(view).Some? ==>
               && ChannelIdOf(view).value in state.scidByChannelId
               && state.scidByChannelId[ChannelIdOf(view).value] == scid
    ensures StateSound(state.Answered(scid, event, view, action))
  {
    var entry := state.Answered(scid, event, view, action).channels[scid];
    EntryKeepsUserIds(state.channels, state.scidByUserChannelId, scid, entry);
    EntryKeepsChannelIds(state.channels, state.scidByChannelId, scid, entry);
    EntryKeepsEntries(state.channels, scid, entry);
  }

  lemma {:induction false} DeliverKeepsSound(s: Service, peer: PublicKey, scid: UInt64, event: ChannelEvent)
    requires Sound(s) && IdAnnounced(s, peer, scid, event)
    ensures Sound(Deliver(s, peer, scid, event))
  {
    if s.LiveAt(peer, scid) {
      var state := s.peers[peer];
      var (view, action) := AnswerOf(state.channels[scid], event);
      NextChannelId(state.channels[scid].terms, state.channels[scid].life.view, event);
      ReachedStep(state.channels[scid], event, view, action);
      AnsweredKeepsSound(state, scid, event, view, action);
      OneStateChanges(s.peers, peer, state.Answered(scid, event, view, action));
      OnePeerKeepsIndexed(s, Deliver(s, peer, scid, event), peer, state.Answered(scid, event, view, action));
    }
  }

  lemma {:induction false} AnnouncedKeepsIndexed(s: Service, userChannelId: UInt128, id: ChannelId, peer: PublicKey)
    requires Indexed(s) && Fresh(s, ChannelReady(userChannelId, id, peer))
    ensures Indexed(Announced(s, userChannelId, id, peer))
  {
    var s' := Announced(s, userChannelId, id, peer);
    forall p, k
      ensures Known(s'.peers, p, k) <==> Known(s.peers, p, k)
    {
    }
  }

  lemma {:induction false} ChannelIdAddedLeads(
    channels: map<UInt64, Entry>, scidByChannelId: map<ChannelId, UInt64>, id: ChannelId, scid: UInt64)
    requires ChannelIdsLead(channels, scidByChannelId) && scid in channels
    requires id in scidByChannelId ==> scidByChannelId[id] == scid
    ensures ChannelIdsLead(channels, scidByChannelId[id := scid])
  {
  }

  lemma {:induction false} UserIdKnown(
    channels: map<UInt64, Entry>, scidByUserChannelId: map<UInt128, UInt64>, userChannelId: UInt128)
    requires UserIdsLead(channels, scidByUserChannelId) && userChannelId in scidByUserChannelId
    ensures scidByUserChannelId[userChannelId] in channels
    ensures channels[scidByUserChannelId[userChannelId]].userChannelId == userChannelId
  {
    var scid := scidByUserChannelId[userChannelId];
    assert scid in channels || scid !in channels;
  }

  lemma {:induction false} AnnouncedKeepsSound(s: Service, userChannelId: UInt128, id: ChannelId, peer: PublicKey)
    requires Sound(s) && Fresh(s, ChannelReady(userChannelId, id, peer))
    ensures Sound(Announced(s, userChannelId, id, peer))
  {
    AnnouncedKeepsIndexed(s, userChannelId, id, peer);
    var found := ByUserChannelId(s, peer, userChannelId);
    if found.Some? {
      var state := s.peers[peer];
      assert StateSound(state);
      assert ChannelPeersLead(s.peers, s.channelPeers);
      UserIdKnown(state.channels, state.scidByUserChannelId, userChannelId);
      ChannelIdAddedLeads(state.channels, state.scidByChannelId, id, found.value);
      OneStateChanges(s.peers, peer, state.(scidByChannelId := state.scidByChannelId[id := found.value]));
    }
  }

  /** Requests, events and messages are none of the channels' business. */
  lemma {:induction false} RequestsKeepSound(
    s: Service, s': Service, peer: PublicKey, requests: map<RequestId, Request>)
    requires Sound(s)
    requires s'.scidPeers == s.scidPeers && s'.channelPeers == s.channelPeers
    requires s'.peers == s.peers[peer := (if peer in s.peers then s.peers[peer] else NEW_PEER).(requests := requests)]
    requires RequestsSound(requests)
    ensures Sound(s')
  {
    var entered := PeerEntered(s, peer);
    PeerEnteredSound(s, peer);
    var state := entered.peers[peer];
    assert StateSound(state);
    OneStateChanges(entered.peers, peer, state.(requests := requests));
    assert s'.peers == entered.peers[peer := state.(requests := requests)];
    OnePeerKeepsIndexed(entered, s', peer, state.(requests := requests));
  }

  lemma {:induction false} PeerEnteredIndexed(s: Service, peer: PublicKey)
    requires Indexed(s)
    ensures Indexed(PeerEntered(s, peer))
  {
    var s' := PeerEntered(s, peer);
    forall p, k
      ensures Known(s'.peers, p, k) <==> Known(s.peers, p, k)
    {
    }
  }

  lemma {:induction false} PeerEnteredSound(s: Service, peer: PublicKey)
    requires Sound(s)
    ensures Sound(PeerEntered(s, peer))
  {
    PeerEnteredIndexed(s, peer);
    if peer !in s.peers {
      assert StateSound(NEW_PEER);
      OneStateChanges(s.peers, peer, NEW_PEER);
    }
  }

  lemma {:induction false} AdmittedRequests(s: Service, peer: PublicKey, id: RequestId)
    requires Sound(s) && peer in s.peers && id in s.peers[peer].requests
    ensures PurchaseAdmitted(s.peers[peer].requests[id])
  {
    assert StateSound(s.peers[peer]);
  }

  lemma {:induction false} RequestTakenSound(s: Service, peer: PublicKey, id: RequestId)
    requires Sound(s)
    ensures Sound(RequestTaken(s, peer, id))
  {
    if peer in s.peers {
      assert StateSound(s.peers[peer]);
      RequestsKeepSound(s, RequestTaken(s, peer, id), peer, s.peers[peer].requests - {id});
    }
  }

  lemma {:induction false} RequestAddedSound(s: Service, peer: PublicKey, id: RequestId, request: Request)
    requires Sound(s)
    requires PurchaseAdmitted(request)
    ensures Sound(RequestAdded(s, peer, id, request))
  {
    var requests := if peer in s.peers then s.peers[peer].requests else map[];
    if peer in s.peers {
      assert StateSound(s.peers[peer]);
    }
    RequestsKeepSound(s, RequestAdded(s, peer, id, request), peer, requests[id := request]);
  }

  lemma {:induction false} AdmittedIff(terms: ChannelTerms)
    ensures Admitted(terms) <==> (terms.paymentSizeMsat.Some? ==> PaysForItself(terms, terms.paymentSizeMsat.value))
  {
    if terms.paymentSizeMsat.Some? {
      PayableIff(terms.openingFeeParams, terms.paymentSizeMsat.value);
    }
  }

  /** A purchase is accepted exactly if its promise is valid and a fixed size pays for itself. */
  lemma {:induction false} BuyAdmits(terms: ChannelTerms, promiseValid: bool)
    ensures AnswerToBuy(terms, promiseValid) == Accepted <==>
            && (terms.paymentSizeMsat.Some? ==> PaysForItself(terms, terms.paymentSizeMsat.value))
            && promiseValid && terms.openingFeeParams.validUntil.seconds >= 0
  {
    AdmittedIff(terms);
  }

  /** A buy request panics exactly if its expiry is before 1970 and its size passes, whatever its promise. */
  lemma {:induction false} BuyPanicsIff(terms: ChannelTerms, promiseValid: bool)
    ensures AnswerToBuy(terms, promiseValid) == Panics <==>
            && (terms.paymentSizeMsat.Some? ==> PaysForItself(terms, terms.paymentSizeMsat.value))
            && terms.openingFeeParams.validUntil.seconds < 0
  {
    AdmittedIff(terms);
  }

  /** One second before 1970, with no fixed size: the request panics, although its size would never be refused. */
  lemma {:induction false} OldExpiryPanics(promise: string, promiseValid: bool)
    ensures var params := OpeningFeeParams(1, 0, DateTime(-1, 0), 0, 0, 1, 10, promise);
            && AnswerToBuy(ChannelTerms(params, None), promiseValid) == Panics
            && AnswerToBuy(ChannelTerms(params, Some(5)), promiseValid) == Panics
            && AnswerToBuy(ChannelTerms(params, Some(11)), promiseValid) == TurnedDown(PAYMENT_SIZE_TOO_LARGE)
  {
    var params := OpeningFeeParams(1, 0, DateTime(-1, 0), 0, 0, 1, 10, promise);
    assert Covers(1, 5, 1, 0);
    assert LeavesSomething(params, 5);
    BuyPanicsIff(ChannelTerms(params, Some(5)), promiseValid);
  }

  function WithChannel(state: Peer, scid: UInt64, userChannelId: UInt128, terms: ChannelTerms): Peer {
    state.(scidByUserChannelId := state.scidByUserChannelId[userChannelId := scid],
           channels := state.channels[scid := Entry(userChannelId, terms, NEWBORN)])
  }

  lemma {:induction false} NewEntryUserId(
    channels: map<UInt64, Entry>, scidByUserChannelId: map<UInt128, UInt64>, scid: UInt64, entry: Entry)
    requires UserIdsLead(channels, scidByUserChannelId)
    requires scid !in channels && entry.userChannelId !in scidByUserChannelId
    ensures UserIdsLead(channels[scid := entry], scidByUserChannelId[entry.userChannelId := scid])
  {
  }

  lemma {:induction false} NewEntrySound(state: Peer, scid: UInt64, userChannelId: UInt128, terms: ChannelTerms)
    requires StateSound(state) && Admitted(terms)
    requires scid !in state.channels && userChannelId !in state.scidByUserChannelId
    ensures StateSound(WithChannel(state, scid, userChannelId, terms))
  {
    var entry := Entry(userChannelId, terms, NEWBORN);
    assert NEWBORN == Live(terms, []);
    assert Reached(entry);
    NewEntryUserId(state.channels, state.scidByUserChannelId, scid, entry);
    EntryKeepsChannelIds(state.channels, state.scidByChannelId, scid, entry);
    EntryKeepsEntries(state.channels, scid, entry);
  }

  lemma {:induction false} ChannelAddedIndexed(s: Service, s': Service, peer: PublicKey, scid: UInt64, state: Peer)
    requires Indexed(s) && peer in s.peers && scid !in s.scidPeers
    requires s' == s.(scidPeers := s.scidPeers[scid := peer], peers := s.peers[peer := state])
    requires state.channels.Keys == s.peers[peer].channels.Keys + {scid}
    requires state.scidByChannelId == s.peers[peer].scidByChannelId
    ensures Indexed(s')
  {
    forall p, k
      ensures Known(s'.peers, p, k) <==> Known(s.peers, p, k) || (p == peer && k == scid)
    {
    }
  }

  lemma {:induction false} ChannelAddedSound(
    s: Service, peer: PublicKey, scid: UInt64, userChannelId: UInt128, terms: ChannelTerms)
    requires Sound(s) && peer in s.peers && Admitted(terms)
    requires scid !in s.scidPeers && userChannelId !in s.peers[peer].scidByUserChannelId
    ensures Sound(ChannelAdded(s, peer, scid, userChannelId, terms))
  {
    var s' := ChannelAdded(s, peer, scid, userChannelId, terms);
    var state := WithChannel(s.peers[peer], scid, userChannelId, terms);
    assert s'.peers == s.peers[peer := state];
    assert StateSound(s.peers[peer]);
    assert !Known(s.peers, peer, scid);
    NewEntrySound(s.peers[peer], scid, userChannelId, terms);
    OneStateChanges(s.peers, peer, state);
    ChannelAddedIndexed(s, s', peer, scid, state);
  }

  lemma {:induction false} AfterReadySound(s: Service, userChannelId: UInt128, id: ChannelId, peer: PublicKey)
    requires Sound(s) && Fresh(s, ChannelReady(userChannelId, id, peer))
    ensures Sound(AfterReady(s, userChannelId, id, peer))
  {
    AnnouncedKeepsSound(s, userChannelId, id, peer);
    var found := ByUserChannelId(s, peer, userChannelId);
    if found.Some? {
      DeliverKeepsSound(Announced(s, userChannelId, id, peer), peer, found.value, Ready(id));
    }
  }

  lemma {:induction false} AfterInvoiceParametersSound(
    s: Service, peer: PublicKey, id: RequestId, scid: UInt64, cltvExpiryDelta: UInt32, clientTrustsLsp: bool,
    userChannelId: UInt128)
    requires Sound(s) && scid !in s.scidPeers && ByUserChannelId(s, peer, userChannelId).None?
    ensures Sound(AfterInvoiceParameters(s, peer, id, scid, cltvExpiryDelta, clientTrustsLsp, userChannelId))
  {
    RequestTakenSound(s, peer, id);
    if AwaitsInvoiceParameters(s, peer, id) {
      var request := s.peers[peer].requests[id];
      AdmittedRequests(s, peer, id);
      ChannelAddedSound(RequestTaken(s, peer, id), peer, scid, userChannelId,
                        ChannelTerms(request.openingFeeParams, request.paymentSizeMsat));
    }
  }

  /** Whatever is appended to the three logs, the invariant does not see it. */
  lemma {:induction false} LogsDoNotMatter(s: Service, s': Service)
    requires Sound(s) && s'.peers == s.peers && s'.scidPeers == s.scidPeers && s'.channelPeers == s.channelPeers
    ensures Sound(s')
  {
  }

  lemma {:induction false} AfterSound(s: Service, call: ServiceCall)
    requires Sound(s) && Fresh(s, call)
    ensures Sound(After(s, call))
  {
    match call
    case HtlcIntercepted(scid, htlc) =>
      if scid in s.scidPeers {
        DeliverKeepsSound(s, s.scidPeers[scid], scid, Intercepted(htlc));
      }
    case HtlcHandlingFailed(id) =>
      if id.Some? && ByChannelId(s, id.value).Some? {
        DeliverKeepsSound(s, ByChannelId(s, id.value).value.0, ByChannelId(s, id.value).value.1, HandlingFailed);
      }
    case PaymentForwarded(id) =>
      if ByChannelId(s, id).Some? {
        DeliverKeepsSound(s, ByChannelId(s, id).value.0, ByChannelId(s, id).value.1, Succeeded);
      }
    case ChannelReady(user, id, peer) => AfterReadySound(s, user, id, peer);
    case InvoiceParametersGenerated(peer, request, scid, delta, trusts, user) =>
      AfterInvoiceParametersSound(s, peer, request, scid, delta, trusts, user);
    case OpeningFeeParamsGenerated(peer, request, _) =>
      RequestTakenSound(s, peer, request);
      LogsDoNotMatter(RequestTaken(s, peer, request), After(s, call));
    case InvalidTokenProvided(peer, request) =>
      RequestTakenSound(s, peer, request);
      LogsDoNotMatter(RequestTaken(s, peer, request), After(s, call));
    case GetInfoRequested(peer, request, token) =>
      RequestAddedSound(s, peer, request, GetInfo(token));
      LogsDoNotMatter(RequestAdded(s, peer, request, GetInfo(token)), After(s, call));
    case BuyRequested(peer, request, terms, valid) =>
      BuyAdmits(terms, valid);
      AdmittedIff(terms);
      var buy := Buy(terms.openingFeeParams, terms.paymentSizeMsat);
      if AnswerToBuy(terms, valid) == Accepted {
        RequestAddedSound(s, peer, request, buy);
        LogsDoNotMatter(RequestAdded(s, peer, request, buy), After(s, call));
      } else {
        LogsDoNotMatter(s, After(s, call));
      }
  }

  lemma {:induction false} RunSound(calls: seq<ServiceCall>)
    requires FreshRun(calls)
    ensures Sound(Run(calls))
  {
    if calls != [] {
      RunSound(calls[..|calls| - 1]);
      AfterSound(Run(calls[..|calls| - 1]), calls[|calls| - 1]);
    }
  }
}
