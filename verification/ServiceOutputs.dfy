/** What a service tells the channel manager and the LSP over whole runs, traced to the channels it concerns. */
module ServiceOutputs {
  import opened Types
  import opened JitChannels
  import opened ChannelSequencing
  import opened ChannelAmounts
  import opened ChannelOpenings
  import opened ChannelForwards
  import opened ServiceSpec
  import opened ServiceRuns
  import opened ServiceTheorems

  // ---- Calls to the channel manager ----

  /** The call is the one for HTLC i of entry k in the history of the channel with this scid. */
  predicate CallIn(flat: map<UInt64, Owned>, call: ManagerCall, scid: UInt64, k: int, i: int) {
    scid in flat && CallOf(call, flat[scid].peer, flat[scid].entry.life, k, i)
  }

  ghost predicate Accounted(flat: map<UInt64, Owned>, call: ManagerCall) {
    exists scid, k, i :: CallIn(flat, call, scid, k, i)
  }

  /** A channel's life only ever grows, and its id, once known, stays. */
  ghost predicate Continues(was: Life, now: Life) {
    && was.log <= now.log
    && (forall htlc :: htlc in Delivered(was.log) ==> htlc in Delivered(now.log))
    && (ChannelIdOf(was.view).Some? ==> ChannelIdOf(now.view) == ChannelIdOf(was.view))
  }

  ghost predicate FlatContinues(was: map<UInt64, Owned>, now: map<UInt64, Owned>) {
    forall scid :: scid in was ==>
      && scid in now && now[scid].peer == was[scid].peer
      && now[scid].entry.userChannelId == was[scid].entry.userChannelId
      && now[scid].entry.terms == was[scid].entry.terms
      && Continues(was[scid].entry.life, now[scid].entry.life)
  }

  lemma {:induction false} HearingContinues(owned: Owned, event: ChannelEvent)
    ensures Continues(owned.entry.life, Heard(owned, event).entry.life)
  {
    var life := owned.entry.life;
    if !life.removed {
      var (next, action) := AnswerOf(owned.entry, event);
      StepKeepsFeeAndChannel(owned.entry.terms, life.view, event);
      forall htlc | htlc in Delivered(life.log)
        ensures htlc in Delivered(life.log + [Handled(event, action)])
      {
        DeliveredGrows(life.log, Handled(event, action), htlc);
      }
    }
  }

  /** A channel that is created is new, and then nothing else happens. */
  predicate New(flat: map<UInt64, Owned>, addressed: Option<(UInt64, ChannelEvent)>, created: Option<(UInt64, Owned)>) {
    created.Some? ==> created.value.0 !in flat && created.value.1.entry.life == NEWBORN && addressed.None?
  }

  lemma {:induction false} FlatStepContinues(
    flat: map<UInt64, Owned>, addressed: Option<(UInt64, ChannelEvent)>, created: Option<(UInt64, Owned)>)
    requires New(flat, addressed, created)
    ensures FlatContinues(flat, FlatStep(flat, addressed, created))
  {
    if addressed.Some? && addressed.value.0 in flat {
      HearingContinues(flat[addressed.value.0], addressed.value.1);
    }
  }

  /** What a call does to the flat map and to the channel manager. */
  lemma {:induction false} StepIsFlat(s: Service, call: ServiceCall)
    requires Sound(s) && Fresh(s, call)
    ensures Flat(After(s, call)) == FlatStep(Flat(s), Addressed(s, call), Created(s, call))
    ensures After(s, call).calls == s.calls + HandedOver(Flat(s), Addressed(s, call))
    ensures New(Flat(s), Addressed(s, call), Created(s, call))
  {
    CallsRefineFlatMap(s, call);
    CallsHandOver(s, call);
    NewcomerIsNew(s, call);
  }

  lemma {:induction false} AccountedLater(was: map<UInt64, Owned>, now: map<UInt64, Owned>, call: ManagerCall)
    requires FlatContinues(was, now) && Accounted(was, call)
    ensures Accounted(now, call)
  {
    var scid, k, i :| CallIn(was, call, scid, k, i);
    assert Continues(was[scid].entry.life, now[scid].entry.life);
    assert CallIn(now, call, scid, k, i);
  }

  lemma {:induction false} HeardIsLive(owned: Owned, event: ChannelEvent) returns (events: seq<ChannelEvent>)
    requires Reached(owned.entry)
    ensures Heard(owned, event).entry.life == Live(owned.entry.terms, events)
  {
    var before :| owned.entry.life == Live(owned.entry.terms, before);
    events := before + [event];
    assert events[..|events| - 1] == before;
  }

  lemma {:induction false} HandedOverAccounted(
    flat: map<UInt64, Owned>, addressed: Option<(UInt64, ChannelEvent)>, c: nat)
    requires c < |HandedOver(flat, addressed)| && Reached(flat[addressed.value.0].entry)
    ensures Accounted(FlatStep(flat, addressed, None), HandedOver(flat, addressed)[c])
  {
    var (scid, event) := addressed.value;
    var owned, now := flat[scid], FlatStep(flat, addressed, None);
    var k := |owned.entry.life.log|;
    var events := HeardIsLive(owned, event);
    EntryMakesItsCalls(owned.entry.terms, owned.peer, events, k);
    assert CallIn(now, HandedOver(flat, addressed)[c], scid, k, c);
  }

  lemma {:induction false} FlatReached(s: Service, scid: UInt64)
    requires Sound(s) && scid in Flat(s)
    ensures Reached(Flat(s)[scid].entry)
  {
    EntrySound(s, scid);
  }

  lemma {:induction false} StepAccounted(
    flat: map<UInt64, Owned>, addressed: Option<(UInt64, ChannelEvent)>, created: Option<(UInt64, Owned)>,
    now: map<UInt64, Owned>, call: ManagerCall)
    requires New(flat, addressed, created) && now == FlatStep(flat, addressed, created)
    requires Accounted(flat, call)
          || (call in HandedOver(flat, addressed) && Reached(flat[addressed.value.0].entry))
    ensures Accounted(now, call)
  {
    if Accounted(flat, call) {
      FlatStepContinues(flat, addressed, created);
      AccountedLater(flat, now, call);
    } else {
      var c :| 0 <= c < |HandedOver(flat, addressed)| && HandedOver(flat, addressed)[c] == call;
      HandedOverAccounted(flat, addressed, c);
    }
  }

  /**
   Every call to the channel manager, over every run, disposes of one HTLC that was delivered to one channel: it
   fails it, or forwards it to that channel's owner over that channel, in full or with its exact share of the fee.
   */
  lemma {:induction false} EveryCallIsForADeliveredHtlc(calls: seq<ServiceCall>, c: nat)
    requires FreshRun(calls) && c < |Run(calls).calls|
    ensures Accounted(Flat(Run(calls)), Run(calls).calls[c])
  {
    var init, last := calls[..|calls| - 1], calls[|calls| - 1];
    var s := Run(init);
    var flat, addressed, created := Flat(s), Addressed(s, last), Created(s, last);
    RunSound(init);
    StepIsFlat(s, last);
    if c < |s.calls| {
      EveryCallIsForADeliveredHtlc(init, c);
    } else {
      FlatReached(s, addressed.value.0);
    }
    StepAccounted(flat, addressed, created, Flat(Run(calls)), Run(calls).calls[c]);
  }

  /** The calls of entry k of a channel were made, one after the other, from position c on. */
  predicate MadeAt(calls: seq<ManagerCall>, owned: Owned, k: int, c: int) {
    && 0 <= k < |owned.entry.life.log| && 0 <= c
    && var made := Calls(owned.peer, owned.entry.life.log[k].event, owned.entry.life.log[k].action);
       c + |made| <= |calls| && calls[c..c + |made|] == made
  }

  lemma {:induction false} MadeAtLater(
    calls: seq<ManagerCall>, more: seq<ManagerCall>, was: Owned, now: Owned, k: int, c: int)
    requires MadeAt(calls, was, k, c) && now.peer == was.peer && was.entry.life.log <= now.entry.life.log
    ensures MadeAt(calls + more, now, k, c)
  {
    var made := Calls(was.peer, was.entry.life.log[k].event, was.entry.life.log[k].action);
    assert (calls + more)[c..c + |made|] == calls[c..c + |made|];
  }

  lemma {:induction false} MadeNow(calls: seq<ManagerCall>, owned: Owned, event: ChannelEvent)
    requires !owned.entry.life.removed
    ensures MadeAt(calls + Calls(owned.peer, event, AnswerOf(owned.entry, event).1), Heard(owned, event),
                   |owned.entry.life.log|, |calls|)
  {
    var made := Calls(owned.peer, event, AnswerOf(owned.entry, event).1);
    assert (calls + made)[|calls|..|calls| + |made|] == made;
  }

  /** One step of the flat map: what a channel's history already said, and what it now says as well. */
  lemma {:induction false} StepMakes(
    calls: seq<ManagerCall>, flat: map<UInt64, Owned>, addressed: Option<(UInt64, ChannelEvent)>,
    created: Option<(UInt64, Owned)>, scid: UInt64, k: nat)
    requires New(flat, addressed, created) && scid in FlatStep(flat, addressed, created)
    requires k < |FlatStep(flat, addressed, created)[scid].entry.life.log|
    ensures scid in flat
    ensures k >= |flat[scid].entry.life.log| ==>
              MadeAt(calls + HandedOver(flat, addressed), FlatStep(flat, addressed, created)[scid], k, |calls|)
  {
    if k >= |flat[scid].entry.life.log| {
      MadeNow(calls, flat[scid], addressed.value.1);
    }
  }

  /** ... and conversely what a channel's history says was handed over was, each time as one block. */
  lemma {:induction false} EveryEntryIsCarriedOut(calls: seq<ServiceCall>, scid: UInt64, k: nat) returns (c: nat)
    requires FreshRun(calls) && scid in Flat(Run(calls)) && k < |Flat(Run(calls))[scid].entry.life.log|
    ensures MadeAt(Run(calls).calls, Flat(Run(calls))[scid], k, c)
  {
    var init, last := calls[..|calls| - 1], calls[|calls| - 1];
    var s := Run(init);
    var flat, addressed, created := Flat(s), Addressed(s, last), Created(s, last);
    RunSound(init);
    StepIsFlat(s, last);
    StepMakes(s.calls, flat, addressed, created, scid, k);
    c := |s.calls|;
    if k < |flat[scid].entry.life.log| {
      c := EveryEntryIsCarriedOut(init, scid, k);
      FlatStepContinues(flat, addressed, created);
      MadeAtLater(s.calls, HandedOver(flat, addressed), flat[scid], Flat(Run(calls))[scid], k, c);
    }
  }

  // ---- Requests to open a channel ----

  /** The event asks for a channel of the flat map: to its owner, under its user channel id, as it announced. */
  predicate AsksFor(flat: map<UInt64, Owned>, event: ServiceEvent) {
    && event.OpenChannelEvent?
    && event.interceptScid in flat
    && var Owned(peer, entry) := flat[event.interceptScid];
       && event.counterparty == peer
       && event.userChannelId == entry.userChannelId
       && OpenedBy(entry.life.log).Some?
       && event.openingFeeMsat == OpenedBy(entry.life.log).value.openingFeeMsat
       && event.amtToForwardMsat == OpenedBy(entry.life.log).value.amtToForwardMsat
  }

  /** A channel announces its opening once. */
  lemma {:induction false} HearingKeepsOpening(owned: Owned, event: ChannelEvent)
    requires Reached(owned.entry) && !owned.entry.life.removed
    ensures var log := Heard(owned, event).entry.life.log;
            var action := AnswerOf(owned.entry, event).1;
            && (OpenedBy(owned.entry.life.log).Some? ==>
                  !action.OpenChannel? && OpenedBy(log) == OpenedBy(owned.entry.life.log))
            && (action.OpenChannel? ==>
                  && event.Intercepted?
                  && OpenedBy(log) == Some(Opening(event.htlc, action.openingFeeMsat, action.amtToForwardMsat)))
  {
    var events :| owned.entry.life == Live(owned.entry.terms, events);
    LiveChargesAnnounced(owned.entry.terms, events);
    OpenLeavesFirstState(owned.entry.terms, owned.entry.life.view, event);
    OpenedBySnoc(owned.entry.life.log, Handled(event, AnswerOf(owned.entry, event).1));
  }

  lemma {:induction false} StepKeepsAsking(
    flat: map<UInt64, Owned>, addressed: Option<(UInt64, ChannelEvent)>, created: Option<(UInt64, Owned)>,
    event: ServiceEvent)
    requires New(flat, addressed, created) && AsksFor(flat, event) && Reached(flat[event.interceptScid].entry)
    ensures AsksFor(FlatStep(flat, addressed, created), event)
  {
    var owned := flat[event.interceptScid];
    if addressed.Some? && addressed.value.0 == event.interceptScid && !owned.entry.life.removed {
      HearingKeepsOpening(owned, addressed.value.1);
    }
  }

  lemma {:induction false} AskedAsks(flat: map<UInt64, Owned>, addressed: Option<(UInt64, ChannelEvent)>)
    requires Asked(flat, addressed) != [] && Reached(flat[addressed.value.0].entry)
    ensures |Asked(flat, addressed)| == 1 && AsksFor(FlatStep(flat, addressed, None), Asked(flat, addressed)[0])
  {
    HearingKeepsOpening(flat[addressed.value.0], addressed.value.1);
  }

  /** Calls about requests ask for no channel. */
  lemma {:induction false} RequestsAskForNone(s: Service, call: ServiceCall)
    requires AboutRequests(call)
    ensures s.events <= After(s, call).events
    ensures forall e :: |s.events| <= e < |After(s, call).events| ==> !After(s, call).events[e].OpenChannelEvent?
  {
  }

  lemma {:induction false} OpenEventsAsk(calls: seq<ServiceCall>, e: nat)
    requires FreshRun(calls) && e < |Run(calls).events| && Run(calls).events[e].OpenChannelEvent?
    ensures AsksFor(Flat(Run(calls)), Run(calls).events[e])
  {
    var init, last := calls[..|calls| - 1], calls[|calls| - 1];
    var s := Run(init);
    var flat, addressed, created := Flat(s), Addressed(s, last), Created(s, last);
    RunSound(init);
    StepIsFlat(s, last);
    if AboutRequests(last) {
      RequestsAskForNone(s, last);
    } else {
      ChannelsAsk(s, last);
    }
    if e < |s.events| {
      OpenEventsAsk(init, e);
      FlatReached(s, s.events[e].interceptScid);
      StepKeepsAsking(flat, addressed, created, s.events[e]);
    } else {
      FlatReached(s, addressed.value.0);
      AskedAsks(flat, addressed);
    }
  }

  /**
   Every request to open a channel, over every run: it names a channel, its owner and its user channel id, under
   which becoming ready reaches that channel; and its fee and amount are those of the terms that were bought.
   */
  lemma {:induction false} OpenEventsAreRight(calls: seq<ServiceCall>, e: nat, id: ChannelId)
    requires FreshRun(calls) && e < |Run(calls).events| && Run(calls).events[e].OpenChannelEvent?
    ensures var (s, event) := (Run(calls), Run(calls).events[e]);
            && AsksFor(Flat(s), event)
            && OnTerms(Flat(s)[event.interceptScid].entry.terms,
                       Opening(OpenedBy(Flat(s)[event.interceptScid].entry.life.log).value.htlc, event.openingFeeMsat,
                               event.amtToForwardMsat))
            && Addressed(s, ChannelReady(event.userChannelId, id, event.counterparty)) ==
               Some((event.interceptScid, Ready(id)))
  {
    var s, event := Run(calls), Run(calls).events[e];
    OpenEventsAsk(calls, e);
    RunSound(calls);
    EntrySound(s, event.interceptScid);
    var entry := Flat(s)[event.interceptScid].entry;
    var events :| entry.life == Live(entry.terms, events);
    OpeningChargesTheTerms(entry.terms, events);
    ReadyAddresses(s, event.userChannelId, id, event.counterparty, event.interceptScid);
  }
}
