/** Conservation of HTLCs over every run of a channel. */
module ChannelConservation {
  import opened Types
  import opened PaymentQueues
  import opened FeeSplit
  import opened JitChannels
  import opened ChannelRuns

  lemma {:induction false} IdsConcat(a: seq<InterceptedHTLC>, b: seq<InterceptedHTLC>)
    ensures Ids(a + b) == Ids(a) + Ids(b)
  {
  }

  lemma {:induction false} CallIdsConcat(a: seq<ManagerCall>, b: seq<ManagerCall>)
    ensures CallIds(a + b) == CallIds(a) + CallIds(b)
  {
  }

  lemma {:induction false} FlattenConcat(a: seq<Payment>, b: seq<Payment>)
    ensures Flatten(a + b) == Flatten(a) + Flatten(b)
  {
    if a == [] {
      assert a + b == b;
    } else {
      assert (a + b)[1..] == a[1..] + b;
      FlattenConcat(a[1..], b);
    }
  }

  lemma {:induction false} QueuedIdsConcat(a: seq<Payment>, b: seq<Payment>)
    ensures QueuedIds(a + b) == QueuedIds(a) + QueuedIds(b)
  {
    FlattenConcat(a, b);
    IdsConcat(Flatten(a), Flatten(b));
  }

  lemma {:induction false} QueuedIdsOne(payment: Payment)
    ensures QueuedIds([payment]) == multiset(Ids(payment.htlcs))
  {
    assert Flatten([payment]) == payment.htlcs + Flatten([]) == payment.htlcs;
  }

  lemma {:induction false} QueuedIdsSplit(queue: seq<Payment>, i: nat)
    requires i < |queue|
    ensures QueuedIds(queue) == QueuedIds(queue[..i]) + multiset(Ids(queue[i].htlcs)) + QueuedIds(queue[i + 1..])
  {
    assert queue == queue[..i] + ([queue[i]] + queue[i + 1..]);
    QueuedIdsConcat(queue[..i], [queue[i]] + queue[i + 1..]);
    QueuedIdsConcat([queue[i]], queue[i + 1..]);
    QueuedIdsOne(queue[i]);
  }

  lemma {:induction false} AddQueuesOne(queue: seq<Payment>, htlc: InterceptedHTLC)
    ensures QueuedIds(Added(queue, htlc)) == QueuedIds(queue) + multiset{htlc.interceptId}
  {
    var i := Find(queue, htlc.paymentHash);
    assert Ids([htlc]) == [htlc.interceptId];
    if i < |queue| {
      var after := Added(queue, htlc);
      QueuedIdsSplit(queue, i);
      QueuedIdsSplit(after, i);
      assert after[..i] == queue[..i] && after[i + 1..] == queue[i + 1..];
      IdsConcat(queue[i].htlcs, [htlc]);
    } else {
      QueuedIdsConcat(queue, [Payment(htlc.paymentHash, [htlc])]);
      QueuedIdsOne(Payment(htlc.paymentHash, [htlc]));
    }
  }

  lemma {:induction false} RemoveTakesOne(queue: seq<Payment>, i: nat)
    requires i < |queue|
    ensures QueuedIds(queue) == QueuedIds(Removed(queue, i)) + multiset(Ids(queue[i].htlcs))
  {
    QueuedIdsSplit(queue, i);
    QueuedIdsConcat(queue[..i], queue[i + 1..]);
  }

  lemma {:induction false} SplitKeepsIds(htlcs: seq<InterceptedHTLC>, fee: nat, id: ChannelId, peer: PublicKey)
    requires htlcs != [] && fee <= Total(htlcs)
    ensures CallIds(ForwardSplit(Split(htlcs, fee), id, peer)) == Ids(htlcs)
  {
  }

  lemma {:induction false} ForwardAllKeepsIds(htlcs: seq<InterceptedHTLC>, id: ChannelId, peer: PublicKey)
    ensures CallIds(ForwardAll(htlcs, id, peer)) == Ids(htlcs)
  {
  }

  function Entering(event: ChannelEvent): multiset<InterceptId> {
    if event.Intercepted? then multiset{event.htlc.interceptId} else multiset{}
  }

  function Handed(peer: PublicKey, event: ChannelEvent, action: Action): multiset<InterceptId> {
    multiset(CallIds(Calls(peer, event, action)))
  }

  /** What enters a step is still queued after it or was handed to the channel manager by it. */
  ghost predicate StepBalances(
    peer: PublicKey, view: ChannelView, event: ChannelEvent, next: ChannelView, action: Action)
  {
    QueuedIds(view.Queue()) + Entering(event) ==
    (if event.Intercepted? && action.Refused? then multiset{} else QueuedIds(next.Queue()))
    + Handed(peer, event, action)
  }

  lemma {:induction false} EmptyQueue()
    ensures QueuedIds([]) == multiset{}
  {
    assert Ids(Flatten([])) == [];
  }

  lemma {:induction false} KeepingBalances(
    peer: PublicKey, view: ChannelView, event: ChannelEvent, next: ChannelView, action: Action)
    requires action.NoAction? || action.OpenChannel? || (action.Refused? && !event.Intercepted?)
    requires next.Queue() == if event.Intercepted? then Added(view.Queue(), event.htlc) else view.Queue()
    ensures StepBalances(peer, view, event, next, action)
  {
    assert CallIds(Calls(peer, event, action)) == [];
    if event.Intercepted? {
      AddQueuesOne(view.Queue(), event.htlc);
    }
  }

  lemma {:induction false} PopBalances(
    peer: PublicKey, view: ChannelView, event: ChannelEvent,
    queue: seq<Payment>, fee: UInt64, id: ChannelId, next: ChannelView, action: Action)
    requires WellFormed(queue)
    requires queue == if event.Intercepted? then Added(view.Queue(), event.htlc) else view.Queue()
    requires (next, action) == PopForFee(queue, fee, id)
    ensures StepBalances(peer, view, event, next, action)
  {
    if event.Intercepted? {
      AddQueuesOne(view.Queue(), event.htlc);
    }
    assert QueuedIds(queue) == QueuedIds(view.Queue()) + Entering(event);
    PopTakesWhatItHands(peer, event, queue, fee, id);
  }

  lemma {:induction false} PopTakesWhatItHands(
    peer: PublicKey, event: ChannelEvent, queue: seq<Payment>, fee: UInt64, id: ChannelId)
    requires WellFormed(queue)
    ensures var (next, action) := PopForFee(queue, fee, id);
            QueuedIds(queue) == QueuedIds(next.Queue()) + Handed(peer, event, action)
  {
    var i := FirstAtLeast(queue, fee);
    if i < |queue| {
      RemoveTakesOne(queue, i);
      SplitKeepsIds(queue[i].htlcs, fee, id, peer);
    } else {
      assert CallIds(Calls(peer, event, NoAction)) == [];
    }
  }

  lemma {:induction false} ReleaseBalances(peer: PublicKey, view: ChannelView, next: ChannelView, id: ChannelId)
    requires next.PaymentForwarded?
    ensures StepBalances(peer, view, Succeeded, next, ForwardHTLCs(id, Flatten(view.Queue())))
  {
    ForwardAllKeepsIds(Flatten(view.Queue()), id, peer);
    EmptyQueue();
  }

  /** Failing the one queued HTLC, or forwarding one that was never queued. */
  lemma {:induction false} PassingBalances(
    peer: PublicKey, view: ChannelView, htlc: InterceptedHTLC, next: ChannelView, action: Action)
    requires view.Queue() == []
    requires action.Refused? || (action.ForwardHTLC? && next.Queue() == [])
    ensures StepBalances(peer, view, Intercepted(htlc), next, action)
  {
    EmptyQueue();
    assert CallIds(Calls(peer, Intercepted(htlc), action)) == [htlc.interceptId];
  }

  lemma {:induction false} RefusedMeansEmpty(terms: ChannelTerms, queue: seq<Payment>, htlc: InterceptedHTLC)
    requires Inv(terms, PendingInitialPayment(queue))
    ensures var (next, action) := OnInitialHtlc(terms, queue, htlc);
            if action.Refused? then queue == []
            else next.Queue() == Added(queue, htlc) && (action.NoAction? || action.OpenChannel?)
  {
    var (next, action) := OnInitialHtlc(terms, queue, htlc);
    InitialOutcomeHolds(terms, queue, htlc, next, action);
  }

  lemma {:induction false} StepConserves(
    terms: ChannelTerms, peer: PublicKey, view: ChannelView, event: ChannelEvent, next: ChannelView, action: Action)
    requires Inv(terms, view) && (next, action) == OnEvent(terms, view, event)
    ensures StepBalances(peer, view, event, next, action)
  {
    match event
    case Intercepted(htlc) => InterceptedConserves(terms, peer, view, htlc, next, action);
    case Ready(id) =>
      if action.Refused? {
        KeepingBalances(peer, view, event, next, action);
      } else {
        PopBalances(peer, view, event, view.queue, view.openingFeeMsat, id, next, action);
      }
    case HandlingFailed =>
      if view.PendingPaymentForward? {
        PopBalances(peer, view, event, view.queue, view.openingFeeMsat, view.channelId, next, action);
      } else {
        KeepingBalances(peer, view, event, next, action);
      }
    case Succeeded =>
      if view.PendingPaymentForward? {
        ReleaseBalances(peer, view, next, view.channelId);
      } else {
        KeepingBalances(peer, view, event, next, action);
      }
  }

  lemma {:induction false} InterceptedConserves(
    terms: ChannelTerms, peer: PublicKey, view: ChannelView, htlc: InterceptedHTLC, next: ChannelView, action: Action)
    requires Inv(terms, view) && (next, action) == OnIntercepted(terms, view, htlc)
    ensures StepBalances(peer, view, Intercepted(htlc), next, action)
  {
    var event := Intercepted(htlc);
    if view.PendingInitialPayment? {
      RefusedMeansEmpty(terms, view.queue, htlc);
    }
    if view.PendingPayment? {
      AddKeepsWellFormed(view.queue, htlc);
      PopBalances(peer, view, event, Added(view.queue, htlc), view.openingFeeMsat, view.channelId, next, action);
    } else if view.PaymentForwarded? || action.Refused? {
      PassingBalances(peer, view, htlc, next, action);
    } else {
      KeepingBalances(peer, view, event, next, action);
    }
  }

  lemma {:induction false} HistorySnoc(peer: PublicKey, log: seq<Handled>, last: Handled)
    ensures multiset(Ids(Delivered(log + [last]))) == multiset(Ids(Delivered(log))) + Entering(last.event)
    ensures multiset(CallIds(CallsOf(peer, log + [last]))) ==
            multiset(CallIds(CallsOf(peer, log))) + Handed(peer, last.event, last.action)
  {
    assert (log + [last])[..|log|] == log;
    CallIdsConcat(CallsOf(peer, log), Calls(peer, last.event, last.action));
    DeliveredSnoc(log, last);
  }

  /** Everything delivered is still held or was handed to the channel manager. */
  ghost predicate Conserved(peer: PublicKey, life: Life) {
    multiset(Ids(Delivered(life.log))) == HeldIds(life) + multiset(CallIds(CallsOf(peer, life.log)))
  }

  /**
   Over every run: the HTLCs delivered to the channel are those it still holds together with those
   handed to the channel manager, each as often as it was delivered.
   */
  lemma {:induction false} HtlcsConserved(terms: ChannelTerms, peer: PublicKey, events: seq<ChannelEvent>)
    ensures Conserved(peer, Live(terms, events))
  {
    if events != [] {
      var n := |events| - 1;
      var before := Live(terms, events[..n]);
      HtlcsConserved(terms, peer, events[..n]);
      LiveInv(terms, events[..n]);
      if !before.removed {
        var (next, action) := OnEvent(terms, before.view, events[n]);
        StepConserves(terms, peer, before.view, events[n], next, action);
        ConservedByStep(peer, before, events[n], next, action);
      }
    } else {
      EmptyQueue();
      assert Ids([]) == [] && CallIds([]) == [];
    }
  }

  lemma {:induction false} BalanceSum<T>(
    held: multiset<T>, handed: multiset<T>, entering: multiset<T>, leaving: multiset<T>, held': multiset<T>)
    requires held + entering == held' + leaving
    ensures held + handed + entering == held' + (handed + leaving)
  {
    assert held + handed + entering == held + entering + handed;
    assert held' + leaving + handed == held' + (handed + leaving);
  }

  lemma {:induction false} ConservedByStep(
    peer: PublicKey, life: Life, event: ChannelEvent, next: ChannelView, action: Action)
    requires !life.removed && Conserved(peer, life)
    requires StepBalances(peer, life.view, event, next, action)
    ensures Conserved(peer, Life(next, event.Intercepted? && action.Refused?, life.log + [Handled(event, action)]))
  {
    var after := Life(next, event.Intercepted? && action.Refused?, life.log + [Handled(event, action)]);
    HistorySnoc(peer, life.log, Handled(event, action));
    var handed := multiset(CallIds(CallsOf(peer, life.log)));
    BalanceSum(HeldIds(life), handed, Entering(event), Handed(peer, event, action), HeldIds(after));
    calc {
      multiset(Ids(Delivered(after.log)));
      HeldIds(life) + handed + Entering(event);
      HeldIds(after) + (handed + Handed(peer, event, action));
      HeldIds(after) + multiset(CallIds(CallsOf(peer, after.log)));
    }
  }

  ghost predicate Distinct(ids: seq<InterceptId>) {
    forall i, j :: 0 <= i < j < |ids| ==> ids[i] != ids[j]
  }

  /** The HTLCs of the run carry different ids. */
  ghost predicate FreshIds(events: seq<ChannelEvent>) {
    forall i, j :: 0 <= i < j < |events| && events[i].Intercepted? && events[j].Intercepted? ==>
      events[i].htlc.interceptId != events[j].htlc.interceptId
  }

  /** The ids of the HTLCs that a run intercepts. */
  function EventIds(events: seq<ChannelEvent>): set<InterceptId> {
    set event | event in events && event.Intercepted? :: event.htlc.interceptId
  }

  lemma {:induction false} DeliveredSnoc(log: seq<Handled>, last: Handled)
    ensures Ids(Delivered(log + [last])) ==
            Ids(Delivered(log)) + if last.event.Intercepted? then [last.event.htlc.interceptId] else []
  {
    assert (log + [last])[..|log|] == log;
    if last.event.Intercepted? {
      IdsConcat(Delivered(log), [last.event.htlc]);
      assert Ids([last.event.htlc]) == [last.event.htlc.interceptId];
    } else {
      assert Delivered(log) + [] == Delivered(log);
    }
  }

  lemma {:induction false} DeliveredFromEvents(terms: ChannelTerms, events: seq<ChannelEvent>)
    requires FreshIds(events)
    ensures Distinct(Ids(Delivered(Live(terms, events).log)))
    ensures forall id :: id in Ids(Delivered(Live(terms, events).log)) ==> id in EventIds(events)
  {
    if events != [] {
      var n := |events| - 1;
      var before := Live(terms, events[..n]);
      DeliveredFromEvents(terms, events[..n]);
      assert EventIds(events[..n]) <= EventIds(events);
      if !before.removed {
        DeliveredSnoc(before.log, Handled(events[n], OnEvent(terms, before.view, events[n]).1));
        if events[n].Intercepted? {
          assert events[n].htlc.interceptId !in EventIds(events[..n]);
        }
      }
    }
  }

  lemma {:induction false} DistinctMultiplicity(ids: seq<InterceptId>, id: InterceptId)
    requires Distinct(ids)
    ensures multiset(ids)[id] == if id in ids then 1 else 0
  {
    if ids != [] {
      var n := |ids| - 1;
      assert ids == ids[..n] + [ids[n]];
      DistinctMultiplicity(ids[..n], id);
    }
  }

  /** With fresh ids, every delivered HTLC is held or was handed over, never both and never twice. */
  lemma {:induction false} EachHtlcOnce(
    terms: ChannelTerms, peer: PublicKey, events: seq<ChannelEvent>, id: InterceptId)
    requires FreshIds(events)
    ensures var life := Live(terms, events);
            HeldIds(life)[id] + multiset(CallIds(CallsOf(peer, life.log)))[id]
            == if id in Ids(Delivered(life.log)) then 1 else 0
  {
    HtlcsConserved(terms, peer, events);
    DeliveredFromEvents(terms, events);
    DistinctMultiplicity(Ids(Delivered(Live(terms, events).log)), id);
  }

  /** Once a payment has succeeded nothing is held any more, so the queue is dropped empty. */
  lemma {:induction false} NothingHeldAfterSuccess(terms: ChannelTerms, peer: PublicKey, events: seq<ChannelEvent>)
    requires Live(terms, events).view.PaymentForwarded?
    ensures var life := Live(terms, events);
            multiset(Ids(Delivered(life.log))) == multiset(CallIds(CallsOf(peer, life.log)))
  {
    HtlcsConserved(terms, peer, events);
    assert Flatten([]) == [];
    assert HeldIds(Live(terms, events)) == multiset{};
  }
}
