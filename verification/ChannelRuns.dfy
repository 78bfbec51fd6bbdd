/** What holds in every state a JIT channel can reach, for all terms and all sequences of events. */
module ChannelRuns {
  import opened Types
  import opened PaymentQueues
  import opened JitChannels

  /** The fee of a fixed-size purchase is defined and its size within the limits. */
  predicate Payable(terms: ChannelTerms) {
    && terms.paymentSizeMsat.Some?
    && WithinLimits(terms, terms.paymentSizeMsat.value)
    && OpeningFeeFor(terms, terms.paymentSizeMsat.value).Some?
  }

  /** The terms of a fixed-size purchase that buy admission lets through. */
  predicate AdmittedFixedSize(terms: ChannelTerms) {
    Payable(terms) && OpeningFeeFor(terms, terms.paymentSizeMsat.value).value < terms.paymentSizeMsat.value
  }

  ghost predicate AllBelow(queue: seq<Payment>, amount: nat) {
    forall i :: 0 <= i < |queue| ==> Total(queue[i].htlcs) < amount
  }

  ghost predicate SomeAbove(queue: seq<Payment>, amount: nat) {
    exists i :: 0 <= i < |queue| && Total(queue[i].htlcs) > amount
  }

  ghost predicate Inv(terms: ChannelTerms, view: ChannelView) {
    && WellFormed(view.Queue())
    && match view
       case PendingInitialPayment(queue) =>
         && (queue != [] ==> Payable(terms))
         && (AdmittedFixedSize(terms) ==> AllBelow(queue, terms.paymentSizeMsat.value))
       case PendingChannelOpen(queue, fee) =>
         && SomeAbove(queue, fee)
         && (terms.paymentSizeMsat.None? ==> Total(queue[0].htlcs) > fee)
       case PendingPayment(queue, fee, _) => AllBelow(queue, fee)
       case _ => true
  }

  // ---- The queue under one step ----

  lemma {:induction false} AddedTotals(queue: seq<Payment>, htlc: InterceptedHTLC, i: nat)
    requires i < |queue|
    ensures |queue| <= |Added(queue, htlc)|
    ensures Added(queue, htlc)[i].paymentHash == queue[i].paymentHash
    ensures Total(queue[i].htlcs) <= Total(Added(queue, htlc)[i].htlcs)
    ensures queue[i].htlcs <= Added(queue, htlc)[i].htlcs
  {
    TotalSnoc(queue[i].htlcs, htlc);
  }

  /** Every entry of the extended queue is an old one or the group of the new HTLC. */
  lemma {:induction false} AddedEntry(queue: seq<Payment>, htlc: InterceptedHTLC, i: nat)
    requires i < |Added(queue, htlc)|
    ensures i == Find(queue, htlc.paymentHash) ==>
              Added(queue, htlc)[i] == Payment(htlc.paymentHash, Group(queue, htlc.paymentHash) + [htlc])
    ensures i != Find(queue, htlc.paymentHash) ==> i < |queue| && Added(queue, htlc)[i] == queue[i]
  {
    assert [] + [htlc] == [htlc];
  }

  lemma {:induction false} StepInv(terms: ChannelTerms, view: ChannelView, event: ChannelEvent)
    requires Inv(terms, view)
    ensures var (next, action) := OnEvent(terms, view, event);
            if event.Intercepted? && action.Refused?
            then next == PendingInitialPayment([Payment(event.htlc.paymentHash, [event.htlc])])
            else Inv(terms, next)
  {
    match event
    case Intercepted(htlc) =>
      var (next, action) := OnIntercepted(terms, view, htlc);
      InterceptedInv(terms, view, htlc, next, action);
    case Ready(id) =>
      if view.PendingChannelOpen? {
        PopInv(terms, view.queue, view.openingFeeMsat, id);
      }
    case HandlingFailed =>
      if view.PendingPaymentForward? {
        PopInv(terms, view.queue, view.openingFeeMsat, view.channelId);
      }
    case Succeeded =>
  }

  lemma {:induction false} PopInv(terms: ChannelTerms, queue: seq<Payment>, fee: UInt64, id: ChannelId)
    requires WellFormed(queue)
    ensures Inv(terms, PopForFee(queue, fee, id).0)
  {
    var i := FirstAtLeast(queue, fee);
    if i < |queue| {
      RemoveKeepsWellFormed(queue, i);
    }
  }

  lemma {:induction false} InterceptedInv(
    terms: ChannelTerms, view: ChannelView, htlc: InterceptedHTLC, next: ChannelView, action: Action)
    requires Inv(terms, view)
    requires (next, action) == OnIntercepted(terms, view, htlc)
    ensures if action.Refused? then next == PendingInitialPayment([Payment(htlc.paymentHash, [htlc])])
            else Inv(terms, next)
  {
    match view
    case PendingInitialPayment(queue) => InitialInv(terms, queue, htlc, next, action);
    case PendingChannelOpen(queue, fee) => OpenInv(terms, queue, fee, htlc);
    case PendingPaymentForward(queue, _, _) => AddKeepsWellFormed(queue, htlc);
    case PendingPayment(queue, fee, id) =>
      AddKeepsWellFormed(queue, htlc);
      PopInv(terms, Added(queue, htlc), fee, id);
    case PaymentForwarded(_) =>
  }

  lemma {:induction false} OpenInv(terms: ChannelTerms, queue: seq<Payment>, fee: UInt64, htlc: InterceptedHTLC)
    requires Inv(terms, PendingChannelOpen(queue, fee))
    ensures Inv(terms, PendingChannelOpen(Added(queue, htlc), fee))
  {
    AddKeepsWellFormed(queue, htlc);
    var i :| 0 <= i < |queue| && Total(queue[i].htlcs) > fee;
    AddedTotals(queue, htlc, i);
    AddedTotals(queue, htlc, 0);
  }

  /** What the first HTLCs of a channel lead to, by the group they complete. */
  ghost predicate InitialOutcome(terms: ChannelTerms, group: seq<InterceptedHTLC>, next: ChannelView, action: Action) {
    match action
    case NoAction => next.PendingInitialPayment? && Payable(terms)
                     && (AdmittedFixedSize(terms) ==> Total(group) < terms.paymentSizeMsat.value)
    case OpenChannel(fee, _) => next.PendingChannelOpen? && next.openingFeeMsat == fee < Total(group)
    case Refused => next.PendingInitialPayment? && !Payable(terms)
    case _ => false
  }

  lemma {:induction false} InitialOutcomeHolds(
    terms: ChannelTerms, queue: seq<Payment>, htlc: InterceptedHTLC, next: ChannelView, action: Action)
    requires terms.paymentSizeMsat.None? ==> queue == []
    requires (next, action) == OnInitialHtlc(terms, queue, htlc)
    ensures next.Queue() == Added(queue, htlc)
    ensures InitialOutcome(terms, Group(Added(queue, htlc), htlc.paymentHash), next, action)
  {
  }

  /** Every entry but one is below the amount. */
  ghost predicate OthersBelow(queue: seq<Payment>, k: nat, amount: nat) {
    forall i :: 0 <= i < |queue| && i != k ==> Total(queue[i].htlcs) < amount
  }

  lemma {:induction false} OthersStayBelow(queue: seq<Payment>, htlc: InterceptedHTLC, fee: nat)
    requires AllBelow(queue, fee)
    ensures OthersBelow(Added(queue, htlc), Find(queue, htlc.paymentHash), fee)
  {
    var added, k := Added(queue, htlc), Find(queue, htlc.paymentHash);
    forall i | 0 <= i < |added| && i != k
      ensures Total(added[i].htlcs) < fee
    {
      AddedEntry(queue, htlc, i);
    }
  }

  lemma {:induction false} OwnEntry(queue: seq<Payment>, htlc: InterceptedHTLC)
    ensures var (added, k) := (Added(queue, htlc), Find(queue, htlc.paymentHash));
            k < |added| && added[k].htlcs == Group(added, htlc.paymentHash)
  {
    AddedEntry(queue, htlc, Find(queue, htlc.paymentHash));
    AddedGroup(queue, htlc, htlc.paymentHash);
  }

  lemma {:induction false} StillBelow(queue: seq<Payment>, htlc: InterceptedHTLC, size: nat)
    requires AllBelow(queue, size) && Total(Group(Added(queue, htlc), htlc.paymentHash)) < size
    ensures AllBelow(Added(queue, htlc), size)
  {
    OwnEntry(queue, htlc);
    OthersStayBelow(queue, htlc, size);
  }

  lemma {:induction false} NowAbove(queue: seq<Payment>, htlc: InterceptedHTLC, fee: nat)
    requires fee < Total(Group(Added(queue, htlc), htlc.paymentHash))
    ensures SomeAbove(Added(queue, htlc), fee)
    ensures queue == [] ==> Total(Added(queue, htlc)[0].htlcs) > fee
  {
    OwnEntry(queue, htlc);
  }

  lemma {:induction false} OutcomeInv(
    terms: ChannelTerms, queue: seq<Payment>, htlc: InterceptedHTLC, next: ChannelView, action: Action)
    requires Inv(terms, PendingInitialPayment(queue))
    requires next.Queue() == Added(queue, htlc)
    requires InitialOutcome(terms, Group(Added(queue, htlc), htlc.paymentHash), next, action)
    ensures if action.Refused? then next == PendingInitialPayment([Payment(htlc.paymentHash, [htlc])])
            else Inv(terms, next)
  {
    AddKeepsWellFormed(queue, htlc);
    if action.OpenChannel? {
      NowAbove(queue, htlc, next.openingFeeMsat);
    } else if AdmittedFixedSize(terms) && action.NoAction? {
      StillBelow(queue, htlc, terms.paymentSizeMsat.value);
    }
  }

  lemma {:induction false} InitialInv(
    terms: ChannelTerms, queue: seq<Payment>, htlc: InterceptedHTLC, next: ChannelView, action: Action)
    requires Inv(terms, PendingInitialPayment(queue))
    requires (next, action) == OnInitialHtlc(terms, queue, htlc)
    ensures if action.Refused? then next == PendingInitialPayment([Payment(htlc.paymentHash, [htlc])])
            else Inv(terms, next)
  {
    InitialOutcomeHolds(terms, queue, htlc, next, action);
    OutcomeInv(terms, queue, htlc, next, action);
  }

  lemma {:induction false} LiveSnoc(terms: ChannelTerms, events: seq<ChannelEvent>, event: ChannelEvent)
    ensures Live(terms, events + [event]) == Advance(terms, Live(terms, events), event)
  {
    assert (events + [event])[..|events|] == events;
  }

  /** The one HTLC still queued when a channel is dropped. */
  ghost predicate DroppedWith(life: Life, htlc: InterceptedHTLC) {
    && life.view == PendingInitialPayment([Payment(htlc.paymentHash, [htlc])])
    && life.log != []
    && life.log[|life.log| - 1] == Handled(Intercepted(htlc), Refused)
  }

  /**
   Every reachable channel satisfies the invariant. A dropped one holds exactly the HTLC whose
   refusal dropped it, so dropping its queue loses nothing.
   */
  lemma {:induction false} LiveInv(terms: ChannelTerms, events: seq<ChannelEvent>)
    ensures var life := Live(terms, events);
            if life.removed then exists htlc :: DroppedWith(life, htlc) else Inv(terms, life.view)
  {
    if events != [] {
      var n := |events| - 1;
      LiveInv(terms, events[..n]);
      var before := Live(terms, events[..n]);
      if !before.removed {
        StepInv(terms, before.view, events[n]);
        if Live(terms, events).removed {
          assert DroppedWith(Live(terms, events), events[n].htlc);
        }
      }
    }
  }

  // ---- Opening the channel and making it ready ----

  /** A channel whose opening was requested always has a payment to forward once it is ready. */
  lemma {:induction false} ReadyAlwaysForwards(terms: ChannelTerms, events: seq<ChannelEvent>, id: ChannelId)
    requires Live(terms, events).view.PendingChannelOpen?
    ensures SomeAbove(Live(terms, events).view.queue, Live(terms, events).view.openingFeeMsat)
    ensures OnReady(Live(terms, events).view, id).1.ForwardPayment?
  {
    LiveInv(terms, events);
    var view := Live(terms, events).view;
    assert SomeAbove(view.queue, view.openingFeeMsat);
    var i :| 0 <= i < |view.queue| && Total(view.queue[i].htlcs) > view.openingFeeMsat;
    assert FirstAtLeast(view.queue, view.openingFeeMsat) <= i;
  }

  /** Buy admission suffices: a channel bought for a fixed size never refuses an HTLC. */
  lemma {:induction false} FixedSizeNeverRefuses(terms: ChannelTerms, events: seq<ChannelEvent>)
    requires AdmittedFixedSize(terms)
    ensures !Live(terms, events).removed
    ensures forall htlc :: !OnIntercepted(terms, Live(terms, events).view, htlc).1.Refused?
  {
    if events != [] {
      FixedSizeNeverRefuses(terms, events[..|events| - 1]);
    }
  }

  /** ... and it opens exactly at the HTLC that brings one payment hash to the size, for that size less its fee. */
  lemma {:induction false} FixedSizeOpensExactly(terms: ChannelTerms, events: seq<ChannelEvent>, htlc: InterceptedHTLC)
    requires AdmittedFixedSize(terms)
    requires Live(terms, events).view.PendingInitialPayment?
    ensures var (size, queue) := (terms.paymentSizeMsat.value, Live(terms, events).view.queue);
            var group := Total(Group(queue, htlc.paymentHash));
            && AllBelow(queue, size)
            && (OnIntercepted(terms, PendingInitialPayment(queue), htlc).1.OpenChannel? <==>
                  group + htlc.expectedOutboundAmountMsat >= size)
            && (OnIntercepted(terms, PendingInitialPayment(queue), htlc).1.NoAction? <==>
                  group + htlc.expectedOutboundAmountMsat < size)
            && (group + htlc.expectedOutboundAmountMsat >= size ==>
                  var fee := OpeningFeeFor(terms, size).value;
                  OnIntercepted(terms, PendingInitialPayment(queue), htlc) ==
                  (PendingChannelOpen(Added(queue, htlc), fee), OpenChannel(fee, size - fee)))
  {
    FixedSizeNeverRefuses(terms, events);
    LiveInv(terms, events);
    var queue := Live(terms, events).view.queue;
    AddedGroup(queue, htlc, htlc.paymentHash);
    TotalSnoc(Group(queue, htlc.paymentHash), htlc);
  }

  /** With a variable amount nothing waits before the opening, so the first HTLC is alone in its group. */
  lemma {:induction false} VariableSizeQueueEmpty(terms: ChannelTerms, events: seq<ChannelEvent>, htlc: InterceptedHTLC)
    requires terms.paymentSizeMsat.None?
    requires !Live(terms, events).removed && Live(terms, events).view.PendingInitialPayment?
    ensures Live(terms, events).view.queue == []
    ensures |Group(Added(Live(terms, events).view.queue, htlc), htlc.paymentHash)| == 1
  {
    LiveInv(terms, events);
    AddedGroup([], htlc, htlc.paymentHash);
  }

  // ---- Work conservation ----

  /** While a payment is awaited, no queued one can bear the fee. */
  lemma {:induction false} AwaitingMeansAllBelow(terms: ChannelTerms, events: seq<ChannelEvent>)
    requires Live(terms, events).view.PendingPayment?
    ensures AllBelow(Live(terms, events).view.queue, Live(terms, events).view.openingFeeMsat)
  {
    LiveInv(terms, events);
  }

  /** ... so what a new HTLC sets off is the forwarding of its own payment; the others stay below the fee. */
  lemma {:induction false} TriggersItsOwnPayment(terms: ChannelTerms, events: seq<ChannelEvent>, htlc: InterceptedHTLC)
    requires Live(terms, events).view.PendingPayment?
    ensures var view := Live(terms, events).view;
            var own := Group(view.queue, htlc.paymentHash) + [htlc];
            var (next, action) := OnIntercepted(terms, view, htlc);
            && AllBelow(next.Queue(), view.openingFeeMsat)
            && if Total(own) >= view.openingFeeMsat
               then action == ForwardPayment(view.channelId, own, view.openingFeeMsat)
               else
                 && action == NoAction
                 && next == PendingPayment(Added(view.queue, htlc), view.openingFeeMsat, view.channelId)
  {
    AwaitingMeansAllBelow(terms, events);
    var view := Live(terms, events).view;
    OnlyOwnGroupCanBear(view.queue, htlc, view.openingFeeMsat);
  }

  lemma {:induction false} RemovedBelow(queue: seq<Payment>, k: nat, amount: nat)
    requires k < |queue| && OthersBelow(queue, k, amount)
    ensures AllBelow(Removed(queue, k), amount)
  {
    var rest := Removed(queue, k);
    forall i | 0 <= i < |rest|
      ensures Total(rest[i].htlcs) < amount
    {
      assert rest[i] == queue[if i < k then i else i + 1];
    }
  }

  lemma {:induction false} OnlyCandidate(queue: seq<Payment>, k: nat, amount: nat)
    requires k < |queue| && OthersBelow(queue, k, amount)
    ensures FirstAtLeast(queue, amount) == if Total(queue[k].htlcs) >= amount then k else |queue|
    ensures Total(queue[k].htlcs) < amount ==> AllBelow(queue, amount)
  {
    FirstAtLeastIsFirst(queue, amount, if Total(queue[k].htlcs) >= amount then k else |queue|);
  }

  lemma {:induction false} OnlyOwnGroupCanBear(queue: seq<Payment>, htlc: InterceptedHTLC, fee: nat)
    requires AllBelow(queue, fee)
    ensures var added := Added(queue, htlc);
            var k := Find(queue, htlc.paymentHash);
            var own := Group(queue, htlc.paymentHash) + [htlc];
            && k < |added| && added[k].htlcs == own
            && FirstAtLeast(added, fee) == (if Total(own) >= fee then k else |added|)
            && AllBelow(Removed(added, k), fee)
            && (Total(own) < fee ==> AllBelow(added, fee))
  {
    var added, k := Added(queue, htlc), Find(queue, htlc.paymentHash);
    AddedEntry(queue, htlc, k);
    OthersStayBelow(queue, htlc, fee);
    RemovedBelow(added, k, fee);
    OnlyCandidate(added, k, fee);
  }

  // ---- Fee payments ----

  ghost predicate GoodFeePayment(action: Action) {
    action.ForwardPayment? ==> action.htlcs != [] && Total(action.htlcs) >= action.openingFeeMsat
  }

  lemma {:induction false} PopIsGood(queue: seq<Payment>, fee: UInt64, id: ChannelId)
    requires WellFormed(queue)
    ensures GoodFeePayment(PopForFee(queue, fee, id).1)
  {
  }

  lemma {:induction false} StepFeePaymentGood(terms: ChannelTerms, view: ChannelView, event: ChannelEvent)
    requires Inv(terms, view)
    ensures GoodFeePayment(OnEvent(terms, view, event).1)
  {
    if view.PendingChannelOpen? || view.PendingPaymentForward? || view.PendingPayment? {
      var id := if view.PendingChannelOpen? && event.Ready? then event.channelId
                else if view.PendingChannelOpen? then ChannelId([]) else view.channelId;
      PopIsGood(view.queue, view.openingFeeMsat, id);
      if event.Intercepted? {
        AddKeepsWellFormed(view.queue, event.htlc);
        PopIsGood(Added(view.queue, event.htlc), view.openingFeeMsat, id);
      }
    }
  }

  /** Whichever route a fee payment takes, it is non-empty and bears the fee. */
  lemma {:induction false} FeePaymentsBearTheFee(terms: ChannelTerms, events: seq<ChannelEvent>)
    ensures forall k :: 0 <= k < |Live(terms, events).log| ==> GoodFeePayment(Live(terms, events).log[k].action)
  {
    if events != [] {
      var n := |events| - 1;
      var before := Live(terms, events[..n]);
      FeePaymentsBearTheFee(terms, events[..n]);
      LiveInv(terms, events[..n]);
      if !before.removed {
        StepFeePaymentGood(terms, before.view, events[n]);
      }
    }
  }
}
