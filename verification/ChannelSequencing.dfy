/** One fee payment in flight at a time, and what the opening promises is what gets forwarded. */
module ChannelSequencing {
  import opened Types
  import opened PaymentQueues
  import opened OpeningFees
  import opened FeeSplit
  import opened JitChannels
  import opened ChannelRuns

  /** Whether a fee payment may be forwarded before the next failure. */
  function Credit(view: ChannelView): nat {
    if view.PendingPaymentForward? || view.PaymentForwarded? then 0 else 1
  }

  /** Fee payments forwarded beyond those that failures account for, and the one still allowed. */
  function Balance(life: Life): int {
    FeeForwards(life.log) - Failures(life.log) + Credit(life.view)
  }

  lemma {:induction false} StepBalance(terms: ChannelTerms, view: ChannelView, event: ChannelEvent)
    ensures var (next, action) := OnEvent(terms, view, event);
            (if action.ForwardPayment? then 1 else 0) + Credit(next)
            <= Credit(view) + if event.HandlingFailed? && !action.Refused? then 1 else 0
  {
  }

  lemma {:induction false} CountsSnoc(log: seq<Handled>, last: Handled)
    ensures FeeForwards(log + [last]) == FeeForwards(log) + if last.action.ForwardPayment? then 1 else 0
    ensures Failures(log + [last]) ==
            Failures(log) + if last.event.HandlingFailed? && !last.action.Refused? then 1 else 0
    ensures Opens(log + [last]) == Opens(log) + if last.action.OpenChannel? then 1 else 0
  {
    assert (log + [last])[..|log|] == log;
  }

  lemma {:induction false} FinalState(terms: ChannelTerms, view: ChannelView, event: ChannelEvent)
    requires view.PaymentForwarded?
    ensures OnEvent(terms, view, event).0 == view
    ensures !OnEvent(terms, view, event).1.ForwardPayment?
  {
  }

  /** What one more entry of the log does to the balance. */
  lemma {:induction false} OneMoreEntry(life: Life, last: Handled, next: ChannelView, removed: bool)
    requires (if last.action.ForwardPayment? then 1 else 0) + Credit(next)
          <= Credit(life.view) + if last.event.HandlingFailed? && !last.action.Refused? then 1 else 0
    ensures Balance(Life(next, removed, life.log + [last])) <= Balance(life)
    ensures Failures(life.log) <= Failures(life.log + [last])
    ensures !last.action.ForwardPayment? ==> FeeForwards(life.log + [last]) == FeeForwards(life.log)
  {
    CountsSnoc(life.log, last);
  }

  lemma {:induction false} OneMoreEvent(terms: ChannelTerms, events: seq<ChannelEvent>, event: ChannelEvent)
    ensures Balance(Live(terms, events + [event])) <= Balance(Live(terms, events))
    ensures Failures(Live(terms, events).log) <= Failures(Live(terms, events + [event]).log)
    ensures Live(terms, events).view.PaymentForwarded? ==>
              && Live(terms, events + [event]).view == Live(terms, events).view
              && FeeForwards(Live(terms, events + [event]).log) == FeeForwards(Live(terms, events).log)
  {
    var life, after := Live(terms, events), Live(terms, events + [event]);
    LiveSnoc(terms, events, event);
    if !life.removed {
      var (view, action) := OnEvent(terms, life.view, event);
      var last := Handled(event, action);
      assert after == Life(view, event.Intercepted? && action.Refused?, life.log + [last]);
      StepBalance(terms, life.view, event);
      OneMoreEntry(life, last, view, after.removed);
      if life.view.PaymentForwarded? {
        FinalState(terms, life.view, event);
      }
    }
  }

  lemma {:induction false} ThenOneMore(before: seq<ChannelEvent>, after: seq<ChannelEvent>)
    requires after != []
    ensures before + after == (before + after[..|after| - 1]) + [after[|after| - 1]]
  {
  }

  lemma {:induction false} BalanceNeverRises(terms: ChannelTerms, before: seq<ChannelEvent>, after: seq<ChannelEvent>)
    ensures Balance(Live(terms, before + after)) <= Balance(Live(terms, before))
    ensures Failures(Live(terms, before).log) <= Failures(Live(terms, before + after).log)
    decreases |after|
  {
    if after == [] {
      assert before + after == before;
    } else {
      var init := after[..|after| - 1];
      BalanceNeverRises(terms, before, init);
      ThenOneMore(before, after);
      OneMoreEvent(terms, before + init, after[|after| - 1]);
    }
  }

  /** At most one fee payment more than there were failures. */
  lemma {:induction false} FeeForwardsBounded(terms: ChannelTerms, events: seq<ChannelEvent>)
    ensures FeeForwards(Live(terms, events).log) <= 1 + Failures(Live(terms, events).log)
  {
    BalanceNeverRises(terms, [], events);
    assert [] + events == events;
  }

  /** While one fee payment is in flight, no other is forwarded without a failure in between. */
  lemma {:induction false} FeeForwardsSeparated(
    terms: ChannelTerms, before: seq<ChannelEvent>, after: seq<ChannelEvent>)
    requires Live(terms, before).view.PendingPaymentForward?
    ensures FeeForwards(Live(terms, before + after).log) - FeeForwards(Live(terms, before).log)
         <= Failures(Live(terms, before + after).log) - Failures(Live(terms, before).log)
  {
    BalanceNeverRises(terms, before, after);
  }

  /** After a payment succeeded the channel stays as it is and skims no further fee. */
  lemma {:induction false} NoFeeAfterSuccess(terms: ChannelTerms, before: seq<ChannelEvent>, after: seq<ChannelEvent>)
    requires Live(terms, before).view.PaymentForwarded?
    ensures Live(terms, before + after).view == Live(terms, before).view
    ensures FeeForwards(Live(terms, before + after).log) == FeeForwards(Live(terms, before).log)
    decreases |after|
  {
    if after == [] {
      assert before + after == before;
    } else {
      var init := after[..|after| - 1];
      NoFeeAfterSuccess(terms, before, init);
      ThenOneMore(before, after);
      OneMoreEvent(terms, before + init, after[|after| - 1]);
    }
  }

  function FeeOf(view: ChannelView): Option<UInt64> {
    if view.PendingInitialPayment? || view.PaymentForwarded? then None else Some(view.openingFeeMsat)
  }

  function ChannelIdOf(view: ChannelView): Option<ChannelId> {
    if view.PendingInitialPayment? || view.PendingChannelOpen? then None else Some(view.channelId)
  }

  /** The opening fee, once fixed, is the fee until a payment succeeds; the channel id never changes. */
  lemma {:induction false} FeeAndChannelFixed(terms: ChannelTerms, before: seq<ChannelEvent>, after: seq<ChannelEvent>)
    ensures var (was, now) := (Live(terms, before).view, Live(terms, before + after).view);
            && (FeeOf(was).Some? ==> FeeOf(now) == FeeOf(was) || now.PaymentForwarded?)
            && (ChannelIdOf(was).Some? ==> ChannelIdOf(now) == ChannelIdOf(was))
            && (was.PaymentForwarded? ==> now.PaymentForwarded?)
    decreases |after|
  {
    if after == [] {
      assert before + after == before;
    } else {
      var init := after[..|after| - 1];
      FeeAndChannelFixed(terms, before, init);
      ThenOneMore(before, after);
      LiveSnoc(terms, before + init, after[|after| - 1]);
      var life := Live(terms, before + init);
      if !life.removed {
        StepKeepsFeeAndChannel(terms, life.view, after[|after| - 1]);
      }
    }
  }

  lemma {:induction false} StepKeepsFeeAndChannel(terms: ChannelTerms, view: ChannelView, event: ChannelEvent)
    ensures var next := OnEvent(terms, view, event).0;
            && (FeeOf(view).Some? ==> FeeOf(next) == FeeOf(view) || next.PaymentForwarded?)
            && (ChannelIdOf(view).Some? ==> ChannelIdOf(next) == ChannelIdOf(view))
            && (view.PaymentForwarded? ==> next.PaymentForwarded?)
  {
  }

  /** The opening of the channel is requested once, and exactly when it left its first state. */
  lemma {:induction false} OpensOnce(terms: ChannelTerms, events: seq<ChannelEvent>)
    ensures Opens(Live(terms, events).log) == if Live(terms, events).view.PendingInitialPayment? then 0 else 1
  {
    if events != [] {
      var n := |events| - 1;
      var life := Live(terms, events[..n]);
      OpensOnce(terms, events[..n]);
      if !life.removed {
        OpenLeavesFirstState(terms, life.view, events[n]);
        CountsSnoc(life.log, Handled(events[n], OnEvent(terms, life.view, events[n]).1));
      }
    }
  }

  lemma {:induction false} OpenLeavesFirstState(terms: ChannelTerms, view: ChannelView, event: ChannelEvent)
    ensures var (next, action) := OnEvent(terms, view, event);
            action.OpenChannel? <==> view.PendingInitialPayment? && !next.PendingInitialPayment?
    ensures !view.PendingInitialPayment? ==> !OnEvent(terms, view, event).0.PendingInitialPayment?
  {
  }

  // ---- Paid before released ----

  /** A call of `htlc_handling_failed` that succeeded. */
  predicate HandledFailure(handled: Handled) { handled.event.HandlingFailed? && !handled.action.Refused? }

  /** Entry k forwarded a fee payment, and no failure was handled after it and before entry s. */
  predicate Unfailed(log: seq<Handled>, k: int, s: int) {
    && 0 <= k < s <= |log| && log[k].action.ForwardPayment?
    && forall j :: k < j < s ==> !HandledFailure(log[j])
  }

  ghost predicate InFlight(log: seq<Handled>) { exists k :: Unfailed(log, k, |log|) }

  /** Entry s released the queue, after the fee payment of entry k and no failure in between. */
  predicate PaidThenReleased(log: seq<Handled>, k: int, s: int) {
    s < |log| && Unfailed(log, k, s) && log[s].action.ForwardHTLCs?
  }

  ghost predicate Paid(life: Life) {
    match life.view
    case PendingPaymentForward(_, _, _) => InFlight(life.log)
    case PaymentForwarded(_) => exists k, s :: PaidThenReleased(life.log, k, s)
    case _ => true
  }

  lemma {:induction false} InFlightSnoc(log: seq<Handled>, last: Handled)
    requires last.action.ForwardPayment? || (InFlight(log) && !HandledFailure(last))
    ensures InFlight(log + [last])
  {
    if last.action.ForwardPayment? {
      assert Unfailed(log + [last], |log|, |log| + 1);
    } else {
      var k :| Unfailed(log, k, |log|);
      assert Unfailed(log + [last], k, |log| + 1);
    }
  }

  lemma {:induction false} ReleaseSnoc(log: seq<Handled>, last: Handled)
    requires InFlight(log) && last.action.ForwardHTLCs?
    ensures exists k, s :: PaidThenReleased(log + [last], k, s)
  {
    var k :| Unfailed(log, k, |log|);
    assert PaidThenReleased(log + [last], k, |log|);
  }

  lemma {:induction false} ReleasedSnoc(log: seq<Handled>, last: Handled)
    requires exists k, s :: PaidThenReleased(log, k, s)
    ensures exists k, s :: PaidThenReleased(log + [last], k, s)
  {
    var k, s :| PaidThenReleased(log, k, s);
    assert PaidThenReleased(log + [last], k, s);
  }

  lemma {:induction false} StepKeepsPaid(
    terms: ChannelTerms, life: Life, event: ChannelEvent, next: ChannelView, action: Action)
    requires Paid(life) && (next, action) == OnEvent(terms, life.view, event)
    ensures Paid(Life(next, event.Intercepted? && action.Refused?, life.log + [Handled(event, action)]))
  {
    var last := Handled(event, action);
    if next.PendingPaymentForward? {
      InFlightSnoc(life.log, last);
    } else if life.view.PaymentForwarded? {
      ReleasedSnoc(life.log, last);
    } else if next.PaymentForwarded? {
      ReleaseSnoc(life.log, last);
    }
  }

  lemma {:induction false} LivePaid(terms: ChannelTerms, events: seq<ChannelEvent>)
    ensures Paid(Live(terms, events))
  {
    if events != [] {
      var n := |events| - 1;
      var life := Live(terms, events[..n]);
      LivePaid(terms, events[..n]);
      if !life.removed {
        var (next, action) := OnEvent(terms, life.view, events[n]);
        StepKeepsPaid(terms, life, events[n], next, action);
      }
    }
  }

  /** Nothing is released before a fee payment was forwarded and not failed: the fee is deducted until one succeeds. */
  lemma {:induction false} PaidBeforeReleased(terms: ChannelTerms, events: seq<ChannelEvent>) returns (k: nat, s: nat)
    requires Live(terms, events).view.PaymentForwarded?
    ensures PaidThenReleased(Live(terms, events).log, k, s)
  {
    LivePaid(terms, events);
    k, s :| PaidThenReleased(Live(terms, events).log, k, s);
  }

  // ---- The advertised amount ----

  /** The HTLC that set off the opening, the fee announced and the amount announced. */
  datatype Opening = Opening(htlc: InterceptedHTLC, openingFeeMsat: UInt64, amtToForwardMsat: nat)

  function OpenedBy(log: seq<Handled>): Option<Opening> {
    if log == [] then None
    else
      var last := log[|log| - 1];
      if last.event.Intercepted? && last.action.OpenChannel?
      then Some(Opening(last.event.htlc, last.action.openingFeeMsat, last.action.amtToForwardMsat))
      else OpenedBy(log[..|log| - 1])
  }

  lemma {:induction false} OpenedBySnoc(log: seq<Handled>, last: Handled)
    ensures OpenedBy(log + [last]) ==
            if last.event.Intercepted? && last.action.OpenChannel?
            then Some(Opening(last.event.htlc, last.action.openingFeeMsat, last.action.amtToForwardMsat))
            else OpenedBy(log)
  {
    assert (log + [last])[..|log|] == log;
  }

  /** The queue of a channel being opened for a variable amount leads with the payment that asked for it. */
  ghost predicate LedByOpener(life: Life) {
    && life.view.PendingChannelOpen?
    && OpenedBy(life.log).Some?
    && var opening := OpenedBy(life.log).value;
       && life.view.openingFeeMsat == opening.openingFeeMsat
       && opening.htlc.expectedOutboundAmountMsat == opening.openingFeeMsat + opening.amtToForwardMsat
       && opening.amtToForwardMsat > 0
       && life.view.queue != []
       && life.view.queue[0].paymentHash == opening.htlc.paymentHash
       && [opening.htlc] <= life.view.queue[0].htlcs
  }

  lemma {:induction false} OpenerLeads(terms: ChannelTerms, events: seq<ChannelEvent>)
    requires terms.paymentSizeMsat.None?
    ensures Live(terms, events).view.PendingChannelOpen? ==> LedByOpener(Live(terms, events))
  {
    if events != [] && Live(terms, events).view.PendingChannelOpen? {
      var n := |events| - 1;
      var before := Live(terms, events[..n]);
      OpenerLeads(terms, events[..n]);
      if !before.removed {
        assert Live(terms, events).log[..|before.log|] == before.log;
        if before.view.PendingInitialPayment? {
          VariableSizeQueueEmpty(terms, events[..n], events[n].htlc);
          TotalSnoc([], events[n].htlc);
          assert [] + [events[n].htlc] == [events[n].htlc];
        } else if events[n].Intercepted? {
          AddedTotals(before.view.queue, events[n].htlc, 0);
        }
      }
    }
  }

  lemma {:induction false} TotalOfExtension(htlcs: seq<InterceptedHTLC>, first: InterceptedHTLC)
    requires [first] <= htlcs
    ensures Total(htlcs) >= first.expectedOutboundAmountMsat
    ensures |htlcs| == 1 ==> Total(htlcs) == first.expectedOutboundAmountMsat
  {
    TotalPrefix(htlcs, 1);
    TotalSnoc([], first);
    assert htlcs[..1] == [] + [first];
    if |htlcs| == 1 {
      assert htlcs[..1] == htlcs;
    }
  }

  /**
   With a variable amount, making the channel ready forwards the payment that asked for the channel,
   and at least the advertised amount of it; exactly that amount when it is a single HTLC.
   */
  lemma {:induction false} AdvertisedAmountHonoured(terms: ChannelTerms, events: seq<ChannelEvent>, id: ChannelId)
    requires terms.paymentSizeMsat.None?
    requires Live(terms, events).view.PendingChannelOpen?
    ensures OpenedBy(Live(terms, events).log).Some?
    ensures var opening := OpenedBy(Live(terms, events).log).value;
            var action := OnReady(Live(terms, events).view, id).1;
            && action.ForwardPayment?
            && action.openingFeeMsat == opening.openingFeeMsat
            && [opening.htlc] <= action.htlcs
            && SumForwards(Split(action.htlcs, action.openingFeeMsat)) >= opening.amtToForwardMsat
            && (action.htlcs == [opening.htlc] ==>
                  SumForwards(Split(action.htlcs, action.openingFeeMsat)) == opening.amtToForwardMsat)
  {
    OpenerLeads(terms, events);
    var view := Live(terms, events).view;
    var opening := OpenedBy(Live(terms, events).log).value;
    var htlcs := view.queue[0].htlcs;
    TotalOfExtension(htlcs, opening.htlc);
    FirstAtLeastIsFirst(view.queue, view.openingFeeMsat, 0);
    SplitConserves(htlcs, view.openingFeeMsat);
  }

  /** For any terms, the payment under `hash` is the one forwarded iff it bears the fee and no earlier one does. */
  lemma {:induction false} ReadyForwardsPaymentIff(view: ChannelView, id: ChannelId, hash: PaymentHash)
    requires view.PendingChannelOpen? && WellFormed(view.queue) && Find(view.queue, hash) < |view.queue|
    ensures var k := Find(view.queue, hash);
            OnReady(view, id).1 == ForwardPayment(id, Group(view.queue, hash), view.openingFeeMsat) <==>
            Total(view.queue[k].htlcs) >= view.openingFeeMsat && AllBelow(view.queue[..k], view.openingFeeMsat)
  {
    var k := Find(view.queue, hash);
    var i := FirstAtLeast(view.queue, view.openingFeeMsat);
    if i < |view.queue| && i != k {
      assert view.queue[i].htlcs[0].paymentHash != view.queue[k].htlcs[0].paymentHash;
    }
    if Total(view.queue[k].htlcs) >= view.openingFeeMsat && AllBelow(view.queue[..k], view.openingFeeMsat) {
      forall j | 0 <= j < k
        ensures Total(view.queue[j].htlcs) < view.openingFeeMsat
      {
        assert view.queue[..k][j] == view.queue[j];
      }
      FirstAtLeastIsFirst(view.queue, view.openingFeeMsat, k);
    }
  }

  /** A fixed-size purchase of 10 msat at a flat fee of 1 msat. */
  function SmallTerms(date: DateTime): ChannelTerms {
    ChannelTerms(OpeningFeeParams(1, 0, date, 0, 0, 1, 10, ""), Some(10))
  }

  lemma {:induction false} SmallFee(date: DateTime)
    ensures OpeningFeeFor(SmallTerms(date), 10) == Some(1)
  {
    assert Covers(1, 10, 1, 0);
  }

  /** The first HTLC of a payment hash that is not queued is a group of its own, at the end. */
  lemma {:induction false} AddedNew(queue: seq<Payment>, htlc: InterceptedHTLC)
    requires Find(queue, htlc.paymentHash) == |queue|
    ensures Added(queue, htlc) == queue + [Payment(htlc.paymentHash, [htlc])]
    ensures Group(Added(queue, htlc), htlc.paymentHash) == [htlc]
    ensures Total([htlc]) == htlc.expectedOutboundAmountMsat
  {
    AddedGroup(queue, htlc, htlc.paymentHash);
    TotalSnoc([], htlc);
    assert [] + [htlc] == [htlc];
  }

  lemma {:induction false} SmallWaits(date: DateTime, small: InterceptedHTLC)
    requires small.expectedOutboundAmountMsat == 5
    ensures OnInitialHtlc(SmallTerms(date), [], small) ==
            (PendingInitialPayment([Payment(small.paymentHash, [small])]), NoAction)
  {
    SmallFee(date);
    AddedNew([], small);
    assert [] + [Payment(small.paymentHash, [small])] == [Payment(small.paymentHash, [small])];
  }

  lemma {:induction false} FullOpens(date: DateTime, queue: seq<Payment>, full: InterceptedHTLC)
    requires full.expectedOutboundAmountMsat == 10 && Find(queue, full.paymentHash) == |queue|
    ensures OnInitialHtlc(SmallTerms(date), queue, full) ==
            (PendingChannelOpen(queue + [Payment(full.paymentHash, [full])], 1), OpenChannel(1, 9))
  {
    SmallFee(date);
    AddedNew(queue, full);
  }

  lemma {:induction false} SmallGoesFirst(small: InterceptedHTLC, rest: seq<Payment>, id: ChannelId)
    requires small.expectedOutboundAmountMsat == 5
    ensures OnReady(PendingChannelOpen([Payment(small.paymentHash, [small])] + rest, 1), id).1 ==
            ForwardPayment(id, [small], 1)
  {
    AddedNew([], small);
    FirstAtLeastIsFirst([Payment(small.paymentHash, [small])] + rest, 1, 0);
  }

  lemma {:induction false} StepIs(
    terms: ChannelTerms, events: seq<ChannelEvent>, event: ChannelEvent, life: Life, view: ChannelView, action: Action)
    requires Live(terms, events) == life && !life.removed
    requires OnEvent(terms, life.view, event) == (view, action) && !action.Refused?
    ensures Live(terms, events + [event]) == Life(view, false, life.log + [Handled(event, action)])
  {
    LiveSnoc(terms, events, event);
  }

  lemma {:induction false} TwoSteps(
    terms: ChannelTerms, a: ChannelEvent, b: ChannelEvent, first: (ChannelView, Action), second: (ChannelView, Action))
    requires OnEvent(terms, NEWBORN.view, a) == first && !first.1.Refused?
    requires OnEvent(terms, first.0, b) == second && !second.1.Refused?
    ensures Live(terms, [a, b]) == Life(second.0, false, [Handled(a, first.1), Handled(b, second.1)])
  {
    var logA := [Handled(a, first.1)];
    StepIs(terms, [], a, NEWBORN, first.0, first.1);
    assert [] + [a] == [a] && [] + logA == logA;
    StepIs(terms, [a], b, Life(first.0, false, logA), second.0, second.1);
    assert [a] + [b] == [a, b] && logA + [Handled(b, second.1)] == [Handled(a, first.1), Handled(b, second.1)];
  }

  /** With a fixed size the payment that asked for the channel need not be the one forwarded first. */
  lemma {:induction false} AnotherPaymentMayGoFirst(
    date: DateTime, small: InterceptedHTLC, full: InterceptedHTLC, id: ChannelId)
    requires small.paymentHash != full.paymentHash
    requires small.expectedOutboundAmountMsat == 5 && full.expectedOutboundAmountMsat == 10
    ensures var life := Live(SmallTerms(date), [Intercepted(small), Intercepted(full)]);
            && OpenedBy(life.log) == Some(Opening(full, 1, 9))
            && OnReady(life.view, id).1 == ForwardPayment(id, [small], 1)
  {
    var queue := [Payment(small.paymentHash, [small])];
    var both := queue + [Payment(full.paymentHash, [full])];
    FindIsFirst(queue, full.paymentHash, 1);
    SmallWaits(date, small);
    FullOpens(date, queue, full);
    SmallGoesFirst(small, [Payment(full.paymentHash, [full])], id);
    TwoSteps(SmallTerms(date), Intercepted(small), Intercepted(full),
             (PendingInitialPayment(queue), NoAction), (PendingChannelOpen(both, 1), OpenChannel(1, 9)));
  }
}
