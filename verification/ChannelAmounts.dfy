/** Conservation of msat over every run of a channel: nothing is forwarded, failed or skimmed that did not come in. */
module ChannelAmounts {
  import opened Types
  import opened Arithmetic
  import opened PaymentQueues
  import opened FeeSplit
  import opened JitChannels
  import opened ChannelRuns
  import opened ChannelConservation
  import opened ChannelSequencing

  /** What the channel manager is told to forward, in all. */
  function Sent(calls: seq<ManagerCall>): nat {
    if calls == [] then 0
    else
      var last := calls[|calls| - 1];
      Sent(calls[..|calls| - 1]) + if last.ForwardInterceptedHtlc? then last.amountMsat else 0
  }

  /** What a fee payment brings in and does not forward. */
  function Skim(action: Action): int {
    if action.ForwardPayment? then Total(action.htlcs) - SumForwards(Split(action.htlcs, action.openingFeeMsat)) else 0
  }

  /** The amount of an HTLC that a step fails. */
  function FailedBy(event: ChannelEvent, action: Action): nat {
    if event.Intercepted? && action.Refused? then event.htlc.expectedOutboundAmountMsat else 0
  }

  function Skimmed(log: seq<Handled>): int {
    if log == [] then 0 else Skimmed(log[..|log| - 1]) + Skim(log[|log| - 1].action)
  }

  function Failed(log: seq<Handled>): nat {
    if log == [] then 0
    else Failed(log[..|log| - 1]) + FailedBy(log[|log| - 1].event, log[|log| - 1].action)
  }

  function QueuedMsat(queue: seq<Payment>): nat { Total(Flatten(queue)) }

  function HeldMsat(life: Life): nat { if life.removed then 0 else QueuedMsat(life.view.Queue()) }

  function EnteringMsat(event: ChannelEvent): nat {
    if event.Intercepted? then event.htlc.expectedOutboundAmountMsat else 0
  }

  lemma {:induction false} TotalConcat(a: seq<InterceptedHTLC>, b: seq<InterceptedHTLC>)
    ensures Total(a + b) == Total(a) + Total(b)
  {
    if b == [] {
      assert a + b == a;
    } else {
      var n := |b| - 1;
      assert a + b == (a + b[..n]) + [b[n]];
      TotalConcat(a, b[..n]);
      TotalSnoc(a + b[..n], b[n]);
    }
  }

  lemma {:induction false} SentConcat(a: seq<ManagerCall>, b: seq<ManagerCall>)
    ensures Sent(a + b) == Sent(a) + Sent(b)
  {
    if b == [] {
      assert a + b == a;
    } else {
      var n := |b| - 1;
      assert (a + b)[..|a + b| - 1] == a + b[..n];
      SentConcat(a, b[..n]);
    }
  }

  lemma {:induction false} QueuedMsatSplit(queue: seq<Payment>, i: nat)
    requires i < |queue|
    ensures QueuedMsat(queue) == QueuedMsat(queue[..i]) + Total(queue[i].htlcs) + QueuedMsat(queue[i + 1..])
  {
    assert queue == queue[..i] + ([queue[i]] + queue[i + 1..]);
    FlattenConcat(queue[..i], [queue[i]] + queue[i + 1..]);
    FlattenConcat([queue[i]], queue[i + 1..]);
    assert Flatten([queue[i]]) == queue[i].htlcs + Flatten([]) == queue[i].htlcs;
    TotalConcat(Flatten(queue[..i]), queue[i].htlcs + Flatten(queue[i + 1..]));
    TotalConcat(queue[i].htlcs, Flatten(queue[i + 1..]));
  }

  lemma {:induction false} AddedMsat(queue: seq<Payment>, htlc: InterceptedHTLC)
    ensures QueuedMsat(Added(queue, htlc)) == QueuedMsat(queue) + htlc.expectedOutboundAmountMsat
  {
    var i := Find(queue, htlc.paymentHash);
    var after := Added(queue, htlc);
    QueuedMsatSplit(after, i);
    assert after[..i] == queue[..i];
    if i < |queue| {
      QueuedMsatSplit(queue, i);
      assert after[i + 1..] == queue[i + 1..];
      TotalSnoc(queue[i].htlcs, htlc);
    } else {
      assert after[i + 1..] == [] && queue[..i] == queue;
      TotalSnoc([], htlc);
      assert [] + [htlc] == [htlc];
    }
  }

  lemma {:induction false} RemovedMsat(queue: seq<Payment>, i: nat)
    requires i < |queue|
    ensures QueuedMsat(queue) == QueuedMsat(Removed(queue, i)) + Total(queue[i].htlcs)
  {
    QueuedMsatSplit(queue, i);
    FlattenConcat(queue[..i], queue[i + 1..]);
    TotalConcat(Flatten(queue[..i]), Flatten(queue[i + 1..]));
  }

  lemma {:induction false} SentSplit(forwards: seq<Forward>, id: ChannelId, peer: PublicKey)
    ensures Sent(ForwardSplit(forwards, id, peer)) == SumForwards(forwards)
  {
    if forwards != [] {
      var n := |forwards| - 1;
      SentSplit(forwards[..n], id, peer);
      assert ForwardSplit(forwards, id, peer)[..n] == ForwardSplit(forwards[..n], id, peer);
    }
  }

  lemma {:induction false} SentAll(htlcs: seq<InterceptedHTLC>, id: ChannelId, peer: PublicKey)
    ensures Sent(ForwardAll(htlcs, id, peer)) == Total(htlcs)
  {
    if htlcs != [] {
      var n := |htlcs| - 1;
      SentAll(htlcs[..n], id, peer);
      assert ForwardAll(htlcs, id, peer)[..n] == ForwardAll(htlcs[..n], id, peer);
    }
  }

  /** What enters a step is still queued, forwarded, failed or skimmed. */
  ghost predicate MsatBalances(
    peer: PublicKey, view: ChannelView, event: ChannelEvent, next: ChannelView, action: Action)
  {
    QueuedMsat(view.Queue()) + EnteringMsat(event) ==
    (if event.Intercepted? && action.Refused? then 0 else QueuedMsat(next.Queue()))
    + Sent(Calls(peer, event, action)) + FailedBy(event, action) + Skim(action)
  }

  lemma {:induction false} KeepingBalancesMsat(
    peer: PublicKey, view: ChannelView, event: ChannelEvent, next: ChannelView, action: Action)
    requires action.NoAction? || action.OpenChannel? || (action.Refused? && !event.Intercepted?)
    requires next.Queue() == if event.Intercepted? then Added(view.Queue(), event.htlc) else view.Queue()
    ensures MsatBalances(peer, view, event, next, action)
  {
    if event.Intercepted? {
      AddedMsat(view.Queue(), event.htlc);
    }
  }

  lemma {:induction false} PopBalancesMsat(
    peer: PublicKey, view: ChannelView, event: ChannelEvent, queue: seq<Payment>, fee: UInt64, id: ChannelId,
    next: ChannelView, action: Action)
    requires queue == if event.Intercepted? then Added(view.Queue(), event.htlc) else view.Queue()
    requires (next, action) == PopForFee(queue, fee, id)
    ensures MsatBalances(peer, view, event, next, action)
  {
    if event.Intercepted? {
      AddedMsat(view.Queue(), event.htlc);
    }
    var i := FirstAtLeast(queue, fee);
    if i < |queue| {
      RemovedMsat(queue, i);
      SentSplit(Split(queue[i].htlcs, fee), id, peer);
    }
  }

  lemma {:induction false} PassingBalancesMsat(
    peer: PublicKey, view: ChannelView, htlc: InterceptedHTLC, next: ChannelView, action: Action)
    requires view.Queue() == []
    requires action.Refused? || (action.ForwardHTLC? && next.Queue() == [])
    ensures MsatBalances(peer, view, Intercepted(htlc), next, action)
  {
    if action.ForwardHTLC? {
      SentAll([htlc], action.channelId, peer);
      TotalSnoc([], htlc);
      assert [] + [htlc] == [htlc];
    } else {
      assert Sent([FailInterceptedHtlc(htlc.interceptId)]) == 0;
    }
  }

  lemma {:induction false} InterceptedBalancesMsat(
    terms: ChannelTerms, peer: PublicKey, view: ChannelView, htlc: InterceptedHTLC, next: ChannelView, action: Action)
    requires Inv(terms, view) && (next, action) == OnIntercepted(terms, view, htlc)
    ensures MsatBalances(peer, view, Intercepted(htlc), next, action)
  {
    var event := Intercepted(htlc);
    if view.PendingInitialPayment? {
      RefusedMeansEmpty(terms, view.queue, htlc);
    }
    if view.PendingPayment? {
      PopBalancesMsat(peer, view, event, Added(view.queue, htlc), view.openingFeeMsat, view.channelId, next, action);
    } else if view.PaymentForwarded? || action.Refused? {
      PassingBalancesMsat(peer, view, htlc, next, action);
    } else {
      KeepingBalancesMsat(peer, view, event, next, action);
    }
  }

  lemma {:induction false} StepBalancesMsat(
    terms: ChannelTerms, peer: PublicKey, view: ChannelView, event: ChannelEvent, next: ChannelView, action: Action)
    requires Inv(terms, view) && (next, action) == OnEvent(terms, view, event)
    ensures MsatBalances(peer, view, event, next, action)
  {
    match event
    case Intercepted(htlc) => InterceptedBalancesMsat(terms, peer, view, htlc, next, action);
    case Ready(id) =>
      if action.Refused? {
        KeepingBalancesMsat(peer, view, event, next, action);
      } else {
        PopBalancesMsat(peer, view, event, view.queue, view.openingFeeMsat, id, next, action);
      }
    case HandlingFailed =>
      if view.PendingPaymentForward? {
        PopBalancesMsat(peer, view, event, view.queue, view.openingFeeMsat, view.channelId, next, action);
      } else {
        KeepingBalancesMsat(peer, view, event, next, action);
      }
    case Succeeded =>
      if view.PendingPaymentForward? {
        SentAll(Flatten(view.queue), view.channelId, peer);
      } else {
        KeepingBalancesMsat(peer, view, event, next, action);
      }
  }

  ghost predicate MsatConserved(peer: PublicKey, life: Life) {
    Total(Delivered(life.log)) ==
    HeldMsat(life) + Sent(CallsOf(peer, life.log)) + Failed(life.log) + Skimmed(life.log)
  }

  lemma {:induction false} MsatConservedByStep(
    peer: PublicKey, life: Life, event: ChannelEvent, next: ChannelView, action: Action)
    requires !life.removed && MsatConserved(peer, life)
    requires MsatBalances(peer, life.view, event, next, action)
    ensures MsatConserved(peer, Life(next, event.Intercepted? && action.Refused?, life.log + [Handled(event, action)]))
  {
    var last := Handled(event, action);
    var log := life.log + [last];
    assert log[..|log| - 1] == life.log;
    SentConcat(CallsOf(peer, life.log), Calls(peer, event, action));
    if event.Intercepted? {
      TotalSnoc(Delivered(life.log), event.htlc);
    } else {
      assert Delivered(life.log) + [] == Delivered(life.log);
    }
  }

  /** Over every run: what was delivered = what is held + forwarded + failed + skimmed, in msat. */
  lemma {:induction false} AmountsConserved(terms: ChannelTerms, peer: PublicKey, events: seq<ChannelEvent>)
    ensures MsatConserved(peer, Live(terms, events))
  {
    if events != [] {
      var n := |events| - 1;
      var before := Live(terms, events[..n]);
      AmountsConserved(terms, peer, events[..n]);
      LiveInv(terms, events[..n]);
      if !before.removed {
        var (next, action) := OnEvent(terms, before.view, events[n]);
        StepBalancesMsat(terms, peer, before.view, events[n], next, action);
        MsatConservedByStep(peer, before, events[n], next, action);
      }
    }
  }

  // ---- How much is skimmed ----

  lemma {:induction false} SumAtMost(forwards: seq<Forward>, htlcs: seq<InterceptedHTLC>)
    requires |forwards| == |htlcs|
    requires forall i :: 0 <= i < |htlcs| ==> forwards[i].amountMsat <= htlcs[i].expectedOutboundAmountMsat
    ensures SumForwards(forwards) <= Total(htlcs)
  {
    if htlcs != [] {
      SumAtMost(forwards[..|htlcs| - 1], htlcs[..|htlcs| - 1]);
    }
  }

  lemma {:induction false} SkimWithin(action: Action)
    requires action.ForwardPayment? && GoodFeePayment(action)
    ensures action.openingFeeMsat - PosPart(|action.htlcs| - 2) <= Skim(action) <= action.openingFeeMsat
    ensures 0 <= Skim(action)
  {
    SumAtMost(Split(action.htlcs, action.openingFeeMsat), action.htlcs);
    if Total(action.htlcs) > 0 {
      SplitConserves(action.htlcs, action.openingFeeMsat);
    }
  }

  /** A fee payment with its index in the log skims the fee, up to the rounding that the split leaves to the client. */
  lemma {:induction false} EveryPaymentSkimsTheFee(terms: ChannelTerms, events: seq<ChannelEvent>, k: nat)
    requires k < |Live(terms, events).log| && Live(terms, events).log[k].action.ForwardPayment?
    ensures var action := Live(terms, events).log[k].action;
            action.openingFeeMsat - PosPart(|action.htlcs| - 2) <= Skim(action) <= action.openingFeeMsat
  {
    FeePaymentsBearTheFee(terms, events);
    SkimWithin(Live(terms, events).log[k].action);
  }

  /** All fee payments of the log charge this fee. */
  ghost predicate SameFee(log: seq<Handled>, fee: nat) {
    forall k :: 0 <= k < |log| && log[k].action.ForwardPayment? ==> log[k].action.openingFeeMsat == fee
  }

  /** Every fee payment charges the fee that the opening announced. */
  ghost predicate ChargesAnnounced(life: Life) {
    if life.view.PendingInitialPayment? then
      && OpenedBy(life.log).None?
      && forall k :: 0 <= k < |life.log| ==> !life.log[k].action.ForwardPayment?
    else
      && OpenedBy(life.log).Some?
      && SameFee(life.log, OpenedBy(life.log).value.openingFeeMsat)
      && (FeeOf(life.view).Some? ==> FeeOf(life.view).value == OpenedBy(life.log).value.openingFeeMsat)
  }

  /** The fee of a step is that of the state it starts from or announces itself. */
  lemma {:induction false} StepFees(
    terms: ChannelTerms, view: ChannelView, event: ChannelEvent, next: ChannelView, action: Action)
    requires (next, action) == OnEvent(terms, view, event)
    ensures action.ForwardPayment? ==> FeeOf(view) == Some(action.openingFeeMsat)
    ensures action.OpenChannel? ==> event.Intercepted? && FeeOf(next) == Some(action.openingFeeMsat)
    ensures !action.OpenChannel? && FeeOf(next).Some? ==> FeeOf(next) == FeeOf(view)
  {
    if event.Intercepted? && view.PendingInitialPayment? {
      assert (next, action) == OnInitialHtlc(terms, view.queue, event.htlc);
    }
  }

  lemma {:induction false} StepChargesAnnounced(
    terms: ChannelTerms, life: Life, event: ChannelEvent, next: ChannelView, action: Action)
    requires ChargesAnnounced(life) && (next, action) == OnEvent(terms, life.view, event)
    ensures ChargesAnnounced(Life(next, event.Intercepted? && action.Refused?, life.log + [Handled(event, action)]))
  {
    OpenedBySnoc(life.log, Handled(event, action));
    OpenLeavesFirstState(terms, life.view, event);
    StepFees(terms, life.view, event, next, action);
  }

  lemma {:induction false} LiveChargesAnnounced(terms: ChannelTerms, events: seq<ChannelEvent>)
    ensures ChargesAnnounced(Live(terms, events))
  {
    if events != [] {
      var n := |events| - 1;
      var before := Live(terms, events[..n]);
      LiveChargesAnnounced(terms, events[..n]);
      if !before.removed {
        var (next, action) := OnEvent(terms, before.view, events[n]);
        StepChargesAnnounced(terms, before, events[n], next, action);
      }
    }
  }

  lemma {:induction false} SkimmedAtMost(log: seq<Handled>, fee: nat)
    requires SameFee(log, fee)
    requires forall k :: 0 <= k < |log| ==> GoodFeePayment(log[k].action)
    ensures 0 <= Skimmed(log) <= fee * FeeForwards(log)
  {
    if log != [] {
      var init, action := log[..|log| - 1], log[|log| - 1].action;
      SkimmedAtMost(init, fee);
      Distribute(fee, FeeForwards(init), 1);
      if action.ForwardPayment? {
        SkimWithin(action);
      }
    }
  }

  lemma {:induction false} FeesAtMost(fee: nat, forwards: nat, failures: nat)
    requires forwards <= 1 + failures
    ensures fee * forwards <= fee * (1 + failures)
  {
    if fee > 0 {
      MulOrder(fee, forwards, 1 + failures);
    }
  }

  /**
   Over every run the LSP skims nothing before it asked for the channel; then every fee payment charges the fee
   announced, and in all at most that fee is skimmed, and once more for every failure handled.
   */
  lemma {:induction false} SkimmedAtMostOneFeePerFailure(terms: ChannelTerms, events: seq<ChannelEvent>)
    ensures var log := Live(terms, events).log;
            if OpenedBy(log).None? then Skimmed(log) == 0
            else
              var fee := OpenedBy(log).value.openingFeeMsat;
              SameFee(log, fee) && 0 <= Skimmed(log) <= fee * (1 + Failures(log))
  {
    var log := Live(terms, events).log;
    LiveChargesAnnounced(terms, events);
    FeePaymentsBearTheFee(terms, events);
    FeeForwardsBounded(terms, events);
    var fee := if OpenedBy(log).Some? then OpenedBy(log).value.openingFeeMsat else 0;
    SkimmedAtMost(log, fee);
    FeesAtMost(fee, FeeForwards(log), Failures(log));
  }

  /**
   When the queue has been released, some fee payment that was not failed before skimmed the fee announced, up to
   the rounding that the split leaves to the client.
   */
  lemma {:induction false} LspIsPaidBeforeRelease(terms: ChannelTerms, events: seq<ChannelEvent>)
    returns (k: nat, s: nat)
    requires Live(terms, events).view.PaymentForwarded?
    ensures PaidThenReleased(Live(terms, events).log, k, s)
    ensures var log := Live(terms, events).log;
            && OpenedBy(log).Some?
            && var fee := OpenedBy(log).value.openingFeeMsat;
               fee - PosPart(|log[k].action.htlcs| - 2) <= Skim(log[k].action) <= fee
  {
    LiveChargesAnnounced(terms, events);
    k, s := PaidBeforeReleased(terms, events);
    EveryPaymentSkimsTheFee(terms, events, k);
  }
}
