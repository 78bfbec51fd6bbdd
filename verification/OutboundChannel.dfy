/** The JIT channel object: its state shares one payment queue, which every transition mutates. */
module OutboundChannels {
  import opened Types
  import opened PaymentQueues
  import opened OpeningFees
  import opened FeeSplit
  import opened JitChannels

  /** The opening fee, and whether the payment covers what is expected of it. */
  method DecideOpening(
    openingFeeParams: OpeningFeeParams, paymentSizeMsat: Option<UInt64>, totalMsat: UInt64, numHtlcs: nat)
    returns (action: Action)
    ensures action == OpeningDecision(ChannelTerms(openingFeeParams, paymentSizeMsat), totalMsat, numHtlcs)
    ensures action.Refused? || action.NoAction? || action.OpenChannel?
  {
    action := Refused;
    var expectedMsat, mppMode := totalMsat, false;
    if paymentSizeMsat.Some? {
      expectedMsat, mppMode := paymentSizeMsat.value, true;
    } else if numHtlcs != 1 {
      return;
    }
    if expectedMsat < openingFeeParams.minPaymentSizeMsat || expectedMsat > openingFeeParams.maxPaymentSizeMsat {
      return;
    }
    var fee := ComputeOpeningFee(expectedMsat, openingFeeParams.minFeeMsat, openingFeeParams.proportional);
    if fee.None? {
      return;
    }
    var amtToForwardMsat := SaturatingSub(expectedMsat, fee.value);
    if totalMsat >= expectedMsat && amtToForwardMsat > 0 {
      action := OpenChannel(fee.value, amtToForwardMsat);
    } else if mppMode {
      action := NoAction;
    }
  }

  datatype OutboundJITChannelState =
    | PendingInitialPayment(paymentQueue: PaymentQueue)
    | PendingChannelOpen(paymentQueue: PaymentQueue, openingFeeMsat: UInt64)
    | PendingPaymentForward(paymentQueue: PaymentQueue, openingFeeMsat: UInt64, channelId: ChannelId)
    | PendingPayment(paymentQueue: PaymentQueue, openingFeeMsat: UInt64, channelId: ChannelId)
    | PaymentForwarded(channelId: ChannelId)
  {
    ghost function Queues(): set<object> {
      if PaymentForwarded? then {} else {paymentQueue}
    }

    ghost predicate Valid()
      reads Queues()
    {
      !PaymentForwarded? ==> paymentQueue.Valid()
    }

    ghost function View(): ChannelView
      reads Queues()
    {
      match this
      case PendingInitialPayment(queue) => ChannelView.PendingInitialPayment(queue.payments)
      case PendingChannelOpen(queue, fee) => ChannelView.PendingChannelOpen(queue.payments, fee)
      case PendingPaymentForward(queue, fee, id) => ChannelView.PendingPaymentForward(queue.payments, fee, id)
      case PendingPayment(queue, fee, id) => ChannelView.PendingPayment(queue.payments, fee, id)
      case PaymentForwarded(id) => ChannelView.PaymentForwarded(id)
    }

    /** The first arm of `HtlcIntercepted`: decides whether the channel is opened. */
    method InitialHtlcIntercepted(
      openingFeeParams: OpeningFeeParams, paymentSizeMsat: Option<UInt64>, htlc: InterceptedHTLC)
      returns (next: OutboundJITChannelState, action: Action)
      requires PendingInitialPayment? && Valid()
      requires Total(Group(View().Queue(), htlc.paymentHash)) + htlc.expectedOutboundAmountMsat < UINT64_LIMIT
      modifies paymentQueue
      ensures next.Valid() && next.Queues() <= Queues()
      ensures (next.View(), action) ==
              OnInitialHtlc(ChannelTerms(openingFeeParams, paymentSizeMsat), old(View().Queue()), htlc)
      ensures action.Refused? ==> next == this
    {
      var totalMsat, numHtlcs := paymentQueue.AddHtlc(htlc);
      action := DecideOpening(openingFeeParams, paymentSizeMsat, totalMsat, numHtlcs);
      next := this;
      if action.OpenChannel? {
        next := OutboundJITChannelState.PendingChannelOpen(paymentQueue, action.openingFeeMsat);
      }
    }

    /** The arm of `HtlcIntercepted` in which a payment able to bear the fee is awaited. */
    method NextHtlcIntercepted(htlc: InterceptedHTLC) returns (next: OutboundJITChannelState, action: Action)
      requires PendingPayment? && Valid()
      requires Total(Group(View().Queue(), htlc.paymentHash)) + htlc.expectedOutboundAmountMsat < UINT64_LIMIT
      modifies paymentQueue
      ensures next.Valid() && next.Queues() <= Queues()
      ensures (next.View(), action) == PopForFee(Added(old(View().Queue()), htlc), openingFeeMsat, channelId)
      ensures !action.Refused?
    {
      HoldBack(paymentQueue, htlc);
      next, action := TakePayment(paymentQueue, openingFeeMsat, channelId);
    }

    method HtlcIntercepted(openingFeeParams: OpeningFeeParams, paymentSizeMsat: Option<UInt64>, htlc: InterceptedHTLC)
      returns (next: OutboundJITChannelState, action: Action)
      requires Valid()
      requires Total(Group(View().Queue(), htlc.paymentHash)) + htlc.expectedOutboundAmountMsat < UINT64_LIMIT
      modifies Queues()
      ensures next.Valid() && next.Queues() <= Queues()
      ensures (next.View(), action) ==
              OnIntercepted(ChannelTerms(openingFeeParams, paymentSizeMsat), old(View()), htlc)
      ensures action.Refused? ==> next == this
    {
      next, action := this, NoAction;
      match this {
        case PendingInitialPayment(_) =>
          next, action := InitialHtlcIntercepted(openingFeeParams, paymentSizeMsat, htlc);
        case PendingChannelOpen(_, _) =>
          HoldBack(paymentQueue, htlc);
        case PendingPaymentForward(_, _, _) =>
          HoldBack(paymentQueue, htlc);
        case PendingPayment(_, _, _) =>
          next, action := NextHtlcIntercepted(htlc);
        case PaymentForwarded(id) =>
          action := ForwardHTLC(id);
      }
    }

    method ChannelReady(channelId: ChannelId) returns (next: OutboundJITChannelState, action: Action)
      requires Valid()
      modifies Queues()
      ensures next.Valid() && next.Queues() <= Queues()
      ensures (next.View(), action) == OnReady(old(View()), channelId)
      ensures action.Refused? ==> next == this
    {
      next, action := this, Refused;
      if PendingChannelOpen? {
        var popped := paymentQueue.PopGreaterThanMsat(openingFeeMsat);
        if popped.Some? {
          next := OutboundJITChannelState.PendingPaymentForward(paymentQueue, openingFeeMsat, channelId);
          action := ForwardPayment(channelId, popped.value.htlcs, openingFeeMsat);
        }
      }
    }

    method HtlcHandlingFailed() returns (next: OutboundJITChannelState, action: Action)
      requires Valid()
      modifies Queues()
      ensures next.Valid() && next.Queues() <= Queues()
      ensures (next.View(), action) == OnHandlingFailed(old(View()))
      ensures action.Refused? ==> next == this
    {
      next, action := this, NoAction;
      match this {
        case PendingPaymentForward(queue, fee, id) =>
          next, action := TakePayment(queue, fee, id);
        case PendingPayment(_, _, _) =>
        case PaymentForwarded(_) =>
        case _ =>
          action := Refused;
      }
    }

    method PaymentForwarded() returns (next: OutboundJITChannelState, action: Action)
      requires Valid()
      modifies Queues()
      ensures next.Valid() && next.Queues() <= Queues()
      ensures (next.View(), action) == OnSucceeded(old(View()))
      ensures action.Refused? ==> next == this
    {
      next, action := this, NoAction;
      match this {
        case PendingPaymentForward(queue, _, id) =>
          var htlcs := queue.Clear();
          next := OutboundJITChannelState.PaymentForwarded(id);
          action := ForwardHTLCs(id, htlcs);
        case PaymentForwarded(_) =>
        case _ =>
          action := Refused;
      }
    }
  }

  /** Queues an HTLC until the channel's state changes. */
  method HoldBack(queue: PaymentQueue, htlc: InterceptedHTLC)
    requires queue.Valid()
    requires Total(Group(queue.payments, htlc.paymentHash)) + htlc.expectedOutboundAmountMsat < UINT64_LIMIT
    modifies queue
    ensures queue.Valid() && queue.payments == Added(old(queue.payments), htlc)
  {
    var _, _ := queue.AddHtlc(htlc);
  }

  /** Takes a payment that can bear the fee out of the queue, or waits for one. */
  method TakePayment(queue: PaymentQueue, openingFeeMsat: UInt64, channelId: ChannelId)
    returns (next: OutboundJITChannelState, action: Action)
    requires queue.Valid()
    modifies queue
    ensures next.Valid() && next.Queues() <= {queue}
    ensures (next.View(), action) == PopForFee(old(queue.payments), openingFeeMsat, channelId)
    ensures !action.Refused?
  {
    var popped := queue.PopGreaterThanMsat(openingFeeMsat);
    if popped.Some? {
      next := OutboundJITChannelState.PendingPaymentForward(queue, openingFeeMsat, channelId);
      action := ForwardPayment(channelId, popped.value.htlcs, openingFeeMsat);
    } else {
      next, action := OutboundJITChannelState.PendingPayment(queue, openingFeeMsat, channelId), NoAction;
    }
  }

  /** Every queued payment has a positive 64-bit total, so its fee can be split. */
  ghost predicate Splittable(queue: seq<Payment>) {
    forall i :: 0 <= i < |queue| ==> 0 < Total(queue[i].htlcs) < UINT64_LIMIT
  }

  lemma {:induction false} AddedSplittable(queue: seq<Payment>, htlc: InterceptedHTLC)
    requires Splittable(queue) && htlc.expectedOutboundAmountMsat > 0
    requires Total(Group(queue, htlc.paymentHash)) + htlc.expectedOutboundAmountMsat < UINT64_LIMIT
    ensures Splittable(Added(queue, htlc))
  {
    TotalSnoc(Group(queue, htlc.paymentHash), htlc);
    assert [] + [htlc] == [htlc];
  }

  lemma {:induction false} PopSplittable(queue: seq<Payment>, fee: UInt64, id: ChannelId)
    requires Splittable(queue)
    ensures Splittable(PopForFee(queue, fee, id).0.Queue())
    ensures PopForFee(queue, fee, id).1.ForwardPayment? ==> 0 < Total(PopForFee(queue, fee, id).1.htlcs) < UINT64_LIMIT
  {
  }

  lemma {:induction false} StepSplittable(
    terms: ChannelTerms, view: ChannelView, event: ChannelEvent, next: ChannelView, action: Action)
    requires Splittable(view.Queue())
    requires AmountFits(view, event)
    requires (next, action) == OnEvent(terms, view, event)
    ensures Splittable(next.Queue())
    ensures action.ForwardPayment? ==> 0 < Total(action.htlcs) < UINT64_LIMIT
  {
    if event.Intercepted? {
      AddedSplittable(view.Queue(), event.htlc);
      if view.PendingPayment? {
        PopSplittable(Added(view.queue, event.htlc), view.openingFeeMsat, view.channelId);
      }
    } else if event.Ready? && view.PendingChannelOpen? {
      PopSplittable(view.queue, view.openingFeeMsat, event.channelId);
    } else if event.HandlingFailed? && view.PendingPaymentForward? {
      PopSplittable(view.queue, view.openingFeeMsat, view.channelId);
    }
  }

  class OutboundJITChannel {
    var state: OutboundJITChannelState
    const userChannelId: UInt128
    const openingFeeParams: OpeningFeeParams
    const paymentSizeMsat: Option<UInt64>
    // The queue the channel was created with; no transition replaces it.
    ghost const paymentQueue: PaymentQueue

    ghost predicate Valid()
      reads this, paymentQueue
    {
      state.Queues() <= {paymentQueue} && state.Valid() && Splittable(state.View().Queue())
    }

    ghost function View(): ChannelView
      requires Valid()
      reads this, paymentQueue
    {
      state.View()
    }

    ghost function Terms(): ChannelTerms { ChannelTerms(openingFeeParams, paymentSizeMsat) }

    constructor (paymentSizeMsat: Option<UInt64>, openingFeeParams: OpeningFeeParams, userChannelId: UInt128)
      ensures Valid() && fresh(paymentQueue)
      ensures View() == NEWBORN.view
      ensures Terms() == ChannelTerms(openingFeeParams, paymentSizeMsat)
      ensures this.userChannelId == userChannelId
    {
      var queue := new PaymentQueue();
      this.userChannelId := userChannelId;
      this.openingFeeParams := openingFeeParams;
      this.paymentSizeMsat := paymentSizeMsat;
      this.paymentQueue := queue;
      this.state := OutboundJITChannelState.PendingInitialPayment(queue);
    }

    method HtlcIntercepted(htlc: InterceptedHTLC) returns (action: Action)
      requires Valid()
      requires htlc.expectedOutboundAmountMsat > 0
      requires Total(Group(View().Queue(), htlc.paymentHash)) + htlc.expectedOutboundAmountMsat < UINT64_LIMIT
      modifies this, paymentQueue
      ensures Valid()
      ensures (View(), action) == OnEvent(Terms(), old(View()), Intercepted(htlc))
      ensures action.ForwardPayment? ==> 0 < Total(action.htlcs) < UINT64_LIMIT
    {
      var next;
      next, action := state.HtlcIntercepted(openingFeeParams, paymentSizeMsat, htlc);
      StepSplittable(Terms(), old(View()), Intercepted(htlc), next.View(), action);
      if !action.Refused? {
        state := next;
      }
    }

    method HtlcHandlingFailed() returns (action: Action)
      requires Valid()
      modifies this, paymentQueue
      ensures Valid()
      ensures (View(), action) == OnEvent(Terms(), old(View()), HandlingFailed)
      ensures action.ForwardPayment? ==> 0 < Total(action.htlcs) < UINT64_LIMIT
    {
      var next;
      next, action := state.HtlcHandlingFailed();
      StepSplittable(Terms(), old(View()), HandlingFailed, next.View(), action);
      if !action.Refused? {
        state := next;
      }
    }

    method ChannelReady(channelId: ChannelId) returns (action: Action)
      requires Valid()
      modifies this, paymentQueue
      ensures Valid()
      ensures (View(), action) == OnEvent(Terms(), old(View()), Ready(channelId))
      ensures action.ForwardPayment? ==> 0 < Total(action.htlcs) < UINT64_LIMIT
    {
      var next;
      next, action := state.ChannelReady(channelId);
      StepSplittable(Terms(), old(View()), Ready(channelId), next.View(), action);
      if !action.Refused? {
        state := next;
      }
    }

    method PaymentForwarded() returns (action: Action)
      requires Valid()
      modifies this, paymentQueue
      ensures Valid()
      ensures (View(), action) == OnEvent(Terms(), old(View()), Succeeded)
      ensures action.ForwardPayment? ==> 0 < Total(action.htlcs) < UINT64_LIMIT
    {
      var next;
      next, action := state.PaymentForwarded();
      StepSplittable(Terms(), old(View()), Succeeded, next.View(), action);
      if !action.Refused? {
        state := next;
      }
    }

    /** The method for the event at hand. */
    method Hear(event: ChannelEvent) returns (action: Action)
      requires Valid()
      requires AmountFits(View(), event)
      modifies this, paymentQueue
      ensures Valid()
      ensures (View(), action) == OnEvent(Terms(), old(View()), event)
      ensures action.ForwardPayment? ==> 0 < Total(action.htlcs) < UINT64_LIMIT
    {
      match event {
        case Intercepted(htlc) => action := HtlcIntercepted(htlc);
        case Ready(id) => action := ChannelReady(id);
        case HandlingFailed => action := HtlcHandlingFailed();
        case Succeeded => action := PaymentForwarded();
      }
    }
  }
}
