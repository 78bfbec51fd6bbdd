/** What a channel announces when it asks to be opened, and when it asks, in terms of the fee that was agreed. */
module ChannelOpenings {
  import opened PaymentQueues
  import opened OpeningFees
  import opened JitChannels
  import opened ChannelRuns
  import opened ChannelSequencing

  /** The size that the fee is computed on: the fixed size, or the amount of the HTLC that asks for the channel. */
  function BaseMsat(terms: ChannelTerms, htlc: InterceptedHTLC): nat {
    if terms.paymentSizeMsat.Some? then terms.paymentSizeMsat.value else htlc.expectedOutboundAmountMsat
  }

  /** The fee announced is the least one that covers the base, and the amount announced is the rest of the base. */
  ghost predicate OnTerms(terms: ChannelTerms, opening: Opening) {
    var params, base, fee := terms.openingFeeParams, BaseMsat(terms, opening.htlc), opening.openingFeeMsat;
    && params.minPaymentSizeMsat <= base <= params.maxPaymentSizeMsat
    && Covers(fee, base, params.minFeeMsat, params.proportional)
    && (forall f: nat :: Covers(f, base, params.minFeeMsat, params.proportional) ==> fee <= f)
    && fee < base
    && opening.amtToForwardMsat == base - fee
  }

  lemma {:induction false} DecisionOnTerms(
    terms: ChannelTerms, htlc: InterceptedHTLC, totalMsat: nat, numHtlcs: nat, action: Action)
    requires action == OpeningDecision(terms, totalMsat, numHtlcs)
    requires terms.paymentSizeMsat.None? ==> totalMsat == htlc.expectedOutboundAmountMsat
    ensures action.OpenChannel? ==> OnTerms(terms, Opening(htlc, action.openingFeeMsat, action.amtToForwardMsat))
  {
  }

  /** A payment hash that is not queued: the HTLC is alone in its group. */
  lemma {:induction false} FirstAlone(htlc: InterceptedHTLC)
    ensures Group(Added([], htlc), htlc.paymentHash) == [htlc]
    ensures Total([htlc]) == htlc.expectedOutboundAmountMsat
  {
    AddedNew([], htlc);
  }

  lemma {:induction false} StepOnTerms(terms: ChannelTerms, events: seq<ChannelEvent>, event: ChannelEvent)
    requires !Live(terms, events).removed && OnEvent(terms, Live(terms, events).view, event).1.OpenChannel?
    ensures event.Intercepted?
    ensures var action := OnEvent(terms, Live(terms, events).view, event).1;
            OnTerms(terms, Opening(event.htlc, action.openingFeeMsat, action.amtToForwardMsat))
  {
    var view := Live(terms, events).view;
    OpenLeavesFirstState(terms, view, event);
    var group := Group(Added(view.queue, event.htlc), event.htlc.paymentHash);
    if terms.paymentSizeMsat.None? {
      VariableSizeQueueEmpty(terms, events, event.htlc);
      FirstAlone(event.htlc);
    }
    DecisionOnTerms(terms, event.htlc, Total(group), |group|, OnEvent(terms, view, event).1);
  }

  /** Every opening of every run announces the fee agreed for its size, and the amount that it leaves. */
  lemma {:induction false} OpeningChargesTheTerms(terms: ChannelTerms, events: seq<ChannelEvent>)
    ensures OpenedBy(Live(terms, events).log).Some? ==> OnTerms(terms, OpenedBy(Live(terms, events).log).value)
  {
    if events != [] {
      var n := |events| - 1;
      var before := Live(terms, events[..n]);
      OpeningChargesTheTerms(terms, events[..n]);
      if !before.removed {
        var action := OnEvent(terms, before.view, events[n]).1;
        OpenedBySnoc(before.log, Handled(events[n], action));
        if action.OpenChannel? {
          StepOnTerms(terms, events[..n], events[n]);
        }
      }
    }
  }

  /** With a variable amount the first HTLC opens the channel exactly if it pays for itself. */
  lemma {:induction false} VariableSizeOpensIff(terms: ChannelTerms, events: seq<ChannelEvent>, htlc: InterceptedHTLC)
    requires terms.paymentSizeMsat.None?
    requires !Live(terms, events).removed && Live(terms, events).view.PendingInitialPayment?
    ensures OnEvent(terms, Live(terms, events).view, Intercepted(htlc)).1.OpenChannel? <==>
            PaysForItself(terms, htlc.expectedOutboundAmountMsat)
  {
    VariableSizeQueueEmpty(terms, events, htlc);
    FirstAlone(htlc);
    PayableIff(terms.openingFeeParams, htlc.expectedOutboundAmountMsat);
  }
}
