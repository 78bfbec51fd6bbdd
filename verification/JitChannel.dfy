/**
 One JIT channel: what each call does to its state and queue, and which HTLCs it hands to the
 channel manager. The functions specify the methods of `OutboundJITChannel` (OutboundChannel.dfy).
 */
module JitChannels {
  import opened Types
  import opened PaymentQueues
  import opened OpeningFees
  import opened FeeSplit

  /** What was agreed when the channel was bought. */
  datatype ChannelTerms = ChannelTerms(openingFeeParams: OpeningFeeParams, paymentSizeMsat: Option<UInt64>)

  /** The state of a channel with the contents of its queue. */
  datatype ChannelView =
    | PendingInitialPayment(queue: seq<Payment>)
    | PendingChannelOpen(queue: seq<Payment>, openingFeeMsat: UInt64)
    | PendingPaymentForward(queue: seq<Payment>, openingFeeMsat: UInt64, channelId: ChannelId)
    | PendingPayment(queue: seq<Payment>, openingFeeMsat: UInt64, channelId: ChannelId)
    | PaymentForwarded(channelId: ChannelId)
  {
    function Queue(): seq<Payment> { if PaymentForwarded? then [] else queue }
  }

  datatype Action =
    | NoAction
    | OpenChannel(openingFeeMsat: UInt64, amtToForwardMsat: nat)
    | ForwardHTLC(channelId: ChannelId)
    | ForwardPayment(channelId: ChannelId, htlcs: seq<InterceptedHTLC>, openingFeeMsat: UInt64)
    | ForwardHTLCs(channelId: ChannelId, htlcs: seq<InterceptedHTLC>)
    // The error return: the state is left as it is.
    | Refused

  datatype ChannelEvent =
    | Intercepted(htlc: InterceptedHTLC)
    | Ready(channelId: ChannelId)
    | HandlingFailed
    | Succeeded

  function OpeningFeeFor(terms: ChannelTerms, sizeMsat: nat): Option<UInt64> {
    ComputeOpeningFee(sizeMsat, terms.openingFeeParams.minFeeMsat, terms.openingFeeParams.proportional)
  }

  predicate WithinLimits(terms: ChannelTerms, sizeMsat: nat) {
    terms.openingFeeParams.minPaymentSizeMsat <= sizeMsat <= terms.openingFeeParams.maxPaymentSizeMsat
  }

  /** Some fee below the payment covers it. */
  ghost predicate LeavesSomething(params: OpeningFeeParams, size: nat) {
    exists fee: nat :: fee < size && Covers(fee, size, params.minFeeMsat, params.proportional)
  }

  /** Computing the fee leaves 64 bits. */
  predicate FeeOverflows(params: OpeningFeeParams, size: nat) {
    size * params.proportional + 999_999 >= UINT64_LIMIT
  }

  /** The fee can be computed and is below the payment exactly if some fee below the payment covers it. */
  lemma {:induction false} PayableIff(params: OpeningFeeParams, size: nat)
    ensures var fee := ComputeOpeningFee(size, params.minFeeMsat, params.proportional);
            && (fee.None? <==> FeeOverflows(params, size))
            && (fee.Some? && fee.value < size <==> !FeeOverflows(params, size) && LeavesSomething(params, size))
  {
    var fee := ComputeOpeningFee(size, params.minFeeMsat, params.proportional);
    if fee.Some? && fee.value < size {
      assert LeavesSomething(params, size);
    }
  }

  /** A payment of this amount pays for its own channel: it is within the limits, and some fee below it covers it. */
  ghost predicate PaysForItself(terms: ChannelTerms, amountMsat: nat) {
    var params := terms.openingFeeParams;
    && params.minPaymentSizeMsat <= amountMsat <= params.maxPaymentSizeMsat
    && !FeeOverflows(params, amountMsat) && LeavesSomething(params, amountMsat)
  }

  /** What to do once a payment has `numHtlcs` HTLCs worth `totalMsat` and no channel was asked for yet. */
  function OpeningDecision(terms: ChannelTerms, totalMsat: nat, numHtlcs: nat): Action {
    if terms.paymentSizeMsat.None? && numHtlcs != 1 then Refused
    else
      var expected := if terms.paymentSizeMsat.Some? then terms.paymentSizeMsat.value else totalMsat;
      if !WithinLimits(terms, expected) then Refused
      else
        match OpeningFeeFor(terms, expected)
        case None => Refused
        case Some(fee) =>
          var amtToForward := SaturatingSub(expected, fee);
          if totalMsat >= expected && amtToForward > 0 then OpenChannel(fee, amtToForward)
          else if terms.paymentSizeMsat.Some? then NoAction
          else Refused
  }

  function OnInitialHtlc(terms: ChannelTerms, queue: seq<Payment>, htlc: InterceptedHTLC): (ChannelView, Action) {
    var added := Added(queue, htlc);
    var group := Group(added, htlc.paymentHash);
    var action := OpeningDecision(terms, Total(group), |group|);
    (if action.OpenChannel? then PendingChannelOpen(added, action.openingFeeMsat) else PendingInitialPayment(added),
     action)
  }

  /** Takes the first payment that can bear the fee, if there is one. */
  function PopForFee(queue: seq<Payment>, fee: UInt64, channelId: ChannelId): (ChannelView, Action) {
    var i := FirstAtLeast(queue, fee);
    if i < |queue| then
      (PendingPaymentForward(Removed(queue, i), fee, channelId), ForwardPayment(channelId, queue[i].htlcs, fee))
    else (PendingPayment(queue, fee, channelId), NoAction)
  }

  function OnIntercepted(terms: ChannelTerms, view: ChannelView, htlc: InterceptedHTLC): (ChannelView, Action) {
    match view
    case PendingInitialPayment(queue) => OnInitialHtlc(terms, queue, htlc)
    case PendingChannelOpen(queue, fee) => (PendingChannelOpen(Added(queue, htlc), fee), NoAction)
    case PendingPaymentForward(queue, fee, id) => (PendingPaymentForward(Added(queue, htlc), fee, id), NoAction)
    case PendingPayment(queue, fee, id) => PopForFee(Added(queue, htlc), fee, id)
    case PaymentForwarded(id) => (view, ForwardHTLC(id))
  }

  function OnReady(view: ChannelView, channelId: ChannelId): (ChannelView, Action) {
    if view.PendingChannelOpen? && FirstAtLeast(view.queue, view.openingFeeMsat) < |view.queue| then
      PopForFee(view.queue, view.openingFeeMsat, channelId)
    else (view, Refused)
  }

  function OnHandlingFailed(view: ChannelView): (ChannelView, Action) {
    match view
    case PendingPaymentForward(queue, fee, id) => PopForFee(queue, fee, id)
    case PendingPayment(_, _, _) => (view, NoAction)
    case PaymentForwarded(_) => (view, NoAction)
    case _ => (view, Refused)
  }

  function OnSucceeded(view: ChannelView): (ChannelView, Action) {
    match view
    case PendingPaymentForward(queue, _, id) => (PaymentForwarded(id), ForwardHTLCs(id, Flatten(queue)))
    case PaymentForwarded(_) => (view, NoAction)
    case _ => (view, Refused)
  }

  function OnEvent(terms: ChannelTerms, view: ChannelView, event: ChannelEvent): (ChannelView, Action) {
    match event
    case Intercepted(htlc) => OnIntercepted(terms, view, htlc)
    case Ready(id) => OnReady(view, id)
    case HandlingFailed => OnHandlingFailed(view)
    case Succeeded => OnSucceeded(view)
  }

  /** An intercepted amount is positive, and with what is queued for its payment still fits 64 bits. */
  ghost predicate AmountFits(view: ChannelView, event: ChannelEvent) {
    event.Intercepted? ==>
      && event.htlc.expectedOutboundAmountMsat > 0
      && Total(Group(view.Queue(), event.htlc.paymentHash)) + event.htlc.expectedOutboundAmountMsat < UINT64_LIMIT
  }

  // ---- What the LSP's handler does with the action ----

  datatype ManagerCall =
    | ForwardInterceptedHtlc(interceptId: InterceptId, channelId: ChannelId, nextNode: PublicKey, amountMsat: nat)
    | FailInterceptedHtlc(interceptId: InterceptId)

  function ForwardSplit(forwards: seq<Forward>, id: ChannelId, peer: PublicKey): (calls: seq<ManagerCall>)
    ensures |calls| == |forwards|
  {
    seq(|forwards|, i requires 0 <= i < |forwards| =>
      ForwardInterceptedHtlc(forwards[i].interceptId, id, peer, forwards[i].amountMsat))
  }

  function ForwardAll(htlcs: seq<InterceptedHTLC>, id: ChannelId, peer: PublicKey): (calls: seq<ManagerCall>)
    ensures |calls| == |htlcs|
  {
    seq(|htlcs|, i requires 0 <= i < |htlcs| =>
      ForwardInterceptedHtlc(htlcs[i].interceptId, id, peer, htlcs[i].expectedOutboundAmountMsat))
  }

  function Calls(peer: PublicKey, event: ChannelEvent, action: Action): seq<ManagerCall> {
    match action
    case ForwardPayment(id, htlcs, fee) => ForwardSplit(Split(htlcs, fee), id, peer)
    case ForwardHTLCs(id, htlcs) => ForwardAll(htlcs, id, peer)
    case ForwardHTLC(id) => if event.Intercepted? then ForwardAll([event.htlc], id, peer) else []
    case Refused => if event.Intercepted? then [FailInterceptedHtlc(event.htlc.interceptId)] else []
    case _ => []
  }

  // ---- Runs ----

  datatype Handled = Handled(event: ChannelEvent, action: Action)

  /** A channel's life: its state, whether it was dropped, and what it has handled so far. */
  datatype Life = Life(view: ChannelView, removed: bool, log: seq<Handled>)

  const NEWBORN := Life(PendingInitialPayment([]), false, [])

  /** An HTLC that a channel refuses is failed and the channel dropped; a dropped channel hears nothing. */
  function Advance(terms: ChannelTerms, life: Life, event: ChannelEvent): Life {
    if life.removed then life
    else
      var (view, action) := OnEvent(terms, life.view, event);
      Life(view, event.Intercepted? && action.Refused?, life.log + [Handled(event, action)])
  }

  function Live(terms: ChannelTerms, events: seq<ChannelEvent>): Life {
    if events == [] then NEWBORN
    else Advance(terms, Live(terms, events[..|events| - 1]), events[|events| - 1])
  }

  /** The HTLCs delivered to the channel while it was live. */
  function Delivered(log: seq<Handled>): seq<InterceptedHTLC> {
    if log == [] then []
    else
      var last := log[|log| - 1].event;
      Delivered(log[..|log| - 1]) + if last.Intercepted? then [last.htlc] else []
  }

  /** Everything handed to the channel manager on behalf of the channel. */
  function CallsOf(peer: PublicKey, log: seq<Handled>): seq<ManagerCall> {
    if log == [] then []
    else CallsOf(peer, log[..|log| - 1]) + Calls(peer, log[|log| - 1].event, log[|log| - 1].action)
  }

  function FeeForwards(log: seq<Handled>): nat {
    if log == [] then 0
    else FeeForwards(log[..|log| - 1]) + if log[|log| - 1].action.ForwardPayment? then 1 else 0
  }

  /** The calls of `htlc_handling_failed` that succeeded. */
  function Failures(log: seq<Handled>): nat {
    if log == [] then 0
    else
      var last := log[|log| - 1];
      Failures(log[..|log| - 1]) + if last.event.HandlingFailed? && !last.action.Refused? then 1 else 0
  }

  function Opens(log: seq<Handled>): nat {
    if log == [] then 0
    else Opens(log[..|log| - 1]) + if log[|log| - 1].action.OpenChannel? then 1 else 0
  }

  function CallIds(calls: seq<ManagerCall>): (ids: seq<InterceptId>)
    ensures |ids| == |calls|
  {
    seq(|calls|, i requires 0 <= i < |calls| => calls[i].interceptId)
  }

  function QueuedIds(queue: seq<Payment>): multiset<InterceptId> {
    multiset(Ids(Flatten(queue)))
  }

  /** The HTLCs a live channel still holds. */
  function HeldIds(life: Life): multiset<InterceptId> {
    if life.removed then multiset{} else QueuedIds(life.view.Queue())
  }
}
