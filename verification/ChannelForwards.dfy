/** Which HTLCs a channel forwards when, over which channel and with which amounts. */
module ChannelForwards {
  import opened Types
  import opened PaymentQueues
  import opened FeeSplit
  import opened JitChannels
  import opened ChannelRuns
  import opened ChannelConservation
  import opened ChannelSequencing

  // ---- What an action tells the channel manager ----

  /** The HTLCs that an action disposes of. */
  function Concerned(event: ChannelEvent, action: Action): seq<InterceptedHTLC> {
    match action
    case ForwardPayment(_, htlcs, _) => htlcs
    case ForwardHTLCs(_, htlcs) => htlcs
    case ForwardHTLC(_) => if event.Intercepted? then [event.htlc] else []
    case Refused => if event.Intercepted? then [event.htlc] else []
    case _ => []
  }

  /** The channel that an action forwards over. */
  function Via(action: Action): Option<ChannelId> {
    if action.ForwardPayment? || action.ForwardHTLCs? || action.ForwardHTLC? then Some(action.channelId) else None
  }

  /** The call is the one for the i-th HTLC: failed, or forwarded to this peer, in full unless it bears the fee. */
  predicate CallFor(call: ManagerCall, peer: PublicKey, event: ChannelEvent, action: Action, i: int) {
    var htlcs := Concerned(event, action);
    && 0 <= i < |htlcs|
    && call.interceptId == htlcs[i].interceptId
    && if action.Refused? then call.FailInterceptedHtlc?
       else
         && call.ForwardInterceptedHtlc? && call.nextNode == peer && Via(action) == Some(call.channelId)
         && call.amountMsat ==
            if action.ForwardPayment? then FeeAmount(htlcs, action.openingFeeMsat, i)
            else htlcs[i].expectedOutboundAmountMsat
  }

  /** The calls of an action: one for every HTLC, in order. */
  lemma {:induction false} CallsAreForHtlcs(peer: PublicKey, event: ChannelEvent, action: Action)
    requires GoodFeePayment(action)
    ensures |Calls(peer, event, action)| == |Concerned(event, action)|
    ensures forall i :: 0 <= i < |Concerned(event, action)| ==>
              CallFor(Calls(peer, event, action)[i], peer, event, action, i)
  {
    if action.ForwardPayment? {
      SplitIs(action.htlcs, action.openingFeeMsat, 0);
      forall i | 0 <= i < |action.htlcs|
        ensures CallFor(Calls(peer, event, action)[i], peer, event, action, i)
      {
        SplitIs(action.htlcs, action.openingFeeMsat, i);
      }
    }
  }

  // ---- Which payment is forwarded ----

  /** The first payment that can bear the fee. */
  ghost predicate FirstBearing(queue: seq<Payment>, fee: nat, k: int) {
    0 <= k < |queue| && Total(queue[k].htlcs) >= fee && AllBelow(queue[..k], fee)
  }

  /** The channel is about to forward a payment: it has become ready, the last one failed, or one is awaited. */
  predicate Takes(view: ChannelView, event: ChannelEvent) {
    || (view.PendingChannelOpen? && event.Ready?)
    || (view.PendingPaymentForward? && event.HandlingFailed?)
    || (view.PendingPayment? && event.Intercepted?)
  }

  function WaitingFor(view: ChannelView, event: ChannelEvent): seq<Payment> {
    if event.Intercepted? then Added(view.Queue(), event.htlc) else view.Queue()
  }

  function Over(view: ChannelView, event: ChannelEvent): ChannelId
    requires Takes(view, event)
  {
    if event.Ready? then event.channelId else view.channelId
  }

  lemma {:induction false} FirstBearingIs(queue: seq<Payment>, fee: nat, k: nat)
    requires FirstBearing(queue, fee, k)
    ensures FirstAtLeast(queue, fee) == k
  {
    forall j | 0 <= j < k
      ensures Total(queue[j].htlcs) < fee
    {
      assert queue[..k][j] == queue[j];
    }
    FirstAtLeastIsFirst(queue, fee, k);
  }

  lemma {:induction false} FirstAtLeastBears(queue: seq<Payment>, fee: nat)
    requires FirstAtLeast(queue, fee) < |queue|
    ensures FirstBearing(queue, fee, FirstAtLeast(queue, fee))
  {
  }

  /** A fee payment is forwarded exactly if the channel is about to and some waiting payment bears the fee. */
  lemma {:induction false} ForwardsIff(terms: ChannelTerms, view: ChannelView, event: ChannelEvent)
    ensures OnEvent(terms, view, event).1.ForwardPayment? <==>
            Takes(view, event) && exists k :: FirstBearing(WaitingFor(view, event), view.openingFeeMsat, k)
  {
    if Takes(view, event) {
      var queue, fee := WaitingFor(view, event), view.openingFeeMsat;
      if k :| FirstBearing(queue, fee, k) {
        FirstBearingIs(queue, fee, k);
      }
      if FirstAtLeast(queue, fee) < |queue| {
        FirstAtLeastBears(queue, fee);
      }
    }
  }

  /** ... and it is the first such payment, it charges the channel's fee, and the rest keeps waiting in order. */
  lemma {:induction false} ForwardsTheFirst(terms: ChannelTerms, view: ChannelView, event: ChannelEvent, k: nat)
    requires Takes(view, event) && FirstBearing(WaitingFor(view, event), view.openingFeeMsat, k)
    ensures var (queue, id) := (WaitingFor(view, event), Over(view, event));
            OnEvent(terms, view, event) ==
            (PendingPaymentForward(queue[..k] + queue[k + 1..], view.openingFeeMsat, id),
             ForwardPayment(id, queue[k].htlcs, view.openingFeeMsat))
  {
    FirstBearingIs(WaitingFor(view, event), view.openingFeeMsat, k);
  }

  /** How many HTLCs the first payments of a queue have. */
  function Offset(queue: seq<Payment>, i: nat): nat
    requires i <= |queue|
  {
    if i == 0 then 0 else Offset(queue, i - 1) + |queue[i - 1].htlcs|
  }

  lemma {:induction false} OffsetTail(queue: seq<Payment>, i: nat)
    requires queue != [] && i < |queue|
    ensures Offset(queue, i + 1) == |queue[0].htlcs| + Offset(queue[1..], i)
  {
    if i > 0 {
      OffsetTail(queue, i - 1);
    }
  }

  lemma {:induction false} FlattenLength(queue: seq<Payment>)
    ensures |Flatten(queue)| == Offset(queue, |queue|)
  {
    if queue != [] {
      FlattenLength(queue[1..]);
      OffsetTail(queue, |queue| - 1);
    }
  }

  lemma {:induction false} FlattenStarts(queue: seq<Payment>, i: nat)
    requires i < |queue|
    ensures Flatten(queue) == Flatten(queue[..i]) + queue[i].htlcs + Flatten(queue[i + 1..])
  {
    assert queue == queue[..i] + ([queue[i]] + queue[i + 1..]);
    FlattenConcat(queue[..i], [queue[i]] + queue[i + 1..]);
    FlattenConcat([queue[i]], queue[i + 1..]);
    assert Flatten([queue[i]]) == queue[i].htlcs + Flatten([]) == queue[i].htlcs;
  }

  lemma {:induction false} SameOffset(queue: seq<Payment>, n: nat, i: nat)
    requires i <= n <= |queue|
    ensures Offset(queue[..n], i) == Offset(queue, i)
  {
    if i > 0 {
      SameOffset(queue, n, i - 1);
    }
  }

  lemma {:induction false} FlattenPlaces(queue: seq<Payment>, i: nat)
    requires i < |queue|
    ensures Offset(queue, i) + |queue[i].htlcs| <= |Flatten(queue)|
    ensures Flatten(queue)[Offset(queue, i)..Offset(queue, i) + |queue[i].htlcs|] == queue[i].htlcs
  {
    FlattenStarts(queue, i);
    FlattenLength(queue[..i]);
    SameOffset(queue, i, i);
  }

  /** A success releases every waiting HTLC once, payment by payment in the order of the queue. */
  lemma {:induction false} ReleasesInOrder(terms: ChannelTerms, view: ChannelView, i: nat)
    requires view.PendingPaymentForward? && i < |view.queue|
    ensures var (next, action) := OnEvent(terms, view, Succeeded);
            && next == PaymentForwarded(view.channelId)
            && action.ForwardHTLCs? && action.channelId == view.channelId
            && |action.htlcs| == Offset(view.queue, |view.queue|)
            && Offset(view.queue, i) + |view.queue[i].htlcs| <= |action.htlcs|
            && action.htlcs[Offset(view.queue, i)..Offset(view.queue, i) + |view.queue[i].htlcs|] == view.queue[i].htlcs
  {
    FlattenLength(view.queue);
    FlattenPlaces(view.queue, i);
  }

  // ---- Nothing is forwarded that was not delivered, nor over another channel ----

  ghost predicate Queued(queue: seq<Payment>, htlc: InterceptedHTLC) {
    exists i :: 0 <= i < |queue| && htlc in queue[i].htlcs
  }

  lemma {:induction false} AddedQueues(queue: seq<Payment>, htlc: InterceptedHTLC, other: InterceptedHTLC)
    requires Queued(Added(queue, htlc), other)
    ensures Queued(queue, other) || other == htlc
  {
    var added := Added(queue, htlc);
    var i :| 0 <= i < |added| && other in added[i].htlcs;
    AddedEntry(queue, htlc, i);
  }

  lemma {:induction false} RemovedQueues(queue: seq<Payment>, k: nat, other: InterceptedHTLC)
    requires k < |queue| && Queued(Removed(queue, k), other)
    ensures Queued(queue, other)
  {
    var rest := Removed(queue, k);
    var i :| 0 <= i < |rest| && other in rest[i].htlcs;
    assert rest[i] == queue[if i < k then i else i + 1];
  }

  lemma {:induction false} FlattenQueued(queue: seq<Payment>, htlc: InterceptedHTLC)
    requires htlc in Flatten(queue)
    ensures Queued(queue, htlc)
  {
    if htlc !in queue[0].htlcs {
      FlattenQueued(queue[1..], htlc);
      var i :| 0 <= i < |queue[1..]| && htlc in queue[1..][i].htlcs;
      assert htlc in queue[i + 1].htlcs;
    }
  }

  lemma {:induction false} PopConcerns(queue: seq<Payment>, fee: UInt64, id: ChannelId, event: ChannelEvent,
                                       htlc: InterceptedHTLC)
    ensures var (next, action) := PopForFee(queue, fee, id);
            Queued(next.Queue(), htlc) || htlc in Concerned(event, action) ==> Queued(queue, htlc)
  {
    var i := FirstAtLeast(queue, fee);
    if i < |queue| && Queued(Removed(queue, i), htlc) {
      RemovedQueues(queue, i, htlc);
    }
  }

  /** What is queued after a step or disposed of by it was queued before or has just been delivered. */
  lemma {:induction false} StepConcerns(
    terms: ChannelTerms, view: ChannelView, event: ChannelEvent, next: ChannelView, action: Action,
    htlc: InterceptedHTLC)
    requires (next, action) == OnEvent(terms, view, event)
    requires Queued(next.Queue(), htlc) || htlc in Concerned(event, action)
    ensures Queued(view.Queue(), htlc) || event == Intercepted(htlc)
  {
    if Takes(view, event) {
      PopConcerns(WaitingFor(view, event), view.openingFeeMsat, Over(view, event), event, htlc);
    } else if action.ForwardHTLCs? && htlc in Concerned(event, action) {
      FlattenQueued(view.Queue(), htlc);
    }
    if event.Intercepted? && Queued(Added(view.Queue(), event.htlc), htlc) {
      AddedQueues(view.Queue(), event.htlc, htlc);
    }
  }

  /** Entry k of a life disposes of HTLCs delivered to it, and forwards them over its channel. */
  predicate EntryProper(life: Life, k: nat)
    requires k < |life.log|
  {
    var handled := life.log[k];
    && (forall i :: 0 <= i < |Concerned(handled.event, handled.action)| ==>
          Concerned(handled.event, handled.action)[i] in Delivered(life.log))
    && (Via(handled.action).Some? ==> Via(handled.action) == ChannelIdOf(life.view))
  }

  ghost predicate Proper(life: Life) {
    && (forall htlc :: Queued(life.view.Queue(), htlc) ==> htlc in Delivered(life.log))
    && (forall k :: 0 <= k < |life.log| ==> EntryProper(life, k))
  }

  lemma {:induction false} DeliveredGrows(log: seq<Handled>, last: Handled, htlc: InterceptedHTLC)
    ensures htlc in Delivered(log + [last]) <==> htlc in Delivered(log) || last.event == Intercepted(htlc)
  {
    assert (log + [last])[..|log|] == log;
  }

  lemma {:induction false} ViaIsTheChannel(
    terms: ChannelTerms, view: ChannelView, event: ChannelEvent, next: ChannelView, action: Action)
    requires (next, action) == OnEvent(terms, view, event)
    ensures Via(action).Some? ==> Via(action) == ChannelIdOf(next)
    ensures ChannelIdOf(view).Some? ==> ChannelIdOf(next) == ChannelIdOf(view)
  {
    if event.Intercepted? && view.PendingInitialPayment? {
      assert (next, action) == OnInitialHtlc(terms, view.queue, event.htlc);
    }
  }

  lemma {:induction false} StepProper(
    terms: ChannelTerms, life: Life, event: ChannelEvent, next: ChannelView, action: Action, after: Life)
    requires Proper(life) && (next, action) == OnEvent(terms, life.view, event)
    requires after.view == next && after.log == life.log + [Handled(event, action)]
    ensures Proper(after)
  {
    ViaIsTheChannel(terms, life.view, event, next, action);
    forall htlc | Queued(next.Queue(), htlc) || htlc in Concerned(event, action)
      ensures htlc in Delivered(after.log)
    {
      StepConcerns(terms, life.view, event, next, action, htlc);
      DeliveredGrows(life.log, Handled(event, action), htlc);
    }
    forall k | 0 <= k < |after.log|
      ensures EntryProper(after, k)
    {
      if k < |life.log| {
        assert EntryProper(life, k);
        EarlierEntryProper(life, k, after, Handled(event, action));
      }
    }
  }

  lemma {:induction false} EarlierEntryProper(life: Life, k: nat, after: Life, last: Handled)
    requires k < |life.log| && EntryProper(life, k)
    requires after.log == life.log + [last]
    requires ChannelIdOf(life.view).Some? ==> ChannelIdOf(after.view) == ChannelIdOf(life.view)
    ensures EntryProper(after, k)
  {
    var htlcs := Concerned(life.log[k].event, life.log[k].action);
    forall i | 0 <= i < |htlcs|
      ensures htlcs[i] in Delivered(after.log)
    {
      DeliveredGrows(life.log, last, htlcs[i]);
    }
  }

  /** Over every run: what is queued or disposed of was delivered, with the same amount, and goes over one channel. */
  lemma {:induction false} LiveProper(terms: ChannelTerms, events: seq<ChannelEvent>)
    ensures Proper(Live(terms, events))
  {
    if events != [] {
      var n := |events| - 1;
      var before := Live(terms, events[..n]);
      LiveProper(terms, events[..n]);
      if !before.removed {
        var (next, action) := OnEvent(terms, before.view, events[n]);
        StepProper(terms, before, events[n], next, action, Live(terms, events));
      }
    }
  }

  // ---- Every call of a channel ----

  /** The call disposes of one HTLC delivered to the channel, as entry k of its history says, over that channel. */
  predicate CallOf(call: ManagerCall, peer: PublicKey, life: Life, k: int, i: int) {
    && 0 <= k < |life.log|
    && CallFor(call, peer, life.log[k].event, life.log[k].action, i)
    && Concerned(life.log[k].event, life.log[k].action)[i] in Delivered(life.log)
    && (call.ForwardInterceptedHtlc? ==> ChannelIdOf(life.view) == Some(call.channelId))
  }

  /** Every entry of every run makes exactly one such call for each HTLC that it disposes of, in order. */
  lemma {:induction false} EntryMakesItsCalls(
    terms: ChannelTerms, peer: PublicKey, events: seq<ChannelEvent>, k: nat)
    requires k < |Live(terms, events).log|
    ensures var life := Live(terms, events);
            var calls := Calls(peer, life.log[k].event, life.log[k].action);
            && |calls| == |Concerned(life.log[k].event, life.log[k].action)|
            && forall i :: 0 <= i < |calls| ==> CallOf(calls[i], peer, life, k, i)
  {
    var life := Live(terms, events);
    FeePaymentsBearTheFee(terms, events);
    LiveProper(terms, events);
    assert EntryProper(life, k);
    CallsAreForHtlcs(peer, life.log[k].event, life.log[k].action);
  }
}
