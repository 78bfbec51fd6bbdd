# Verification of lightning-liquidity

Dafny models of the parts of `lightning-liquidity` that carry its guarantees, with proofs of those guarantees.
`dafny verify dfyconfig.toml` checks the whole project.

## What is modelled

**The JIT channel engine of an LSPS2 service.** A client buys a channel; the LSP intercepts the HTLCs of the payments
made over the promised short channel id, asks for the channel to be opened once one payment is large enough, forwards
one payment at a time while skimming the opening fee, and releases everything else when a payment succeeds.

- `PaymentQueue.dfy`: the queue of intercepted HTLCs, a class proved to be a stable group-by of the arrival log.
- `OpeningFee.dfy`, `FeeSplit.dfy`: the checked ceiling fee, and the rounding split that skims it from the HTLCs.
- `JitChannel.dfy`: what every call does to one channel, as functions, and runs of a channel (`Live`).
- `OutboundChannel.dfy`: the state object and the channel object, which share one mutable queue, proved against them.
- `ChannelRuns.dfy`, `ChannelConservation.dfy`, `ChannelSequencing.dfy`, `ChannelAmounts.dfy`: what holds in every
  reachable state and over every run of a channel, for HTLCs, for their order and for msat.
- `ChannelOpenings.dfy`, `ChannelForwards.dfy`: what an opening announces, in terms of the fee agreed; which HTLCs are
  forwarded when, over which channel, and with which amount each.
- `ServiceSpec.dfy`, `ServiceHandler.dfy`: the handler with its five cross-referencing maps over all peers, as
  functions and as classes that own one object and one queue per live channel.
- `ServiceRuns.dfy`, `ServiceTheorems.dfy`: the invariant of the maps over every run of calls; refinement of one flat
  map; when calls fail; conservation of HTLCs over the whole service.
- `ServiceOutputs.dfy`, `ServiceReplies.dfy`: every call to the channel manager and every request to open a channel,
  traced to the channel it concerns; every reply to a peer and every other event, traced to the request it answers.

**The message path.** `Messages.dfy`, `JsonCodec.dfy`, `JsonRpc.dfy` model the JSON-RPC 2.0 envelope: the serializer,
and the visitor that consumes an entry of the id map for every response. `Client.dfy` and `Manager.dfy` model the LSPS2
client and the manager that flushes, receives and ignores; `Correlation.dfy` relates requests and responses over runs.
`JsonReading.dfy` says what any received object means, member by member; `NodeOutputs.dfy` what a client announces, what
its node sends and whom it ignores.

**The event queue** (`EventQueue.dfy`) as a concurrent protocol: any number of enqueuers, blocking waiters and pollers
and one asynchronous waiter, interleaved step by step, with spurious wakeups and cancellation.

**Supporting codecs.** `Decimal.dfy`, `Bits.dfy`, `Scid.dfy`: the printed form of short channel ids (BOLT #7, section
"Definition of short_channel_id"). `FeeParams.dfy`: the bytes that the promise of a set of fee parameters authenticates.

## Assumptions about the environment

Each is a precondition or a hypothesis named in the statements that need it.

- Intercepted amounts are positive, and what is queued for one payment hash sums to less than 2^64 msat (`AmountFits`).
- Intercept ids are fresh (`FreshIds`, `FreshIntercepts`); conservation as multisets does not need this.
- The LSP never gives out an intercept scid twice, nor a user channel id twice to one peer, and a channel id belongs to
  one channel (`Fresh`, `FreshRun`).
- Calls into the channel manager succeed; it is a log of what it was told.
- Every call of the service handler is atomic.
- The MAC and the two text forms of a date are parameters; nothing is assumed of the MAC, and where a statement needs
  dates to be injective or readable back it says so (`InjectiveDates`, `RoundTrips`). Time is a parameter, not before
  1970. Request ids are parameters.
- The build has the standard library: expiry is checked, and there is a condition variable.

## What turned out differently

- The fee split does not always skim the whole fee: amounts 2, 2, 1 with a fee of 2 skim 1 (`SplitNotAlwaysExact`),
  although the property test at src/lsps2/service.rs:1227 expects equality. `SplitConserves` proves the bound of n - 2
  msat, `SplitBoundReached` that it is reached for every n, and `SplitExactIff` when the split is exact.
- With a fixed payment size, the payment that asked for the channel need not be the first one forwarded
  (`AnotherPaymentMayGoFirst`); `ReadyForwardsPaymentIff` says which one is.
- HTLCs for a scid whose channel was dropped are ignored, so conservation speaks of HTLCs delivered to live channels.
- No wakeup is lost because a poll leaves its waker while it still holds the queue: without that, one is lost
  (`WakeupLostWithoutLock`). That a blocking waiter passes its notification on is not needed: `NoLostWakeup` holds with
  and without it, since every event comes with a notification of its own.
- A repeated request id makes `select_opening_params` fail, but only after the new payment size has replaced the old one.
- A rejected response may still use up the entry of its id: exactly if all its fields are well-typed and it names no
  method (`RejectionUsesUpEntryIff`, with an input for either case in `RejectionExamples`).
- A buy request whose expiry is before 1970 panics before its promise is looked at, if its size passes or is not fixed
  (`BuyPanicsIff`, `OldExpiryPanics`).
- The promise binds the terms exactly up to collisions of the MAC (`PromiseBindsTerms`).

## Model

| member | source | states |
|---|---|---|
| PaymentQueues.AddRefinesGroupBy | src/lsps2/payment_queue.rs:25-41 | adding an HTLC to the queue is appending it to the arrival log and grouping stably by hash |
| PaymentQueues.RemoveRefinesGroupBy | src/lsps2/payment_queue.rs:43-50 | removing an entry is dropping its hash from the log; the entry holds exactly the log's HTLCs with that hash, in order |
| PaymentQueues.GroupIsWith | src/lsps2/payment_queue.rs:26 | looking up a hash finds the log's HTLCs with that hash in arrival order |
| PaymentQueues.GroupByWellFormed | src/lsps2/payment_queue.rs:25-54 | entries are non-empty, homogeneous in their hash, and no two share one |
| PaymentQueues.GroupByKeepsEverything | src/lsps2/payment_queue.rs:52-54 | the entries together hold exactly the multiset of the log |
| PaymentQueues.AddedGroup | src/lsps2/payment_queue.rs:25-41 | adding an HTLC extends its own group at the end and leaves every other group alone |
| PaymentQueues.PaymentQueue.AddHtlc | src/lsps2/payment_queue.rs:25-41 | log and queue grow by the HTLC; returns the true sum and length of its group |
| PaymentQueues.PaymentQueue.PopGreaterThanMsat | src/lsps2/payment_queue.rs:43-50 | takes the first entry whose sum reaches the amount and leaves the rest in order, or changes nothing when there is none |
| PaymentQueues.PaymentQueue.Clear | src/lsps2/payment_queue.rs:52-54 | returns everything held, entry by entry, and empties the queue |
| OpeningFees.ComputeOpeningFee | src/lsps2/utils.rs:52-60 | defined exactly if the product plus 999999 fits 64 bits; then the least fee that covers the proportional part and the minimum |
| OpeningFees.OpeningFeeMonotone | src/lsps2/utils.rs:52-60 | monotone in every argument, and defined for smaller arguments wherever it is defined for larger ones |
| FeeSplit.SplitConserves | src/lsps2/service.rs:1150-1171 | the forwarded sum is at least total - fee and at most max(0, n - 2) more; exact for one or two HTLCs |
| FeeSplit.SplitExactIff | src/lsps2/service.rs:1162-1167 | the whole fee is skimmed exactly if the rounding remainder is at most the last HTLC's part of total - fee rounded up |
| FeeSplit.SplitBoundReached | src/lsps2/service.rs:1162-1167 | for every n there are n HTLCs that forward n - 2 msat too much |
| FeeSplit.SplitNotAlwaysExact | src/lsps2/service.rs:1226-1227 | the equality of the property test fails for amounts 2, 2, 1 and fee 2 |
| FeeSplit.SplitFair | src/lsps2/service.rs:1228-1234 | ids in order; every HTLC but the last forwards exactly its part of total - fee rounded up, the last at most that |
| FeeSplit.RemainderBounds | src/lsps2/service.rs:1157-1160 | the shares never exceed the fee, and rounding leaves less than one msat per HTLC |
| FeeSplit.NextShare | src/lsps2/service.rs:1157-1160 | in every iteration the share fits in what is left of the fee and in the amount, so neither clamp binds |
| FeeSplit.SplitIs | src/lsps2/service.rs:1139-1172 | what each HTLC forwards, exactly: its part of total - fee rounded up, and the last one whatever the others leave of total - fee |
| FeeSplit.CalculateAmountToForwardPerHtlc | src/lsps2/service.rs:1139-1172 | the loop, with 128-bit product and 64-bit cast, computes the split; empty if the fee exceeds the total |
| OutboundChannels.DecideOpening | src/lsps2/service.rs:136-203 | the first arm's checks in order: one HTLC unless a size is fixed, limits, fee, sufficiency |
| OutboundChannels.OutboundJITChannelState.HtlcIntercepted | src/lsps2/service.rs:130-264 | every state's new state, queue and action, and the queue it leaves behind on the error path |
| OutboundChannels.OutboundJITChannelState.ChannelReady | src/lsps2/service.rs:266-297 | ready only while being opened and with a forwardable payment; the state is unchanged on error |
| OutboundChannels.OutboundJITChannelState.HtlcHandlingFailed | src/lsps2/service.rs:299-353 | forwards the next payment that can bear the fee or awaits one; refused before the channel is ready |
| OutboundChannels.OutboundJITChannelState.PaymentForwarded | src/lsps2/service.rs:355-378 | releases the whole queue once; refused unless a payment is in flight or one has succeeded |
| OutboundChannels.OutboundJITChannel.HtlcIntercepted | src/lsps2/service.rs:400-407 | the object's state follows the transition, its queue is its own, and a fee payment it asks for can be split |
| OutboundChannels.OutboundJITChannel.ChannelReady | src/lsps2/service.rs:415-421 | likewise for a channel that becomes ready |
| OutboundChannels.OutboundJITChannel.HtlcHandlingFailed | src/lsps2/service.rs:409-413 | likewise for a failed payment |
| OutboundChannels.OutboundJITChannel.PaymentForwarded | src/lsps2/service.rs:423-427 | likewise for a successful payment |
| ChannelRuns.StepInv | src/lsps2/service.rs:130-378 | every call keeps the channel invariant, or drops the channel with exactly the refused HTLC in its queue |
| ChannelRuns.LiveInv | src/lsps2/service.rs:709-757 | every reachable channel satisfies the invariant; a dropped one holds only the HTLC being failed |
| ChannelRuns.ReadyAlwaysForwards | src/lsps2/service.rs:270-290 | a channel being opened always queues a payment strictly above its fee, so becoming ready never lacks a forwardable payment |
| ChannelRuns.FixedSizeNeverRefuses | src/lsps2/service.rs:135-204 | after an accepted fixed-size purchase no HTLC is ever refused |
| ChannelRuns.FixedSizeOpensExactly | src/lsps2/service.rs:178-190 | it opens exactly at the HTLC that brings one payment hash to the size, for that size less its fee; until then every payment is below the size |
| ChannelRuns.VariableSizeQueueEmpty | src/lsps2/service.rs:136-151 | with a variable amount nothing is queued before the opening, so the first HTLC is alone |
| ChannelRuns.AwaitingMeansAllBelow | src/lsps2/service.rs:228-256 | while a payment is awaited, every queued payment is strictly below the fee |
| ChannelRuns.TriggersItsOwnPayment | src/lsps2/service.rs:228-256 | what a new HTLC sets off is the forwarding of its own payment, exactly if that now reaches the fee; all others stay below |
| ChannelRuns.FeePaymentsBearTheFee | src/lsps2/service.rs:234-284 | every fee payment of every run is non-empty and totals at least the fee |
| ChannelOpenings.OpeningChargesTheTerms | src/lsps2/service.rs:153-190 | every opening of every run announces the least fee that covers the fixed size, or the opener's amount, and the rest of it as the amount to forward; both within the limits |
| ChannelOpenings.VariableSizeOpensIff | src/lsps2/service.rs:136-204 | with a variable amount the first HTLC opens exactly if it is within the limits and some fee below it covers it without overflow |
| ChannelForwards.ForwardsIff | src/lsps2/service.rs:228-353 | a fee payment is forwarded exactly if the channel becomes ready, handles a failure of the one in flight, or awaits one, and some queued payment bears the fee |
| ChannelForwards.ForwardsTheFirst | src/lsps2/service.rs:228-353 | ... and then it is the first such payment, for the channel's fee; the others keep waiting in order |
| ChannelForwards.ReleasesInOrder | src/lsps2/service.rs:355-378 | a success releases every queued HTLC once, payment by payment in queue order |
| ChannelForwards.CallsAreForHtlcs | src/lsps2/service.rs:719-753 | an action makes one call per HTLC, in order: with that HTLC's id, the peer and the channel, its exact amount after the fee, or all of it where no fee is due |
| ChannelForwards.LiveProper | src/lsps2/service.rs:709-757 | over every run, HTLCs are queued and handed over with the amounts they were delivered with, and over one channel |
| ChannelForwards.EntryMakesItsCalls | src/lsps2/service.rs:709-757 | ... so every call of a run is for an HTLC delivered to that channel, over that channel's id |
| ChannelConservation.StepConserves | src/lsps2/service.rs:130-378 | what a call takes in or had queued is queued after it or handed to the channel manager by it |
| ChannelConservation.HtlcsConserved | src/lsps2/service.rs:709-757 | over every run, delivered = held + handed over, as multisets of ids |
| ChannelConservation.EachHtlcOnce | src/lsps2/service.rs:709-757 | with fresh ids every delivered HTLC is held or handed over, never both, never twice |
| ChannelConservation.NothingHeldAfterSuccess | src/lsps2/service.rs:362-366 | once a payment succeeded nothing is held, so dropping the queue loses nothing |
| ChannelSequencing.FeeForwardsBounded | src/lsps2/service.rs:92-121 | over every run there are at most 1 + (handled failures) fee payments |
| ChannelSequencing.FeeForwardsSeparated | CHANGELOG.md:5-8 | while a fee payment is in flight no other is forwarded without a failure in between |
| ChannelSequencing.NoFeeAfterSuccess | src/lsps2/service.rs:355-378 | after a success the state is final and no fee is skimmed again |
| ChannelSequencing.PaidBeforeReleased | CHANGELOG.md:5-8 | nothing is released before a fee payment was forwarded with no handled failure between it and the release |
| ChannelSequencing.FeeAndChannelFixed | src/lsps2/service.rs:94-121 | the fee, once fixed, and the channel id, once known, never change |
| ChannelSequencing.OpensOnce | src/lsps2/service.rs:178-190 | the opening is requested once, exactly when the first state is left |
| ChannelSequencing.AdvertisedAmountHonoured | src/lsps2/service.rs:266-285 | with a variable amount the payment that asked for the channel is the one forwarded, with at least the advertised amount, exactly it for a single HTLC |
| ChannelSequencing.ReadyForwardsPaymentIff | src/lsps2/service.rs:270-284 | for any terms, a payment is the one forwarded exactly if it bears the fee and no earlier one does |
| ChannelSequencing.AnotherPaymentMayGoFirst | src/lsps2/service.rs:270-284 | a run with a fixed size in which another payment than the opener's is forwarded |
| ChannelAmounts.AmountsConserved | src/lsps2/service.rs:130-378 | over every run, in msat: delivered = held + forwarded + failed + skimmed |
| ChannelAmounts.EveryPaymentSkimsTheFee | src/lsps2/service.rs:1139-1172 | every fee payment of every run skims at most the fee and at least the fee less n - 2 msat |
| ChannelAmounts.SkimmedAtMostOneFeePerFailure | CHANGELOG.md:5-8 | over every run nothing is skimmed before the opening; then every fee payment charges the fee announced with it, and at most that fee is skimmed once, and once more per handled failure |
| ChannelAmounts.LspIsPaidBeforeRelease | CHANGELOG.md:5-8 | when the queue was released, a fee payment not failed in between has skimmed the fee announced, up to n - 2 msat |
| ServiceHandlers.PeerState.Hear | src/lsps2/service.rs:709-757 | one channel of the peer answers; all others and the indexes stay; a refusing one is removed |
| ServiceHandlers.LSPS2ServiceHandler.CarryOut | src/lsps2/service.rs:716-745 | the manager calls and the event that an action asks for, in order |
| ServiceHandlers.LSPS2ServiceHandler.HtlcIntercepted | src/lsps2/service.rs:691-769 | the whole new state of all maps, logs and events; fails exactly if the peer has no state or the channel refuses |
| ServiceHandlers.LSPS2ServiceHandler.HtlcHandlingFailed | src/lsps2/service.rs:778-835 | likewise; an id that leads nowhere is ignored |
| ServiceHandlers.LSPS2ServiceHandler.PaymentForwarded | src/lsps2/service.rs:848-899 | likewise; an id whose peer or scid is missing is an error |
| ServiceHandlers.LSPS2ServiceHandler.ChannelReady | src/lsps2/service.rs:907-978 | likewise, with the two channel id indexes extended even when the call fails later |
| ServiceHandlers.LSPS2ServiceHandler.InvoiceParametersGenerated | src/lsps2/service.rs:609-677 | takes the request off the books; for a purchase creates the channel, its indexes and the reply |
| ServiceHandlers.LSPS2ServiceHandler.OpeningFeeParamsGenerated | src/lsps2/service.rs:550-602 | takes the request off the books; answers a fee enquiry with minted parameters |
| ServiceHandlers.LSPS2ServiceHandler.InvalidTokenProvided | src/lsps2/service.rs:495-543 | takes the request off the books; answers a fee enquiry with the token error |
| ServiceHandlers.LSPS2ServiceHandler.HandleGetInfoRequest | src/lsps2/service.rs:980-998 | records the enquiry, making peer state if needed, and announces it |
| ServiceSpec.SizeRefusalMeans | src/lsps2/service.rs:1003-1070 | when each error code is returned: too small below the minimum or where the fee leaves nothing, too large above the maximum or where the fee overflows, none otherwise |
| ServiceHandlers.LSPS2ServiceHandler.HandleBuyRequest | src/lsps2/service.rs:1000-1106 | accepted exactly if size, expiry and promise pass; panics at an expiry before 1970; otherwise only a reply with the code of the first failed check |
| ServiceRuns.BuyAdmits | src/lsps2/service.rs:1003-1086 | a purchase is accepted exactly if its promise is valid, its expiry is not before 1970, and a fixed size is within the limits with some fee below it covering it |
| ServiceRuns.BuyPanicsIff | src/lsps2/utils.rs:24-28 | a request panics exactly if its expiry is before 1970 and its size is not fixed or passes, whatever its promise |
| ServiceRuns.OldExpiryPanics | src/lsps2/utils.rs:24-28 | an expiry one second before 1970 panics with no size and with an admissible one, and is answered with one that is too large |
| ServiceRuns.AfterSound | src/lsps2/service.rs:430-454 | every call keeps: the indexes lead exactly to the channels, channels are reachable states of their own runs, pending purchases are admitted ones |
| ServiceRuns.RunSound | src/lsps2/service.rs:457-488 | ... so over every run of calls |
| ServiceTheorems.CallsRefineFlatMap | src/lsps2/service.rs:616-975 | the five maps refine one map from scid to peer and channel: a call creates one channel, lets the addressed one hear one event, or leaves all alone |
| ServiceTheorems.IndexesLeadToChannels | src/lsps2/service.rs:695-709 | every channel is addressed by its scid and by its user channel id |
| ServiceTheorems.ChannelIdLeadsToChannel | src/lsps2/service.rs:781-790 | once ready, a channel is addressed by its channel id |
| ServiceTheorems.ReadyAddresses | src/lsps2/service.rs:914-924 | a user channel id addresses a channel exactly if it is that channel's and the peer is its owner |
| ServiceTheorems.PurchaseCreatesChannel | src/lsps2/service.rs:609-677 | an accepted purchase that is given fresh ids becomes one new channel with the terms bought; no other channel changes |
| ServiceTheorems.EveryChannelOpenedOnce | src/lsps2/service.rs:709-718 | over every run the LSP is asked to open a channel once if it left its first state, and otherwise never |
| ServiceTheorems.RefusedIff | src/lsps2/service.rs:135-204 | an admitted channel refuses an HTLC exactly if its amount is variable, it is not opened yet, and the amount does not pay for itself |
| ServiceTheorems.InterceptFailsIff | src/lsps2/service.rs:691-769 | an intercept fails for no other reason: a known scid always has peer state, and fixed-size purchases never fail |
| ServiceTheorems.ReadyFailsIff | src/lsps2/service.rs:907-978 | becoming ready fails exactly if the channel was dropped or is not being opened |
| ServiceTheorems.LostIdFailsIff | src/lsps2/service.rs:778-899 | a channel id that leads to no channel makes `payment_forwarded` fail exactly if it was announced, and `htlc_handling_failed` never |
| ServiceTheorems.ChannelIdFailsIff | src/lsps2/service.rs:778-899 | one that leads to a channel makes them fail exactly if the channel is live and has no payment in flight or forwarded, or is not ready |
| ServiceTheorems.IssuedTermsCanBeBought | src/lsps2/service.rs:1000-1106 | issued terms are accepted exactly until expiry, for no fixed size or one that pays for itself |
| ServiceTheorems.CallsHandOver | src/lsps2/service.rs:691-975 | only the addressed channel hands anything to the channel manager |
| ServiceTheorems.ServiceConserves | src/lsps2/service.rs:691-975 | over every run of all channels, delivered = held + handed over, as multisets of ids |
| ServiceTheorems.EveryHtlcInOnePlace | src/lsps2/service.rs:691-975 | with fresh ids every delivered HTLC is in exactly one place: one channel's queue or the manager's log, there once |
| ServiceOutputs.EveryCallIsForADeliveredHtlc | src/lsps2/service.rs:691-975 | over every run, every call to the channel manager fails one HTLC delivered to one channel, or forwards it to that channel's owner over that channel with its exact amount |
| ServiceOutputs.EveryEntryIsCarriedOut | src/lsps2/service.rs:691-975 | ... and conversely everything in a channel's history was handed over, in one block |
| ServiceOutputs.OpenEventsAreRight | src/lsps2/service.rs:709-718 | over every run, every request to open a channel names an existing channel, its owner and its user channel id, under which becoming ready reaches it; fee and amount are those of the terms bought |
| ServiceReplies.BuyTurnedDownIff | src/lsps2/service.rs:1003-1086 | which code turns a purchase down, exactly: 3 or 4 for its size, 2 for its promise or expiry |
| ServiceReplies.WaitingIsPending | src/lsps2/service.rs:495-1106 | what is kept for a peer under an id is the last request there that was not answered since, by the calls alone |
| ServiceReplies.EveryReplyIsDue | src/lsps2/service.rs:495-1106 | over every run, a call adds exactly the reply due to the request waiting under its id, or the code of the purchase turned down; no other call adds one |
| ServiceReplies.RepliesAtMostRequests | src/lsps2/service.rs:495-1106 | replies to a peer under an id never outnumber its requests |
| ServiceReplies.ToldScidsLeadToChannels | src/lsps2/service.rs:609-677 | every scid a peer was ever told leads to a channel of that peer |
| ServiceReplies.EveryRequestIsAnnounced | src/lsps2/service.rs:980-1106 | over every run, exactly the enquiries and the accepted purchases are announced to the LSP, as they came in |
| JsonCodecs.FeeParamsRoundTrip | src/lsps2/msgs.rs:85-105 | fee parameters, with amounts as decimal strings, are read back as written |
| JsonCodecs.AmountRoundTrip | src/lsps0/ser.rs:585-637 | every 64-bit amount is read back from its decimal string, also where it is optional |
| JsonCodecs.RequestRoundTrip | src/lsps0/ser.rs:246-330 | the parameters of every request are read back under its method |
| JsonCodecs.ResultRoundTrip | src/lsps0/ser.rs:258-345 | the result of every response is read back under the method it answers |
| JsonReadings.FeeParamsReadIff | src/lsps2/msgs.rs:85-105 | an object is read as fee parameters exactly if its eight members say so |
| JsonReadings.GetInfoMeans | src/lsps2/msgs.rs:27-31 | an enquiry is read with the token its parameters have; without a token, or without parameters, with none |
| JsonReadings.BuyMeans | src/lsps2/msgs.rs:116-125 | a purchase is read exactly if its fee parameters and size say so; a size left out or null is not fixed |
| JsonReadings.BuyResultMeans | src/lsps2/msgs.rs:151-159 | an awaited purchase result is read exactly if its members say so; a trust flag left out is false |
| JsonReadings.ErrorMeans | src/lsps0/ser.rs:183-191 | an awaited error is read exactly if its members say so, whatever the result; data left out or null is none |
| JsonReadings.MenuMeans | src/lsps2/msgs.rs:107-112 | an awaited menu is read entry by entry |
| JsonReadings.ProtocolsMean | src/lsps0/ser.rs:470-486 | an awaited list of protocols is read number by number |
| JsonReadings.ArrayMeansObject | src/lsps0/ser.rs:183-191 | a structure written as an array means the object of the same values under its field names |
| JsonReadings.ArraysMayOmit | src/lsps2/msgs.rs:116-159 | such an array may leave off the trust flag or the size, and nothing else |
| JsonReadings.WrittenForm | src/lsps0/ser.rs:238-355 | the version comes first; a missing token is written as null, a missing size not at all |
| JsonRpc.MethodNameRoundTrip | src/lsps0/ser.rs:58-94 | names and methods correspond one to one |
| JsonRpc.FieldOrderIrrelevant | src/lsps0/ser.rs:372-399 | objects without duplicate keys and with the same fields are read alike in any order |
| JsonRpc.DecodeSound | src/lsps0/ser.rs:401-578 | an accepted response was awaited, answers the recorded method and uses up that entry only; nothing else that is accepted touches the map |
| JsonRpc.RejectionUsesUpEntryIff | src/lsps0/ser.rs:372-578 | a rejected object uses up an entry exactly if all its fields are well-typed, it names no method and its id is awaited; and then only that entry |
| JsonRpc.RejectionExamples | src/lsps0/ser.rs:372-578 | a response with neither result nor error uses up its entry; one with an ill-typed error does not |
| JsonRpc.RoundTripIff | src/lsps0/ser.rs:238-582 | a message survives writing and reading, in any field order, exactly if the reader awaits it; then the map loses exactly a response's id |
| JsonRpc.Serialize | src/lsps0/ser.rs:238-355 | the fields written, one by one |
| JsonRpc.Gather | src/lsps0/ser.rs:372-399 | the loop keeps the last value of every key and stops at the first ill-typed one |
| JsonRpc.VisitMap | src/lsps0/ser.rs:368-582 | the message and the new id map, including every error |
| Clients.LSPS2ClientHandler.RequestOpeningParams | src/lsps2/client.rs:118-137 | records and sends a fee enquiry |
| Clients.LSPS2ClientHandler.SelectOpeningParams | src/lsps2/client.rs:157-187 | records the size and sends the purchase, unless the id was pending already |
| Clients.LSPS2ClientHandler.HandleBuyResponse | src/lsps2/client.rs:255-303 | settles a pending purchase and announces its parameters with its size, if the scid can be read |
| Clients.LSPS2ClientHandler.HandleMessage | src/lsps2/client.rs:189-324 | every response settles only its own pending request; unknown ones change nothing |
| Managers.LiquidityManager.HandleCustomMessage | src/manager.rs:483-519 | an ignored peer changes nothing; an unreadable payload is answered with the parse error and its peer ignored; a response reaches the client |
| Managers.LiquidityManager.GetAndClearPendingMsg | src/manager.rs:521-544 | all pending messages leave in order, and the ids of all requests among them are recorded, later over earlier |
| Correlation.AcceptedAtMostFlushed | src/manager.rs:483-544 | accepted responses for an id never outnumber the requests flushed with it |
| Correlation.RecordIsLastFlushed | src/manager.rs:524-534 | the method on record for an id is the one last flushed |
| Correlation.AcceptedAnswersLastFlushed | src/lsps0/ser.rs:468-578 | an accepted response answers the request last flushed with its id |
| Correlation.ReadyAtMostSelected | src/lsps2/client.rs:157-303 | announcements for a peer and id, plus a pending purchase, never outnumber the selections |
| Correlation.ReadyAtMostAccepted | src/lsps2/client.rs:255-303 | no announcement without an accepted response to a flushed request |
| Correlation.EachReadyMatchesOneSelection | src/lsps2/client.rs:255-303 | with fresh ids every announcement belongs to one selection with the same peer, id and size, and is its only one |
| NodeOutputs.PendingAsCalled | src/lsps2/client.rs:118-303 | what is pending with a peer is what was asked there and not answered since, by the calls alone |
| NodeOutputs.IgnoredAsCalled | src/manager.rs:483-519 | a peer is ignored exactly if a payload of it could not be read |
| NodeOutputs.EveryAnnouncementIsDue | src/lsps2/client.rs:189-324 | over every run, a response announces exactly the menu, or the scid, delta and size of the purchase, if it answers what is pending; nothing else announces anything |
| NodeOutputs.EveryOutcomeIsRight | src/manager.rs:483-519 | over every run, what becomes of a payload, and whether the client welcomes it |
| NodeOutputs.EveryPostIsDue | src/manager.rs:483-544 | over every run, exactly the requests made, the messages handed in and a parse error for each unreadable payload are enqueued, to the right peers, and flushed in that order or still pending |
| NodeOutputs.PayloadsAreRead | src/manager.rs:521-544 | what is flushed is addressed to the peer it is for, and is read there as it was meant exactly if it is awaited |
| NodeOutputs.AnswersArrive | src/manager.rs:483-544 | a flushed answer is accepted by the client's node exactly if that awaits it |
| EventQueues.StepKeepsHistory | src/events.rs:48-129 | every step keeps: enqueued = handed out + queued, in order |
| EventQueues.FirstInFirstOut | src/events.rs:48-129 | over every interleaving nothing is lost, duplicated or reordered |
| EventQueues.ConsumersGetTheNext | src/events.rs:61-129 | over every run, a consumer gets exactly the next event not handed out yet, a waiter or a task returns exactly if there is one, draining hands out all, and nothing else hands out anything |
| EventQueues.PushesWhatWasOffered | src/events.rs:48-59 | what is enqueued is the event its thread was called with |
| EventQueues.StepKeepsSleepersCovered | src/events.rs:48-88 | every step keeps: while a waiter sleeps, a notification or a woken waiter is on the way for every queued event |
| EventQueues.StepKeepsTaskCovered | src/events.rs:120-129 | every step keeps: a parked task that was not woken has left its waker, which somebody is about to take if an event is queued |
| EventQueues.QuiescentMeansAsleep | src/events.rs:48-129 | the protocol never gets stuck: when nothing moves, whoever is left sleeps |
| EventQueues.NoLostWakeup | src/events.rs:48-129 | in every reachable state in which nothing moves and events are queued, nobody sleeps |
| EventQueues.ComesToRest | src/events.rs:48-129 | without calls from outside or spurious wakeups the protocol comes to rest within a bounded number of steps |
| EventQueues.WakeupLostWithoutLock | src/events.rs:123-127 | a run that loses a wakeup if the waker is left after letting go of the queue |
| Scids.ScidRoundTrip | src/lsps2/msgs.rs:129-145 | every 64-bit id survives being printed and parsed back |
| Scids.PartsRecovered | src/utils.rs:16-38 | from the text of an in-range block, index and output the extractors recover all three |
| Scids.ExtractorsAreDigits | src/utils.rs:16-28 | the shifts and masks are the three digits of the id |
| Scids.ScidFromHumanReadableString | src/utils.rs:30-38 | the parser over the parts between the letters x; any further part is ignored |
| Decimals.UInt64RoundTrip | src/lsps0/ser.rs:585-608 | every 64-bit number is parsed back from its decimal form |
| Decimals.ParsesUInt64Iff | src/lsps0/ser.rs:598-607 | a text is parsed to a number exactly if it is digits, after an optional plus sign, worth that number within 64 bits |
| FeeParams.TermBytesInjective | src/lsps2/msgs.rs:57-63 | the bytes fed to the MAC differ whenever any of the seven fields does |
| FeeParams.MintedValidUntilExpiry | src/lsps2/utils.rs:14-45 | issued parameters are accepted exactly until they expire |
| FeeParams.MenuIsIssued | src/lsps2/service.rs:562-569 | the menu given out has the LSP's terms in order, each entry valid until it expires |
| FeeParams.PromiseBindsTerms | src/lsps2/utils.rs:34-44 | until its expiry, a promise issued for some terms is accepted exactly with those terms, or with terms whose different bytes have the same tag under the MAC |
| FeeParams.HexInjective | src/utils.rs:49-55 | different bytes have different hexadecimal forms |
| FeeParams.HexAt | src/utils.rs:49-55 | two lower-case digits per byte, the higher first |
| FeeParams.BigEndianAt | src/lsps2/msgs.rs:57-63 | the integers fed to the MAC are their base 256 digits, the most significant first |
| FeeParams.HexStr | src/utils.rs:49-55 | the loop writes two digits per byte |
| FeeParams.IntoOpeningFeeParams | src/lsps2/msgs.rs:54-77 | the parameters minted, with the promise over the bytes fed step by step |
| FeeParams.IsValidOpeningFeeParams | src/lsps2/utils.rs:14-45 | valid exactly if not expired and carrying the promise of its own terms; a panic exactly for an expiry before 1970 |

## Left out

- All of src/lsps1: it is compiled only on request and marked unfinished.
- The LSPS0 client and service handlers and the callback of the message queue: forwarding with one branch each.
- The channel manager, the peer manager, feature bits, wire framing, and block listening: the channel manager is a log.
- A failing call into the channel manager, which would abandon the rest of a payment's HTLCs half-way.
- Locks other than those of the event queue, their order and poisoning.
- The text of JSON: a payload is no object, or a sequence of keys and values; duplicates inside a nested object
  and text after the object are not modelled.
- The texts of error messages, logging and debug assertions about duplicates.
- PaymentQueues.PaymentQueue.AddHtlc: does not model the overflow of a payment's sum past 64 bits, which the environment rules out.
- FeeSplit.CalculateAmountToForwardPerHtlc: does not model the division by zero for HTLCs that are all zero with a zero fee.
- Clients.LSPS2ClientHandler.HandleMessage: the state of a peer is a value in the handler's map, not an object of its own, so aliasing of peer states is not modelled.
- Managers.LiquidityManager.HandleCustomMessage: messages for other components are handed back; what those enqueue in return is a call of its own in the runs.
- Whether expired purchases or dropped channels are ever cleaned up: the code does not do so.
