/**
 The queue in which an LSP holds intercepted HTLCs until the opening fee can be paid.
 HTLCs of one payment hash form one entry; `GroupBy` is the reference it is proved against.
 */
module PaymentQueues {
  import opened Types

  datatype InterceptedHTLC = InterceptedHTLC(
    interceptId: InterceptId,
    expectedOutboundAmountMsat: UInt64,
    paymentHash: PaymentHash)

  datatype Payment = Payment(paymentHash: PaymentHash, htlcs: seq<InterceptedHTLC>)

  function Total(htlcs: seq<InterceptedHTLC>): nat {
    if htlcs == [] then 0
    else Total(htlcs[..|htlcs| - 1]) + htlcs[|htlcs| - 1].expectedOutboundAmountMsat
  }

  function Ids(htlcs: seq<InterceptedHTLC>): (ids: seq<InterceptId>)
    ensures |ids| == |htlcs|
  {
    seq(|htlcs|, i requires 0 <= i < |htlcs| => htlcs[i].interceptId)
  }

  /** The index of the first entry for `hash`, or the length of the queue. */
  function Find(queue: seq<Payment>, hash: PaymentHash): (i: nat)
    ensures i <= |queue|
    ensures i < |queue| ==> queue[i].paymentHash == hash
    ensures forall k :: 0 <= k < i ==> queue[k].paymentHash != hash
  {
    if queue == [] || queue[0].paymentHash == hash then 0 else 1 + Find(queue[1..], hash)
  }

  /** The index of the first entry worth at least `amount`, or the length of the queue. */
  function FirstAtLeast(queue: seq<Payment>, amount: nat): (i: nat)
    ensures i <= |queue|
    ensures i < |queue| ==> Total(queue[i].htlcs) >= amount
    ensures forall k :: 0 <= k < i ==> Total(queue[k].htlcs) < amount
  {
    if queue == [] || Total(queue[0].htlcs) >= amount then 0 else 1 + FirstAtLeast(queue[1..], amount)
  }

  function Added(queue: seq<Payment>, htlc: InterceptedHTLC): seq<Payment> {
    var i := Find(queue, htlc.paymentHash);
    if i < |queue| then queue[i := Payment(htlc.paymentHash, queue[i].htlcs + [htlc])]
    else queue + [Payment(htlc.paymentHash, [htlc])]
  }

  /** The HTLCs queued under `hash`. */
  function Group(queue: seq<Payment>, hash: PaymentHash): seq<InterceptedHTLC> {
    var i := Find(queue, hash);
    if i < |queue| then queue[i].htlcs else []
  }

  function Removed(queue: seq<Payment>, i: nat): seq<Payment>
    requires i < |queue|
  {
    queue[..i] + queue[i + 1..]
  }

  function Flatten(queue: seq<Payment>): seq<InterceptedHTLC> {
    if queue == [] then [] else queue[0].htlcs + Flatten(queue[1..])
  }

  /** Every amount that `add_htlc` and `pop_greater_than_msat` sum up stays within 64 bits. */
  ghost predicate TotalsFit(queue: seq<Payment>) {
    forall i :: 0 <= i < |queue| ==> Total(queue[i].htlcs) < UINT64_LIMIT
  }

  // ---- The reference: a log of the held HTLCs in order of arrival, grouped by payment hash ----

  function With(held: seq<InterceptedHTLC>, hash: PaymentHash): seq<InterceptedHTLC> {
    if held == [] then []
    else if held[0].paymentHash == hash then [held[0]] + With(held[1..], hash)
    else With(held[1..], hash)
  }

  function Without(held: seq<InterceptedHTLC>, hash: PaymentHash): (r: seq<InterceptedHTLC>)
    ensures |r| <= |held|
  {
    if held == [] then []
    else if held[0].paymentHash == hash then Without(held[1..], hash)
    else [held[0]] + Without(held[1..], hash)
  }

  /** Stable grouping: one entry per hash, by first arrival, arrival order inside an entry. */
  function GroupBy(held: seq<InterceptedHTLC>): seq<Payment>
    decreases |held|
  {
    if held == [] then []
    else
      var hash := held[0].paymentHash;
      [Payment(hash, With(held, hash))] + GroupBy(Without(held[1..], hash))
  }

  ghost predicate WellFormed(queue: seq<Payment>) {
    && (forall i :: 0 <= i < |queue| ==> queue[i].htlcs != [])
    && (forall i, j :: 0 <= i < |queue| && 0 <= j < |queue[i].htlcs| ==>
          queue[i].htlcs[j].paymentHash == queue[i].paymentHash)
    && (forall i, j :: 0 <= i < j < |queue| ==> queue[i].paymentHash != queue[j].paymentHash)
  }

  // ---- Properties of the operations ----

  lemma {:induction false} TotalSnoc(htlcs: seq<InterceptedHTLC>, htlc: InterceptedHTLC)
    ensures Total(htlcs + [htlc]) == Total(htlcs) + htlc.expectedOutboundAmountMsat
  {
    assert (htlcs + [htlc])[..|htlcs|] == htlcs;
  }

  lemma {:induction false} TotalPrefix(htlcs: seq<InterceptedHTLC>, k: nat)
    requires k <= |htlcs|
    ensures Total(htlcs[..k]) <= Total(htlcs)
    decreases |htlcs|
  {
    if k < |htlcs| {
      TotalPrefix(htlcs[..|htlcs| - 1], k);
      assert htlcs[..|htlcs| - 1][..k] == htlcs[..k];
    } else {
      assert htlcs[..k] == htlcs;
    }
  }

  lemma {:induction false} WithSnoc(held: seq<InterceptedHTLC>, htlc: InterceptedHTLC, hash: PaymentHash)
    ensures With(held + [htlc], hash) == With(held, hash) + if htlc.paymentHash == hash then [htlc] else []
    ensures Without(held + [htlc], hash) == Without(held, hash) + if htlc.paymentHash == hash then [] else [htlc]
  {
    if held == [] {
      assert [] + [htlc] == [htlc];
    } else {
      assert (held + [htlc])[0] == held[0];
      assert (held + [htlc])[1..] == held[1..] + [htlc];
      WithSnoc(held[1..], htlc, hash);
    }
  }

  lemma {:induction false} WithoutCommutes(held: seq<InterceptedHTLC>, a: PaymentHash, b: PaymentHash)
    ensures Without(Without(held, a), b) == Without(Without(held, b), a)
    ensures a != b ==> With(Without(held, a), b) == With(held, b)
  {
    if held != [] {
      var first, rest := held[0], held[1..];
      WithoutCommutes(rest, a, b);
      if first.paymentHash != a {
        WithoutCons(first, Without(rest, a), b);
      }
      if first.paymentHash != b {
        WithoutCons(first, Without(rest, b), a);
      }
    }
  }

  lemma {:induction false} WithoutCons(first: InterceptedHTLC, rest: seq<InterceptedHTLC>, hash: PaymentHash)
    ensures With([first] + rest, hash) == (if first.paymentHash == hash then [first] else []) + With(rest, hash)
    ensures Without([first] + rest, hash) == (if first.paymentHash == hash then [] else [first]) + Without(rest, hash)
  {
    assert ([first] + rest)[1..] == rest;
  }

  lemma {:induction false} AddedCons(first: Payment, rest: seq<Payment>, htlc: InterceptedHTLC)
    ensures Added([first] + rest, htlc) ==
            if first.paymentHash == htlc.paymentHash
            then [Payment(htlc.paymentHash, first.htlcs + [htlc])] + rest
            else [first] + Added(rest, htlc)
  {
    assert ([first] + rest)[1..] == rest;
  }

  /** `add_htlc` extends the group of the new HTLC and touches no other. */
  lemma {:induction false} AddedGroup(queue: seq<Payment>, htlc: InterceptedHTLC, hash: PaymentHash)
    ensures Group(Added(queue, htlc), hash) ==
            Group(queue, hash) + if hash == htlc.paymentHash then [htlc] else []
  {
    var i := Find(queue, htlc.paymentHash);
    var after := Added(queue, htlc);
    FindIsFirst(queue, hash, Find(queue, hash));
    if Find(queue, hash) < |queue| {
      FindIsFirst(after, hash, Find(queue, hash));
    } else if hash == htlc.paymentHash {
      FindIsFirst(after, hash, i);
    } else {
      FindIsFirst(after, hash, |after|);
    }
  }

  lemma {:induction false} FindIsFirst(queue: seq<Payment>, hash: PaymentHash, i: nat)
    requires i <= |queue|
    requires forall k :: 0 <= k < i ==> queue[k].paymentHash != hash
    requires i < |queue| ==> queue[i].paymentHash == hash
    ensures Find(queue, hash) == i
  {
  }

  lemma {:induction false} FirstAtLeastIsFirst(queue: seq<Payment>, amount: nat, i: nat)
    requires i <= |queue|
    requires forall k :: 0 <= k < i ==> Total(queue[k].htlcs) < amount
    requires i < |queue| ==> Total(queue[i].htlcs) >= amount
    ensures FirstAtLeast(queue, amount) == i
  {
  }

  lemma {:induction false} RemovedTotalsFit(queue: seq<Payment>, i: nat)
    requires TotalsFit(queue) && i < |queue|
    ensures TotalsFit(Removed(queue, i))
  {
  }

  lemma {:induction false} AddedTotalsFit(queue: seq<Payment>, htlc: InterceptedHTLC)
    requires TotalsFit(queue)
    requires Total(Group(queue, htlc.paymentHash)) + htlc.expectedOutboundAmountMsat < UINT64_LIMIT
    ensures TotalsFit(Added(queue, htlc))
  {
    TotalSnoc(Group(queue, htlc.paymentHash), htlc);
    assert Group(queue, htlc.paymentHash) == [] ==> [] + [htlc] == [htlc];
  }

  lemma {:induction false} GroupByCons(held: seq<InterceptedHTLC>)
    requires held != []
    ensures var hash := held[0].paymentHash;
            var tail := GroupBy(Without(held[1..], hash));
            GroupBy(held) == [Payment(hash, With(held, hash))] + tail && GroupBy(held)[1..] == tail
  {
  }

  /** Appending to the log is what `add_htlc` does to the grouped queue. */
  lemma {:induction false} AddRefinesGroupBy(held: seq<InterceptedHTLC>, htlc: InterceptedHTLC)
    ensures GroupBy(held + [htlc]) == Added(GroupBy(held), htlc)
    decreases |held|
  {
    GroupByCons(held + [htlc]);
    if held == [] {
      assert held + [htlc] == [htlc];
      assert With([htlc], htlc.paymentHash) == [htlc];
    } else {
      var hash := held[0].paymentHash;
      var rest := Without(held[1..], hash);
      assert (held + [htlc])[1..] == held[1..] + [htlc];
      GroupByCons(held);
      WithSnoc(held, htlc, hash);
      WithSnoc(held[1..], htlc, hash);
      AddedCons(Payment(hash, With(held, hash)), GroupBy(rest), htlc);
      if htlc.paymentHash == hash {
        assert Without(held[1..] + [htlc], hash) == rest;
        assert GroupBy(held + [htlc]) == [Payment(hash, With(held, hash) + [htlc])] + GroupBy(rest);
      } else {
        AddRefinesGroupBy(rest, htlc);
        assert Without(held[1..] + [htlc], hash) == rest + [htlc];
        assert GroupBy(held + [htlc]) == [Payment(hash, With(held, hash))] + GroupBy(rest + [htlc]) by {
          assert With(held + [htlc], hash) == With(held, hash);
        }
      }
    }
  }

  /** Dropping a hash from the log is what removing its entry does to the grouped queue. */
  lemma {:induction false} RemoveRefinesGroupBy(held: seq<InterceptedHTLC>, i: nat)
    requires i < |GroupBy(held)|
    ensures GroupBy(held)[i].htlcs == With(held, GroupBy(held)[i].paymentHash)
    ensures Removed(GroupBy(held), i) == GroupBy(Without(held, GroupBy(held)[i].paymentHash))
    decreases |held|
  {
    var hash := held[0].paymentHash;
    var rest := Without(held[1..], hash);
    GroupByCons(held);
    if i == 0 {
      assert Removed(GroupBy(held), 0) == GroupBy(rest);
    } else {
      var dropped := GroupBy(rest)[i - 1].paymentHash;
      RemoveRefinesGroupBy(rest, i - 1);
      HashOccurs(rest, i - 1);
      WithoutCommutes(held[1..], hash, dropped);
      WithoutCommutes(held, dropped, hash);
      GroupByCons(Without(held, dropped));
      assert Removed(GroupBy(held), i) == [GroupBy(held)[0]] + Removed(GroupBy(rest), i - 1);
    }
  }

  lemma {:induction false} WithoutExcludes(held: seq<InterceptedHTLC>, hash: PaymentHash)
    ensures With(Without(held, hash), hash) == []
  {
    if held != [] {
      WithoutExcludes(held[1..], hash);
      WithoutCons(held[0], Without(held[1..], hash), hash);
    }
  }

  /** The hash of an entry occurs in the log, hence not in a log from which it was dropped. */
  lemma {:induction false} HashOccurs(held: seq<InterceptedHTLC>, i: nat)
    requires i < |GroupBy(held)|
    ensures With(held, GroupBy(held)[i].paymentHash) != []
    ensures forall earlier, hash :: held == Without(earlier, hash) ==> GroupBy(held)[i].paymentHash != hash
    decreases |held|
  {
    GroupByCons(held);
    var first := held[0].paymentHash;
    if i > 0 {
      var rest := Without(held[1..], first);
      HashOccurs(rest, i - 1);
      WithoutCommutes(held[1..], first, GroupBy(rest)[i - 1].paymentHash);
      assert GroupBy(held)[i] == GroupBy(rest)[i - 1];
    }
    forall earlier, hash | held == Without(earlier, hash)
      ensures GroupBy(held)[i].paymentHash != hash
    {
      WithoutExcludes(earlier, hash);
    }
  }

  /** Looking a hash up in the queue finds the log's HTLCs with that hash, in order. */
  lemma {:induction false} GroupIsWith(held: seq<InterceptedHTLC>, hash: PaymentHash)
    ensures Group(GroupBy(held), hash) == With(held, hash)
    decreases |held|
  {
    if held != [] {
      var first := held[0].paymentHash;
      var rest := Without(held[1..], first);
      GroupByCons(held);
      GroupIsWith(rest, hash);
      if hash != first {
        WithoutCommutes(held, first, hash);
        assert Find(GroupBy(held), hash) == 1 + Find(GroupBy(rest), hash);
      }
    }
  }

  lemma {:induction false} WithHomogeneous(held: seq<InterceptedHTLC>, hash: PaymentHash)
    ensures forall j :: 0 <= j < |With(held, hash)| ==> With(held, hash)[j].paymentHash == hash
  {
    if held != [] {
      WithHomogeneous(held[1..], hash);
    }
  }

  /** Entries are non-empty, homogeneous, and no two carry the same hash. */
  lemma {:induction false} GroupByWellFormed(held: seq<InterceptedHTLC>)
    ensures WellFormed(GroupBy(held))
    decreases |held|
  {
    if held != [] {
      var hash := held[0].paymentHash;
      var rest := Without(held[1..], hash);
      GroupByCons(held);
      GroupByWellFormed(rest);
      WithHomogeneous(held, hash);
      forall i | 0 <= i < |GroupBy(rest)|
        ensures GroupBy(held)[i + 1] == GroupBy(rest)[i] && GroupBy(rest)[i].paymentHash != hash
      {
        HashOccurs(rest, i);
      }
    }
  }

  lemma {:induction false} WithPlusWithout(held: seq<InterceptedHTLC>, hash: PaymentHash)
    ensures multiset(With(held, hash)) + multiset(Without(held, hash)) == multiset(held)
  {
    if held != [] {
      WithPlusWithout(held[1..], hash);
      assert held == [held[0]] + held[1..];
    }
  }

  /** Every held HTLC is in exactly one entry: the queue holds the log's multiset. */
  lemma {:induction false} GroupByKeepsEverything(held: seq<InterceptedHTLC>)
    ensures multiset(Flatten(GroupBy(held))) == multiset(held)
    decreases |held|
  {
    if held != [] {
      var hash := held[0].paymentHash;
      var rest := Without(held[1..], hash);
      GroupByCons(held);
      GroupByKeepsEverything(rest);
      WithPlusWithout(held, hash);
      assert Without(held, hash) == rest;
    }
  }

  lemma {:induction false} AddKeepsWellFormed(queue: seq<Payment>, htlc: InterceptedHTLC)
    requires WellFormed(queue)
    ensures WellFormed(Added(queue, htlc))
  {
  }

  lemma {:induction false} RemoveKeepsWellFormed(queue: seq<Payment>, i: nat)
    requires WellFormed(queue) && i < |queue|
    ensures WellFormed(Removed(queue, i))
  {
  }

  method SumAmounts(htlcs: seq<InterceptedHTLC>) returns (total: UInt64)
    requires Total(htlcs) < UINT64_LIMIT
    ensures total == Total(htlcs)
  {
    total := 0;
    for i := 0 to |htlcs|
      invariant total == Total(htlcs[..i])
    {
      TotalPrefix(htlcs, i + 1);
      assert htlcs[..i + 1][..i] == htlcs[..i];
      total := total + htlcs[i].expectedOutboundAmountMsat;
    }
    assert htlcs[..|htlcs|] == htlcs;
  }

  class PaymentQueue {
    var payments: seq<Payment>
    // The HTLCs held now, in order of arrival.
    ghost var held: seq<InterceptedHTLC>

    ghost predicate Valid()
      reads this
    {
      payments == GroupBy(held) && TotalsFit(payments)
    }

    constructor ()
      ensures Valid() && payments == [] && held == []
    {
      payments := [];
      held := [];
    }

    method AddHtlc(newHtlc: InterceptedHTLC) returns (totalMsat: UInt64, numHtlcs: nat)
      requires Valid()
      requires Total(Group(payments, newHtlc.paymentHash)) + newHtlc.expectedOutboundAmountMsat < UINT64_LIMIT
      modifies this
      ensures Valid()
      ensures held == old(held) + [newHtlc]
      ensures payments == Added(old(payments), newHtlc)
      ensures totalMsat == Total(With(held, newHtlc.paymentHash))
      ensures numHtlcs == |With(held, newHtlc.paymentHash)|
      ensures Group(payments, newHtlc.paymentHash) == With(held, newHtlc.paymentHash)
    {
      AddRefinesGroupBy(held, newHtlc);
      AddedGroup(payments, newHtlc, newHtlc.paymentHash);
      AddedTotalsFit(payments, newHtlc);
      TotalSnoc(Group(payments, newHtlc.paymentHash), newHtlc);
      GroupIsWith(held + [newHtlc], newHtlc.paymentHash);
      var i := 0;
      while i < |payments| && payments[i].paymentHash != newHtlc.paymentHash
        invariant 0 <= i <= |payments|
        invariant forall k :: 0 <= k < i ==> payments[k].paymentHash != newHtlc.paymentHash
      {
        i := i + 1;
      }
      FindIsFirst(payments, newHtlc.paymentHash, i);
      held := held + [newHtlc];
      if i < |payments| {
        var htlcs := payments[i].htlcs + [newHtlc];
        payments := payments[i := Payment(newHtlc.paymentHash, htlcs)];
        totalMsat := SumAmounts(htlcs);
        numHtlcs := |htlcs|;
      } else {
        payments := payments + [Payment(newHtlc.paymentHash, [newHtlc])];
        totalMsat := newHtlc.expectedOutboundAmountMsat;
        numHtlcs := 1;
      }
    }

    method PopGreaterThanMsat(amountMsat: UInt64) returns (popped: Option<Payment>)
      requires Valid()
      modifies this
      ensures Valid()
      ensures var i := FirstAtLeast(old(payments), amountMsat);
              if i < |old(payments)| then popped == Some(old(payments)[i]) && payments == Removed(old(payments), i)
              else popped == None && payments == old(payments)
      ensures popped.Some? ==> popped.value.htlcs == With(old(held), popped.value.paymentHash)
      ensures popped.Some? ==> held == Without(old(held), popped.value.paymentHash)
      ensures popped.None? ==> held == old(held)
    {
      var i := 0;
      while i < |payments|
        invariant 0 <= i <= |payments|
        invariant Valid() && payments == old(payments) && held == old(held)
        invariant forall k :: 0 <= k < i ==> Total(payments[k].htlcs) < amountMsat
      {
        var total := SumAmounts(payments[i].htlcs);
        if total >= amountMsat {
          FirstAtLeastIsFirst(payments, amountMsat, i);
          RemoveRefinesGroupBy(held, i);
          RemovedTotalsFit(payments, i);
          popped := Some(payments[i]);
          held := Without(held, payments[i].paymentHash);
          payments := payments[..i] + payments[i + 1..];
          return;
        }
        i := i + 1;
      }
      FirstAtLeastIsFirst(payments, amountMsat, i);
      popped := None;
    }

    method Clear() returns (htlcs: seq<InterceptedHTLC>)
      requires Valid()
      modifies this
      ensures Valid() && payments == [] && held == []
      ensures htlcs == Flatten(old(payments))
      ensures multiset(htlcs) == multiset(old(held))
    {
      GroupByKeepsEverything(held);
      htlcs := Drained(payments);
      payments := [];
      held := [];
    }
  }

  /** Concatenates the entries front to back. */
  method Drained(payments: seq<Payment>) returns (htlcs: seq<InterceptedHTLC>)
    ensures htlcs == Flatten(payments)
  {
    htlcs := [];
    for i := 0 to |payments|
      invariant htlcs + Flatten(payments[i..]) == Flatten(payments)
    {
      assert payments[i..][1..] == payments[i + 1..];
      htlcs := htlcs + payments[i].htlcs;
    }
    assert payments[|payments|..] == [];
  }
}
