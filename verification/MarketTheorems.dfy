/** What the step-by-step safety of the order protocol means over whole runs. */
module MarketTheorems {
  import opened Market
  import opened MarketSafety
  import opened OutpointText
  import opened Wrappers

  const EMPTY := State(Tables([], map[], [], [], {}, {}, map[]), {})

  /** Every order there was is still there and only moved forward. */
  ghost predicate Forward(t: Tables, u: Tables) {
    |t.orders| <= |u.orders| && forall i :: 0 <= i < |t.orders| ==> Monotone(t.orders[i], u.orders[i])
  }

  /** From any state that keeps the invariant (the empty one does), every run keeps it and every
      order only moves forward, however reads, commits, retries and clocks interleave. */
  lemma {:induction false} RunKeeps(s: State, steps: seq<Step>)
    requires Inv(s)
    ensures Inv(Run(s, steps)) && Forward(s.tables, Run(s, steps).tables)
  {
    if steps != [] {
      var before := Run(s, steps[..|steps| - 1]);
      RunKeeps(s, steps[..|steps| - 1]);
      StepKeeps(before, steps[|steps| - 1]);
      hide Inv, Perform;
      forall i | 0 <= i < |s.tables.orders| ensures Monotone(s.tables.orders[i], Run(s, steps).tables.orders[i]) {
        assert Evolves(before.tables.orders[i], Run(s, steps).tables.orders[i]);
      }
    }
  }

  /** Whatever happened, an account has at most one outstanding order with a provider node. */
  lemma OneOutstandingPerProvider(steps: seq<Step>, i: nat, j: nat)
    requires i < j < |Run(EMPTY, steps).tables.orders|
    ensures var (o, p) := (Run(EMPTY, steps).tables.orders[i], Run(EMPTY, steps).tables.orders[j]);
      o.owner == p.owner && o.quote.providerNode == p.quote.providerNode ==> !Outstanding(o) || !Outstanding(p)
  {
    RunKeeps(EMPTY, steps);
    assert !Rivals(Run(EMPTY, steps).tables.orders[i], Run(EMPTY, steps).tables.orders[j]);
  }

  /** What both peers reported when an order was found good enough to deliver, read off the evidence: one
      ready channel with mirrored balances, at least the quoted capacity inbound, and a received probe. */
  predicate ShowsCapacity(o: Order) {
    && o.provider.Some? && o.merchant.Some? && o.probeReceived
    && var (p, m) := (o.provider.value, o.merchant.value);
    && p.state == ChannelReady && p.settlement == None && m.state == ChannelReady && m.settlement == None
    && m.channelId == p.channelId && m.fundingOutpoint == p.fundingOutpoint
    && m.localBalance == p.remoteBalance && m.remoteBalance == p.localBalance
    && Number(m.inbound).Some? && Number(m.inbound).value >= o.quote.capacity * 100_000_000
  }

  /** Neither peer's observation is more than a minute and a half away from the clock. */
  predicate Fresh(o: Order, now: int) {
    && o.provider.Some? && o.merchant.Some?
    && now - 90 <= o.provider.value.observedAt <= now + 90 && now - 90 <= o.merchant.value.observedAt <= now + 90
  }

  lemma ReadyShows(o: Order)
    ensures Ready(o) <==> ShowsCapacity(o)
  {
    if o.merchant.Some? { NumberFits(o.merchant.value.inbound); }
    hide Number;
  }

  /** Whatever happened, a fee is due only for a delivered order and paid only by a recorded
      transaction; an order under verification shows every closure either peer reported; and a
      delivered order has a receipt of evidence that met its quote. */
  lemma ReachableOrder(steps: seq<Step>, i: nat)
    requires i < |Run(EMPTY, steps).tables.orders|
    ensures var (t, o) := (Run(EMPTY, steps).tables, Run(EMPTY, steps).tables.orders[i]);
      && (o.fee == NotDue <==> o.status != Delivered) && (o.fee == Paid <==> o.feeTx.Some?)
      && (o.status == Verifying ==> (o.provider.Some? || o.merchant.Some?) && !Closing(o.provider) && !Closing(o.merchant))
      && (o.status == Delivered ==> o.id in t.receipts && t.receipts[o.id].quote == o.quote && ShowsCapacity(t.receipts[o.id]))
  {
    RunKeeps(EMPTY, steps);
    var s := Run(EMPTY, steps);
    assert Local(s.tables, s.tables.orders[i]);
    hide Ready, ShowsCapacity, Run;
    if s.tables.orders[i].status == Delivered { ReadyShows(s.tables.receipts[s.tables.orders[i].id]); }
  }

  /** No two orders ever hold spellings of one funding outpoint, or one fee transaction. */
  lemma ReferencesAreExclusive(s: State, i: nat, j: nat)
    requires Inv(s) && i < j < |s.tables.orders|
    ensures var (o, p) := (s.tables.orders[i], s.tables.orders[j]);
      && (o.fundingOutpoint.Some? && p.fundingOutpoint.Some? ==> Meaning(o.fundingOutpoint.value) != Meaning(p.fundingOutpoint.value))
      && (o.feeTx.Some? ==> p.feeTx != o.feeTx)
  {
    var t := s.tables;
    var (o, p) := (t.orders[i], t.orders[j]);
    assert Local(t, o) && Local(t, p) && o.id != p.id;
    if o.fundingOutpoint.Some? && p.fundingOutpoint.Some? { CanonicalIff(o.fundingOutpoint.value, p.fundingOutpoint.value); }
    hide Canonical, Meaning;
    if o.fundingOutpoint.Some? && p.fundingOutpoint == o.fundingOutpoint {
      OneHolder(t.refs, FundingOutpoint, o.fundingOutpoint.value, o.id, p.id);
    }
    if o.feeTx.Some? && p.feeTx == o.feeTx { OneHolder(t.refs, FeeTransaction, o.feeTx.value, o.id, p.id); }
  }

  lemma OneHolder(refs: seq<Ref>, space: Space, value: string, a: OrderId, b: OrderId)
    requires UniqueRefs(refs) && Ref(space, value, a) in refs && Ref(space, value, b) in refs
    ensures a == b
  {}

  lemma StillThere(s: State, steps: seq<Step>, id: OrderId)
    requires Inv(s) && OrderIndex(s.tables.orders, id) < |s.tables.orders|
    ensures var (i, u) := (OrderIndex(s.tables.orders, id), Run(s, steps).tables);
      Inv(Run(s, steps)) && OrderIndex(u.orders, id) == i < |u.orders| && Monotone(s.tables.orders[i], u.orders[i])
  {
    var i := OrderIndex(s.tables.orders, id);
    RunKeeps(s, steps);
    assert Monotone(s.tables.orders[i], Run(s, steps).tables.orders[i]);
    IndexOf(Run(s, steps).tables.orders, i);
  }

  /** An order opens at most once: after a start no later start of it succeeds. */
  lemma OpensOnce(s: State, now: int, node: string, id: OrderId, steps: seq<Step>, later: int, other: string)
    requires Inv(s) && Start(s.tables, now, node, id).Some?
    ensures Start(Run(Perform(s, DoStart(now, node, id)), steps).tables, later, other, id).None?
  {
    var i, started := OrderIndex(s.tables.orders, id), Perform(s, DoStart(now, node, id));
    StepKeeps(s, DoStart(now, node, id));
    assert started.tables.orders[i].status == Opening;
    IndexOf(started.tables.orders, i);
    StillThere(started, steps, id);
  }

  /** Retrying a create after any run adds nothing and still succeeds; reusing its key with other
      parameters is refused. */
  lemma RetryAddsNothing(s: State, now: int, owner: string, input: Request, hash: string, steps: seq<Step>,
                         later: int, retry: Request, newHash: string)
    requires Inv(s) && Create(s.tables, now, owner, input, hash).Some? && retry.key == input.key
    ensures var after := Run(Perform(s, DoCreate(now, owner, input, hash)), steps).tables;
      Create(after, later, owner, retry, newHash) == if retry == input then Some(after) else None
  {
    var id, created := OrderId(owner, input.key), Perform(s, DoCreate(now, owner, input, hash));
    StepKeeps(s, DoCreate(now, owner, input, hash));
    CreateStores(s.tables, now, owner, input, hash);
    StillThere(created, steps, id);
  }

  lemma CreateStores(t: Tables, now: int, owner: string, input: Request, hash: string)
    requires Create(t, now, owner, input, hash).Some? && forall k :: k in t.nodes ==> t.nodes[k].id == k
    ensures var u := Create(t, now, owner, input, hash).value;
      var i := OrderIndex(u.orders, OrderId(owner, input.key));
      i < |u.orders| && u.orders[i].offerId == input.offerId && u.orders[i].quote.merchantNode == input.merchantNode
      && u.orders[i].quote.capacity == input.capacity
  {
    var id, u := OrderId(owner, input.key), Create(t, now, owner, input, hash).value;
    if OrderIndex(t.orders, id) == |t.orders| {
      var o := u.orders[|t.orders|];
      assert u.orders == t.orders + [o] && o.id == id;
      LastIndex(t.orders, o);
    }
  }

  lemma LastIndex(orders: seq<Order>, o: Order)
    requires OrderIndex(orders, o.id) == |orders|
    ensures OrderIndex(orders + [o], o.id) == |orders|
  {
    assert (orders + [o])[|orders|] == o && forall k :: 0 <= k < |orders| ==> (orders + [o])[k] == orders[k];
  }

  // Checks that never fail.

  /** A started acceptance can only be overtaken by the order moving on or the quote expiring: the
      quote itself never changes. */
  lemma AcceptLandsIff(s: State, now: int, f: Flight)
    requires Inv(s) && f in s.flights && f.AcceptFlight?
    ensures CommitAccept(s.tables, now, f).Some? <==> MayAccept(s.tables.orders[OrderIndex(s.tables.orders, f.id)], now)
  {
    assert Landable(s.tables, f);
  }

  /** The peers' stored observations always name one channel and one outpoint, and a receipt can
      always be assembled: a delivery lands exactly when the stored evidence is fresh and shows the capacity.
      Then the order is delivered, its fee is due, and the receipt is the order as it stands. */
  lemma DeliveryLandsIff(s: State, now: int, f: Flight)
    requires Inv(s) && f in s.flights && f.DeliveryFlight?
    ensures var (i, landed) := (OrderIndex(s.tables.orders, f.id), CommitDelivery(s.tables, now, f));
      && i < |s.tables.orders|
      && var o := s.tables.orders[i];
      && (landed.Some? <==> o.status == Verifying && Fresh(o, now) && ShowsCapacity(o))
      && (o.provider.Some? && o.merchant.Some? ==>
            o.provider.value.channelId == o.merchant.value.channelId
            && o.provider.value.fundingOutpoint == o.merchant.value.fundingOutpoint)
      && var d := o.(status := Delivered, fee := Due, deliveredAt := Some(now));
      landed.Some? ==> landed.value == s.tables.(orders := s.tables.orders[i := d], receipts := s.tables.receipts[f.id := d])
  {
    assert Landable(s.tables, f);
    var o := s.tables.orders[OrderIndex(s.tables.orders, f.id)];
    assert Local(s.tables, o);
    ReadyShows(o);
    hide Canonical, Number, Ready, ShowsCapacity;
    AttestationsAreThere(s.tables, o);
  }

  lemma AttestationsAreThere(t: Tables, o: Order)
    requires Local(t, o)
    ensures ShowsCapacity(o) ==> HasAttestations(t, o)
    ensures o.provider.Some? && o.merchant.Some? ==>
      o.provider.value.channelId == o.merchant.value.channelId && o.provider.value.fundingOutpoint == o.merchant.value.fundingOutpoint
  {
    hide Number, Canonical;
  }

  /** A payment lands exactly when no other order holds the transaction and this order is unpaid or
      paid by it; the order is delivered by then, whatever was read. */
  lemma PaymentLandsIff(s: State, f: Flight)
    requires Inv(s) && f in s.flights && f.PaymentFlight?
    ensures var o := s.tables.orders[OrderIndex(s.tables.orders, f.id)];
      && o.status == Delivered
      && (CommitPayment(s.tables, f).Some? <==>
            (o.feeTx == None || o.feeTx == Some(f.txHash))
            && forall r <- s.tables.refs :: r.space == FeeTransaction && r.value == f.txHash ==> r.order == f.id)
  {
    assert Landable(s.tables, f);
    var t := s.tables;
    var i := RefIndex(t.refs, FeeTransaction, f.txHash);
    if i < |t.refs| {
      assert t.refs[i] in t.refs;
      forall r <- t.refs | r.space == FeeTransaction && r.value == f.txHash ensures r == t.refs[i] {}
    }
  }

  // No overselling.

  /** What a node's orders reserve fits its wallet and, with a policy, its total limit. */
  ghost predicate Covered(t: Tables, node: string) {
    && node in t.nodes
    && var (n, reserved) := (t.nodes[node], Reserved(t.orders, node));
    && reserved + MARGIN <= n.available
    && (n.policy.Some? ==> reserved + n.policy.value.committed <= n.policy.value.maxTotal)
  }

  lemma {:induction false} ReservedFalls(before: seq<Order>, after: seq<Order>, node: string)
    requires |before| == |after| && forall i :: 0 <= i < |before| ==> Monotone(before[i], after[i])
    ensures Reserved(after, node) <= Reserved(before, node)
  {
    if before != [] {
      var n := |before| - 1;
      assert Monotone(before[n], after[n]);
      ReservedFalls(before[..n], after[..n], node);
    }
  }

  lemma ReservedAdds(orders: seq<Order>, o: Order, node: string)
    ensures Reserved(orders + [o], node)
      == Reserved(orders, node) + if o.quote.providerNode == node && Reserves(o.status) then o.quote.funding else 0
  {
    assert (orders + [o])[..|orders|] == orders;
  }

  /** A create that adds an order leaves its provider covered, the new order included, and within the
      per-order limit. */
  lemma CreateCovers(s: State, now: int, owner: string, input: Request, hash: string)
    requires Inv(s) && Create(s.tables, now, owner, input, hash).Some? && Create(s.tables, now, owner, input, hash).value != s.tables
    ensures var u := Create(s.tables, now, owner, input, hash).value;
      var o := u.orders[|u.orders| - 1];
      && u.orders == s.tables.orders + [o] && Covered(u, o.quote.providerNode)
      && var policy := u.nodes[o.quote.providerNode].policy;
      policy.Some? ==> o.quote.funding <= policy.value.maxOrder
  {
    var t, u := s.tables, Create(s.tables, now, owner, input, hash).value;
    var o := u.orders[|t.orders|];
    ReservedAdds(t.orders, o, o.quote.providerNode);
  }

  /** Nothing else can oversell: while the node's record stands, every step keeps it covered. */
  lemma StepKeepsCover(s: State, step: Step, node: string)
    requires Inv(s) && Covered(s.tables, node) && SameRecord(s.tables, Perform(s, step).tables, node)
    ensures Covered(Perform(s, step).tables, node)
  {
    var t, u := s.tables, Perform(s, step).tables;
    StepKeeps(s, step);
    if |u.orders| == |t.orders| {
      forall i | 0 <= i < |t.orders| ensures Monotone(t.orders[i], u.orders[i]) { assert Evolves(t.orders[i], u.orders[i]); }
      ReservedFalls(t.orders, u.orders, node);
    } else {
      OnlyCreateAdds(s, step);
      CreateCovers(s, step.now, step.owner, step.input, step.hash);
      ReservedAdds(t.orders, u.orders[|t.orders|], node);
    }
  }

  lemma LandAddsNothing(t: Tables, now: int, f: Flight)
    requires Land(t, now, f).Some?
    ensures |Land(t, now, f).value.orders| == |t.orders|
  {
    match f
    case AcceptFlight(_, _) => hide MayAccept;
    case ReportFlight(_, _, _, _) => hide BindOutpoint, Reported, SameChannel;
    case DeliveryFlight(_) => hide ReadyNow, HasAttestations;
    case PaymentFlight(_, _) => hide Bind;
    case OfferFlight(_) => hide MayPublish, Disabled;
  }

  lemma OnlyCreateAdds(s: State, step: Step)
    requires |Perform(s, step).tables.orders| != |s.tables.orders|
    ensures step.DoCreate? && Perform(s, step).tables == Create(s.tables, step.now, step.owner, step.input, step.hash).value
    ensures Create(s.tables, step.now, step.owner, step.input, step.hash).Some?
  {
    hide Create, CommitReport, CommitDelivery, CommitPayment, CommitAccept, CommitPublish, Departure, Swept, AfterFailure;
    if step.DoLand? && step.flight in s.flights { LandAddsNothing(s.tables, step.now, step.flight); }
  }

  predicate SameRecord(t: Tables, u: Tables, node: string) {
    node in t.nodes && node in u.nodes && u.nodes[node] == t.nodes[node]
  }

  ghost predicate Steady(s: State, steps: seq<Step>, node: string) {
    forall n :: 0 <= n <= |steps| ==> SameRecord(s.tables, Run(s, steps[..n]).tables, node)
  }

  /** Over any run that leaves the node's record alone. */
  lemma {:induction false} RunKeepsCover(s: State, steps: seq<Step>, node: string)
    requires Inv(s) && Covered(s.tables, node) && Steady(s, steps, node)
    ensures Covered(Run(s, steps).tables, node)
  {
    if steps != [] {
      var rest := steps[..|steps| - 1];
      assert steps[..|steps|] == steps;
      assert Steady(s, rest, node) by {
        forall n | 0 <= n <= |rest| ensures rest[..n] == steps[..n] {}
      }
      RunKeepsCover(s, rest, node);
      RunKeeps(s, rest);
      StepKeepsCover(Run(s, rest), steps[|steps| - 1], node);
    }
  }

  /** The public list shows a capacity exactly up to what a create would find fundable. */
  lemma ListedIsFundable(t: Tables, offer: Offer, capacity: nat)
    requires offer.providerNode in t.nodes && 0 < capacity
    ensures var n := t.nodes[offer.providerNode];
      capacity <= ListedCapacity(t, offer) <==>
        && (n.policy.Some? ==> n.policy.value.minFee <= offer.openingFee)
        && capacity <= offer.maxCapacity
        && Funding(capacity, n) <= AvailableFunding(n, Reserved(t.orders, n.id))
  {}
}
