/** What the market lets in: orders, offers, heartbeats and the checks made before a flight, in plain
    figures of the records they concern. */
module MarketAdmission {
  import opened Market
  import opened MarketCauses
  import MarketParties
  import opened MarketSafety
  import opened MarketTheorems
  import opened OutpointText
  import opened Wrappers

  /** A node can fund so much more: its wallet covers it beside what is reserved and a margin, and its
      policy allows it. */
  predicate CanFund(n: Node, reserved: nat, funding: nat) {
    && reserved + funding + 63 <= n.available
    && (n.policy.Some? ==> funding <= n.policy.value.maxOrder && n.policy.value.committed + reserved + funding <= n.policy.value.maxTotal)
  }

  lemma CanFundIff(n: Node, reserved: nat, funding: nat)
    requires 0 < funding
    ensures funding <= AvailableFunding(n, reserved) <==> CanFund(n, reserved, funding)
  {}

  /** The parties and the terms of a request fit an offer and the two nodes. */
  ghost predicate Fitting(t: Tables, now: int, owner: string, input: Request, offer: Offer, p: Node, m: Node) {
    && offer.enabled && now < offer.expiresAt && offer.minCapacity <= input.capacity <= offer.maxCapacity
    && m.owner == owner != p.owner && m.role == Merchant && m.pubkey != p.pubkey
    && now <= p.lastSeen + 90 && now <= m.lastSeen + 90
    && (p.policy.Some? ==> p.policy.value.minFee <= offer.openingFee)
    && m.reserve + 63 <= m.available
    && CanFund(p, Reserved(t.orders, p.id), input.capacity + p.reserve + 1)
    && forall i :: 0 <= i < |t.orders| && t.orders[i].owner == owner && t.orders[i].quote.providerNode == p.id ==> !Outstanding(t.orders[i])
  }

  lemma FittingIff(t: Tables, now: int, owner: string, input: Request, offer: Offer, p: Node, m: Node)
    ensures Admits(t.orders, now, owner, input, offer, p, m) <==> Fitting(t, now, owner, input, offer, p, m)
  {
    CanFundIff(p, Reserved(t.orders, p.id), input.capacity + p.reserve + 1);
    hide AvailableFunding, CanFund, Outstanding, Reserved;
    assert forall i :: 0 <= i < |t.orders| ==> (Blocks(t.orders[i], owner, p.id)
      <==> t.orders[i].owner == owner && t.orders[i].quote.providerNode == p.id && Outstanding(t.orders[i]));
  }

  /** A new request is stored exactly when it fits a standing offer; the order it becomes awaits its quote on
      the offer's terms, for ten minutes, with nothing authorized, reported or due. */
  lemma CreateAddsIff(s: State, now: int, owner: string, input: Request, hash: string)
    requires Inv(s) && OrderIndex(s.tables.orders, OrderId(owner, input.key)) == |s.tables.orders|
    ensures var t, j := s.tables, OfferIndex(s.tables.offers, input.offerId);
      var added := Create(t, now, owner, input, hash);
      && (added.Some? <==>
            && 16 <= |input.key| <= 100 && j < |t.offers| && input.merchantNode in t.nodes && t.offers[j].providerNode in t.nodes
            && Fitting(t, now, owner, input, t.offers[j], t.nodes[t.offers[j].providerNode], t.nodes[input.merchantNode]))
      && (added.Some? ==>
            && |added.value.orders| == |t.orders| + 1 && added.value == t.(orders := t.orders + [added.value.orders[|t.orders|]])
            && var (o, p) := (added.value.orders[|t.orders|], t.nodes[t.offers[j].providerNode]);
            && o.id == OrderId(owner, input.key) && o.owner == owner && o.offerId == t.offers[j].id && o.quoteHash == hash
            && o.status == AwaitingQuote && o.fee == NotDue && !o.signed && !o.proven && !o.probeReceived
            && o.channelId == None && o.fundingOutpoint == None && o.provider == None && o.merchant == None && o.feeTx == None
            && o.quote.providerNode == p.id && o.quote.providerPubkey == p.pubkey
            && o.quote.merchantNode == input.merchantNode && o.quote.merchantPubkey == t.nodes[input.merchantNode].pubkey
            && o.quote.capacity == input.capacity && o.quote.funding == input.capacity + p.reserve + 1
            && o.quote.openingFee == t.offers[j].openingFee && o.quote.feeRecipient == t.offers[j].owner
            && o.quote.expiresAt == now + 600
            && (o.automatic <==> p.policy.Some? && p.policy.value.acceptPublic && p.policy.value.autoApprove))
  {
    var t, j := s.tables, OfferIndex(s.tables.offers, input.offerId);
    if j < |t.offers| && input.merchantNode in t.nodes && t.offers[j].providerNode in t.nodes {
      FittingIff(t, now, owner, input, t.offers[j], t.nodes[t.offers[j].providerNode], t.nodes[input.merchantNode]);
      assert t.nodes[input.merchantNode].id == input.merchantNode;
    }
    hide Admits, Fitting, Inv;
  }

  /** A checked offer lands exactly when its node was seen lately, keeps the least reserve and can fund the
      smallest order; then it is the provider's only enabled one. */
  lemma OfferLandsIff(s: State, now: int, f: Flight)
    requires Inv(s) && f.OfferFlight?
    ensures var t := s.tables;
      var (offer, landed) := (f.offer, CommitPublish(t, now, f));
      && (landed.Some? <==>
            && (forall i :: 0 <= i < |t.offers| ==> t.offers[i].id != offer.id) && offer.providerNode in t.nodes
            && var n := t.nodes[offer.providerNode];
            && n.lastSeen - 90 <= now <= n.lastSeen + 90 && 99 <= n.reserve
            && CanFund(n, Reserved(t.orders, n.id), offer.minCapacity + n.reserve + 1))
      && (landed.Some? ==>
            && |landed.value.offers| == |t.offers| + 1 && landed.value.offers[|t.offers|] == offer
            && landed.value == t.(offers := landed.value.offers)
            && forall i :: 0 <= i < |t.offers| ==>
                 && landed.value.offers[i] == t.offers[i].(enabled := landed.value.offers[i].enabled)
                 && (landed.value.offers[i].enabled <==> t.offers[i].enabled && t.offers[i].providerNode != offer.providerNode))
  {
    var t, offer := s.tables, f.offer;
    if offer.providerNode in t.nodes {
      var n := t.nodes[offer.providerNode];
      CanFundIff(n, Reserved(t.orders, n.id), offer.minCapacity + n.reserve + 1);
    }
    hide Inv, AvailableFunding, CanFund, Reserved;
  }

  /** An offer is checked in by the owner of a provider node, within the market's bounds, at a fee that covers
      a cell of the recipient and, with a policy, within it; it stands for a day. */
  lemma OfferDepartsIff(t: Tables, now: int, offer: Offer, minimumCell: Option<nat>)
    ensures var f := BeginPublish(t, now, offer, minimumCell);
      && (f.Some? <==>
            && offer.providerNode in t.nodes && minimumCell.Some?
            && var n := t.nodes[offer.providerNode];
            && n.owner == offer.owner && n.role == Provider
            && 100 <= offer.minCapacity && offer.minCapacity <= offer.maxCapacity && offer.maxCapacity <= 10_000_000
            && minimumCell.value <= offer.openingFee && offer.openingFee <= offer.maxCapacity
            && (n.policy.Some? ==> n.policy.value.minFee <= offer.openingFee && offer.maxCapacity + n.reserve + 1 <= n.policy.value.maxOrder))
      && (f.Some? ==> f.value == OfferFlight(offer.(enabled := true, expiresAt := now + 86400)))
  {}

  // Flights about an order.

  lemma AcceptDepartsIff(s: State, i: nat, now: int, owner: string)
    requires Inv(s) && i < |s.tables.orders|
    ensures var (o, f) := (s.tables.orders[i], BeginAccept(s.tables, now, owner, s.tables.orders[i].id));
      && (f.Some? <==> owner == o.owner && o.status == Quoted && now < o.quote.expiresAt)
      && (f.Some? ==> f.value == AcceptFlight(o.id, o.quoteHash))
  {
    IndexOf(s.tables.orders, i);
    hide Inv;
  }

  /** A peer's report is taken in while it is a minute old at most, names the other peer's key, reads as an
      outpoint and a channel, and the order was started and not given up. */
  lemma ReportDepartsIff(s: State, i: nat, now: int, node: string, e: Evidence)
    requires Inv(s) && i < |s.tables.orders|
    ensures var (o, f) := (s.tables.orders[i], BeginReport(s.tables, now, node, s.tables.orders[i].id, e));
      && (f.Some? <==>
            && (node == o.quote.providerNode || node == o.quote.merchantNode)
            && e.peerPubkey == (if node == o.quote.providerNode then o.quote.merchantPubkey else o.quote.providerPubkey)
            && !BeforeStart(o) && !GivenUp(o) && now - 60 <= e.observedAt <= now + 60
            && Canonical(e.fundingOutpoint).Some? && Bytes(e.channelId).Some? && |Bytes(e.channelId).value| == 32)
      && (f.Some? ==>
            f.value == ReportFlight(o.id, node, node == o.quote.providerNode,
              e.(fundingOutpoint := Canonical(e.fundingOutpoint).value, channelId := "0x" + HexEncode(Bytes(e.channelId).value))))
  {
    IndexOf(s.tables.orders, i);
    hide Inv, Canonical, Bytes, HexEncode;
  }

  lemma DeliveryDepartsIff(s: State, i: nat, now: int, owner: string)
    requires Inv(s) && i < |s.tables.orders|
    ensures var o := s.tables.orders[i];
      BeginDelivery(s.tables, now, owner, o.id) ==
        if owner == o.owner && o.status == Verifying && Fresh(o, now) && ShowsCapacity(o) then Some(DeliveryFlight(o.id)) else None
  {
    var o := s.tables.orders[i];
    assert Local(s.tables, o);
    hide Inv, Ready, Local, ShowsCapacity;
    InvIsUnique(s);
    IndexOf(s.tables.orders, i);
    ReadyShows(o);
    SeenHasOutpoint(s.tables, o);
  }

  lemma InvIsUnique(s: State)
    requires Inv(s)
    ensures UniqueOrders(s.tables.orders)
  {}

  lemma SeenHasOutpoint(t: Tables, o: Order)
    requires Local(t, o)
    ensures ShowsCapacity(o) ==> o.fundingOutpoint.Some? && o.provider.Some? && o.merchant.Some?
  {
    hide Canonical, Number;
  }

  lemma PaymentDepartsIff(s: State, i: nat, owner: string, txHash: string)
    requires Inv(s) && i < |s.tables.orders|
    ensures var (o, f) := (s.tables.orders[i], BeginPayment(s.tables, owner, s.tables.orders[i].id, txHash));
      && (f.Some? <==> owner == o.owner && o.status == Delivered && o.fee != Paid && Bytes(txHash).Some? && |Bytes(txHash).value| == 32)
      && (f.Some? ==> f.value == PaymentFlight(o.id, "0x" + HexEncode(Bytes(txHash).value)))
  {
    IndexOf(s.tables.orders, i);
    hide Inv, Bytes, HexEncode;
  }

  // Node records.

  /** A node's figures change only by its own heartbeat, which is not older than what is stored, keeps the
      reserve in bounds and carries a policy only for a provider, or when it is paired again. */
  lemma RecordMovesIff(s: State, step: Step, node: string)
    requires node in s.tables.nodes && !step.DoRegister?
    ensures var (n, u) := (s.tables.nodes[node], Perform(s, step).tables);
      && node in u.nodes
      && u.nodes[node] ==
           if step.DoHeartbeat? && step.node == node && n.lastSeen <= step.at && 99 <= step.reserve <= 1000
              && (step.policy.Some? ==> n.role == Provider && 0 < step.policy.value.maxOrder <= step.policy.value.maxTotal)
           then n.(lastSeen := step.at, available := step.available, reserve := step.reserve, policy := step.policy) else n
  {
    if step.DoHeartbeat? {
      hide Departure;
    } else {
      hide Perform;
      MarketParties.HeartbeatOnly(s, step);
    }
  }

  /** An offer keeps its terms for ever; it is switched off only by its owner, or when another offer of its
      provider lands. */
  lemma OfferMovesIff(s: State, step: Step, i: nat)
    requires i < |s.tables.offers| && OfferIndex(s.tables.offers, s.tables.offers[i].id) == i
    ensures var (offer, u) := (s.tables.offers[i], Perform(s, step).tables);
      && i < |u.offers|
      && u.offers[i] == offer.(enabled := u.offers[i].enabled)
      && (u.offers[i].enabled <==>
            && offer.enabled
            && !(step.DoDisable? && step.offerId == offer.id && step.owner == offer.owner)
            && !(step.DoLand? && step.flight in s.flights && step.flight.OfferFlight? && step.flight.offer.providerNode == offer.providerNode
                 && CommitPublish(s.tables, step.now, step.flight).Some?))
  {
    if step.DoDisable? {
      hide Departure;
    } else if step.DoLand? && step.flight in s.flights && step.flight.OfferFlight? {
      hide Departure, MayPublish;
    } else {
      hide Perform;
      MarketParties.OffersUntouched(s, step);
    }
  }
}
