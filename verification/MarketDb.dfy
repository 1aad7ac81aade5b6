/** The marketplace database object. A handler works on a copy of the tables and commits by storing
    it, so every early return is a rollback; each is proved against its transaction in `Market`. */
module MarketDb {
  import opened Market
  import opened OutpointText
  import opened Wrappers

  /** What a handler left behind: the transaction's tables if it committed, the old ones if not. */
  ghost predicate Ran(before: Tables, after: Tables, ok: bool, transaction: Option<Tables>) {
    ok == transaction.Some? && after == if transaction.Some? then transaction.value else before
  }

  class Db {
    var tables: Tables

    constructor ()
      ensures tables == Tables([], map[], [], [], {}, {}, map[])
    {
      tables := Tables([], map[], [], [], {}, {}, map[]);
    }

    method FindOrder(id: OrderId) returns (i: nat)
      ensures i == OrderIndex(tables.orders, id)
    {
      i := 0;
      while i < |tables.orders| && tables.orders[i].id != id
        invariant i <= |tables.orders|
        invariant forall k :: 0 <= k < i ==> tables.orders[k].id != id
      {
        i := i + 1;
      }
    }

    method FindOffer(id: string) returns (i: nat)
      ensures i == OfferIndex(tables.offers, id)
    {
      i := 0;
      while i < |tables.offers| && tables.offers[i].id != id
        invariant i <= |tables.offers|
        invariant forall k :: 0 <= k < i ==> tables.offers[k].id != id
      {
        i := i + 1;
      }
    }

    method HasOutstanding(owner: string, node: string) returns (found: bool)
      ensures found <==> exists k :: 0 <= k < |tables.orders| && Blocks(tables.orders[k], owner, node)
    {
      for i := 0 to |tables.orders|
        invariant forall k :: 0 <= k < i ==> !Blocks(tables.orders[k], owner, node)
      {
        if Blocks(tables.orders[i], owner, node) { return true; }
      }
      return false;
    }

    method SumReserved(node: string) returns (sum: nat)
      ensures sum == Reserved(tables.orders, node)
    {
      sum := 0;
      for i := 0 to |tables.orders|
        invariant sum == Reserved(tables.orders[..i], node)
      {
        var o := tables.orders[i];
        assert tables.orders[..i + 1][..i] == tables.orders[..i];
        if o.quote.providerNode == node && Reserves(o.status) { sum := sum + o.quote.funding; }
      }
      assert tables.orders[..|tables.orders|] == tables.orders;
    }

    method CreateOrder(now: int, owner: string, input: Request, hash: string) returns (ok: bool)
      modifies this
      ensures Ran(old(tables), tables, ok, Create(old(tables), now, owner, input, hash))
    {
      if !(16 <= |input.key| <= 100) { return false; }
      var id := OrderId(owner, input.key);
      var i := FindOrder(id);
      if i < |tables.orders| {
        var o := tables.orders[i];
        return o.offerId == input.offerId && o.quote.merchantNode == input.merchantNode && o.quote.capacity == input.capacity;
      }
      var j := FindOffer(input.offerId);
      if j == |tables.offers| { return false; }
      var offer := tables.offers[j];
      if !(offer.enabled && offer.expiresAt > now) { return false; }
      if !(offer.minCapacity <= input.capacity <= offer.maxCapacity) { return false; }
      if input.merchantNode !in tables.nodes || offer.providerNode !in tables.nodes { return false; }
      var merchant, provider := tables.nodes[input.merchantNode], tables.nodes[offer.providerNode];
      if !(merchant.owner == owner && merchant.role == Merchant) { return false; }
      if !(provider.owner != owner && provider.pubkey != merchant.pubkey) { return false; }
      if !(Online(provider, now) && Online(merchant, now)) { return false; }
      var outstanding := HasOutstanding(owner, provider.id);
      if outstanding { return false; }
      if provider.policy.Some? && offer.openingFee < provider.policy.value.minFee { return false; }
      var reserved := SumReserved(provider.id);
      if AvailableFunding(provider, reserved) < Funding(input.capacity, provider) { return false; }
      if merchant.available < merchant.reserve + MARGIN { return false; }
      tables := tables.(orders := tables.orders + [NewOrder(id, now, input, offer, provider, merchant, hash)]);
      return true;
    }

    method SignQuote(now: int, node: string, id: OrderId) returns (ok: bool)
      modifies this
      ensures Ran(old(tables), tables, ok, QuoteOrder(old(tables), now, node, id))
    {
      var i := FindOrder(id);
      if i == |tables.orders| || !MayQuote(tables.orders[i], node, now) { return false; }
      tables := Put(tables, i, tables.orders[i].(signed := true, status := Quoted));
      return true;
    }

    method StartOpening(now: int, node: string, id: OrderId) returns (ok: bool)
      modifies this
      ensures Ran(old(tables), tables, ok, Start(old(tables), now, node, id))
    {
      var i := FindOrder(id);
      if i == |tables.orders| || !MayStart(tables.orders[i], node, now) { return false; }
      tables := Put(tables, i, tables.orders[i].(status := Opening));
      return true;
    }

    method ReportFailure(node: string, id: OrderId, beforeFunding: bool) returns (ok: bool)
      modifies this
      ensures Ran(old(tables), tables, ok, Fail(old(tables), node, id, beforeFunding))
    {
      var i := FindOrder(id);
      if i == |tables.orders| || !MayFail(tables.orders[i], node) { return false; }
      var order := tables.orders[i];
      if beforeFunding && Early(order.status) && order.fundingOutpoint.None? && order.channelId.None? {
        order := order.(status := Failed);
      } else {
        order := order.(status := Reconciling);
      }
      tables := Put(tables, i, order);
      return true;
    }

    method ReportProbe(node: string, id: OrderId, hash: string, invoice: bool, paid: bool) returns (ok: bool)
      modifies this
      ensures Ran(old(tables), tables, ok, Probe(old(tables), node, id, hash, invoice, paid))
    {
      var i := FindOrder(id);
      if i == |tables.orders| { return false; }
      var order := tables.orders[i];
      if order.quote.merchantNode != node || order.merchant.None? { return false; }
      if order.probeHash.Some? {
        if order.probeHash.value != hash { return false; }
      } else {
        if !invoice { return false; }
        order := order.(probeHash := Some(hash));
      }
      if paid { order := order.(probeReceived := true); }
      tables := Put(tables, i, order).(probed := tables.probed + {id});
      return true;
    }

    method CancelOrder(owner: string, id: OrderId) returns (ok: bool)
      modifies this
      ensures Ran(old(tables), tables, ok, Cancel(old(tables), owner, id))
    {
      var i := FindOrder(id);
      if i == |tables.orders| || tables.orders[i].owner != owner || !Early(tables.orders[i].status) { return false; }
      tables := Put(tables, i, tables.orders[i].(status := Cancelled));
      return true;
    }

    method WaiveFee(owner: string, id: OrderId) returns (ok: bool)
      modifies this
      ensures Ran(old(tables), tables, ok, Waive(old(tables), owner, id))
    {
      var i := FindOrder(id);
      if i == |tables.orders| { return false; }
      var order := tables.orders[i];
      if order.quote.feeRecipient != owner || order.status != Delivered || order.fee == Paid { return false; }
      tables := Put(tables, i, order.(fee := Waived));
      return true;
    }

    method Expire(now: int)
      modifies this
      ensures tables == Sweep(old(tables), now)
    {
      var orders := tables.orders;
      for i := 0 to |orders|
        invariant |orders| == |tables.orders|
        invariant forall k :: 0 <= k < i ==> orders[k] == Swept(tables.orders[k], now)
        invariant forall k :: i <= k < |orders| ==> orders[k] == tables.orders[k]
      {
        if orders[i].fee == Due && orders[i].deliveredAt.Some? && now - orders[i].deliveredAt.value > FEE_TERM {
          orders := orders[i := orders[i].(fee := Overdue)];
        }
        if orders[i].quote.expiresAt < now && Early(orders[i].status) {
          orders := orders[i := orders[i].(status := Status.Expired)];
        }
      }
      assert orders == Sweep(tables, now).orders;
      tables := tables.(orders := orders);
    }

    // References.

    method BindReference(refs: seq<Ref>, space: Space, value: string, order: OrderId) returns (bound: Option<seq<Ref>>)
      ensures bound == Bind(refs, space, value, order)
    {
      var i := 0;
      while i < |refs| && !(refs[i].space == space && refs[i].value == value)
        invariant i <= |refs|
        invariant forall k :: 0 <= k < i ==> !(refs[k].space == space && refs[k].value == value)
      {
        i := i + 1;
      }
      assert i == RefIndex(refs, space, value);
      if i == |refs| { return Some(refs + [Ref(space, value, order)]); }
      if refs[i].order != order { return None; }
      return Some(refs);
    }

    /** Scans every stored funding row, whatever spelling it was stored in. */
    method BindFunding(refs: seq<Ref>, value: string, order: OrderId) returns (bound: Option<seq<Ref>>)
      ensures bound == BindOutpoint(refs, value, order)
    {
      hide Canonical;
      for i := 0 to |refs|
        invariant forall k :: 0 <= k < i ==> Compatible(refs[k], value, order)
      {
        if refs[i].space == FundingOutpoint {
          var existing := Canonical(refs[i].value);
          if existing.None? || (existing.value == value && refs[i].order != order) {
            assert !Compatible(refs[i], value, order);
            return None;
          }
        }
      }
      bound := BindReference(refs, FundingOutpoint, value, order);
    }

    // Commits of checked flights.

    method AcceptQuote(now: int, f: Flight) returns (ok: bool)
      requires f.AcceptFlight?
      modifies this
      ensures Ran(old(tables), tables, ok, CommitAccept(old(tables), now, f))
    {
      var i := FindOrder(f.id);
      if i == |tables.orders| { return false; }
      var current := tables.orders[i];
      if !MayAccept(current, now) || current.quoteHash != f.quoteHash { return false; }
      tables := Put(tables, i, current.(proven := true, status := Accepted));
      return true;
    }

    static method ApplyReport(order: Order, byProvider: bool, e: Evidence) returns (updated: Order)
      ensures updated == Reported(order, byProvider, e)
    {
      updated := order.(channelId := Some(e.channelId), fundingOutpoint := Some(e.fundingOutpoint));
      if byProvider { updated := updated.(provider := Some(e)); } else { updated := updated.(merchant := Some(e)); }
      if updated.status != Delivered {
        var settled := Settled(updated.provider) || Settled(updated.merchant);
        var closing := Closing(updated.provider) || Closing(updated.merchant);
        updated := updated.(status := if settled then Failed else if closing then Reconciling else Verifying);
      }
    }

    method StoreReport(f: Flight) returns (ok: bool)
      requires f.ReportFlight?
      modifies this
      ensures Ran(old(tables), tables, ok, CommitReport(old(tables), f))
    {
      hide Canonical, BindOutpoint, Reported;
      var i := FindOrder(f.id);
      if i == |tables.orders| || Dead(tables.orders[i].status) { return false; }
      var order, e := tables.orders[i], f.evidence;
      var refs := BindFunding(tables.refs, e.fundingOutpoint, f.id);
      if refs.None? { return false; }
      if order.channelId.Some? && order.channelId.value != e.channelId { return false; }
      if order.fundingOutpoint.Some? && Canonical(order.fundingOutpoint.value) != Some(e.fundingOutpoint) { return false; }
      order := ApplyReport(order, f.byProvider, e);
      tables := Put(tables, i, order).(refs := refs.value, attested := tables.attested + {(f.id, f.node)});
      return true;
    }

    method Deliver(now: int, f: Flight) returns (ok: bool)
      requires f.DeliveryFlight?
      modifies this
      ensures Ran(old(tables), tables, ok, CommitDelivery(old(tables), now, f))
    {
      var i := FindOrder(f.id);
      if i == |tables.orders| || !ReadyNow(tables.orders[i], now) { return false; }
      var current := tables.orders[i].(status := Delivered, fee := Due, deliveredAt := Some(now));
      if !HasAttestations(tables, current) { return false; }
      tables := Put(tables, i, current).(receipts := tables.receipts[f.id := current]);
      return true;
    }

    method RecordPayment(f: Flight) returns (ok: bool)
      requires f.PaymentFlight?
      modifies this
      ensures Ran(old(tables), tables, ok, CommitPayment(old(tables), f))
    {
      var i := FindOrder(f.id);
      if i == |tables.orders| { return false; }
      var order := tables.orders[i];
      var refs := BindReference(tables.refs, FeeTransaction, f.txHash, f.id);
      if refs.None? { return false; }
      if order.feeTx.Some? && order.feeTx.value != f.txHash { return false; }
      tables := Put(tables, i, order.(fee := Paid, feeTx := Some(f.txHash))).(refs := refs.value);
      return true;
    }

    // Nodes and offers.

    method RecordHeartbeat(node: string, at: int, available: nat, reserve: nat, policy: Option<Policy>) returns (ok: bool)
      modifies this
      ensures Ran(old(tables), tables, ok, Heartbeat(old(tables), node, at, available, reserve, policy))
    {
      if node !in tables.nodes || !(99 <= reserve <= 1000) { return false; }
      var stored := tables.nodes[node];
      if policy.Some? && !(stored.role == Provider && 0 < policy.value.maxOrder <= policy.value.maxTotal) { return false; }
      if at < stored.lastSeen { return false; }
      stored := stored.(lastSeen := at, available := available, reserve := reserve, policy := policy);
      tables := tables.(nodes := tables.nodes[node := stored]);
      return true;
    }

    /** The handler checks what it was given against the node record before its transaction. */
    method BeginOffer(now: int, offer: Offer, minimumCell: Option<nat>) returns (flight: Option<Flight>)
      ensures flight == BeginPublish(tables, now, offer, minimumCell)
    {
      if offer.providerNode !in tables.nodes { return None; }
      var node := tables.nodes[offer.providerNode];
      if node.owner != offer.owner || node.role != Provider { return None; }
      if offer.minCapacity < 100 || offer.maxCapacity < offer.minCapacity || offer.maxCapacity > 10_000_000 { return None; }
      if minimumCell.None? || offer.openingFee < minimumCell.value || offer.openingFee > offer.maxCapacity { return None; }
      if node.policy.Some? {
        if offer.maxCapacity + node.reserve + 1 > node.policy.value.maxOrder { return None; }
        if offer.openingFee < node.policy.value.minFee { return None; }
      }
      return Some(OfferFlight(offer.(enabled := true, expiresAt := now + FEE_TERM)));
    }

    /** The transaction reads the node again. */
    method PublishOffer(now: int, f: Flight) returns (ok: bool)
      requires f.OfferFlight?
      modifies this
      ensures Ran(old(tables), tables, ok, CommitPublish(old(tables), now, f))
    {
      var offer := f.offer;
      if offer.providerNode !in tables.nodes { return false; }
      var node := tables.nodes[offer.providerNode];
      if Distance(now, node.lastSeen) > ONLINE || node.reserve < 99 { return false; }
      var reserved := SumReserved(node.id);
      if AvailableFunding(node, reserved) < Funding(offer.minCapacity, node) { return false; }
      var j := FindOffer(offer.id);
      if j < |tables.offers| { return false; }
      var offers := tables.offers;
      for i := 0 to |offers|
        invariant |offers| == |tables.offers|
        invariant forall k :: 0 <= k < i ==> offers[k] == Disabled(tables.offers, offer.providerNode)[k]
        invariant forall k :: i <= k < |offers| ==> offers[k] == tables.offers[k]
      {
        if offers[i].providerNode == offer.providerNode { offers := offers[i := offers[i].(enabled := false)]; }
      }
      assert offers == Disabled(tables.offers, offer.providerNode);
      tables := tables.(offers := offers + [offer]);
      return true;
    }
  }
}
