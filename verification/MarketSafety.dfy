/** Safety of the order protocol over every run, however stale the checks that land. */
module MarketSafety {
  import opened Market
  import opened OutpointText
  import opened Wrappers

  // What each order keeps.

  predicate FeeIsConsistent(o: Order) {
    && (o.fee == NotDue <==> o.status != Delivered)
    && (o.fee == Paid <==> o.feeTx.Some?)
  }

  predicate ReferencesAreHeld(t: Tables, o: Order) {
    && (o.feeTx.Some? ==> Ref(FeeTransaction, o.feeTx.value, o.id) in t.refs)
    && (o.fundingOutpoint.Some? ==>
          Ref(FundingOutpoint, o.fundingOutpoint.value, o.id) in t.refs
          && Canonical(o.fundingOutpoint.value) == Some(o.fundingOutpoint.value))
  }

  predicate SeenBy(t: Tables, o: Order, e: Option<Evidence>, node: string) {
    e.Some? ==> && o.channelId == Some(e.value.channelId) && o.fundingOutpoint == Some(e.value.fundingOutpoint)
                && (o.id, node) in t.attested
  }

  /** All evidence is about the one channel of the order. */
  predicate EvidenceIsConsistent(t: Tables, o: Order) {
    && SeenBy(t, o, o.provider, o.quote.providerNode) && SeenBy(t, o, o.merchant, o.quote.merchantNode)
    && (o.channelId.Some? <==> o.fundingOutpoint.Some?)
    && (o.probeReceived ==> o.id in t.probed)
  }

  /** A fresh report cannot hide the other peer's closure. */
  predicate NothingHidden(o: Order) {
    o.status == Verifying ==> (o.provider.Some? || o.merchant.Some?) && !Closing(o.provider) && !Closing(o.merchant)
  }

  /** Delivery was verified: the receipt records evidence of both peers that met the quote. */
  predicate HasReceipt(t: Tables, o: Order) {
    o.status == Delivered ==> o.id in t.receipts && t.receipts[o.id].quote == o.quote && Ready(t.receipts[o.id])
  }

  predicate Local(t: Tables, o: Order) {
    && o.owner == o.id.owner && FeeIsConsistent(o) && ReferencesAreHeld(t, o) && EvidenceIsConsistent(t, o)
    && NothingHidden(o) && HasReceipt(t, o)
  }

  // What the tables keep.

  ghost predicate UniqueOrders(orders: seq<Order>) {
    forall i, j :: 0 <= i < j < |orders| ==> orders[i].id != orders[j].id
  }

  ghost predicate UniqueRefs(refs: seq<Ref>) {
    forall i, j :: 0 <= i < j < |refs| ==> refs[i].space != refs[j].space || refs[i].value != refs[j].value
  }

  predicate Rivals(o: Order, p: Order) {
    o.owner == p.owner && o.quote.providerNode == p.quote.providerNode && Outstanding(o) && Outstanding(p)
  }

  /** One outstanding order per account and provider node. */
  ghost predicate OneOutstanding(orders: seq<Order>) {
    forall i, j :: 0 <= i < j < |orders| ==> !Rivals(orders[i], orders[j])
  }

  ghost predicate Landable(t: Tables, f: Flight) {
    f.OfferFlight? || LandableOn(t, f, OrderIndex(t.orders, f.id))
  }

  ghost predicate LandableOn(t: Tables, f: Flight, i: nat) {
    && i < |t.orders|
    && match f
       case OfferFlight(_) => true
       case AcceptFlight(_, quoteHash) => t.orders[i].quoteHash == quoteHash
       case DeliveryFlight(_) => true
       case ReportFlight(_, node, byProvider, e) =>
         && !Early(t.orders[i].status) && Canonical(e.fundingOutpoint) == Some(e.fundingOutpoint)
         && node == (if byProvider then t.orders[i].quote.providerNode else t.orders[i].quote.merchantNode)
       case PaymentFlight(_, _) => t.orders[i].status == Delivered
  }

  ghost predicate TablesOk(t: Tables) {
    && UniqueOrders(t.orders) && UniqueRefs(t.refs) && OneOutstanding(t.orders)
    && (forall k :: k in t.nodes ==> t.nodes[k].id == k)
    && (forall i :: 0 <= i < |t.orders| ==> Local(t, t.orders[i]))
  }

  ghost predicate Inv(s: State) {
    TablesOk(s.tables) && forall f :: f in s.flights ==> Landable(s.tables, f)
  }

  // How one order may change.

  function Rank(s: Status): nat {
    match s
    case AwaitingQuote => 0
    case Quoted => 1
    case Accepted | Approved => 2
    case Opening | AwaitingConfirmation => 3
    case Verifying | Reconciling => 4
    case Delivered | Failed | Cancelled | Expired => 5
  }

  function FeeRank(f: FeeStatus): nat {
    match f
    case NotDue => 0
    case Due => 1
    case Overdue => 2
    case Waived => 3
    case Paid => 4
  }

  predicate Kept<T(==)>(before: Option<T>, after: Option<T>) {
    before.Some? ==> after == before
  }

  /** The monotone lifecycle: ranks never fall, the last rank is final, what is written once stays,
      and funds are never reserved again. */
  predicate Monotone(o: Order, p: Order) {
    && p.id == o.id && p.owner == o.owner && p.offerId == o.offerId && p.quote == o.quote
    && p.quoteHash == o.quoteHash && p.automatic == o.automatic
    && Rank(o.status) <= Rank(p.status) && (Rank(o.status) == 5 ==> p.status == o.status)
    && (!Early(o.status) ==> !Early(p.status)) && FeeRank(o.fee) <= FeeRank(p.fee)
    && Kept(o.channelId, p.channelId) && Kept(o.fundingOutpoint, p.fundingOutpoint)
    && Kept(o.feeTx, p.feeTx) && Kept(o.probeHash, p.probeHash)
    && (o.signed ==> p.signed) && (o.proven ==> p.proven)
    && (Reserves(p.status) ==> Reserves(o.status)) && (Outstanding(p) ==> Outstanding(o))
  }

  /** One step besides: an order starts opening only with both authorizations, and leaves the early
      stages otherwise only through a failure, a cancellation or expiry. */
  predicate Evolves(o: Order, p: Order) {
    && Monotone(o, p)
    && (p.status == Opening && o.status != Opening ==> o.status == Accepted && o.signed && o.proven)
    && (Early(o.status) && !Early(p.status) ==> p.status == Opening || p.status == Reconciling || Dead(p.status))
  }

  ghost predicate Advances(t: Tables, u: Tables) {
    && |t.orders| <= |u.orders|
    && (forall i :: 0 <= i < |t.orders| ==> Evolves(t.orders[i], u.orders[i]))
  }

  /** The rest of the tables only grows around an order. */
  ghost predicate Grows(t: Tables, u: Tables) {
    && (forall r <- t.refs :: r in u.refs) && t.attested <= u.attested && t.probed <= u.probed
  }

  lemma LocalStays(t: Tables, u: Tables, o: Order)
    requires Local(t, o) && Grows(t, u)
    requires o.status == Delivered ==> o.id in u.receipts && u.receipts[o.id] == t.receipts[o.id]
    ensures Local(u, o)
  {}

  /** An order's properties do not depend on the other orders, the nodes or the offers. */
  lemma LocalMoves(t: Tables, u: Tables, o: Order)
    requires Local(t, o) && u == t.(orders := u.orders, nodes := u.nodes, offers := u.offers)
    ensures Local(u, o)
  {}

  lemma IndexOf(orders: seq<Order>, i: nat)
    requires UniqueOrders(orders) && i < |orders|
    ensures OrderIndex(orders, orders[i].id) == i
  {}

  /** Orders that only evolve keep every property of the tables that concerns several orders. */
  lemma AdvanceKeeps(s: State, u: Tables)
    requires Inv(s) && Advances(s.tables, u) && |u.orders| == |s.tables.orders| && u.nodes == s.tables.nodes
    requires UniqueRefs(u.refs) && forall i :: 0 <= i < |u.orders| ==> Local(u, u.orders[i])
    ensures Inv(State(u, s.flights))
  {
    var t := s.tables;
    forall i, j | 0 <= i < j < |u.orders| ensures !Rivals(u.orders[i], u.orders[j]) && u.orders[i].id != u.orders[j].id {
      assert !Rivals(t.orders[i], t.orders[j]) && t.orders[i].id != t.orders[j].id;
      assert Evolves(t.orders[i], u.orders[i]) && Evolves(t.orders[j], u.orders[j]);
    }
    forall f | f in s.flights ensures Landable(u, f) {
      assert Landable(t, f);
      if !f.OfferFlight? {
        var i := OrderIndex(t.orders, f.id);
        assert Evolves(t.orders[i], u.orders[i]);
        IndexOf(u.orders, i);
      }
    }
  }

  /** The common case: a transaction that stores one changed order. */
  lemma PutKeeps(s: State, i: nat, p: Order, u: Tables)
    requires Inv(s) && i < |s.tables.orders| && u.orders == s.tables.orders[i := p] && u.nodes == s.tables.nodes
    requires Evolves(s.tables.orders[i], p) && Local(u, p) && Grows(s.tables, u) && UniqueRefs(u.refs)
    requires forall k :: k in s.tables.receipts && k != p.id ==> k in u.receipts && u.receipts[k] == s.tables.receipts[k]
    requires s.tables.orders[i].status == Delivered ==> u.receipts == s.tables.receipts
    ensures Inv(State(u, s.flights)) && Advances(s.tables, u)
  {
    var t := s.tables;
    forall k | 0 <= k < |u.orders| ensures Evolves(t.orders[k], u.orders[k]) && Local(u, u.orders[k]) {
      if k != i {
        assert t.orders[k].id != t.orders[i].id;
        assert Local(t, t.orders[k]);
        LocalStays(t, u, t.orders[k]);
      }
    }
    AdvanceKeeps(s, u);
  }

  lemma BindKeeps(refs: seq<Ref>, space: Space, value: string, order: OrderId)
    requires UniqueRefs(refs) && Bind(refs, space, value, order).Some?
    ensures var bound := Bind(refs, space, value, order).value;
      UniqueRefs(bound) && Ref(space, value, order) in bound && forall r <- refs :: r in bound
  {
    var i := RefIndex(refs, space, value);
    if i < |refs| {
      assert refs[i] == Ref(space, value, order);
    } else {
      assert (refs + [Ref(space, value, order)])[|refs|] == Ref(space, value, order);
    }
  }

  /** A transaction that adds an order without a rival. */
  lemma AddKeeps(s: State, o: Order, u: Tables)
    requires Inv(s) && u == s.tables.(orders := s.tables.orders + [o]) && Local(u, o)
    requires forall i :: 0 <= i < |s.tables.orders| ==> s.tables.orders[i].id != o.id && !Rivals(s.tables.orders[i], o)
    ensures Inv(State(u, s.flights)) && Advances(s.tables, u)
  {
    hide Local;
    var t := s.tables;
    forall i | 0 <= i < |t.orders| ensures Local(u, u.orders[i]) { LocalMoves(t, u, t.orders[i]); }
    forall f | f in s.flights ensures Landable(u, f) {
      assert Landable(t, f);
      if !f.OfferFlight? { IndexOf(u.orders, OrderIndex(t.orders, f.id)); }
    }
  }

  // What each transaction makes of one order.

  lemma NewOrderIsFine(u: Tables, id: OrderId, now: int, input: Request, offer: Offer, provider: Node, merchant: Node, hash: string)
    ensures Local(u, NewOrder(id, now, input, offer, provider, merchant, hash))
  {}

  lemma FailureIsFine(t: Tables, o: Order, node: string, beforeFunding: bool)
    requires Local(t, o) && MayFail(o, node)
    ensures Evolves(o, AfterFailure(o, beforeFunding)) && Local(t, AfterFailure(o, beforeFunding))
  {}

  lemma SweptIsFine(t: Tables, o: Order, now: int)
    requires Local(t, o)
    ensures Evolves(o, Swept(o, now)) && Local(t, Swept(o, now))
  {
    hide Canonical, Ready;
    if o.fee == Due {
      assert o.status == Delivered && (Swept(o, now) == o || Swept(o, now) == o.(fee := Overdue));
    } else {
      assert Swept(o, now) == o || (Early(o.status) && Swept(o, now) == o.(status := Expired));
    }
  }

  /** A landing report touches the channel, the reporter's evidence and, before delivery, the status;
      a closure seen by either peer shows in it. */
  lemma ReportShape(o: Order, byProvider: bool, e: Evidence)
    ensures var p := Reported(o, byProvider, e);
      && p == o.(channelId := Some(e.channelId), fundingOutpoint := Some(e.fundingOutpoint),
                 provider := p.provider, merchant := p.merchant, status := p.status)
      && p.provider == (if byProvider then Some(e) else o.provider) && p.merchant == (if byProvider then o.merchant else Some(e))
      && (if o.status == Delivered then p.status == Delivered
          else p.status == Failed || p.status == Reconciling || p.status == Verifying)
      && NothingHidden(p)
  {}

  lemma ReportEvolves(o: Order, byProvider: bool, e: Evidence)
    requires !Early(o.status) && !Dead(o.status) && SameChannel(o, e)
    requires o.fundingOutpoint.Some? ==> Canonical(o.fundingOutpoint.value) == Some(o.fundingOutpoint.value)
    ensures Evolves(o, Reported(o, byProvider, e))
  {
    hide Canonical, Reported, NothingHidden;
    ReportShape(o, byProvider, e);
  }

  lemma ReportIsLocal(t: Tables, u: Tables, o: Order, byProvider: bool, e: Evidence)
    requires Local(t, o) && Grows(t, u) && u.receipts == t.receipts && SameChannel(o, e)
    requires Canonical(e.fundingOutpoint) == Some(e.fundingOutpoint) && Ref(FundingOutpoint, e.fundingOutpoint, o.id) in u.refs
    requires (o.id, if byProvider then o.quote.providerNode else o.quote.merchantNode) in u.attested
    ensures Local(u, Reported(o, byProvider, e))
  {
    hide Reported, NothingHidden, Ready, Canonical;
    ReportShape(o, byProvider, e);
  }

  lemma DeliveryIsFine(t: Tables, o: Order, now: int)
    requires Local(t, o) && ReadyNow(o, now)
    ensures var p := o.(status := Delivered, fee := Due, deliveredAt := Some(now));
      Evolves(o, p) && Local(t.(receipts := t.receipts[o.id := p]), p)
  {
    hide Canonical, Number;
  }

  // One lemma a transaction.

  lemma CreateKeeps(s: State, now: int, owner: string, input: Request, hash: string)
    requires Inv(s) && Create(s.tables, now, owner, input, hash).Some?
    ensures var u := Create(s.tables, now, owner, input, hash).value;
      Inv(State(u, s.flights)) && Advances(s.tables, u)
  {
    var t, u := s.tables, Create(s.tables, now, owner, input, hash).value;
    if u == t {
      assert forall i :: 0 <= i < |t.orders| ==> Evolves(t.orders[i], t.orders[i]);
    } else {
      var offer := t.offers[OfferIndex(t.offers, input.offerId)];
      NewOrderIsFine(u, OrderId(owner, input.key), now, input, offer, t.nodes[offer.providerNode], t.nodes[input.merchantNode], hash);
      AddKeeps(s, u.orders[|t.orders|], u);
    }
  }

  lemma QuoteKeeps(s: State, now: int, node: string, id: OrderId)
    requires Inv(s) && QuoteOrder(s.tables, now, node, id).Some?
    ensures var u := QuoteOrder(s.tables, now, node, id).value; Inv(State(u, s.flights)) && Advances(s.tables, u)
  {
    hide Canonical, Ready;
    var i, u := OrderIndex(s.tables.orders, id), QuoteOrder(s.tables, now, node, id).value;
    assert Local(s.tables, s.tables.orders[i]);
    PutKeeps(s, i, u.orders[i], u);
  }

  lemma StartKeeps(s: State, now: int, node: string, id: OrderId)
    requires Inv(s) && Start(s.tables, now, node, id).Some?
    ensures var u := Start(s.tables, now, node, id).value; Inv(State(u, s.flights)) && Advances(s.tables, u)
  {
    hide Canonical, Ready;
    var i, u := OrderIndex(s.tables.orders, id), Start(s.tables, now, node, id).value;
    assert Local(s.tables, s.tables.orders[i]);
    PutKeeps(s, i, u.orders[i], u);
  }

  lemma FailKeeps(s: State, node: string, id: OrderId, beforeFunding: bool)
    requires Inv(s) && Fail(s.tables, node, id, beforeFunding).Some?
    ensures var u := Fail(s.tables, node, id, beforeFunding).value; Inv(State(u, s.flights)) && Advances(s.tables, u)
  {
    var i, u := OrderIndex(s.tables.orders, id), Fail(s.tables, node, id, beforeFunding).value;
    hide Local, Evolves;
    FailureIsFine(s.tables, s.tables.orders[i], node, beforeFunding);
    LocalMoves(s.tables, u, u.orders[i]);
    PutKeeps(s, i, u.orders[i], u);
  }

  lemma ProbeKeeps(s: State, node: string, id: OrderId, hash: string, invoice: bool, paid: bool)
    requires Inv(s) && Probe(s.tables, node, id, hash, invoice, paid).Some?
    ensures var u := Probe(s.tables, node, id, hash, invoice, paid).value; Inv(State(u, s.flights)) && Advances(s.tables, u)
  {
    hide Canonical, Ready;
    var i, u := OrderIndex(s.tables.orders, id), Probe(s.tables, node, id, hash, invoice, paid).value;
    assert Local(s.tables, s.tables.orders[i]);
    PutKeeps(s, i, u.orders[i], u);
  }

  lemma CancelKeeps(s: State, owner: string, id: OrderId)
    requires Inv(s) && Cancel(s.tables, owner, id).Some?
    ensures var u := Cancel(s.tables, owner, id).value; Inv(State(u, s.flights)) && Advances(s.tables, u)
  {
    hide Canonical, Ready;
    var i, u := OrderIndex(s.tables.orders, id), Cancel(s.tables, owner, id).value;
    assert Local(s.tables, s.tables.orders[i]);
    PutKeeps(s, i, u.orders[i], u);
  }

  lemma WaiveKeeps(s: State, owner: string, id: OrderId)
    requires Inv(s) && Waive(s.tables, owner, id).Some?
    ensures var u := Waive(s.tables, owner, id).value; Inv(State(u, s.flights)) && Advances(s.tables, u)
  {
    hide Canonical, Ready;
    var i, u := OrderIndex(s.tables.orders, id), Waive(s.tables, owner, id).value;
    assert Local(s.tables, s.tables.orders[i]);
    PutKeeps(s, i, u.orders[i], u);
  }

  lemma SweepKeeps(s: State, now: int)
    requires Inv(s)
    ensures Inv(State(Sweep(s.tables, now), s.flights)) && Advances(s.tables, Sweep(s.tables, now))
  {
    var t, u := s.tables, Sweep(s.tables, now);
    hide Local, Evolves;
    forall i | 0 <= i < |t.orders| ensures Evolves(t.orders[i], u.orders[i]) && Local(u, u.orders[i]) {
      SweptIsFine(t, t.orders[i], now);
      LocalMoves(t, u, u.orders[i]);
    }
    AdvanceKeeps(s, u);
  }

  lemma AcceptLands(s: State, now: int, f: Flight)
    requires Inv(s) && f.AcceptFlight? && CommitAccept(s.tables, now, f).Some?
    ensures var u := CommitAccept(s.tables, now, f).value; Inv(State(u, s.flights)) && Advances(s.tables, u)
  {
    hide Canonical, Ready;
    var i, u := OrderIndex(s.tables.orders, f.id), CommitAccept(s.tables, now, f).value;
    assert Local(s.tables, s.tables.orders[i]);
    PutKeeps(s, i, u.orders[i], u);
  }

  /** What a report that lands relies on. */
  lemma ReportIsSound(s: State, f: Flight)
    requires Inv(s) && f in s.flights && f.ReportFlight? && CommitReport(s.tables, f).Some?
    ensures var i := OrderIndex(s.tables.orders, f.id);
      && i < |s.tables.orders| && Local(s.tables, s.tables.orders[i]) && SameChannel(s.tables.orders[i], f.evidence)
      && !Early(s.tables.orders[i].status) && !Dead(s.tables.orders[i].status)
      && Canonical(f.evidence.fundingOutpoint) == Some(f.evidence.fundingOutpoint)
      && f.node == (if f.byProvider then s.tables.orders[i].quote.providerNode else s.tables.orders[i].quote.merchantNode)
  {
    assert Landable(s.tables, f);
    hide Local, SameChannel, Canonical, BindOutpoint, Reported;
  }

  lemma CommitReportIs(t: Tables, f: Flight)
    requires f.ReportFlight? && CommitReport(t, f).Some?
    ensures var i, bound := OrderIndex(t.orders, f.id), BindOutpoint(t.refs, f.evidence.fundingOutpoint, f.id);
      && i < |t.orders| && bound.Some? && bound == Bind(t.refs, FundingOutpoint, f.evidence.fundingOutpoint, f.id)
      && CommitReport(t, f).value == t.(orders := t.orders[i := Reported(t.orders[i], f.byProvider, f.evidence)],
                                       refs := bound.value, attested := t.attested + {(f.id, f.node)})
  {
    hide SameChannel, Reported, Bind, Compatible;
  }

  lemma ReportLands(s: State, f: Flight)
    requires Inv(s) && f in s.flights && f.ReportFlight? && CommitReport(s.tables, f).Some?
    ensures var u := CommitReport(s.tables, f).value; Inv(State(u, s.flights)) && Advances(s.tables, u)
  {
    hide Local, Evolves, SameChannel, Canonical, Reported, Bind, BindOutpoint, Landable;
    var i, u := OrderIndex(s.tables.orders, f.id), CommitReport(s.tables, f).value;
    ReportIsSound(s, f);
    CommitReportIs(s.tables, f);
    hide CommitReport;
    var o := s.tables.orders[i];
    if o.fundingOutpoint.Some? { HeldIsCanonical(s.tables, o); }
    BindKeeps(s.tables.refs, FundingOutpoint, f.evidence.fundingOutpoint, f.id);
    ReportEvolves(o, f.byProvider, f.evidence);
    ReportIsLocal(s.tables, u, o, f.byProvider, f.evidence);
    PutKeeps(s, i, u.orders[i], u);
  }

  lemma HeldIsCanonical(t: Tables, o: Order)
    requires Local(t, o) && o.fundingOutpoint.Some?
    ensures Canonical(o.fundingOutpoint.value) == Some(o.fundingOutpoint.value)
  {
    hide Canonical;
  }

  lemma DeliveryLands(s: State, now: int, f: Flight)
    requires Inv(s) && f.DeliveryFlight? && CommitDelivery(s.tables, now, f).Some?
    ensures var u := CommitDelivery(s.tables, now, f).value; Inv(State(u, s.flights)) && Advances(s.tables, u)
  {
    var i, u := OrderIndex(s.tables.orders, f.id), CommitDelivery(s.tables, now, f).value;
    hide Local, Evolves;
    DeliveryIsFine(s.tables, s.tables.orders[i], now);
    LocalMoves(s.tables.(receipts := u.receipts), u, u.orders[i]);
    PutKeeps(s, i, u.orders[i], u);
  }

  lemma PaymentLands(s: State, f: Flight)
    requires Inv(s) && f in s.flights && f.PaymentFlight? && CommitPayment(s.tables, f).Some?
    ensures var u := CommitPayment(s.tables, f).value; Inv(State(u, s.flights)) && Advances(s.tables, u)
  {
    hide Canonical, Ready;
    var i, u := OrderIndex(s.tables.orders, f.id), CommitPayment(s.tables, f).value;
    assert Local(s.tables, s.tables.orders[i]) && Landable(s.tables, f);
    BindKeeps(s.tables.refs, FeeTransaction, f.txHash, f.id);
    PutKeeps(s, i, u.orders[i], u);
  }

  /** Node and offer records carry no order. */
  lemma OthersKeep(s: State, u: Tables)
    requires Inv(s) && u == s.tables.(nodes := u.nodes, offers := u.offers) && forall k :: k in u.nodes ==> u.nodes[k].id == k
    ensures Inv(State(u, s.flights)) && Advances(s.tables, u)
  {
    var t := s.tables;
    hide Local;
    forall i | 0 <= i < |t.orders| ensures Local(u, u.orders[i]) { LocalMoves(t, u, t.orders[i]); }
    forall f | f in s.flights ensures Landable(u, f) { assert Landable(t, f); }
  }

  lemma ElsewhereKeeps(s: State, step: Step)
    requires Inv(s) && Transaction(s, step).Some?
    requires step.DoHeartbeat? || step.DoRegister? || step.DoDisable?
    ensures var u := Transaction(s, step).value; Inv(State(u, s.flights)) && Advances(s.tables, u)
  {
    hide UniqueOrders, UniqueRefs, OneOutstanding, Local, Landable, Advances;
    OthersKeep(s, Transaction(s, step).value);
  }

  lemma OfferLands(s: State, now: int, f: Flight)
    requires Inv(s) && f.OfferFlight? && CommitPublish(s.tables, now, f).Some?
    ensures var u := CommitPublish(s.tables, now, f).value; Inv(State(u, s.flights)) && Advances(s.tables, u)
  {
    hide UniqueOrders, UniqueRefs, OneOutstanding, Local, Landable, Advances, MayPublish;
    OthersKeep(s, CommitPublish(s.tables, now, f).value);
  }

  /** A read that starts a flight finds the order in a state the commit can still rely on. */
  lemma DepartureIsLandable(s: State, step: Step)
    requires Inv(s) && Departure(s, step).Some?
    ensures Landable(s.tables, Departure(s, step).value)
  {
    if step.DoBeginReport? { ReportFlightIsLandable(s, step); }
  }

  lemma ReportFlightIsLandable(s: State, step: Step)
    requires step.DoBeginReport? && Departure(s, step).Some?
    ensures Landable(s.tables, Departure(s, step).value)
  {
    CanonicalIsIdempotent(step.evidence.fundingOutpoint);
    hide Canonical, Bytes, Meaning;
  }

  lemma TransactionKeeps(s: State, step: Step)
    requires Inv(s) && Transaction(s, step).Some?
    ensures var u := Transaction(s, step).value; Inv(State(u, s.flights)) && Advances(s.tables, u)
  {
    hide Inv, Advances;
    match step
    case DoCreate(now, owner, input, hash) => CreateKeeps(s, now, owner, input, hash);
    case DoQuote(now, node, id) => QuoteKeeps(s, now, node, id);
    case DoStart(now, node, id) => StartKeeps(s, now, node, id);
    case DoFail(node, id, beforeFunding) => FailKeeps(s, node, id, beforeFunding);
    case DoProbe(node, id, probe, invoice, paid) => ProbeKeeps(s, node, id, probe, invoice, paid);
    case DoCancel(owner, id) => CancelKeeps(s, owner, id);
    case DoWaive(owner, id) => WaiveKeeps(s, owner, id);
    case DoSweep(now) => SweepKeeps(s, now);
    case DoLand(now, f) =>
      match f {
        case AcceptFlight(_, _) => AcceptLands(s, now, f);
        case ReportFlight(_, _, _, _) => ReportLands(s, f);
        case DeliveryFlight(_) => DeliveryLands(s, now, f);
        case PaymentFlight(_, _) => PaymentLands(s, f);
        case OfferFlight(_) => OfferLands(s, now, f);
      }
    case _ => ElsewhereKeeps(s, step);
  }

  /** Every step, whatever it interleaves with, keeps the invariant and only advances the orders. */
  lemma StepKeeps(s: State, step: Step)
    requires Inv(s)
    ensures Inv(Perform(s, step)) && Advances(s.tables, Perform(s, step).tables)
  {
    hide TablesOk, Landable, Evolves;
    AdvancesItself(s.tables);
    if Transaction(s, step).Some? {
      TransactionKeeps(s, step);
      assert Perform(s, step) == State(Transaction(s, step).value, s.flights);
    } else if Departure(s, step).Some? {
      DepartureIsLandable(s, step);
    }
  }

  lemma AdvancesItself(t: Tables)
    ensures Advances(t, t)
  {}
}
