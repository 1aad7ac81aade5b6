/** Why an order changes: for every status, fee status and mark, the one way to come to it, who has to act
    and when. */
module MarketCauses {
  import opened Market
  import opened MarketParties
  import opened MarketSafety
  import opened MarketTheorems
  import opened OutpointText
  import opened Wrappers

  predicate BeforeStart(o: Order) { o.status == AwaitingQuote || o.status == Quoted || o.status == Accepted }

  predicate GivenUp(o: Order) { o.status == Failed || o.status == Cancelled || o.status == Expired }

  /** A report that is about to land is about the order's own channel, which no other order holds. */
  ghost predicate ReportFits(s: State, o: Order, f: Flight) {
    && f.ReportFlight? && f in s.flights && f.id == o.id && !GivenUp(o)
    && (forall r <- s.tables.refs :: r.space == FundingOutpoint && r.value == f.evidence.fundingOutpoint ==> r.order == o.id)
    && (o.channelId == None || o.channelId == Some(f.evidence.channelId))
    && (o.fundingOutpoint == None || o.fundingOutpoint == Some(f.evidence.fundingOutpoint))
  }

  lemma {:induction false} RefIndexIff(refs: seq<Ref>, space: Space, value: string)
    ensures RefIndex(refs, space, value) == |refs| <==> forall r <- refs :: !(r.space == space && r.value == value)
  {
    var i := RefIndex(refs, space, value);
    if i < |refs| { assert refs[i] in refs; }
  }

  lemma BindOutpointIff(refs: seq<Ref>, value: string, order: OrderId)
    requires UniqueRefs(refs) && CanonicalRefs(refs)
    ensures BindOutpoint(refs, value, order).Some?
      <==> forall r <- refs :: r.space == FundingOutpoint && r.value == value ==> r.order == order
  {
    hide Canonical;
    RefIndexIff(refs, FundingOutpoint, value);
    forall i | 0 <= i < |refs| ensures Compatible(refs[i], value, order)
      <==> (refs[i].space == FundingOutpoint && refs[i].value == value ==> refs[i].order == order)
    {
      assert refs[i] in refs;
    }
    var k := RefIndex(refs, FundingOutpoint, value);
    if k < |refs| { assert refs[k] in refs; }
    hide Compatible;
    assert (forall i :: 0 <= i < |refs| ==> Compatible(refs[i], value, order))
      <==> forall r <- refs :: r.space == FundingOutpoint && r.value == value ==> r.order == order;
  }

  /** A started report lands exactly when it fits. */
  lemma ReportLandsIff(s: State, i: nat, f: Flight)
    requires Inv(s) && CanonicalRefs(s.tables.refs) && i < |s.tables.orders| && f.ReportFlight? && f in s.flights
    requires f.id == s.tables.orders[i].id
    ensures CommitReport(s.tables, f).Some? <==> ReportFits(s, s.tables.orders[i], f)
  {
    var o := s.tables.orders[i];
    IndexOf(s.tables.orders, i);
    assert Landable(s.tables, f);
    if o.fundingOutpoint.Some? { HeldIsCanonical(s.tables, o); }
    BindOutpointIff(s.tables.refs, f.evidence.fundingOutpoint, o.id);
    hide Inv, Canonical, BindOutpoint, Reported, CanonicalRefs, Landable;
  }

  /** Whether the chain has confirmed the settlement of the channel, by what either peer will have reported
      once the report lands. */
  predicate ConfirmedWith(o: Order, f: Flight)
    requires f.ReportFlight?
  {
    var other := if f.byProvider then o.merchant else o.provider;
    f.evidence.settlement == Some(true) || (other.Some? && other.value.settlement == Some(true))
  }

  predicate ShowsClosing(e: Evidence) {
    e.state == Closed || e.state == ShuttingDown || e.settlement.Some?
  }

  predicate ClosingWith(o: Order, f: Flight)
    requires f.ReportFlight?
  {
    var other := if f.byProvider then o.merchant else o.provider;
    ShowsClosing(f.evidence) || (other.Some? && ShowsClosing(other.value))
  }

  /** The report of step `step`, if it lands on an order that is not delivered. */
  ghost predicate Reports(s: State, step: Step, o: Order) {
    step.DoLand? && ReportFits(s, o, step.flight) && o.status != Delivered
  }

  /** How an order comes to a status it does not have. */
  ghost predicate Leads(s: State, step: Step, o: Order, x: Status) {
    match x
    case AwaitingQuote | Approved | AwaitingConfirmation => false
    case Quoted =>
      step.DoQuote? && step.id == o.id && step.node == o.quote.providerNode && o.status == AwaitingQuote && step.now < o.quote.expiresAt
    case Accepted =>
      step.DoLand? && step.flight in s.flights && step.flight.AcceptFlight? && step.flight.id == o.id
      && o.status == Quoted && step.now < o.quote.expiresAt
    case Opening =>
      step.DoStart? && step.id == o.id && step.node == o.quote.providerNode && o.status == Accepted
      && step.now < o.quote.expiresAt && o.signed && o.proven
    case Verifying => Reports(s, step, o) && !ClosingWith(o, step.flight)
    case Reconciling =>
      || (step.DoFail? && step.id == o.id && step.node == o.quote.providerNode
          && (if BeforeStart(o) then !step.beforeFunding || o.channelId.Some? || o.fundingOutpoint.Some?
              else o.status == Opening || o.status == AwaitingConfirmation || o.status == Verifying))
      || (Reports(s, step, o) && ClosingWith(o, step.flight) && !ConfirmedWith(o, step.flight))
    case Failed =>
      || (step.DoFail? && step.id == o.id && step.node == o.quote.providerNode && step.beforeFunding && BeforeStart(o)
          && o.channelId == None && o.fundingOutpoint == None)
      || (Reports(s, step, o) && ConfirmedWith(o, step.flight))
    case Delivered =>
      step.DoLand? && step.flight in s.flights && step.flight.DeliveryFlight? && step.flight.id == o.id
      && o.status == Verifying && Fresh(o, step.now) && ShowsCapacity(o)
    case Cancelled => step.DoCancel? && step.id == o.id && step.owner == o.owner && BeforeStart(o)
    case Expired => step.DoSweep? && o.quote.expiresAt < step.now && BeforeStart(o)
  }

  /** How an order comes to a fee status it does not have. */
  ghost predicate FeeLeads(s: State, step: Step, o: Order, x: FeeStatus) {
    match x
    case NotDue => false
    case Due => Leads(s, step, o, Delivered)
    case Overdue => step.DoSweep? && o.fee == Due && o.deliveredAt.Some? && step.now - o.deliveredAt.value > 86400
    case Waived => step.DoWaive? && step.id == o.id && step.owner == o.quote.feeRecipient && o.status == Delivered && o.fee != Paid
    case Paid =>
      step.DoLand? && step.flight in s.flights && step.flight.PaymentFlight? && step.flight.id == o.id
      && forall r <- s.tables.refs :: r.space == FeeTransaction && r.value == step.flight.txHash ==> r.order == o.id
  }

  /** How the marks of an order are set. */
  ghost predicate Signs(step: Step, o: Order) {
    step.DoQuote? && step.id == o.id && step.node == o.quote.providerNode && (o.status == AwaitingQuote || o.status == Quoted)
    && step.now < o.quote.expiresAt
  }

  ghost predicate Receives(step: Step, o: Order) {
    step.DoProbe? && step.id == o.id && step.node == o.quote.merchantNode && step.paid && o.merchant.Some?
    && (if o.probeHash == None then step.invoice else o.probeHash == Some(step.probe))
  }

  // One order over one step.

  /** What becomes of an order in a step, by the handlers' own definitions. */
  ghost function After(s: State, step: Step, o: Order): Order {
    match step
    case DoQuote(now, node, id) => if id == o.id && MayQuote(o, node, now) then o.(signed := true, status := Quoted) else o
    case DoStart(now, node, id) => if id == o.id && MayStart(o, node, now) then o.(status := Opening) else o
    case DoFail(node, id, beforeFunding) => if id == o.id && MayFail(o, node) then AfterFailure(o, beforeFunding) else o
    case DoProbe(node, id, probe, invoice, paid) =>
      if id == o.id && MayProbe(o, node, probe, invoice) then o.(probeHash := Some(probe), probeReceived := o.probeReceived || paid) else o
    case DoCancel(owner, id) => if id == o.id && o.owner == owner && Early(o.status) then o.(status := Cancelled) else o
    case DoWaive(owner, id) =>
      if id == o.id && o.quote.feeRecipient == owner && o.status == Delivered && o.fee != Paid then o.(fee := Waived) else o
    case DoSweep(now) => Swept(o, now)
    case DoLand(now, f) => if f in s.flights && !f.OfferFlight? && f.id == o.id then AfterLanding(s, now, f, o) else o
    case _ => o
  }

  ghost function AfterLanding(s: State, now: int, f: Flight, o: Order): Order
    requires !f.OfferFlight?
  {
    match f
    case AcceptFlight(_, hash) => if MayAccept(o, now) && o.quoteHash == hash then o.(proven := true, status := Accepted) else o
    case ReportFlight(_, _, byProvider, e) => if CommitReport(s.tables, f).Some? then Reported(o, byProvider, e) else o
    case DeliveryFlight(_) =>
      if CommitDelivery(s.tables, now, f).Some? then o.(status := Delivered, fee := Due, deliveredAt := Some(now)) else o
    case PaymentFlight(_, txHash) => if CommitPayment(s.tables, f).Some? then o.(fee := Paid, feeTx := Some(txHash)) else o
  }

  ghost predicate Becomes(s: State, step: Step, i: nat)
    requires i < |s.tables.orders|
  {
    i < |Perform(s, step).tables.orders| && Perform(s, step).tables.orders[i] == After(s, step, s.tables.orders[i])
  }

  lemma QuoteBecomes(s: State, step: Step, i: nat)
    requires Inv(s) && i < |s.tables.orders| && step.DoQuote?
    ensures Becomes(s, step, i)
  {
    IndexOf(s.tables.orders, i);
    hide Inv, Departure, MayQuote;
  }

  lemma StartBecomes(s: State, step: Step, i: nat)
    requires Inv(s) && i < |s.tables.orders| && step.DoStart?
    ensures Becomes(s, step, i)
  {
    IndexOf(s.tables.orders, i);
    hide Inv, Departure, MayStart;
  }

  lemma FailBecomes(s: State, step: Step, i: nat)
    requires Inv(s) && i < |s.tables.orders| && step.DoFail?
    ensures Becomes(s, step, i)
  {
    IndexOf(s.tables.orders, i);
    hide Inv, Departure, MayFail, AfterFailure;
  }

  lemma ProbeBecomes(s: State, step: Step, i: nat)
    requires Inv(s) && i < |s.tables.orders| && step.DoProbe?
    ensures Becomes(s, step, i)
  {
    IndexOf(s.tables.orders, i);
    hide Inv, Departure, MayProbe;
  }

  lemma CancelBecomes(s: State, step: Step, i: nat)
    requires Inv(s) && i < |s.tables.orders| && step.DoCancel?
    ensures Becomes(s, step, i)
  {
    IndexOf(s.tables.orders, i);
    hide Inv, Departure;
  }

  lemma WaiveBecomes(s: State, step: Step, i: nat)
    requires Inv(s) && i < |s.tables.orders| && step.DoWaive?
    ensures Becomes(s, step, i)
  {
    IndexOf(s.tables.orders, i);
    hide Inv, Departure;
  }

  lemma SweepBecomes(s: State, step: Step, i: nat)
    requires i < |s.tables.orders| && step.DoSweep?
    ensures Becomes(s, step, i)
  {
    hide Swept, Departure;
  }

  lemma LandingBecomes(s: State, now: int, f: Flight, i: nat)
    requires Inv(s) && i < |s.tables.orders| && f in s.flights && !f.OfferFlight? && Land(s.tables, now, f).Some?
    ensures var u := Land(s.tables, now, f).value;
      && i < |u.orders|
      && u.orders[i] == if f.id == s.tables.orders[i].id then AfterLanding(s, now, f, s.tables.orders[i]) else s.tables.orders[i]
  {
    IndexOf(s.tables.orders, i);
    hide Inv;
    match f
    case AcceptFlight(_, _) => hide MayAccept;
    case ReportFlight(_, _, _, _) => CommitReportIs(s.tables, f); hide CommitReport, Reported, BindOutpoint;
    case DeliveryFlight(_) => hide ReadyNow, HasAttestations;
    case PaymentFlight(_, _) => hide Bind;
  }

  lemma FailedLanding(s: State, now: int, f: Flight, i: nat)
    requires Inv(s) && i < |s.tables.orders| && f in s.flights && !f.OfferFlight? && Land(s.tables, now, f).None?
    requires f.id == s.tables.orders[i].id
    ensures AfterLanding(s, now, f, s.tables.orders[i]) == s.tables.orders[i]
  {
    IndexOf(s.tables.orders, i);
    hide Inv, CommitReport, CommitDelivery, CommitPayment, MayAccept;
  }

  lemma LandBecomes(s: State, step: Step, i: nat)
    requires Inv(s) && i < |s.tables.orders| && step.DoLand?
    ensures Becomes(s, step, i)
  {
    hide Inv, Land, AfterLanding, Departure;
    if step.flight in s.flights {
      if step.flight.OfferFlight? {
        OfferLeavesOrders(s.tables, step.now, step.flight);
      } else if Land(s.tables, step.now, step.flight).Some? {
        LandingBecomes(s, step.now, step.flight, i);
      } else if step.flight.id == s.tables.orders[i].id {
        FailedLanding(s, step.now, step.flight, i);
      }
    }
  }

  lemma OfferLeavesOrders(t: Tables, now: int, f: Flight)
    requires f.OfferFlight?
    ensures Land(t, now, f).Some? ==> Land(t, now, f).value.orders == t.orders
  {
    hide MayPublish, Disabled;
  }

  lemma OthersBecome(s: State, step: Step, i: nat)
    requires i < |s.tables.orders|
    requires step.DoCreate? || step.DoHeartbeat? || step.DoRegister? || step.DoDisable? || step.DoBeginAccept? || step.DoBeginReport?
      || step.DoBeginDelivery? || step.DoBeginPayment? || step.DoBeginPublish?
    ensures Becomes(s, step, i)
  {
    hide Admits, NewOrder, Departure;
  }

  lemma OrderBecomes(s: State, step: Step, i: nat)
    requires Inv(s) && i < |s.tables.orders|
    ensures Becomes(s, step, i)
  {
    hide Inv, Becomes;
    match step
    case DoQuote(_, _, _) => QuoteBecomes(s, step, i);
    case DoStart(_, _, _) => StartBecomes(s, step, i);
    case DoFail(_, _, _) => FailBecomes(s, step, i);
    case DoProbe(_, _, _, _, _) => ProbeBecomes(s, step, i);
    case DoCancel(_, _) => CancelBecomes(s, step, i);
    case DoWaive(_, _) => WaiveBecomes(s, step, i);
    case DoSweep(_) => SweepBecomes(s, step, i);
    case DoLand(_, _) => LandBecomes(s, step, i);
    case _ => OthersBecome(s, step, i);
  }

  // Why it becomes that.

  ghost predicate Stored(s: State, i: nat, o: Order) {
    Inv(s) && CanonicalRefs(s.tables.refs) && i < |s.tables.orders| && s.tables.orders[i] == o
  }

  lemma ProviderExplains(s: State, step: Step, o: Order, x: Status)
    requires x != o.status && (step.DoQuote? || step.DoStart?)
    ensures After(s, step, o).status == x <==> Leads(s, step, o, x)
  {
    hide Fresh, ShowsCapacity;
  }

  lemma FailureExplains(s: State, step: Step, o: Order, x: Status)
    requires x != o.status && step.DoFail?
    ensures After(s, step, o).status == x <==> Leads(s, step, o, x)
  {
    FailureIs(o, step.node, step.beforeFunding);
    hide Fresh, ShowsCapacity, MayFail, AfterFailure, ReportFits;
  }

  lemma FailureIs(o: Order, node: string, beforeFunding: bool)
    ensures MayFail(o, node) <==>
      && node == o.quote.providerNode
      && (BeforeStart(o) || o.status == Opening || o.status == AwaitingConfirmation || o.status == Verifying || o.status == Reconciling)
    ensures AfterFailure(o, beforeFunding)
      == o.(status := if beforeFunding && BeforeStart(o) && o.channelId == None && o.fundingOutpoint == None then Status.Failed else Reconciling)
  {}

  lemma MerchantExplains(s: State, step: Step, o: Order, x: Status)
    requires x != o.status && (step.DoProbe? || step.DoCancel? || step.DoWaive?)
    ensures After(s, step, o).status == x <==> Leads(s, step, o, x)
  {
    hide Fresh, ShowsCapacity, MayProbe, ReportFits;
  }

  lemma SweepExplains(s: State, step: Step, o: Order, x: Status)
    requires x != o.status && step.DoSweep?
    ensures After(s, step, o).status == x <==> Leads(s, step, o, x)
  {
    hide Fresh, ShowsCapacity, ReportFits;
  }

  lemma HandlerExplains(s: State, step: Step, o: Order, x: Status)
    requires x != o.status && !step.DoLand?
    ensures After(s, step, o).status == x <==> Leads(s, step, o, x)
  {
    match step
    case DoQuote(_, _, _) | DoStart(_, _, _) => hide After, Leads; ProviderExplains(s, step, o, x);
    case DoFail(_, _, _) => hide After, Leads; FailureExplains(s, step, o, x);
    case DoProbe(_, _, _, _, _) | DoCancel(_, _) | DoWaive(_, _) => hide After, Leads; MerchantExplains(s, step, o, x);
    case DoSweep(_) => hide After, Leads; SweepExplains(s, step, o, x);
    case _ => hide Fresh, ShowsCapacity, ReportFits;
  }

  lemma ReportedStatus(o: Order, f: Flight)
    requires f.ReportFlight?
    ensures Reported(o, f.byProvider, f.evidence).status ==
      if o.status == Delivered then Delivered
      else if ConfirmedWith(o, f) then Status.Failed
      else if ClosingWith(o, f) then Reconciling else Verifying
    ensures ConfirmedWith(o, f) ==> ClosingWith(o, f)
  {}

  lemma ReportExplains(s: State, step: Step, i: nat, o: Order, x: Status)
    requires Stored(s, i, o) && x != o.status && step.DoLand? && step.flight in s.flights && step.flight.ReportFlight? && step.flight.id == o.id
    ensures After(s, step, o).status == x <==> Leads(s, step, o, x)
  {
    hide Reported, CommitReport, Fresh, ShowsCapacity, ReportFits, ConfirmedWith, ClosingWith, Inv, CanonicalRefs;
    ReportLandsIff(s, i, step.flight);
    ReportedStatus(o, step.flight);
    FittingIsAlive(s, o, step.flight);
  }

  lemma FittingIsAlive(s: State, o: Order, f: Flight)
    ensures ReportFits(s, o, f) ==> !GivenUp(o)
  {}

  lemma AcceptExplains(s: State, step: Step, i: nat, o: Order, x: Status)
    requires Stored(s, i, o) && x != o.status && step.DoLand? && step.flight in s.flights
    requires step.flight.AcceptFlight? && step.flight.id == o.id
    ensures After(s, step, o).status == x <==> Leads(s, step, o, x)
  {
    AcceptedHash(s, i, o, step.flight);
    hide Stored, ReportFits, Fresh, ShowsCapacity;
  }

  lemma DeliveryExplains(s: State, step: Step, i: nat, o: Order, x: Status)
    requires Stored(s, i, o) && x != o.status && step.DoLand? && step.flight in s.flights
    requires step.flight.DeliveryFlight? && step.flight.id == o.id
    ensures After(s, step, o).status == x <==> Leads(s, step, o, x)
  {
    hide CommitDelivery, Fresh, ShowsCapacity, Inv, CanonicalRefs;
    StoredIsUnique(s, i, o);
    IndexOf(s.tables.orders, i);
    DeliveryLandsIff(s, step.now, step.flight);
  }

  lemma StoredIsUnique(s: State, i: nat, o: Order)
    requires Stored(s, i, o)
    ensures UniqueOrders(s.tables.orders)
  {}

  lemma PaymentExplains(s: State, step: Step, o: Order, x: Status)
    requires x != o.status && step.DoLand? && step.flight in s.flights && step.flight.PaymentFlight? && step.flight.id == o.id
    ensures After(s, step, o).status == x <==> Leads(s, step, o, x)
  {
    hide CommitPayment, Fresh, ShowsCapacity;
  }

  lemma LandingExplains(s: State, step: Step, i: nat, o: Order, x: Status)
    requires Stored(s, i, o) && x != o.status && step.DoLand? && step.flight in s.flights
    requires (step.flight.AcceptFlight? || step.flight.DeliveryFlight? || step.flight.PaymentFlight?) && step.flight.id == o.id
    ensures After(s, step, o).status == x <==> Leads(s, step, o, x)
  {
    hide Stored, After, Leads;
    match step.flight
    case AcceptFlight(_, _) => AcceptExplains(s, step, i, o, x);
    case DeliveryFlight(_) => DeliveryExplains(s, step, i, o, x);
    case PaymentFlight(_, _) => PaymentExplains(s, step, o, x);
  }

  lemma NothingLands(s: State, step: Step, o: Order, x: Status)
    requires x != o.status && step.DoLand? && (step.flight in s.flights ==> step.flight.OfferFlight? || step.flight.id != o.id)
    ensures After(s, step, o).status == x <==> Leads(s, step, o, x)
  {
    hide Fresh, ShowsCapacity;
  }

  /** The only ways to each status, and each of them works: over any step of any reachable state, an order
      comes to a status it does not have exactly under the condition that leads there. */
  lemma StatusMovesIff(s: State, step: Step, i: nat, x: Status)
    requires Inv(s) && CanonicalRefs(s.tables.refs) && i < |s.tables.orders| && x != s.tables.orders[i].status
    ensures i < |Perform(s, step).tables.orders|
    ensures Perform(s, step).tables.orders[i].status == x <==> Leads(s, step, s.tables.orders[i], x)
  {
    var o := s.tables.orders[i];
    OrderBecomes(s, step, i);
    assert Stored(s, i, o);
    hide Inv, After, Leads, Perform, Stored, CanonicalRefs;
    if !step.DoLand? {
      HandlerExplains(s, step, o, x);
    } else if step.flight !in s.flights || step.flight.OfferFlight? || step.flight.id != o.id {
      NothingLands(s, step, o, x);
    } else if step.flight.ReportFlight? {
      ReportExplains(s, step, i, o, x);
    } else {
      LandingExplains(s, step, i, o, x);
    }
  }

  lemma FeeSweepExplains(s: State, step: Step, o: Order, x: FeeStatus)
    requires x != o.fee && (step.DoSweep? || step.DoWaive?) && (o.fee == NotDue <==> o.status != Delivered)
    ensures After(s, step, o).fee == x <==> FeeLeads(s, step, o, x)
  {
    hide Fresh, ShowsCapacity, ReportFits;
  }

  lemma FeeHandlerExplains(s: State, step: Step, o: Order, x: FeeStatus)
    requires x != o.fee && !step.DoLand? && (o.fee == NotDue <==> o.status != Delivered)
    ensures After(s, step, o).fee == x <==> FeeLeads(s, step, o, x)
  {
    if step.DoSweep? || step.DoWaive? {
      hide After, FeeLeads;
      FeeSweepExplains(s, step, o, x);
    } else {
      hide MayProbe, MayQuote, MayStart, MayFail;
    }
  }

  lemma FeeDeliveryExplains(s: State, step: Step, i: nat, o: Order, x: FeeStatus)
    requires Stored(s, i, o) && x != o.fee && step.DoLand? && step.flight in s.flights
    requires step.flight.DeliveryFlight? && step.flight.id == o.id && (o.fee == NotDue <==> o.status != Delivered)
    ensures After(s, step, o).fee == x <==> FeeLeads(s, step, o, x)
  {
    hide Stored, CommitDelivery, Leads;
    if o.status == Delivered { DeliveredStays(s, step, i, o); } else { DeliveryExplains(s, step, i, o, Delivered); }
  }

  lemma DeliveredStays(s: State, step: Step, i: nat, o: Order)
    requires Stored(s, i, o) && step.DoLand? && step.flight.DeliveryFlight? && step.flight.id == o.id && o.status == Delivered
    ensures CommitDelivery(s.tables, step.now, step.flight).None? && !Leads(s, step, o, Delivered)
  {
    IndexOf(s.tables.orders, i);
    hide Inv, CanonicalRefs, Ready, HasAttestations, ShowsCapacity, Fresh;
  }

  lemma FeePaymentExplains(s: State, step: Step, i: nat, o: Order, x: FeeStatus)
    requires Stored(s, i, o) && x != o.fee && step.DoLand? && step.flight in s.flights
    requires step.flight.PaymentFlight? && step.flight.id == o.id && (o.fee == Paid <==> o.feeTx.Some?)
    ensures After(s, step, o).fee == x <==> FeeLeads(s, step, o, x)
  {
    hide Stored, CommitPayment, Fresh, ShowsCapacity, ReportFits;
    StoredPayment(s, i, o, step.flight);
  }

  lemma StoredPayment(s: State, i: nat, o: Order, f: Flight)
    requires Stored(s, i, o) && f in s.flights && f.PaymentFlight? && f.id == o.id
    ensures CommitPayment(s.tables, f).Some? <==>
      (o.feeTx == None || o.feeTx == Some(f.txHash))
      && forall r <- s.tables.refs :: r.space == FeeTransaction && r.value == f.txHash ==> r.order == o.id
  {
    StoredIsUnique(s, i, o);
    IndexOf(s.tables.orders, i);
    hide CommitPayment, Inv, CanonicalRefs;
    PaymentLandsIff(s, f);
  }

  lemma FeeStaysOtherwise(s: State, step: Step, o: Order, x: FeeStatus)
    requires x != o.fee && step.DoLand? && step.flight in s.flights
    requires (step.flight.ReportFlight? || step.flight.AcceptFlight?) && step.flight.id == o.id
    ensures After(s, step, o).fee == x <==> FeeLeads(s, step, o, x)
  {
    if step.flight.ReportFlight? { ReportShape(o, step.flight.byProvider, step.flight.evidence); }
    hide CommitReport, Reported, MayAccept;
  }

  lemma FeeLandingExplains(s: State, step: Step, i: nat, o: Order, x: FeeStatus)
    requires Stored(s, i, o) && x != o.fee && step.DoLand? && step.flight in s.flights && !step.flight.OfferFlight? && step.flight.id == o.id
    requires (o.fee == Paid <==> o.feeTx.Some?) && (o.fee == NotDue <==> o.status != Delivered)
    ensures After(s, step, o).fee == x <==> FeeLeads(s, step, o, x)
  {
    hide Stored, After, FeeLeads;
    match step.flight
    case DeliveryFlight(_) => FeeDeliveryExplains(s, step, i, o, x);
    case PaymentFlight(_, _) => FeePaymentExplains(s, step, i, o, x);
    case _ => FeeStaysOtherwise(s, step, o, x);
  }

  lemma NoFeeLands(s: State, step: Step, o: Order, x: FeeStatus)
    requires x != o.fee && step.DoLand? && (step.flight in s.flights ==> step.flight.OfferFlight? || step.flight.id != o.id)
    ensures After(s, step, o).fee == x <==> FeeLeads(s, step, o, x)
  {
    hide Fresh, ShowsCapacity;
  }

  /** The same of the fee. */
  lemma FeeMovesIff(s: State, step: Step, i: nat, x: FeeStatus)
    requires Inv(s) && CanonicalRefs(s.tables.refs) && i < |s.tables.orders| && x != s.tables.orders[i].fee
    ensures i < |Perform(s, step).tables.orders|
    ensures Perform(s, step).tables.orders[i].fee == x <==> FeeLeads(s, step, s.tables.orders[i], x)
  {
    var o := s.tables.orders[i];
    OrderBecomes(s, step, i);
    assert Local(s.tables, o) && Stored(s, i, o);
    hide Inv, After, FeeLeads, Perform, Stored, CanonicalRefs, ReferencesAreHeld, EvidenceIsConsistent, NothingHidden, HasReceipt;
    if !step.DoLand? {
      FeeHandlerExplains(s, step, o, x);
    } else if step.flight !in s.flights || step.flight.OfferFlight? || step.flight.id != o.id {
      NoFeeLands(s, step, o, x);
    } else {
      FeeLandingExplains(s, step, i, o, x);
    }
  }

  lemma LandingMarks(s: State, step: Step, i: nat, o: Order)
    requires Stored(s, i, o) && step.DoLand?
    ensures var p := After(s, step, o);
      p.signed == o.signed && p.probeReceived == o.probeReceived && (!o.proven ==> (p.proven <==> Leads(s, step, o, Accepted)))
  {
    hide Inv, CanonicalRefs, CommitReport, CommitDelivery, CommitPayment, Reported, NothingHidden, Closing, Settled;
    var f := step.flight;
    if f in s.flights && !f.OfferFlight? && f.id == o.id {
      if f.ReportFlight? { ReportShape(o, f.byProvider, f.evidence); }
      if f.AcceptFlight? { AcceptedHash(s, i, o, f); }
    }
  }

  lemma AcceptedHash(s: State, i: nat, o: Order, f: Flight)
    requires Stored(s, i, o) && f in s.flights && f.AcceptFlight? && f.id == o.id
    ensures f.quoteHash == o.quoteHash
  {
    assert Landable(s.tables, f);
    IndexOf(s.tables.orders, i);
  }

  lemma ProviderMarks(s: State, step: Step, o: Order)
    requires step.DoQuote? || step.DoStart? || step.DoFail?
    ensures var p := After(s, step, o);
      (!o.signed ==> (p.signed <==> Signs(step, o))) && p.proven == o.proven && p.probeReceived == o.probeReceived
  {
    hide MayStart, MayFail;
  }

  lemma ProbeMarks(s: State, step: Step, o: Order)
    requires step.DoProbe?
    ensures var p := After(s, step, o);
      p.signed == o.signed && p.proven == o.proven && (!o.probeReceived ==> (p.probeReceived <==> Receives(step, o)))
  {}

  lemma HandlerMarks(s: State, step: Step, o: Order)
    requires !step.DoLand?
    ensures var p := After(s, step, o);
      && (!o.signed ==> (p.signed <==> Signs(step, o))) && p.proven == o.proven
      && (!o.probeReceived ==> (p.probeReceived <==> Receives(step, o)))
  {
    if step.DoQuote? || step.DoStart? || step.DoFail? {
      hide After, Signs;
      ProviderMarks(s, step, o);
    } else if step.DoProbe? {
      hide After, Receives;
      ProbeMarks(s, step, o);
    } else {
      hide MayQuote, MayStart, MayFail, MayProbe;
    }
  }

  lemma MarksExplained(s: State, step: Step, i: nat, o: Order)
    requires Stored(s, i, o)
    ensures var p := After(s, step, o);
      && (!o.signed ==> (p.signed <==> Signs(step, o)))
      && (!o.proven ==> (p.proven <==> Leads(s, step, o, Accepted)))
      && (!o.probeReceived ==> (p.probeReceived <==> Receives(step, o)))
  {
    hide Stored, After;
    if step.DoLand? { LandingMarks(s, step, i, o); } else { HandlerMarks(s, step, o); }
  }

  /** And of the authorizations and the probe: the provider signs by quoting, the owner's acceptance proves,
      the merchant's node receives. */
  lemma MarksIff(s: State, step: Step, i: nat)
    requires Inv(s) && CanonicalRefs(s.tables.refs) && i < |s.tables.orders|
    ensures i < |Perform(s, step).tables.orders|
    ensures var (o, p) := (s.tables.orders[i], Perform(s, step).tables.orders[i]);
      && (!o.signed ==> (p.signed <==> Signs(step, o)))
      && (!o.proven ==> (p.proven <==> Leads(s, step, o, Accepted)))
      && (!o.probeReceived ==> (p.probeReceived <==> Receives(step, o)))
  {
    OrderBecomes(s, step, i);
    assert Stored(s, i, s.tables.orders[i]);
    hide Inv, After, Perform, Stored, CanonicalRefs, Leads, Signs, Receives;
    MarksExplained(s, step, i, s.tables.orders[i]);
  }
}
