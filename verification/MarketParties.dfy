/** Who the orders of the market are between, over every run: real nodes, of different owners, on terms
    some published offer allows. */
module MarketParties {
  import opened Market
  import opened MarketSafety
  import opened MarketTheorems
  import opened OutpointText
  import opened Wrappers

  predicate Runs(t: Tables, node: string, owner: string, role: Role) {
    node in t.nodes && t.nodes[node].owner == owner && t.nodes[node].role == role
  }

  /** An offer belongs to the owner of its provider node and keeps within the market's bounds. */
  predicate OfferIsSound(t: Tables, offer: Offer) {
    && Runs(t, offer.providerNode, offer.owner, Provider)
    && 100 <= offer.minCapacity && offer.maxCapacity <= 10_000_000 && offer.openingFee <= offer.maxCapacity
  }

  /** The parties of an order are the owners of its two nodes, with the keys the quote names; nobody orders
      from himself. */
  predicate PartiesAreReal(t: Tables, o: Order) {
    && Runs(t, o.quote.providerNode, o.quote.feeRecipient, Provider) && Runs(t, o.quote.merchantNode, o.owner, Merchant)
    && t.nodes[o.quote.providerNode].pubkey == o.quote.providerPubkey && t.nodes[o.quote.merchantNode].pubkey == o.quote.merchantPubkey
    && o.owner != o.quote.feeRecipient && o.quote.merchantPubkey != o.quote.providerPubkey
    && 100 <= o.quote.capacity <= 10_000_000 && o.quote.capacity < o.quote.funding && o.quote.openingFee <= 10_000_000
  }

  ghost predicate OneKeyEach(nodes: map<string, Node>) {
    forall j, k :: j in nodes && k in nodes && j != k ==> nodes[j].pubkey != nodes[k].pubkey
  }

  /** A provider node has at most one enabled offer. */
  ghost predicate OneEnabled(offers: seq<Offer>) {
    forall i, j :: 0 <= i < j < |offers| && offers[i].enabled && offers[j].enabled ==> offers[i].providerNode != offers[j].providerNode
  }

  ghost predicate CanonicalRefs(refs: seq<Ref>) {
    forall r <- refs :: r.space == FundingOutpoint ==> Canonical(r.value) == Some(r.value)
  }

  ghost predicate Sound(s: State) {
    && OneKeyEach(s.tables.nodes) && OneEnabled(s.tables.offers) && CanonicalRefs(s.tables.refs)
    && (forall i :: 0 <= i < |s.tables.offers| ==> OfferIsSound(s.tables, s.tables.offers[i]))
    && (forall f <- s.flights :: f.OfferFlight? ==> OfferIsSound(s.tables, f.offer))
    && (forall i :: 0 <= i < |s.tables.orders| ==> PartiesAreReal(s.tables, s.tables.orders[i]))
  }

  /** Nodes stay, and keep their owner, role and key. */
  ghost predicate NodesStay(t: Tables, u: Tables) {
    forall k :: k in t.nodes ==>
      k in u.nodes && u.nodes[k].owner == t.nodes[k].owner && u.nodes[k].role == t.nodes[k].role && u.nodes[k].pubkey == t.nodes[k].pubkey
  }

  lemma HeartbeatOnly(s: State, step: Step)
    requires !step.DoHeartbeat? && !step.DoRegister?
    ensures Perform(s, step).tables.nodes == s.tables.nodes
  {
    hide Create, QuoteOrder, Start, Fail, Probe, Cancel, Waive, Sweep, Disable, Departure, Land;
    match step
    case DoCreate(now, owner, input, hash) =>
      if Create(s.tables, now, owner, input, hash).Some? { CreateKeepsRest(s.tables, now, owner, input, hash); }
    case DoLand(now, f) => if f in s.flights && Land(s.tables, now, f).Some? { LandKeepsNodes(s.tables, now, f); }
    case _ => RestKeepsNodes(s, step);
  }

  lemma CreateKeepsRest(t: Tables, now: int, owner: string, input: Request, hash: string)
    requires Create(t, now, owner, input, hash).Some?
    ensures var u := Create(t, now, owner, input, hash).value; u == t.(orders := u.orders)
  {
    hide Admits, NewOrder;
  }

  lemma LandKeepsNodes(t: Tables, now: int, f: Flight)
    requires Land(t, now, f).Some?
    ensures Land(t, now, f).value.nodes == t.nodes
    ensures !f.OfferFlight? ==> Land(t, now, f).value.offers == t.offers
  {
    match f
    case AcceptFlight(_, _) => hide MayAccept;
    case ReportFlight(_, _, _, _) => hide BindOutpoint, Reported, SameChannel;
    case DeliveryFlight(_) => hide ReadyNow, HasAttestations;
    case PaymentFlight(_, _) => hide Bind;
    case OfferFlight(_) => hide MayPublish, Disabled;
  }

  lemma RestKeepsNodes(s: State, step: Step)
    requires !step.DoHeartbeat? && !step.DoRegister? && !step.DoCreate? && !step.DoLand?
    ensures var u := Perform(s, step).tables; u.nodes == s.tables.nodes && (!step.DoDisable? ==> u.offers == s.tables.offers)
  {
    hide MayQuote, MayStart, MayFail, AfterFailure, MayProbe, Swept, Departure;
  }

  lemma NodesAreKept(s: State, step: Step)
    requires OneKeyEach(s.tables.nodes)
    ensures NodesStay(s.tables, Perform(s, step).tables) && OneKeyEach(Perform(s, step).tables.nodes)
  {
    if step.DoHeartbeat? || step.DoRegister? {
      hide Departure;
    } else {
      hide Perform;
      HeartbeatOnly(s, step);
    }
  }

  lemma SoundStays(t: Tables, u: Tables)
    requires NodesStay(t, u)
    ensures forall o :: PartiesAreReal(t, o) ==> PartiesAreReal(u, o)
    ensures forall offer :: OfferIsSound(t, offer) ==> OfferIsSound(u, offer)
  {}

  lemma NewPartiesAreReal(s: State, now: int, owner: string, input: Request, hash: string)
    requires Inv(s) && Sound(s) && Create(s.tables, now, owner, input, hash).Some?
    requires Create(s.tables, now, owner, input, hash).value != s.tables
    ensures var u := Create(s.tables, now, owner, input, hash).value;
      u.nodes == s.tables.nodes && PartiesAreReal(u, u.orders[|s.tables.orders|]) && |u.orders| == |s.tables.orders| + 1
  {
    var offer := s.tables.offers[OfferIndex(s.tables.offers, input.offerId)];
    assert OfferIsSound(s.tables, offer);
    hide AvailableFunding, Blocks, Online, OneOutstanding, UniqueOrders, UniqueRefs, Local;
  }

  lemma PartyStays(t: Tables, u: Tables, o: Order, p: Order)
    requires NodesStay(t, u) && PartiesAreReal(t, o) && p.quote == o.quote && p.owner == o.owner
    ensures PartiesAreReal(u, p)
  {}

  lemma OrdersStayReal(s: State, step: Step, i: nat)
    requires Inv(s) && Sound(s) && i < |Perform(s, step).tables.orders|
    ensures PartiesAreReal(Perform(s, step).tables, Perform(s, step).tables.orders[i])
  {
    hide Perform, Inv, PartiesAreReal, NodesStay, OneKeyEach, OneEnabled, CanonicalRefs, OfferIsSound;
    var t, u := s.tables, Perform(s, step).tables;
    if i < |t.orders| {
      StepKeeps(s, step);
      assert Evolves(t.orders[i], u.orders[i]);
      NodesAreKept(s, step);
      PartyStays(t, u, t.orders[i], u.orders[i]);
    } else {
      OnlyCreateAdds(s, step);
      NewPartiesAreReal(s, step.now, step.owner, step.input, step.hash);
    }
  }

  lemma OffersUntouched(s: State, step: Step)
    requires !step.DoDisable? && !(step.DoLand? && step.flight.OfferFlight? && step.flight in s.flights)
    ensures Perform(s, step).tables.offers == s.tables.offers
  {
    match step
    case DoCreate(now, owner, input, hash) =>
      if Create(s.tables, now, owner, input, hash).Some? { CreateKeepsRest(s.tables, now, owner, input, hash); }
      hide Create, Departure;
    case DoLand(now, f) =>
      if f in s.flights && Land(s.tables, now, f).Some? { LandKeepsNodes(s.tables, now, f); }
      hide Land, Departure;
    case DoHeartbeat(_, _, _, _, _) => hide Departure;
    case DoRegister(_, _, _, _) => hide Departure;
    case _ => RestKeepsNodes(s, step); hide Perform;
  }

  lemma OfferLandsSound(s: State, now: int, f: Flight)
    requires Sound(s) && f in s.flights && f.OfferFlight? && CommitPublish(s.tables, now, f).Some?
    ensures var u := CommitPublish(s.tables, now, f).value;
      && u == s.tables.(offers := u.offers) && OneEnabled(u.offers)
      && forall i :: 0 <= i < |u.offers| ==> OfferIsSound(s.tables, u.offers[i])
  {
    var t, u := s.tables, CommitPublish(s.tables, now, f).value;
    hide MayPublish, PartiesAreReal;
    forall i | 0 <= i < |u.offers| ensures OfferIsSound(t, u.offers[i]) {
      if i < |t.offers| { assert OfferIsSound(t, t.offers[i]); }
    }
  }

  lemma DisableStaysSound(t: Tables, owner: string, id: string)
    requires Disable(t, owner, id).Some? && OneEnabled(t.offers) && forall i :: 0 <= i < |t.offers| ==> OfferIsSound(t, t.offers[i])
    ensures var u := Disable(t, owner, id).value;
      && u == t.(offers := u.offers) && OneEnabled(u.offers)
      && forall i :: 0 <= i < |u.offers| ==> OfferIsSound(t, u.offers[i])
  {
    var u := Disable(t, owner, id).value;
    forall i | 0 <= i < |u.offers| ensures OfferIsSound(t, u.offers[i]) { assert OfferIsSound(t, t.offers[i]); }
  }

  lemma OffersStaySound(s: State, step: Step)
    requires Sound(s)
    ensures var u := Perform(s, step).tables;
      OneEnabled(u.offers) && forall i :: 0 <= i < |u.offers| ==> OfferIsSound(u, u.offers[i])
  {
    var t, u := s.tables, Perform(s, step).tables;
    NodesAreKept(s, step);
    SoundStays(t, u);
    hide PartiesAreReal, OneKeyEach, NodesStay, OfferIsSound, OneEnabled;
    if step.DoLand? && step.flight.OfferFlight? && step.flight in s.flights {
      hide CommitPublish, Departure;
      if CommitPublish(t, step.now, step.flight).Some? { OfferLandsSound(s, step.now, step.flight); }
    } else if step.DoDisable? {
      hide Disable, Departure;
      if Disable(t, step.owner, step.offerId).Some? { DisableStaysSound(t, step.owner, step.offerId); }
    } else {
      hide Perform;
      OffersUntouched(s, step);
    }
  }

  lemma FlightsStaySound(s: State, step: Step)
    requires Sound(s)
    ensures var v := Perform(s, step); forall f <- v.flights :: f.OfferFlight? ==> OfferIsSound(v.tables, f.offer)
  {
    var v := Perform(s, step);
    NodesAreKept(s, step);
    SoundStays(s.tables, v.tables);
    forall f <- v.flights | f.OfferFlight? ensures OfferIsSound(v.tables, f.offer) {
      if f !in s.flights { NewFlightIsSound(s, step, f); } else { assert OfferIsSound(s.tables, f.offer); }
    }
    hide PartiesAreReal, OneKeyEach, NodesStay, OfferIsSound, OneEnabled, Perform;
  }

  lemma NewFlightIsSound(s: State, step: Step, f: Flight)
    requires f in Perform(s, step).flights && f !in s.flights && f.OfferFlight?
    ensures OfferIsSound(s.tables, f.offer)
  {
    hide Transaction, MayAccept, MayReport, Normalized, ReadyNow, Bytes;
  }

  lemma ReportKeepsCanonical(s: State, f: Flight)
    requires Inv(s) && CanonicalRefs(s.tables.refs) && f in s.flights && f.ReportFlight? && CommitReport(s.tables, f).Some?
    ensures CanonicalRefs(CommitReport(s.tables, f).value.refs)
  {
    ReportIsSound(s, f);
    CommitReportIs(s.tables, f);
    hide CommitReport, BindOutpoint, Reported, Canonical, Inv;
  }

  lemma LandKeepsCanonical(s: State, now: int, f: Flight)
    requires Inv(s) && CanonicalRefs(s.tables.refs) && f in s.flights && Land(s.tables, now, f).Some?
    ensures CanonicalRefs(Land(s.tables, now, f).value.refs)
  {
    match f
    case ReportFlight(_, _, _, _) => ReportKeepsCanonical(s, f);
    case PaymentFlight(_, _) => hide Canonical, Inv;
    case AcceptFlight(_, _) => hide MayAccept, CanonicalRefs, Inv;
    case DeliveryFlight(_) => hide ReadyNow, HasAttestations, CanonicalRefs, Inv;
    case OfferFlight(_) => hide MayPublish, CanonicalRefs, Inv;
  }

  lemma RefsStayCanonical(s: State, step: Step)
    requires Inv(s) && CanonicalRefs(s.tables.refs)
    ensures CanonicalRefs(Perform(s, step).tables.refs)
  {
    hide CanonicalRefs, Inv;
    if step.DoLand? && step.flight in s.flights && Transaction(s, step).Some? {
      hide Land, Departure;
      LandKeepsCanonical(s, step.now, step.flight);
    } else {
      hide Perform;
      OthersKeepRefs(s, step);
    }
  }

  lemma OthersKeepRefs(s: State, step: Step)
    requires !(step.DoLand? && step.flight in s.flights && Transaction(s, step).Some?)
    ensures Perform(s, step).tables.refs == s.tables.refs
  {
    match step
    case DoCreate(now, owner, input, hash) =>
      if Create(s.tables, now, owner, input, hash).Some? { CreateKeepsRest(s.tables, now, owner, input, hash); }
      hide Create, Departure;
    case DoQuote(_, _, _) | DoStart(_, _, _) | DoFail(_, _, _) => hide MayQuote, MayStart, MayFail, AfterFailure, Departure;
    case DoProbe(_, _, _, _, _) | DoCancel(_, _) | DoWaive(_, _) | DoSweep(_) => hide MayProbe, Swept, Departure;
    case _ => hide Land, Departure;
  }

  lemma StepKeepsSound(s: State, step: Step)
    requires Inv(s) && Sound(s)
    ensures Sound(Perform(s, step))
  {
    var v := Perform(s, step);
    NodesAreKept(s, step);
    OffersStaySound(s, step);
    FlightsStaySound(s, step);
    RefsStayCanonical(s, step);
    forall i | 0 <= i < |v.tables.orders| ensures PartiesAreReal(v.tables, v.tables.orders[i]) { OrdersStayReal(s, step, i); }
    hide Inv, Perform, OneKeyEach, OneEnabled, OfferIsSound, CanonicalRefs, PartiesAreReal, NodesStay;
  }

  /** In every run, every order is between the owners of two real nodes who are not the same person, on
      bounded terms; keys, nodes and offers stay sound, and no provider has two enabled offers. */
  lemma {:induction false} PartiesAreAlwaysReal(steps: seq<Step>)
    ensures Sound(Run(EMPTY, steps))
  {
    if steps != [] {
      var rest := steps[..|steps| - 1];
      PartiesAreAlwaysReal(rest);
      RunKeeps(EMPTY, rest);
      hide Sound, Inv, Perform, Forward;
      StepKeepsSound(Run(EMPTY, rest), steps[|steps| - 1]);
    }
  }

  /** What a node is stays what it was when it was first paired. */
  lemma {:induction false} NodesStayThemselves(s: State, steps: seq<Step>)
    requires Inv(s) && Sound(s)
    ensures NodesStay(s.tables, Run(s, steps).tables) && Sound(Run(s, steps))
  {
    if steps != [] {
      var rest := steps[..|steps| - 1];
      NodesStayThemselves(s, rest);
      RunKeeps(s, rest);
      hide Inv, Perform, Forward, Sound;
      StepKeepsSound(Run(s, rest), steps[|steps| - 1]);
      SoundHasKeys(Run(s, rest));
      NodesAreKept(Run(s, rest), steps[|steps| - 1]);
    }
  }

  lemma SoundHasKeys(s: State)
    requires Sound(s)
    ensures OneKeyEach(s.tables.nodes)
  {}
}
