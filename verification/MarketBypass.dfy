/** Where a failure report about an early order leads: to delivery, with whatever authorizations it has. */
module MarketBypass {
  import opened Market
  import opened MarketSafety
  import opened MarketTheorems
  import opened OutpointText
  import opened Wrappers

  ghost predicate Reaches(s: State, v: State) {
    exists steps :: Run(s, steps) == v
  }

  lemma ReachesItself(s: State)
    ensures Reaches(s, s)
  {
    assert Run(s, []) == s;
  }

  lemma ReachesNext(s: State, v: State, step: Step)
    requires Reaches(s, v)
    ensures Reaches(s, Perform(v, step))
  {
    var steps :| Run(s, steps) == v;
    assert (steps + [step])[..|steps|] == steps;
    assert Run(s, steps + [step]) == Perform(v, step);
  }

  ghost predicate Has(s: State, i: nat, o: Order) {
    Inv(s) && i < |s.tables.orders| && s.tables.orders[i] == o
  }

  lemma FailureGoes(s: State, i: nat, o: Order, node: string)
    requires Has(s, i, o) && MayFail(o, node)
    ensures var v := Perform(s, DoFail(node, o.id, false));
      Has(v, i, o.(status := Reconciling)) && v.tables.refs == s.tables.refs
  {
    IndexOf(s.tables.orders, i);
    StepKeeps(s, DoFail(node, o.id, false));
    hide Inv;
  }

  lemma BindAgain(refs: seq<Ref>, value: string, order: OrderId)
    requires Canonical(value) == Some(value) && BindOutpoint(refs, value, order).Some?
    ensures var bound := BindOutpoint(refs, value, order).value; BindOutpoint(bound, value, order) == Some(bound)
  {
    hide Canonical;
    var i := RefIndex(refs, FundingOutpoint, value);
    var bound := BindOutpoint(refs, value, order).value;
    if i == |refs| {
      assert bound == refs + [Ref(FundingOutpoint, value, order)];
      assert forall k :: 0 <= k < |refs| ==> bound[k] == refs[k];
      assert bound[|refs|] == Ref(FundingOutpoint, value, order);
    }
  }

  lemma Departs(s: State, step: Step, f: Flight)
    requires Departure(s, step) == Some(f)
    ensures Perform(s, step) == State(s.tables, s.flights + {f})
  {
    hide BeginAccept, BeginReport, BeginDelivery, BeginPayment;
  }

  lemma Commits(s: State, now: int, f: Flight)
    requires f in s.flights && Land(s.tables, now, f).Some?
    ensures Perform(s, DoLand(now, f)) == State(Land(s.tables, now, f).value, s.flights)
  {
    hide Land;
  }

  /** A flight that starts and lands at once. */
  lemma FlightGoes(start: State, s: State, step: Step, f: Flight, now: int)
    requires Reaches(start, s) && Inv(s) && Departure(s, step) == Some(f) && Land(s.tables, now, f).Some?
    ensures exists v :: Reaches(start, v) && Inv(v) && v.tables == Land(s.tables, now, f).value
  {
    hide Reaches, Departure, Land, Inv, Perform;
    Departs(s, step, f);
    Commits(Perform(s, step), now, f);
    StepKeeps(s, step);
    StepKeeps(Perform(s, step), DoLand(now, f));
    ReachesNext(start, s, step);
    ReachesNext(start, Perform(s, step), DoLand(now, f));
  }

  /** A report that nothing contradicts lands. */
  lemma ReportGoes(start: State, s: State, i: nat, o: Order, node: string, e: Evidence)
    requires Reaches(start, s) && Has(s, i, o) && MayReport(o, node, e) && Normalized(e) == Some(e)
    requires SameChannel(o, e) && BindOutpoint(s.tables.refs, e.fundingOutpoint, o.id).Some?
    ensures exists v :: (
      && Reaches(start, v) && Has(v, i, Reported(o, o.quote.providerNode == node, e))
      && v.tables.refs == BindOutpoint(s.tables.refs, e.fundingOutpoint, o.id).value
      && v.tables.attested == s.tables.attested + {(o.id, node)})
  {
    hide Normalized, MayReport, SameChannel, BindOutpoint, Reported, Reaches;
    IndexOf(s.tables.orders, i);
    assert !Dead(o.status) by { ReportableIsAlive(o, node, e); }
    var f := ReportFlight(o.id, node, o.quote.providerNode == node, e);
    FlightGoes(start, s, DoBeginReport(e.observedAt, node, o.id, e), f, e.observedAt);
    hide Inv;
  }

  lemma ReportableIsAlive(o: Order, node: string, e: Evidence)
    requires MayReport(o, node, e)
    ensures !Dead(o.status)
  {}

  /** What a peer reports of a ready channel that is large enough. */
  function Sighting(o: Order, peer: string, p: Point, channel: seq<byte>, at: int): Evidence {
    Evidence("0x" + HexEncode(channel), peer, Print(p), ChannelReady, "0x0", "0x0", Decimal(o.quote.capacity * SHANNONS), at, None)
  }

  lemma SightingIsNormal(o: Order, peer: string, p: Point, channel: seq<byte>, at: int)
    requires |p.hash| == 32 && p.index <= U32_MAX && |channel| == 32
    ensures var e := Sighting(o, peer, p, channel, at);
      Normalized(e) == Some(e) && Canonical(e.fundingOutpoint) == Some(e.fundingOutpoint)
  {
    PrintRoundTrip(p);
    HexRoundTrip(channel);
    assert ("0x" + HexEncode(channel))[2..] == HexEncode(channel);
    hide HexEncode, HexDecode, Meaning, Print;
  }

  /** The two peers have seen the channel. */
  function SeenByBoth(o: Order, p: Point, channel: seq<byte>, at: int): Order {
    SeenByProvider(o, p, channel, at).(merchant := Some(Sighting(o, o.quote.providerPubkey, p, channel, at)))
  }

  function SeenByProvider(o: Order, p: Point, channel: seq<byte>, at: int): Order {
    var e := Sighting(o, o.quote.merchantPubkey, p, channel, at);
    o.(status := Verifying, channelId := Some(e.channelId), fundingOutpoint := Some(e.fundingOutpoint), provider := Some(e))
  }

  /** An order under reconciliation that nobody has reported on. */
  predicate Unseen(o: Order) {
    && o.status == Reconciling && o.quote.providerNode != o.quote.merchantNode
    && o.channelId.None? && o.fundingOutpoint.None? && o.provider.None? && o.merchant.None?
  }

  lemma ProviderMayReport(o: Order, p: Point, channel: seq<byte>, at: int)
    requires Unseen(o)
    ensures var e := Sighting(o, o.quote.merchantPubkey, p, channel, at);
      MayReport(o, o.quote.providerNode, e) && SameChannel(o, e) && Reported(o, true, e) == SeenByProvider(o, p, channel, at)
  {
    hide Canonical, Print, HexEncode, Decimal;
  }

  lemma MerchantMayReport(o: Order, p: Point, channel: seq<byte>, at: int)
    requires Unseen(o) && Canonical(Print(p)) == Some(Print(p))
    ensures var seen, e := SeenByProvider(o, p, channel, at), Sighting(o, o.quote.providerPubkey, p, channel, at);
      MayReport(seen, o.quote.merchantNode, e) && SameChannel(seen, e)
  {
    hide Canonical, Print, HexEncode, Decimal;
  }

  lemma MerchantIsSeen(o: Order, p: Point, channel: seq<byte>, at: int)
    ensures Reported(SeenByProvider(o, p, channel, at), false, Sighting(o, o.quote.providerPubkey, p, channel, at))
      == SeenByBoth(o, p, channel, at)
  {
    hide Print, HexEncode, Decimal;
  }

  /** It takes the reports of both peers. */
  lemma BothReport(start: State, s: State, i: nat, o: Order, p: Point, channel: seq<byte>, at: int)
    requires Reaches(start, s) && Has(s, i, o) && Unseen(o)
    requires |p.hash| == 32 && p.index <= U32_MAX && |channel| == 32 && BindOutpoint(s.tables.refs, Print(p), o.id).Some?
    ensures exists v :: (
      && Reaches(start, v) && Has(v, i, SeenByBoth(o, p, channel, at))
      && (o.id, o.quote.providerNode) in v.tables.attested && (o.id, o.quote.merchantNode) in v.tables.attested)
  {
    hide Normalized, Canonical, BindOutpoint, Reaches, Has, Print, HexEncode, Decimal, MayReport, SameChannel, Reported;
    var e := Sighting(o, o.quote.merchantPubkey, p, channel, at);
    SightingIsNormal(o, o.quote.merchantPubkey, p, channel, at);
    SightingIsNormal(o, o.quote.providerPubkey, p, channel, at);
    BindAgain(s.tables.refs, Print(p), o.id);
    ProviderMayReport(o, p, channel, at);
    MerchantMayReport(o, p, channel, at);
    MerchantIsSeen(o, p, channel, at);
    ReportGoes(start, s, i, o, o.quote.providerNode, e);
    var seen := SeenByProvider(o, p, channel, at);
    var u :| Reaches(start, u) && Has(u, i, seen) && u.tables.refs == BindOutpoint(s.tables.refs, e.fundingOutpoint, o.id).value
      && u.tables.attested == s.tables.attested + {(o.id, o.quote.providerNode)};
    ReportGoes(start, u, i, seen, o.quote.merchantNode, Sighting(o, o.quote.providerPubkey, p, channel, at));
  }

  lemma ProbeGoes(s: State, i: nat, o: Order, hash: string)
    requires Has(s, i, o) && o.merchant.Some? && (o.probeHash.Some? ==> o.probeHash.value == hash)
    ensures var v := Perform(s, DoProbe(o.quote.merchantNode, o.id, hash, true, true));
      Has(v, i, o.(probeHash := Some(hash), probeReceived := true)) && o.id in v.tables.probed && v.tables.attested == s.tables.attested
  {
    IndexOf(s.tables.orders, i);
    StepKeeps(s, DoProbe(o.quote.merchantNode, o.id, hash, true, true));
    hide Inv;
  }

  /** The order `o` can be brought to delivery with its authorizations as they are. */
  ghost predicate Deliverable(start: State, o: Order) {
    exists v, i :: Reaches(start, v) && DeliveredAs(v, i, o)
  }

  predicate DeliveredAs(v: State, i: nat, o: Order) {
    && i < |v.tables.orders|
    && var d := v.tables.orders[i];
    d.id == o.id && d.status == Delivered && d.signed == o.signed && d.proven == o.proven
  }

  lemma DeliveryGoes(start: State, s: State, i: nat, o: Order, now: int)
    requires Reaches(start, s) && Has(s, i, o) && ReadyNow(o, now) && o.fundingOutpoint.Some? && HasAttestations(s.tables, o)
    ensures exists v :: Reaches(start, v) && DeliveredAs(v, i, o)
  {
    hide Reaches, Inv, ReadyNow, HasAttestations, BeginDelivery, CommitDelivery;
    DeliveryFlies(s, i, o, now);
    FlightGoes(start, s, DoBeginDelivery(now, o.owner, o.id), DeliveryFlight(o.id), now);
  }

  lemma DeliveryFlies(s: State, i: nat, o: Order, now: int)
    requires Has(s, i, o) && ReadyNow(o, now) && o.fundingOutpoint.Some? && HasAttestations(s.tables, o)
    ensures var landed := CommitDelivery(s.tables, now, DeliveryFlight(o.id));
      && BeginDelivery(s.tables, now, o.owner, o.id) == Some(DeliveryFlight(o.id)) && landed.Some?
      && i < |landed.value.orders| && landed.value.orders[i] == o.(status := Delivered, fee := Due, deliveredAt := Some(now))
  {
    IndexOf(s.tables.orders, i);
    hide Inv, ReadyNow, HasAttestations;
  }

  lemma SeenIsReady(o: Order, p: Point, channel: seq<byte>, at: int, hash: string)
    requires o.quote.capacity * SHANNONS <= OutpointText.U64_MAX
    ensures ReadyNow(SeenByBoth(o, p, channel, at).(probeHash := Some(hash), probeReceived := true), at)
  {
    NumberOfDecimal(o.quote.capacity * SHANNONS);
    hide Number, Decimal, HexEncode, Print;
  }

  lemma SeenDelivers(start: State, s: State, i: nat, o: Order, p: Point, channel: seq<byte>, at: int)
    requires Reaches(start, s) && Has(s, i, SeenByBoth(o, p, channel, at)) && o.quote.capacity * SHANNONS <= OutpointText.U64_MAX
    requires (o.id, o.quote.providerNode) in s.tables.attested && (o.id, o.quote.merchantNode) in s.tables.attested
    ensures Deliverable(start, o)
  {
    hide Reaches, Has, Inv, ReadyNow, Print, HexEncode, Decimal;
    var seen := SeenByBoth(o, p, channel, at);
    var hash := if o.probeHash.Some? then o.probeHash.value else "";
    var probed := Perform(s, DoProbe(o.quote.merchantNode, o.id, hash, true, true));
    var paid := seen.(probeHash := Some(hash), probeReceived := true);
    ProbeGoes(s, i, seen, hash);
    ReachesNext(start, s, DoProbe(o.quote.merchantNode, o.id, hash, true, true));
    SeenIsReady(o, p, channel, at, hash);
    DeliveryGoes(start, probed, i, paid, at);
    var v :| Reaches(start, v) && DeliveredAs(v, i, paid);
    assert DeliveredAs(v, i, o);
  }

  /** The report of a failure after funding starts a way to delivery for any early order without a
      channel: whatever authorizations are missing are still missing when it is delivered. */
  lemma BypassDelivers(start: State, s: State, i: nat, o: Order, p: Point, channel: seq<byte>)
    requires Reaches(start, s) && Has(s, i, o) && Early(o.status) && o.channelId.None? && o.fundingOutpoint.None?
    requires o.quote.providerNode != o.quote.merchantNode && o.quote.capacity * SHANNONS <= OutpointText.U64_MAX
    requires |p.hash| == 32 && p.index <= U32_MAX && |channel| == 32 && BindOutpoint(s.tables.refs, Print(p), o.id).Some?
    ensures Deliverable(start, o)
  {
    assert Local(s.tables, o);
    var failing := DoFail(o.quote.providerNode, o.id, false);
    var after := o.(status := Reconciling);
    assert Unseen(after);
    hide Reaches, Has, Inv, Local, Unseen, BindOutpoint, Print;
    FailureGoes(s, i, o, o.quote.providerNode);
    ReachesNext(start, s, failing);
    BothReport(start, Perform(s, failing), i, after, p, channel, 0);
    var v :| Reaches(start, v) && Has(v, i, SeenByBoth(after, p, channel, 0))
      && (o.id, o.quote.providerNode) in v.tables.attested && (o.id, o.quote.merchantNode) in v.tables.attested;
    SeenDelivers(start, v, i, after, p, channel, 0);
    DeliverableAlike(start, after, o);
  }

  lemma DeliverableAlike(start: State, o: Order, p: Order)
    requires Deliverable(start, o) && p.id == o.id && p.signed == o.signed && p.proven == o.proven
    ensures Deliverable(start, p)
  {
    hide Reaches;
    var v, i :| Reaches(start, v) && DeliveredAs(v, i, o);
    assert DeliveredAs(v, i, p);
  }

  /** So every order that the market ever accepts can be delivered with neither authorization. */
  lemma EveryOrderIsDeliverable(s: State, now: int, owner: string, input: Request, hash: string, p: Point, channel: seq<byte>)
    requires Reaches(EMPTY, s) && Create(s.tables, now, owner, input, hash).Some?
    requires Create(s.tables, now, owner, input, hash).value != s.tables && input.capacity * SHANNONS <= OutpointText.U64_MAX
    requires |p.hash| == 32 && p.index <= U32_MAX && |channel| == 32
    requires BindOutpoint(s.tables.refs, Print(p), OrderId(owner, input.key)).Some?
    ensures var o := Create(s.tables, now, owner, input, hash).value.orders[|s.tables.orders|];
      !o.signed && !o.proven && Deliverable(EMPTY, o)
  {
    ReachableIsOk(s);
    var step := DoCreate(now, owner, input, hash);
    var o := Create(s.tables, now, owner, input, hash).value.orders[|s.tables.orders|];
    StepKeeps(s, step);
    ReachesNext(EMPTY, s, step);
    hide Reaches, BindOutpoint, Print, Local, OneOutstanding, UniqueOrders, UniqueRefs, Landable, Advances;
    BypassDelivers(EMPTY, Perform(s, step), |s.tables.orders|, o, p, channel);
  }

  lemma ReachableIsOk(s: State)
    requires Reaches(EMPTY, s)
    ensures Inv(s)
  {
    var steps :| Run(EMPTY, steps) == s;
    RunKeeps(EMPTY, steps);
  }

  // One such run from the empty tables.

  const PROVIDER := Node("p", "alice", Provider, "pk", 0, 1000, 99, None)
  const MERCHANT := Node("m", "bob", Merchant, "mk", 0, 200, 99, None)
  const OFFER := Offer("f", "p", "alice", 100, 100, 0, true, FEE_TERM)
  const INPUT := Request("f", "m", 100, "0123456789abcdef")

  lemma BothRegister()
    ensures Reaches(EMPTY, State(EMPTY.tables.(nodes := map["p" := PROVIDER, "m" := MERCHANT]), {}))
  {
    hide Reaches;
    var (p, m) := (Node("p", "alice", Provider, "pk", 0, 0, 0, None), Node("m", "bob", Merchant, "mk", 0, 0, 0, None));
    ReachesItself(EMPTY);
    var one := State(EMPTY.tables.(nodes := map["p" := p]), {});
    assert Perform(EMPTY, DoRegister("p", "alice", Provider, "pk")) == one;
    ReachesNext(EMPTY, EMPTY, DoRegister("p", "alice", Provider, "pk"));
    var two := State(EMPTY.tables.(nodes := map["p" := p, "m" := m]), {});
    assert Perform(one, DoRegister("m", "bob", Merchant, "mk")) == two;
    ReachesNext(EMPTY, one, DoRegister("m", "bob", Merchant, "mk"));
    BothReportIn(two);
  }

  lemma BothReportIn(two: State)
    requires Reaches(EMPTY, two)
    requires two == State(EMPTY.tables.(nodes := map["p" := PROVIDER.(available := 0, reserve := 0), "m" := MERCHANT.(available := 0, reserve := 0)]), {})
    ensures Reaches(EMPTY, State(EMPTY.tables.(nodes := map["p" := PROVIDER, "m" := MERCHANT]), {}))
  {
    hide Reaches;
    var three := State(EMPTY.tables.(nodes := map["p" := PROVIDER, "m" := MERCHANT.(available := 0, reserve := 0)]), {});
    assert Perform(two, DoHeartbeat("p", 0, 1000, 99, None)) == three;
    ReachesNext(EMPTY, two, DoHeartbeat("p", 0, 1000, 99, None));
    var four := State(EMPTY.tables.(nodes := map["p" := PROVIDER, "m" := MERCHANT]), {});
    assert Perform(three, DoHeartbeat("m", 0, 200, 99, None)) == four;
    ReachesNext(EMPTY, three, DoHeartbeat("m", 0, 200, 99, None));
  }

  lemma OfferStands()
    ensures Reaches(EMPTY, State(EMPTY.tables.(nodes := map["p" := PROVIDER, "m" := MERCHANT], offers := [OFFER]), {OfferFlight(OFFER)}))
  {
    hide Reaches;
    BothRegister();
    var online := State(EMPTY.tables.(nodes := map["p" := PROVIDER, "m" := MERCHANT]), {});
    var begin := DoBeginPublish(0, OFFER, Some(0));
    var flying := State(online.tables, {OfferFlight(OFFER)});
    assert Perform(online, begin) == flying;
    ReachesNext(EMPTY, online, begin);
    assert Perform(flying, DoLand(0, OfferFlight(OFFER))) == State(online.tables.(offers := [OFFER]), {OfferFlight(OFFER)});
    ReachesNext(EMPTY, flying, DoLand(0, OfferFlight(OFFER)));
  }

  /** A reachable state holds a delivered order that nobody signed or proved. */
  lemma DeliveredUnauthorized()
    ensures exists s, i :: (
      && Reaches(EMPTY, s) && 0 <= i < |s.tables.orders|
      && s.tables.orders[i].status == Delivered && !s.tables.orders[i].signed && !s.tables.orders[i].proven)
  {
    hide Reaches, Print;
    OfferStands();
    var s := State(EMPTY.tables.(nodes := map["p" := PROVIDER, "m" := MERCHANT], offers := [OFFER]), {OfferFlight(OFFER)});
    var zeros: seq<byte> := seq(32, _ => 0);
    EveryOrderIsDeliverable(s, 0, "bob", INPUT, "h", Point(zeros, 0), zeros);
    var o := Create(s.tables, 0, "bob", INPUT, "h").value.orders[0];
    var v, i :| Reaches(EMPTY, v) && DeliveredAs(v, i, o);
  }
}
