/** The marketplace's order protocol on database tables. A handler runs inside one transaction, so
    it is a function from tables to tables; `None` is a transaction that failed and rolled back.
    Handlers that check something slow outside the transaction are two steps, a read that starts a
    flight and a commit that may land after any number of other steps. */
module Market {
  import opened OutpointText
  import opened Wrappers

  const SHANNONS := 100_000_000
  const MARGIN := 63
  const ONLINE := 90
  const QUOTE_LIFE := 600
  const FEE_TERM := 86400

  /** The order identifier is a digest of the account and the idempotency key. */
  datatype OrderId = OrderId(owner: string, key: string)

  datatype Status = AwaitingQuote | Quoted | Accepted | Approved | Opening | AwaitingConfirmation
                  | Verifying | Reconciling | Delivered | Failed | Cancelled | Expired

  datatype FeeStatus = NotDue | Due | Overdue | Waived | Paid

  datatype ChannelState = ChannelReady | ShuttingDown | Closed | OtherState

  /** What a peer reports; `settlement` is the verified proof's confirmed flag. */
  datatype Evidence = Evidence(channelId: string, peerPubkey: string, fundingOutpoint: string, state: ChannelState,
                               localBalance: string, remoteBalance: string, inbound: string, observedAt: int,
                               settlement: Option<bool>)

  datatype Quote = Quote(providerNode: string, providerPubkey: string, merchantNode: string, merchantPubkey: string,
                         capacity: nat, funding: nat, openingFee: nat, feeRecipient: string, expiresAt: int)

  datatype Order = Order(id: OrderId, owner: string, offerId: string, automatic: bool, quote: Quote, quoteHash: string,
                         signed: bool, proven: bool, status: Status, channelId: Option<string>,
                         fundingOutpoint: Option<string>, provider: Option<Evidence>, merchant: Option<Evidence>,
                         probeHash: Option<string>, probeReceived: bool, deliveredAt: Option<int>,
                         fee: FeeStatus, feeTx: Option<string>)

  datatype Role = Provider | Merchant

  datatype Policy = Policy(acceptPublic: bool, autoApprove: bool, maxOrder: nat, maxTotal: nat, minFee: nat, committed: nat)

  datatype Node = Node(id: string, owner: string, role: Role, pubkey: string, lastSeen: int, available: nat,
                       reserve: nat, policy: Option<Policy>)

  datatype Offer = Offer(id: string, providerNode: string, owner: string, minCapacity: nat, maxCapacity: nat,
                         openingFee: nat, enabled: bool, expiresAt: int)

  datatype Space = FundingOutpoint | FeeTransaction

  /** A row of the unique-reference table. */
  datatype Ref = Ref(space: Space, value: string, order: OrderId)

  datatype Tables = Tables(orders: seq<Order>, nodes: map<string, Node>, offers: seq<Offer>, refs: seq<Ref>,
                           attested: set<(OrderId, string)>, probed: set<OrderId>, receipts: map<OrderId, Order>)

  // Orders.

  predicate Reserves(s: Status) {
    match s
    case AwaitingQuote | Quoted | Accepted | Approved | Opening | AwaitingConfirmation | Verifying | Reconciling => true
    case Delivered | Failed | Cancelled | Expired => false
  }

  predicate Early(s: Status) { s == AwaitingQuote || s == Quoted || s == Accepted }

  /** Given up: no funds reserved and nothing delivered. */
  predicate Dead(s: Status) { s == Failed || s == Cancelled || s == Expired }

  predicate Outstanding(o: Order) {
    Reserves(o.status) || (o.status == Delivered && o.fee != Paid && o.fee != Waived)
  }

  function OrderIndex(orders: seq<Order>, id: OrderId): (i: nat)
    ensures i <= |orders|
    ensures i < |orders| ==> orders[i].id == id
    ensures forall k :: 0 <= k < i ==> orders[k].id != id
  {
    if orders == [] || orders[0].id == id then 0 else 1 + OrderIndex(orders[1..], id)
  }

  /** The funding a provider node has promised to orders that still reserve it. */
  function Reserved(orders: seq<Order>, node: string): nat {
    if orders == [] then 0
    else
      var o := orders[|orders| - 1];
      Reserved(orders[..|orders| - 1], node) + if o.quote.providerNode == node && Reserves(o.status) then o.quote.funding else 0
  }

  function Sub(a: nat, b: nat): nat { if a < b then 0 else a - b }

  function Min(a: nat, b: nat): nat { if a < b then a else b }

  function AvailableFunding(n: Node, reserved: nat): nat {
    var wallet := Sub(Sub(n.available, MARGIN), reserved);
    match n.policy
    case None => wallet
    case Some(p) => Min(Min(wallet, p.maxOrder), Sub(Sub(p.maxTotal, p.committed), reserved))
  }

  // References.

  function RefIndex(refs: seq<Ref>, space: Space, value: string): (i: nat)
    ensures i <= |refs|
    ensures i < |refs| ==> refs[i].space == space && refs[i].value == value
    ensures forall k :: 0 <= k < i ==> !(refs[k].space == space && refs[k].value == value)
  {
    if refs == [] || (refs[0].space == space && refs[0].value == value) then 0 else 1 + RefIndex(refs[1..], space, value)
  }

  function Bind(refs: seq<Ref>, space: Space, value: string, order: OrderId): Option<seq<Ref>> {
    var i := RefIndex(refs, space, value);
    if i == |refs| then Some(refs + [Ref(space, value, order)])
    else if refs[i].order == order then Some(refs)
    else None
  }

  /** A funding row that does not stand in the way of `order` binding `value`. */
  predicate Compatible(r: Ref, value: string, order: OrderId) {
    r.space == FundingOutpoint ==> Canonical(r.value).Some? && (Canonical(r.value).value == value ==> r.order == order)
  }

  function BindOutpoint(refs: seq<Ref>, value: string, order: OrderId): Option<seq<Ref>> {
    if forall i :: 0 <= i < |refs| ==> Compatible(refs[i], value, order) then Bind(refs, FundingOutpoint, value, order) else None
  }

  // Creating orders.

  datatype Request = Request(offerId: string, merchantNode: string, capacity: nat, key: string)

  function OfferIndex(offers: seq<Offer>, id: string): (i: nat)
    ensures i <= |offers|
    ensures i < |offers| ==> offers[i].id == id
    ensures forall k :: 0 <= k < i ==> offers[k].id != id
  {
    if offers == [] || offers[0].id == id then 0 else 1 + OfferIndex(offers[1..], id)
  }

  predicate Online(n: Node, now: int) { now - n.lastSeen <= ONLINE }

  function Funding(capacity: nat, provider: Node): nat { capacity + provider.reserve + 1 }

  /** An order that keeps its account from ordering from the node again. */
  predicate Blocks(o: Order, owner: string, node: string) {
    o.owner == owner && o.quote.providerNode == node && Outstanding(o)
  }

  /** Everything the transaction requires of a new order once its records are read. */
  predicate Admits(orders: seq<Order>, now: int, owner: string, input: Request, offer: Offer, provider: Node, merchant: Node) {
    && offer.enabled && offer.expiresAt > now
    && offer.minCapacity <= input.capacity <= offer.maxCapacity
    && merchant.owner == owner && merchant.role == Merchant
    && provider.owner != owner && provider.pubkey != merchant.pubkey
    && Online(provider, now) && Online(merchant, now)
    && (forall i :: 0 <= i < |orders| ==> !Blocks(orders[i], owner, provider.id))
    && (provider.policy.Some? ==> provider.policy.value.minFee <= offer.openingFee)
    && Funding(input.capacity, provider) <= AvailableFunding(provider, Reserved(orders, provider.id))
    && merchant.reserve + MARGIN <= merchant.available
  }

  function Automatic(n: Node): bool {
    n.policy.Some? && n.policy.value.acceptPublic && n.policy.value.autoApprove
  }

  function NewOrder(id: OrderId, now: int, input: Request, offer: Offer, provider: Node, merchant: Node, hash: string): Order {
    var quote := Quote(provider.id, provider.pubkey, merchant.id, merchant.pubkey, input.capacity,
      Funding(input.capacity, provider), offer.openingFee, offer.owner, now + QUOTE_LIFE);
    Order(id, id.owner, offer.id, Automatic(provider), quote, hash, false, false, AwaitingQuote, None, None, None, None,
      None, false, None, NotDue, None)
  }

  /** The same key with the same parameters is the same request; with others it is refused. */
  function Create(t: Tables, now: int, owner: string, input: Request, hash: string): Option<Tables> {
    var id := OrderId(owner, input.key);
    var i := OrderIndex(t.orders, id);
    var j := OfferIndex(t.offers, input.offerId);
    if !(16 <= |input.key| <= 100) then None
    else if i < |t.orders| then
      var o := t.orders[i];
      if o.offerId == input.offerId && o.quote.merchantNode == input.merchantNode && o.quote.capacity == input.capacity
      then Some(t) else None
    else if j == |t.offers| || input.merchantNode !in t.nodes || t.offers[j].providerNode !in t.nodes then None
    else
      var (offer, merchant) := (t.offers[j], t.nodes[input.merchantNode]);
      var provider := t.nodes[offer.providerNode];
      if Admits(t.orders, now, owner, input, offer, provider, merchant)
      then Some(t.(orders := t.orders + [NewOrder(id, now, input, offer, provider, merchant, hash)]))
      else None
  }

  // Single-order transactions. Each is a guard on the stored order and the order it becomes.

  function Put(t: Tables, i: nat, o: Order): Tables
    requires i < |t.orders|
  {
    t.(orders := t.orders[i := o])
  }

  predicate MayQuote(o: Order, node: string, now: int) {
    o.quote.providerNode == node && (o.status == AwaitingQuote || o.status == Quoted) && o.quote.expiresAt > now
  }

  function QuoteOrder(t: Tables, now: int, node: string, id: OrderId): Option<Tables> {
    var i := OrderIndex(t.orders, id);
    if i < |t.orders| && MayQuote(t.orders[i], node, now)
    then Some(Put(t, i, t.orders[i].(signed := true, status := Quoted))) else None
  }

  predicate MayStart(o: Order, node: string, now: int) {
    o.quote.providerNode == node && o.status == Accepted && o.quote.expiresAt > now && o.proven && o.signed
  }

  function Start(t: Tables, now: int, node: string, id: OrderId): Option<Tables> {
    var i := OrderIndex(t.orders, id);
    if i < |t.orders| && MayStart(t.orders[i], node, now) then Some(Put(t, i, t.orders[i].(status := Opening))) else None
  }

  predicate MayFail(o: Order, node: string) {
    o.quote.providerNode == node && Reserves(o.status) && o.status != Approved
  }

  function AfterFailure(o: Order, beforeFunding: bool): Order {
    if beforeFunding && Early(o.status) && o.fundingOutpoint.None? && o.channelId.None?
    then o.(status := Failed) else o.(status := Reconciling)
  }

  function Fail(t: Tables, node: string, id: OrderId, beforeFunding: bool): Option<Tables> {
    var i := OrderIndex(t.orders, id);
    if i < |t.orders| && MayFail(t.orders[i], node) then Some(Put(t, i, AfterFailure(t.orders[i], beforeFunding))) else None
  }

  /** The probe's payment hash is fixed by the first report, which must carry the invoice. */
  predicate MayProbe(o: Order, node: string, hash: string, invoice: bool) {
    o.quote.merchantNode == node && o.merchant.Some? && (if o.probeHash.Some? then o.probeHash.value == hash else invoice)
  }

  function Probe(t: Tables, node: string, id: OrderId, hash: string, invoice: bool, paid: bool): Option<Tables> {
    var i := OrderIndex(t.orders, id);
    if i < |t.orders| && MayProbe(t.orders[i], node, hash, invoice) then
      var o := t.orders[i];
      Some(Put(t, i, o.(probeHash := Some(hash), probeReceived := o.probeReceived || paid)).(probed := t.probed + {id}))
    else None
  }

  function Cancel(t: Tables, owner: string, id: OrderId): Option<Tables> {
    var i := OrderIndex(t.orders, id);
    if i < |t.orders| && t.orders[i].owner == owner && Early(t.orders[i].status)
    then Some(Put(t, i, t.orders[i].(status := Cancelled))) else None
  }

  function Waive(t: Tables, owner: string, id: OrderId): Option<Tables> {
    var i := OrderIndex(t.orders, id);
    if i < |t.orders| && t.orders[i].quote.feeRecipient == owner && t.orders[i].status == Delivered && t.orders[i].fee != Paid
    then Some(Put(t, i, t.orders[i].(fee := Waived))) else None
  }

  /** What the expiry sweep makes of one order: two independent checks. */
  function Swept(o: Order, now: int): Order {
    var late := if o.fee == Due && o.deliveredAt.Some? && now - o.deliveredAt.value > FEE_TERM then o.(fee := Overdue) else o;
    if late.quote.expiresAt < now && Early(late.status) then late.(status := Expired) else late
  }

  function Sweep(t: Tables, now: int): Tables {
    t.(orders := seq(|t.orders|, i requires 0 <= i < |t.orders| => Swept(t.orders[i], now)))
  }

  // Flights: what a handler read and checked outside its transaction.

  datatype Flight =
    | AcceptFlight(id: OrderId, quoteHash: string)
    | ReportFlight(id: OrderId, node: string, byProvider: bool, evidence: Evidence)
    | DeliveryFlight(id: OrderId)
    | PaymentFlight(id: OrderId, txHash: string)
    | OfferFlight(offer: Offer)

  predicate MayAccept(o: Order, now: int) {
    o.status == Quoted && o.quote.expiresAt > now
  }

  function BeginAccept(t: Tables, now: int, owner: string, id: OrderId): Option<Flight> {
    var i := OrderIndex(t.orders, id);
    if i < |t.orders| && t.orders[i].owner == owner && MayAccept(t.orders[i], now)
    then Some(AcceptFlight(id, t.orders[i].quoteHash)) else None
  }

  function CommitAccept(t: Tables, now: int, f: Flight): Option<Tables>
    requires f.AcceptFlight?
  {
    var i := OrderIndex(t.orders, f.id);
    if i < |t.orders| && MayAccept(t.orders[i], now) && t.orders[i].quoteHash == f.quoteHash
    then Some(Put(t, i, t.orders[i].(proven := true, status := Accepted))) else None
  }

  /** Evidence in the form it is stored in: canonical outpoint and lower-case channel identifier. */
  function Normalized(e: Evidence): Option<Evidence> {
    match (Canonical(e.fundingOutpoint), Bytes(e.channelId))
    case (Some(outpoint), Some(channel)) =>
      if |channel| == 32 then Some(e.(fundingOutpoint := outpoint, channelId := "0x" + HexEncode(channel))) else None
    case _ => None
  }

  function Distance(a: int, b: int): nat { if a < b then b - a else a - b }

  predicate MayReport(o: Order, node: string, e: Evidence) {
    && (o.quote.providerNode == node || o.quote.merchantNode == node)
    && e.peerPubkey == (if o.quote.providerNode == node then o.quote.merchantPubkey else o.quote.providerPubkey)
    && !Early(o.status) && !Dead(o.status)
  }

  function BeginReport(t: Tables, now: int, node: string, id: OrderId, e: Evidence): Option<Flight> {
    var i := OrderIndex(t.orders, id);
    match Normalized(e)
    case Some(evidence) =>
      if Distance(now, e.observedAt) <= 60 && i < |t.orders| && MayReport(t.orders[i], node, evidence)
      then Some(ReportFlight(id, node, t.orders[i].quote.providerNode == node, evidence)) else None
    case None => None
  }

  predicate Closing(e: Option<Evidence>) {
    e.Some? && (e.value.state == Closed || e.value.state == ShuttingDown || e.value.settlement.Some?)
  }

  predicate Settled(e: Option<Evidence>) {
    e.Some? && e.value.settlement == Some(true)
  }

  function Reported(o: Order, byProvider: bool, e: Evidence): Order {
    var seen := o.(channelId := Some(e.channelId), fundingOutpoint := Some(e.fundingOutpoint),
                   provider := if byProvider then Some(e) else o.provider,
                   merchant := if byProvider then o.merchant else Some(e));
    if o.status == Delivered then seen
    else seen.(status := if Settled(seen.provider) || Settled(seen.merchant) then Failed
                         else if Closing(seen.provider) || Closing(seen.merchant) then Reconciling
                         else Verifying)
  }

  /** The channel and its funding outpoint are written once. */
  predicate SameChannel(o: Order, e: Evidence) {
    && (o.channelId.Some? ==> o.channelId.value == e.channelId)
    && (o.fundingOutpoint.Some? ==> Canonical(o.fundingOutpoint.value) == Some(e.fundingOutpoint))
  }

  function CommitReport(t: Tables, f: Flight): Option<Tables>
    requires f.ReportFlight?
  {
    var i := OrderIndex(t.orders, f.id);
    if i == |t.orders| || Dead(t.orders[i].status) then None
    else
      match BindOutpoint(t.refs, f.evidence.fundingOutpoint, f.id)
      case None => None
      case Some(refs) =>
        if !SameChannel(t.orders[i], f.evidence) then None
        else Some(Put(t, i, Reported(t.orders[i], f.byProvider, f.evidence)).(
          refs := refs, attested := t.attested + {(f.id, f.node)}))
  }

  /** Both peers agree that the channel is ready and large enough, and the probe arrived. */
  predicate Ready(o: Order) {
    && o.provider.Some? && o.merchant.Some?
    && var (p, m) := (o.provider.value, o.merchant.value);
    && p.state == ChannelReady && m.state == ChannelReady && p.settlement.None? && m.settlement.None?
    && p.channelId == m.channelId && p.fundingOutpoint == m.fundingOutpoint
    && p.localBalance == m.remoteBalance && p.remoteBalance == m.localBalance
    && Number(m.inbound).Some? && o.quote.capacity * SHANNONS <= OutpointText.U64_MAX
    && o.quote.capacity * SHANNONS <= Number(m.inbound).value
    && o.probeReceived
  }

  predicate ReadyNow(o: Order, now: int) {
    && o.status == Verifying && Ready(o)
    && Distance(now, o.provider.value.observedAt) <= 90 && Distance(now, o.merchant.value.observedAt) <= 90
  }

  function BeginDelivery(t: Tables, now: int, owner: string, id: OrderId): Option<Flight> {
    var i := OrderIndex(t.orders, id);
    if i < |t.orders| && t.orders[i].owner == owner && ReadyNow(t.orders[i], now) && t.orders[i].fundingOutpoint.Some?
    then Some(DeliveryFlight(id)) else None
  }

  /** The signed reports a receipt is assembled from. */
  predicate HasAttestations(t: Tables, o: Order) {
    (o.id, o.quote.providerNode) in t.attested && (o.id, o.quote.merchantNode) in t.attested && o.id in t.probed
  }

  function CommitDelivery(t: Tables, now: int, f: Flight): Option<Tables>
    requires f.DeliveryFlight?
  {
    var i := OrderIndex(t.orders, f.id);
    if i < |t.orders| && ReadyNow(t.orders[i], now) && HasAttestations(t, t.orders[i]) then
      var o := t.orders[i].(status := Delivered, fee := Due, deliveredAt := Some(now));
      Some(Put(t, i, o).(receipts := t.receipts[f.id := o]))
    else None
  }

  function BeginPayment(t: Tables, owner: string, id: OrderId, txHash: string): Option<Flight> {
    var i := OrderIndex(t.orders, id);
    match Bytes(txHash)
    case Some(bytes) =>
      if i < |t.orders| && t.orders[i].owner == owner && t.orders[i].status == Delivered && |bytes| == 32 && t.orders[i].fee != Paid
      then Some(PaymentFlight(id, "0x" + HexEncode(bytes))) else None
    case None => None
  }

  function CommitPayment(t: Tables, f: Flight): Option<Tables>
    requires f.PaymentFlight?
  {
    var i := OrderIndex(t.orders, f.id);
    if i == |t.orders| then None
    else
      match Bind(t.refs, FeeTransaction, f.txHash, f.id)
      case None => None
      case Some(refs) =>
        var o := t.orders[i];
        if o.feeTx.Some? && o.feeTx.value != f.txHash then None
        else Some(Put(t, i, o.(fee := Paid, feeTx := Some(f.txHash))).(refs := refs))
  }

  // Nodes and offers.

  /** A connector's heartbeat replaces the figures of its node record. */
  function Heartbeat(t: Tables, node: string, at: int, available: nat, reserve: nat, policy: Option<Policy>): Option<Tables> {
    if node !in t.nodes || !(99 <= reserve <= 1000) || at < t.nodes[node].lastSeen
       || (policy.Some? && !(t.nodes[node].role == Provider && 0 < policy.value.maxOrder <= policy.value.maxTotal)) then None
    else
      Some(t.(nodes := t.nodes[node := t.nodes[node].(lastSeen := at, available := available, reserve := reserve, policy := policy)]))
  }

  /** Pairing writes an empty record under a new identifier, or under the one the same owner already
      has for that key and role. */
  function Register(t: Tables, node: string, owner: string, role: Role, pubkey: string): Option<Tables> {
    if (exists k <- t.nodes :: k != node && t.nodes[k].pubkey == pubkey)
       || (node in t.nodes && !(t.nodes[node].pubkey == pubkey && t.nodes[node].owner == owner && t.nodes[node].role == role)) then None
    else Some(t.(nodes := t.nodes[node := Node(node, owner, role, pubkey, 0, 0, 0, None)]))
  }

  function Disabled(offers: seq<Offer>, node: string): (after: seq<Offer>)
    ensures |after| == |offers|
    ensures forall i :: 0 <= i < |offers| ==>
      after[i] == if offers[i].providerNode == node then offers[i].(enabled := false) else offers[i]
  {
    seq(|offers|, i requires 0 <= i < |offers| =>
      if offers[i].providerNode == node then offers[i].(enabled := false) else offers[i])
  }

  /** What is checked before the transaction, on the records as they are read then; `minimumCell` is
      what a cell under the recipient's lock occupies, if its address is well formed. */
  predicate MayOffer(t: Tables, offer: Offer, minimumCell: Option<nat>) {
    && offer.providerNode in t.nodes
    && var n := t.nodes[offer.providerNode];
    && n.owner == offer.owner && n.role == Provider
    && 100 <= offer.minCapacity <= offer.maxCapacity <= 10_000_000
    && minimumCell.Some? && minimumCell.value <= offer.openingFee <= offer.maxCapacity
    && (n.policy.Some? ==> Funding(offer.maxCapacity, n) <= n.policy.value.maxOrder && n.policy.value.minFee <= offer.openingFee)
  }

  function BeginPublish(t: Tables, now: int, offer: Offer, minimumCell: Option<nat>): Option<Flight> {
    if MayOffer(t, offer, minimumCell) then Some(OfferFlight(offer.(enabled := true, expiresAt := now + FEE_TERM))) else None
  }

  predicate MayPublish(t: Tables, now: int, offer: Offer) {
    && offer.providerNode in t.nodes
    && var n := t.nodes[offer.providerNode];
    && Distance(now, n.lastSeen) <= ONLINE && 99 <= n.reserve
    && Funding(offer.minCapacity, n) <= AvailableFunding(n, Reserved(t.orders, n.id))
  }

  /** Publishing an offer disables the provider's older ones. Its identifier is random, so new. */
  function CommitPublish(t: Tables, now: int, f: Flight): Option<Tables>
    requires f.OfferFlight?
  {
    if MayPublish(t, now, f.offer) && OfferIndex(t.offers, f.offer.id) == |t.offers|
    then Some(t.(offers := Disabled(t.offers, f.offer.providerNode) + [f.offer])) else None
  }

  function Disable(t: Tables, owner: string, id: string): Option<Tables> {
    var i := OfferIndex(t.offers, id);
    if i < |t.offers| && t.offers[i].owner == owner
    then Some(t.(offers := t.offers[i := t.offers[i].(enabled := false)])) else None
  }

  /** The capacity the public list shows for an offer. */
  function ListedCapacity(t: Tables, offer: Offer): nat
    requires offer.providerNode in t.nodes
  {
    var n := t.nodes[offer.providerNode];
    if n.policy.Some? && offer.openingFee < n.policy.value.minFee then 0
    else Min(Sub(AvailableFunding(n, Reserved(t.orders, n.id)), n.reserve + 1), offer.maxCapacity)
  }

  // Runs.

  datatype State = State(tables: Tables, flights: set<Flight>)

  /** Every step carries its own clock reading; nothing relates the clocks of two steps. */
  datatype Step =
    | DoCreate(now: int, owner: string, input: Request, hash: string)
    | DoQuote(now: int, node: string, id: OrderId)
    | DoStart(now: int, node: string, id: OrderId)
    | DoFail(node: string, id: OrderId, beforeFunding: bool)
    | DoProbe(node: string, id: OrderId, probe: string, invoice: bool, paid: bool)
    | DoCancel(owner: string, id: OrderId)
    | DoWaive(owner: string, id: OrderId)
    | DoSweep(now: int)
    | DoBeginAccept(now: int, owner: string, id: OrderId)
    | DoBeginReport(now: int, node: string, id: OrderId, evidence: Evidence)
    | DoBeginDelivery(now: int, owner: string, id: OrderId)
    | DoBeginPayment(owner: string, id: OrderId, txHash: string)
    | DoLand(now: int, flight: Flight)
    | DoHeartbeat(node: string, at: int, available: nat, reserve: nat, policy: Option<Policy>)
    | DoRegister(node: string, owner: string, role: Role, pubkey: string)
    | DoBeginPublish(now: int, offer: Offer, minimumCell: Option<nat>)
    | DoDisable(owner: string, offerId: string)

  function Land(t: Tables, now: int, f: Flight): Option<Tables> {
    match f
    case AcceptFlight(_, _) => CommitAccept(t, now, f)
    case ReportFlight(_, _, _, _) => CommitReport(t, f)
    case DeliveryFlight(_) => CommitDelivery(t, now, f)
    case PaymentFlight(_, _) => CommitPayment(t, f)
    case OfferFlight(_) => CommitPublish(t, now, f)
  }

  /** The transaction a step runs, if any. */
  function Transaction(s: State, step: Step): Option<Tables> {
    var t := s.tables;
    match step
    case DoCreate(now, owner, input, hash) => Create(t, now, owner, input, hash)
    case DoQuote(now, node, id) => QuoteOrder(t, now, node, id)
    case DoStart(now, node, id) => Start(t, now, node, id)
    case DoFail(node, id, beforeFunding) => Fail(t, node, id, beforeFunding)
    case DoProbe(node, id, probe, invoice, paid) => Probe(t, node, id, probe, invoice, paid)
    case DoCancel(owner, id) => Cancel(t, owner, id)
    case DoWaive(owner, id) => Waive(t, owner, id)
    case DoSweep(now) => Some(Sweep(t, now))
    case DoLand(now, f) => if f in s.flights then Land(t, now, f) else None
    case DoHeartbeat(node, at, available, reserve, policy) => Heartbeat(t, node, at, available, reserve, policy)
    case DoRegister(node, owner, role, pubkey) => Register(t, node, owner, role, pubkey)
    case DoDisable(owner, offerId) => Disable(t, owner, offerId)
    case DoBeginAccept(_, _, _) | DoBeginReport(_, _, _, _) | DoBeginDelivery(_, _, _) | DoBeginPayment(_, _, _)
      | DoBeginPublish(_, _, _) => None
  }

  /** The flight a step starts, if any. */
  function Departure(s: State, step: Step): Option<Flight> {
    match step
    case DoBeginAccept(now, owner, id) => BeginAccept(s.tables, now, owner, id)
    case DoBeginReport(now, node, id, evidence) => BeginReport(s.tables, now, node, id, evidence)
    case DoBeginDelivery(now, owner, id) => BeginDelivery(s.tables, now, owner, id)
    case DoBeginPayment(owner, id, txHash) => BeginPayment(s.tables, owner, id, txHash)
    case DoBeginPublish(now, offer, minimumCell) => BeginPublish(s.tables, now, offer, minimumCell)
    case _ => None
  }

  /** A failed transaction leaves the tables alone. A flight stays: it may land late, twice or never. */
  function Perform(s: State, step: Step): State {
    var departure := Departure(s, step);
    var committed := Transaction(s, step);
    State(if committed.Some? then committed.value else s.tables,
          s.flights + if departure.Some? then {departure.value} else {})
  }

  function Run(s: State, steps: seq<Step>): State {
    if steps == [] then s else Perform(Run(s, steps[..|steps| - 1]), steps[|steps| - 1])
  }
}
