/** The liquidity ledger as a state machine: positions, requests and the reservations that book them.
    Every operation is an atomic step, as it runs under the store's write lock. */
module Ledger {
  import opened Accounting
  import opened LiveSync
  import opened Wrappers

  /** The status of a liquidity request. */
  datatype Stage = Requested | FundingRequired | FundingSubmitted | PendingFiberChannel | ChannelOpen
                 | Failed | Expired | Released | Settled

  /** The status of a capacity reservation. */
  datatype Hold = Reserved | Deployed | Released | Failed

  /** What a handoff can commit. */
  type Outcome = s: Stage | s in {FundingRequired, FundingSubmitted, PendingFiberChannel, ChannelOpen, Stage.Failed}
    witness FundingRequired

  /** What is written without touching the reservation. */
  type Marking = s: Stage | s == FundingRequired || s == FundingSubmitted witness FundingRequired

  datatype Request = Request(id: string, asset: string, amount: nat, expiresAt: int, stage: Stage)

  datatype Reservation = Reservation(requestId: string, asset: string, amount: nat, hold: Hold)

  /** `warnings` counts the failed position moves that are only logged. */
  datatype Books = Books(positions: seq<Position>, reservations: seq<Reservation>, requests: seq<Request>,
                         live: Option<LiveVault>, warnings: nat)

  datatype Fault = NotFound | ZeroAmount | WrongStage | AlreadyReserved | OverAvailable | OverClaimable
                 | ReserveMissing | DeploymentMissing

  type Reply = Result<nat, Fault>

  /** What the watcher sees in the channel list for one request. */
  datatype Sighting = Sighting(settled: bool, usable: bool, usableExact: bool, failed: bool,
                               builderTimedOut: bool, negotiationTimedOut: bool, fundingTimedOut: bool)

  function RequestIndex(requests: seq<Request>, id: string): (i: nat)
    ensures i <= |requests|
    ensures i < |requests| ==> requests[i].id == id
    ensures forall k :: 0 <= k < i ==> requests[k].id != id
  {
    if requests == [] || requests[0].id == id then 0 else 1 + RequestIndex(requests[1..], id)
  }

  function ReservationIndex(reservations: seq<Reservation>, id: string): (i: nat)
    ensures i <= |reservations|
    ensures i < |reservations| ==> reservations[i].requestId == id
    ensures forall k :: 0 <= k < i ==> reservations[k].requestId != id
  {
    if reservations == [] || reservations[0].requestId == id then 0 else 1 + ReservationIndex(reservations[1..], id)
  }

  function PositionIndex(positions: seq<Position>, id: string): (i: nat)
    ensures i <= |positions|
    ensures i < |positions| ==> positions[i].id == id
    ensures forall k :: 0 <= k < i ==> positions[k].id != id
  {
    if positions == [] || positions[0].id == id then 0 else 1 + PositionIndex(positions[1..], id)
  }

  function WithStage(b: Books, i: nat, stage: Stage): Books
    requires i < |b.requests|
  {
    b.(requests := b.requests[i := b.requests[i].(stage := stage)])
  }

  function WithHold(b: Books, i: nat, hold: Hold): Books
    requires i < |b.reservations|
  {
    b.(reservations := b.reservations[i := b.reservations[i].(hold := hold)])
  }

  /** A position move whose failure is only logged. */
  function Relocated(b: Books, asset: string, amount: nat, move: Move): Books
    requires move.from != move.to
  {
    b.(positions := Moved(b.positions, asset, move, amount),
       warnings := b.warnings + if amount <= Sum(b.positions, asset, move.from) then 0 else 1)
  }

  function Marked(b: Books, id: string, hold: Hold): Books {
    var i := ReservationIndex(b.reservations, id);
    if i == |b.reservations| then b else WithHold(b, i, hold)
  }

  /** The reservation and the positions follow a request's new stage. */
  function Reconciled(b: Books, updated: Request): Books {
    var i := ReservationIndex(b.reservations, updated.id);
    if i == |b.reservations| then b
    else
      var hold := b.reservations[i].hold;
      match updated.stage
      case FundingRequired | FundingSubmitted | PendingFiberChannel =>
        if hold == Hold.Failed then WithHold(b, i, Hold.Reserved) else b
      case ChannelOpen =>
        WithHold(if hold == Hold.Deployed then b else Relocated(b, updated.asset, updated.amount, DEPLOY), i, Hold.Deployed)
      case Failed =>
        if hold == Hold.Deployed then WithHold(Relocated(b, updated.asset, updated.amount, UNDEPLOY), i, Hold.Reserved)
        else if hold == Hold.Released then WithHold(b, i, Hold.Failed)
        else b
      case Expired | Released | Settled => WithHold(b, i, Hold.Released)
      case Requested => b
  }

  // Single-request operations.

  /** The commit of a channel handoff: whatever the request's stage has become meanwhile, the
      outcome overwrites it. */
  function Handoff(b: Books, id: string, outcome: Outcome): (Books, Reply) {
    var i := RequestIndex(b.requests, id);
    if i == |b.requests| then (b, Failure(NotFound))
    else (Reconciled(WithStage(b, i, outcome), b.requests[i].(stage := outcome)), Success(1))
  }

  /** A stage written without touching the reservation: the funding intent (`FundingRequired`) and
      the funding builder's callback (`FundingSubmitted`). */
  function Mark(b: Books, id: string, stage: Marking): (Books, Reply) {
    var i := RequestIndex(b.requests, id);
    if i == |b.requests| then (b, Failure(NotFound)) else (WithStage(b, i, stage), Success(1))
  }

  predicate Releasable(stage: Stage) {
    stage in {Requested, FundingRequired, FundingSubmitted, PendingFiberChannel, Stage.Failed, Expired}
  }

  /** Frees what a request holds: the stage is already overwritten when the move can fail. */
  function Freed(b: Books, request: Request, move: Move, fault: Fault): (Books, Reply)
    requires move.from != move.to
  {
    var moved := b.(positions := Moved(b.positions, request.asset, move, request.amount));
    if request.amount <= Sum(b.positions, request.asset, move.from)
    then (Marked(moved, request.id, Hold.Released), Success(1))
    else (moved, Failure(fault))
  }

  function Release(b: Books, id: string): (Books, Reply) {
    var i := RequestIndex(b.requests, id);
    if i == |b.requests| then (b, Failure(NotFound))
    else if !Releasable(b.requests[i].stage) then (b, Failure(WrongStage))
    else Freed(WithStage(b, i, Stage.Released), b.requests[i], RELEASE, ReserveMissing)
  }

  function Settle(b: Books, id: string): (Books, Reply) {
    var i := RequestIndex(b.requests, id);
    if i == |b.requests| then (b, Failure(NotFound))
    else if b.requests[i].stage != ChannelOpen then (b, Failure(WrongStage))
    else Freed(WithStage(b, i, Settled), b.requests[i], SETTLE, DeploymentMissing)
  }

  // Passes over all requests.

  predicate HasExpired(request: Request, now: int) {
    request.stage in {Requested, FundingRequired, Stage.Failed} && request.expiresAt <= now
  }

  /** The stage a pass gives a request; passes differ only in this function. */
  type Judge = Request -> Stage

  function ExpiryJudge(now: int): Judge {
    (request: Request) => if HasExpired(request, now) then Stage.Released else request.stage
  }

  function WatchedStage(stage: Stage, seen: Sighting): Stage {
    var funding := stage == FundingSubmitted || stage == PendingFiberChannel;
    if stage == ChannelOpen && seen.settled then Settled
    else if (funding && seen.usable) || (stage == Stage.Failed && seen.usableExact) then ChannelOpen
    else if (funding || stage == ChannelOpen) && seen.failed then Stage.Failed
    else if stage == FundingRequired && seen.builderTimedOut then Stage.Failed
    else if funding && (seen.negotiationTimedOut || seen.fundingTimedOut) then Stage.Failed
    else stage
  }

  function WatchJudge(sight: Request -> Sighting): Judge {
    (request: Request) => WatchedStage(request.stage, sight(request))
  }

  function Judged(requests: seq<Request>, judge: Judge): (judged: seq<Request>)
    ensures |judged| == |requests|
    ensures forall i :: 0 <= i < |requests| ==> judged[i] == requests[i].(stage := judge(requests[i]))
  {
    seq(|requests|, i requires 0 <= i < |requests| => requests[i].(stage := judge(requests[i])))
  }

  /** The requests a pass moved to `stage`, in order. */
  function Changed(requests: seq<Request>, judge: Judge, stage: Stage): seq<Request> {
    if requests == [] then []
    else
      var (rest, r) := (requests[..|requests| - 1], requests[|requests| - 1]);
      Changed(rest, judge, stage) + if judge(r) == stage != r.stage then [r.(stage := stage)] else []
  }

  /** The watcher's follow-up on one changed request. */
  function Followed(b: Books, item: Request): Books {
    if item.stage == Settled
    then Marked(Relocated(b, item.asset, item.amount, SETTLE), item.id, Hold.Released)
    else Reconciled(b, item)
  }

  function FollowedAll(b: Books, items: seq<Request>): Books
    decreases items
  {
    if items == [] then b else FollowedAll(Followed(b, items[0]), items[1..])
  }

  /** The follow-ups come list by list: first the opened, then the settled, then the failed. */
  function WatchedItems(requests: seq<Request>, judge: Judge): seq<Request> {
    Changed(requests, judge, ChannelOpen) + Changed(requests, judge, Settled) + Changed(requests, judge, Stage.Failed)
  }

  function Watch(b: Books, sight: Request -> Sighting): (Books, Reply) {
    var judge := WatchJudge(sight);
    var changed := WatchedItems(b.requests, judge);
    (FollowedAll(b.(requests := Judged(b.requests, judge)), changed), Success(|changed|))
  }

  /** Frees the expired requests one by one; a move that fails ends the pass. */
  function FreedAll(b: Books, items: seq<Request>): (Books, Reply)
    decreases items
  {
    if items == [] then (b, Success(0))
    else
      var (next, reply) := Freed(b, items[0], RELEASE, ReserveMissing);
      if reply.Failure? then (next, reply) else FreedAll(next, items[1..])
  }

  function Expire(b: Books, now: int): (Books, Reply) {
    var judge := ExpiryJudge(now);
    var expired := Changed(b.requests, judge, Stage.Released);
    var (freed, reply) := FreedAll(b.(requests := Judged(b.requests, judge)), expired);
    (freed, if reply.Failure? then reply else Success(|expired|))
  }

  // Supply side.

  function Deposit(b: Books, id: string, asset: string, amount: nat): (Books, Reply) {
    if amount == 0 then (b, Failure(ZeroAmount))
    else (b.(positions := b.positions + [Position(id, asset, amount, amount, 0, 0, 0, 0, Active)]), Success(1))
  }

  /** The vault summary's available liquidity: the live cell's number when it is for this asset. */
  function AvailableLiquidity(b: Books, asset: string): nat {
    if b.live.Some? && b.live.value.asset == asset then Unused(b.live.value) else Sum(b.positions, asset, Bucket.Available)
  }

  /** A request reserves what the vault summary offers. One that settles a signed intent is already on
      the chain: it is stored whatever the positions hold, and a reservation that fails is only logged. */
  function Create(b: Books, id: string, asset: string, amount: nat, leaseFee: nat, expiresAt: int, signed: bool): (Books, Reply) {
    if amount == 0 then (b, Failure(ZeroAmount))
    else if !signed && AvailableLiquidity(b, asset) < amount then (b, Failure(AlreadyReserved))
    else
      var enough := amount <= Sum(b.positions, asset, Bucket.Available);
      var reserved := b.(positions := Reserving(b.positions, asset, amount, leaseFee));
      if !enough && !signed then (reserved, Failure(AlreadyReserved))
      else
        (reserved.(reservations := b.reservations + [Reservation(id, asset, amount, Hold.Reserved)],
                   requests := b.requests + [Request(id, asset, amount, expiresAt, Requested)],
                   warnings := b.warnings + if enough then 0 else 1), Success(1))
  }

  /** A balanced position supplies at least what it has available, so the floor is never reached. */
  function Withdrawn(p: Position, amount: nat): Position
    requires amount <= p.available
  {
    var left := p.(available := p.available - amount, supplied := p.supplied - Min(p.supplied, amount));
    if left.supplied == 0 then left.(status := Closed) else left
  }

  function Withdraw(b: Books, positionId: string, amount: nat): (Books, Reply) {
    var i := PositionIndex(b.positions, positionId);
    if i == |b.positions| then (b, Failure(NotFound))
    else if b.positions[i].available < amount then (b, Failure(OverAvailable))
    else (b.(positions := b.positions[i := Withdrawn(b.positions[i], amount)]), Success(1))
  }

  function ClaimFee(b: Books, positionId: string, amount: nat): (Books, Reply) {
    var i := PositionIndex(b.positions, positionId);
    if i == |b.positions| then (b, Failure(NotFound))
    else
      var p := b.positions[i];
      if p.feesEarned - Min(p.feesEarned, p.feesClaimed) < amount then (b, Failure(OverClaimable))
      else (b.(positions := b.positions[i := p.(feesClaimed := p.feesClaimed + amount)]), Success(1))
  }

  function SyncLive(b: Books, live: LiveVault): (Books, Reply) {
    (b.(positions := Synced(b.positions, live), live := Some(live)), Success(1))
  }

  datatype Step =
    | DoDeposit(id: string, asset: string, amount: nat)
    | DoCreate(id: string, asset: string, amount: nat, leaseFee: nat, expiresAt: int, signed: bool)
    | DoHandoff(id: string, outcome: Outcome)
    | DoMark(id: string, marking: Marking)
    | DoWatch(sight: Request -> Sighting)
    | DoRelease(id: string)
    | DoSettle(id: string)
    | DoExpire(now: int)
    | DoWithdraw(id: string, amount: nat)
    | DoClaimFee(id: string, amount: nat)
    | DoSync(live: LiveVault)

  function Perform(b: Books, step: Step): (Books, Reply) {
    match step
    case DoDeposit(id, asset, amount) => Deposit(b, id, asset, amount)
    case DoCreate(id, asset, amount, leaseFee, expiresAt, signed) => Create(b, id, asset, amount, leaseFee, expiresAt, signed)
    case DoHandoff(id, outcome) => Handoff(b, id, outcome)
    case DoMark(id, marking) => Mark(b, id, marking)
    case DoWatch(sight) => Watch(b, sight)
    case DoRelease(id) => Release(b, id)
    case DoSettle(id) => Settle(b, id)
    case DoExpire(now) => Expire(b, now)
    case DoWithdraw(id, amount) => Withdraw(b, id, amount)
    case DoClaimFee(id, amount) => ClaimFee(b, id, amount)
    case DoSync(live) => SyncLive(b, live)
  }
}
