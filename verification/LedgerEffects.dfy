/** What the operations on requests come to, request by request and bucket by bucket. */
module LedgerEffects {
  import opened Accounting
  import opened AccountingLaws
  import opened Ledger
  import opened LedgerIntents
  import opened LedgerTieOut
  import opened LedgerTotals
  import opened LiveSync
  import opened Wrappers

  /** What the requests of an asset that are `chosen` ask for together. */
  ghost function AmountWhere(requests: seq<Request>, asset: string, chosen: Request -> bool): nat {
    if requests == [] then 0
    else
      var r := requests[|requests| - 1];
      AmountWhere(requests[..|requests| - 1], asset, chosen) + if r.asset == asset && chosen(r) then r.amount else 0
  }

  /** The books after a step that moves nothing in or out: every asset keeps its total. */
  lemma TotalKept(b: Books, next: Books, asset: string)
    requires Inv(b) && Inv(next) && SameMoneyAll(b.positions, next.positions)
    ensures Sum(next.positions, asset, Bucket.Available) + Sum(next.positions, asset, Bucket.Reserved) + Sum(next.positions, asset, Bucket.Deployed)
         == Sum(b.positions, asset, Bucket.Available) + Sum(b.positions, asset, Bucket.Reserved) + Sum(b.positions, asset, Bucket.Deployed)
  {
    var ps, qs := b.positions, next.positions;
    forall i | 0 <= i < |ps| ensures Balanced(ps[i]) && Balanced(qs[i]) && SameMoney(ps[i], qs[i]) {
      assert SoundPosition(ps[i]) && SoundPosition(qs[i]);
    }
    hide Inv, Balanced, Sum, Supplied;
    SuppliedKept(ps, qs, asset);
    BalancedSums(ps, asset);
    BalancedSums(qs, asset);
  }

  // The watcher.

  /** The stage and the hold a request ends with, by its stored stage and what is seen of its channel. */
  predicate EndsWatched(stage: Stage, seen: Sighting, after: Stage, hold: Hold) {
    match stage
    case ChannelOpen =>
      if seen.settled then after == Settled && hold == Hold.Released
      else if seen.failed then after == Stage.Failed && hold == Hold.Reserved
      else after == ChannelOpen && hold == Hold.Deployed
    case FundingSubmitted | PendingFiberChannel =>
      if seen.usable then after == ChannelOpen && hold == Hold.Deployed
      else if seen.failed || seen.negotiationTimedOut || seen.fundingTimedOut then after == Stage.Failed && hold == Hold.Reserved
      else after == stage && hold == Hold.Reserved
    case Failed =>
      if seen.usableExact then after == ChannelOpen && hold == Hold.Deployed else after == Stage.Failed && hold == Hold.Reserved
    case FundingRequired =>
      (if seen.builderTimedOut then after == Stage.Failed else after == FundingRequired) && hold == Hold.Reserved
    case Requested => after == Requested && hold == Hold.Reserved
    case Expired | Released | Settled => after == stage && hold == Hold.Released
  }

  /** A stored request and its reservation, before and after: only the stage and the hold differ. */
  ghost predicate OnlyStage(b: Books, next: Books, i: nat)
    requires i < |b.requests| && i < |b.reservations|
  {
    && |next.requests| == |b.requests| && |next.reservations| == |b.reservations|
    && next.requests[i] == b.requests[i].(stage := next.requests[i].stage)
    && next.reservations[i] == b.reservations[i].(hold := next.reservations[i].hold)
  }

  lemma FollowedAllKeepsRequests(b: Books, items: seq<Request>)
    ensures FollowedAll(b, items).requests == b.requests
    decreases items
  {
    if items != [] { FollowedAllKeepsRequests(Followed(b, items[0]), items[1..]); }
  }

  lemma FreedAllKeepsRequests(b: Books, items: seq<Request>)
    ensures FreedAll(b, items).0.requests == b.requests
    decreases items
  {
    if items != [] && Freed(b, items[0], RELEASE, ReserveMissing).1.Success? {
      FreedAllKeepsRequests(Freed(b, items[0], RELEASE, ReserveMissing).0, items[1..]);
    }
  }

  /** A pass that keeps the books leaves everything about a request but its stage. */
  lemma JudgedOnlyStage(b: Books, next: Books, judge: Judge, i: nat)
    requires Inv(b) && Inv(next) && next.requests == Judged(b.requests, judge) && i < |b.requests|
    ensures OnlyStage(b, next, i) && next.requests[i].stage == judge(b.requests[i])
    ensures next.requests[i].stage != Expired && b.requests[i].stage != Expired
    ensures next.reservations[i].hold == HoldOf(next.requests[i].stage) && b.reservations[i].hold == HoldOf(b.requests[i].stage)
  {
    assert Pair(b.requests[i], b.reservations[i]) && Pair(next.requests[i], next.reservations[i]);
    assert Agrees(b.requests[i], b.reservations[i]) && Agrees(next.requests[i], next.reservations[i]);
  }

  /** Whatever the channel list shows, each request ends as its own channel warrants. */
  lemma WatchEnds(b: Books, sight: Request -> Sighting, i: nat)
    requires Inv(b) && i < |b.requests|
    ensures var next := Watch(b, sight).0;
      && OnlyStage(b, next, i)
      && EndsWatched(b.requests[i].stage, sight(b.requests[i]), next.requests[i].stage, next.reservations[i].hold)
  {
    var judge, next := WatchJudge(sight), Watch(b, sight).0;
    WatchKeeps(b, sight);
    FollowedAllKeepsRequests(b.(requests := Judged(b.requests, judge)), WatchedItems(b.requests, judge));
    hide Inv, FollowedAll, WatchedItems;
    JudgedOnlyStage(b, next, judge, i);
  }

  predicate SeenSettled(r: Request, seen: Sighting) { r.stage == ChannelOpen && seen.settled }

  predicate SeenLost(r: Request, seen: Sighting) { r.stage == ChannelOpen && !seen.settled && seen.failed }

  predicate SeenOpened(r: Request, seen: Sighting) {
    ((r.stage == FundingSubmitted || r.stage == PendingFiberChannel) && seen.usable) || (r.stage == Stage.Failed && seen.usableExact)
  }

  ghost function SettledIn(sight: Request -> Sighting): Request -> bool { r => SeenSettled(r, sight(r)) }

  ghost function LostIn(sight: Request -> Sighting): Request -> bool { r => SeenLost(r, sight(r)) }

  ghost function OpenedIn(sight: Request -> Sighting): Request -> bool { r => SeenOpened(r, sight(r)) }

  const NONE: Request -> bool := r => false

  ghost function Due(r: Request, asset: string, chosen: Request -> bool): nat {
    if r.asset == asset && chosen(r) then r.amount else 0
  }

  /** What request `i` asks for leaves a bucket for one of two reasons, or comes into it. */
  ghost predicate Flows(requests: seq<Request>, was: seq<Reservation>, now: seq<Reservation>, asset: string, b: Bucket,
                        left: Request -> bool, gone: Request -> bool, came: Request -> bool, i: nat)
    requires i < |requests| == |was| == |now|
  {
    Contribution(now[i], asset, b) + Due(requests[i], asset, left) + Due(requests[i], asset, gone)
    == Contribution(was[i], asset, b) + Due(requests[i], asset, came)
  }

  lemma AmountStep(requests: seq<Request>, asset: string, chosen: Request -> bool, n: nat)
    requires n < |requests|
    ensures AmountWhere(requests[..n + 1], asset, chosen) == AmountWhere(requests[..n], asset, chosen) + Due(requests[n], asset, chosen)
  {
    assert requests[..n + 1][..n] == requests[..n];
  }

  lemma BookedStep(rs: seq<Reservation>, asset: string, b: Bucket, n: nat)
    requires n < |rs|
    ensures Booked(rs[..n + 1], asset, b) == Booked(rs[..n], asset, b) + Contribution(rs[n], asset, b)
  {
    assert rs[..n + 1][..n] == rs[..n];
  }

  lemma {:induction false} FlowSums(requests: seq<Request>, was: seq<Reservation>, now: seq<Reservation>, asset: string, b: Bucket,
                                    left: Request -> bool, gone: Request -> bool, came: Request -> bool, n: nat)
    requires n <= |requests| == |was| == |now|
    requires forall i :: 0 <= i < |requests| ==> Flows(requests, was, now, asset, b, left, gone, came, i)
    ensures Booked(now[..n], asset, b) + AmountWhere(requests[..n], asset, left) + AmountWhere(requests[..n], asset, gone)
         == Booked(was[..n], asset, b) + AmountWhere(requests[..n], asset, came)
    decreases n
  {
    if n > 0 {
      hide Contribution, AmountWhere, Booked, Due;
      FlowSums(requests, was, now, asset, b, left, gone, came, n - 1);
      assert Flows(requests, was, now, asset, b, left, gone, came, n - 1);
      AmountStep(requests, asset, left, n - 1);
      AmountStep(requests, asset, gone, n - 1);
      AmountStep(requests, asset, came, n - 1);
      BookedStep(was, asset, b, n - 1);
      BookedStep(now, asset, b, n - 1);
    }
  }

  lemma FlowTotals(requests: seq<Request>, was: seq<Reservation>, now: seq<Reservation>, asset: string, b: Bucket,
                   left: Request -> bool, gone: Request -> bool, came: Request -> bool)
    requires |requests| == |was| == |now|
    requires forall i :: 0 <= i < |requests| ==> Flows(requests, was, now, asset, b, left, gone, came, i)
    ensures Booked(now, asset, b) + AmountWhere(requests, asset, left) + AmountWhere(requests, asset, gone)
         == Booked(was, asset, b) + AmountWhere(requests, asset, came)
  {
    hide Flows, AmountWhere, Booked;
    FlowSums(requests, was, now, asset, b, left, gone, came, |requests|);
    assert requests[..|requests|] == requests && was[..|was|] == was && now[..|now|] == now;
  }

  lemma {:induction false} NoneChosen(requests: seq<Request>, asset: string)
    ensures AmountWhere(requests, asset, NONE) == 0
  {
    if requests != [] { NoneChosen(requests[..|requests| - 1], asset); }
  }

  lemma WatchFlows(b: Books, sight: Request -> Sighting, asset: string, i: nat)
    requires Inv(b) && i < |b.requests|
    ensures |Watch(b, sight).0.reservations| == |b.reservations| == |b.requests|
    ensures var now := Watch(b, sight).0.reservations;
      && Flows(b.requests, b.reservations, now, asset, Bucket.Deployed, SettledIn(sight), LostIn(sight), OpenedIn(sight), i)
      && Flows(b.requests, b.reservations, now, asset, Bucket.Reserved, OpenedIn(sight), NONE, LostIn(sight), i)
  {
    WatchEnds(b, sight, i);
    assert Pair(b.requests[i], b.reservations[i]) && Agrees(b.requests[i], b.reservations[i]);
    EndsContribute(b.requests[i], sight(b.requests[i]), b.reservations[i], Watch(b, sight).0.reservations[i], Watch(b, sight).0.requests[i].stage, asset);
    hide Watch, Inv, EndsWatched, Contribution, SeenSettled, SeenLost, SeenOpened;
  }

  lemma EndsContribute(r: Request, seen: Sighting, was: Reservation, now: Reservation, after: Stage, asset: string)
    requires Pair(r, was) && Agrees(r, was) && now == was.(hold := now.hold) && EndsWatched(r.stage, seen, after, now.hold)
    ensures var amount := if r.asset == asset then r.amount else 0;
      && Contribution(now, asset, Bucket.Deployed) + (if SeenSettled(r, seen) then amount else 0) + (if SeenLost(r, seen) then amount else 0)
         == Contribution(was, asset, Bucket.Deployed) + (if SeenOpened(r, seen) then amount else 0)
      && Contribution(now, asset, Bucket.Reserved) + (if SeenOpened(r, seen) then amount else 0)
         == Contribution(was, asset, Bucket.Reserved) + (if SeenLost(r, seen) then amount else 0)
  {}

  lemma WatchBooked(b: Books, sight: Request -> Sighting, asset: string)
    requires Inv(b)
    ensures var (was, now) := (b.reservations, Watch(b, sight).0.reservations);
      var (settled, lost) := (AmountWhere(b.requests, asset, SettledIn(sight)), AmountWhere(b.requests, asset, LostIn(sight)));
      var newly := AmountWhere(b.requests, asset, OpenedIn(sight));
      && Booked(now, asset, Bucket.Deployed) + settled + lost == Booked(was, asset, Bucket.Deployed) + newly
      && Booked(now, asset, Bucket.Reserved) + newly == Booked(was, asset, Bucket.Reserved) + lost
  {
    WatchKeeps(b, sight);
    FollowedAllKeepsRequests(b.(requests := Judged(b.requests, WatchJudge(sight))), WatchedItems(b.requests, WatchJudge(sight)));
    var now := Watch(b, sight).0.reservations;
    assert |b.requests| == |b.reservations| == |now|;
    hide Watch, Inv, Flows, AmountWhere, Booked, SettledIn, LostIn, OpenedIn;
    forall i | 0 <= i < |b.requests|
      ensures Flows(b.requests, b.reservations, now, asset, Bucket.Deployed, SettledIn(sight), LostIn(sight), OpenedIn(sight), i)
      ensures Flows(b.requests, b.reservations, now, asset, Bucket.Reserved, OpenedIn(sight), NONE, LostIn(sight), i)
    {
      WatchFlows(b, sight, asset, i);
    }
    FlowTotals(b.requests, b.reservations, now, asset, Bucket.Deployed, SettledIn(sight), LostIn(sight), OpenedIn(sight));
    FlowTotals(b.requests, b.reservations, now, asset, Bucket.Reserved, OpenedIn(sight), NONE, LostIn(sight));
    NoneChosen(b.requests, asset);
  }

  lemma TiedBuckets(b: Books, asset: string)
    requires Inv(b)
    ensures Sum(b.positions, asset, Bucket.Reserved) == Booked(b.reservations, asset, Bucket.Reserved)
    ensures Sum(b.positions, asset, Bucket.Deployed) == Booked(b.reservations, asset, Bucket.Deployed)
  {
    assert Tie(b.positions, b.reservations);
  }

  /** Of each asset exactly the settled amounts become available, what opens leaves the reserve for the
      deployment, and what is lost goes back to the reserve. */
  lemma WatchMoves(b: Books, sight: Request -> Sighting, asset: string)
    requires Inv(b)
    ensures var (ps, qs) := (b.positions, Watch(b, sight).0.positions);
      var settled := AmountWhere(b.requests, asset, SettledIn(sight));
      var lost := AmountWhere(b.requests, asset, LostIn(sight));
      var newly := AmountWhere(b.requests, asset, OpenedIn(sight));
      && Sum(qs, asset, Bucket.Available) == Sum(ps, asset, Bucket.Available) + settled
      && Sum(qs, asset, Bucket.Deployed) + settled + lost == Sum(ps, asset, Bucket.Deployed) + newly
      && Sum(qs, asset, Bucket.Reserved) + newly == Sum(ps, asset, Bucket.Reserved) + lost
  {
    var next := Watch(b, sight).0;
    WatchKeeps(b, sight);
    OthersKeepMoney(b, DoWatch(sight));
    assert Perform(b, DoWatch(sight)) == Watch(b, sight);
    hide *;
    WatchBooked(b, sight, asset);
    TotalKept(b, next, asset);
    TiedBuckets(b, asset);
    TiedBuckets(next, asset);
  }

  // The expiry sweep.

  predicate Lapsed(r: Request, now: int) {
    (r.stage == Requested || r.stage == FundingRequired || r.stage == Stage.Failed) && r.expiresAt <= now
  }

  ghost function LapsedAt(now: int): Request -> bool { r => Lapsed(r, now) }

  /** A request whose term is over before its funding was submitted is released; every other one stays. */
  lemma ExpireEnds(b: Books, now: int, i: nat)
    requires Inv(b) && i < |b.requests|
    ensures var next := Expire(b, now).0;
      && OnlyStage(b, next, i)
      && (if Lapsed(b.requests[i], now) then next.requests[i].stage == Stage.Released && next.reservations[i].hold == Hold.Released
          else next.requests[i].stage == b.requests[i].stage && next.reservations[i].hold == b.reservations[i].hold)
  {
    var judge, next := ExpiryJudge(now), Expire(b, now).0;
    ExpireKeeps(b, now);
    FreedAllKeepsRequests(b.(requests := Judged(b.requests, judge)), Changed(b.requests, judge, Stage.Released));
    hide Inv, FreedAll, Changed;
    JudgedOnlyStage(b, next, judge, i);
  }

  lemma ExpireFlows(b: Books, now: int, asset: string, i: nat)
    requires Inv(b) && i < |b.requests|
    ensures |Expire(b, now).0.reservations| == |b.reservations| == |b.requests|
    ensures var after := Expire(b, now).0.reservations;
      && Flows(b.requests, b.reservations, after, asset, Bucket.Deployed, NONE, NONE, NONE, i)
      && Flows(b.requests, b.reservations, after, asset, Bucket.Reserved, LapsedAt(now), NONE, NONE, i)
  {
    ExpireEnds(b, now, i);
    assert Pair(b.requests[i], b.reservations[i]) && Agrees(b.requests[i], b.reservations[i]);
    hide Expire, Inv;
  }

  lemma ExpireBooked(b: Books, now: int, asset: string)
    requires Inv(b)
    ensures var (was, after) := (b.reservations, Expire(b, now).0.reservations);
      && Booked(after, asset, Bucket.Deployed) == Booked(was, asset, Bucket.Deployed)
      && Booked(after, asset, Bucket.Reserved) + AmountWhere(b.requests, asset, LapsedAt(now)) == Booked(was, asset, Bucket.Reserved)
  {
    ExpireKeeps(b, now);
    FreedAllKeepsRequests(b.(requests := Judged(b.requests, ExpiryJudge(now))), Changed(b.requests, ExpiryJudge(now), Stage.Released));
    var after := Expire(b, now).0.reservations;
    assert |b.requests| == |b.reservations| == |after|;
    hide Expire, Inv, Flows, AmountWhere, Booked, LapsedAt;
    forall i | 0 <= i < |b.requests|
      ensures Flows(b.requests, b.reservations, after, asset, Bucket.Deployed, NONE, NONE, NONE, i)
      ensures Flows(b.requests, b.reservations, after, asset, Bucket.Reserved, LapsedAt(now), NONE, NONE, i)
    {
      ExpireFlows(b, now, asset, i);
    }
    FlowTotals(b.requests, b.reservations, after, asset, Bucket.Deployed, NONE, NONE, NONE);
    FlowTotals(b.requests, b.reservations, after, asset, Bucket.Reserved, LapsedAt(now), NONE, NONE);
    NoneChosen(b.requests, asset);
  }

  /** Exactly the lapsed amounts go from the reserve back to what is available. */
  lemma ExpireMoves(b: Books, now: int, asset: string)
    requires Inv(b)
    ensures var (ps, qs) := (b.positions, Expire(b, now).0.positions);
      var lapsed := AmountWhere(b.requests, asset, LapsedAt(now));
      && Sum(qs, asset, Bucket.Available) == Sum(ps, asset, Bucket.Available) + lapsed
      && Sum(qs, asset, Bucket.Reserved) + lapsed == Sum(ps, asset, Bucket.Reserved)
      && Sum(qs, asset, Bucket.Deployed) == Sum(ps, asset, Bucket.Deployed)
  {
    var next := Expire(b, now).0;
    ExpireKeeps(b, now);
    OthersKeepMoney(b, DoExpire(now));
    assert Perform(b, DoExpire(now)) == Expire(b, now);
    hide *;
    ExpireBooked(b, now, asset);
    TotalKept(b, next, asset);
    TiedBuckets(b, asset);
    TiedBuckets(next, asset);
  }

  // Operations on one request.

  /** Request `i` and its reservation get a stage and a hold; nothing else about any request changes. */
  ghost predicate Sets(b: Books, next: Books, i: nat, stage: Stage, hold: Hold)
    requires i < |b.requests| && i < |b.reservations|
  {
    && next.requests == b.requests[i := b.requests[i].(stage := stage)]
    && next.reservations == b.reservations[i := b.reservations[i].(hold := hold)]
  }

  /** A release frees whatever is reserved and not open, and refuses everything else. */
  lemma ReleaseEnds(b: Books, i: nat)
    requires Inv(b) && i < |b.requests|
    ensures var (r, (next, reply)) := (b.requests[i], Release(b, b.requests[i].id));
      if r.stage == ChannelOpen || r.stage == Stage.Released || r.stage == Settled then next == b && reply == Failure(WrongStage)
      else reply == Success(1) && Sets(b, next, i, Stage.Released, Hold.Released)
           && Shifts(b.positions, next.positions, r.asset, RELEASE, r.amount)
  {
    FindsPair(b, i);
    assert Agrees(b.requests[i], b.reservations[i]);
    if Releasable(b.requests[i].stage) {
      ReleaseKeeps(b, i);
      MoveConserves(b.positions, b.requests[i].asset, RELEASE, b.requests[i].amount);
    }
    hide Inv, Moved;
  }

  /** A settlement frees exactly what is deployed for an open channel. */
  lemma SettleEnds(b: Books, i: nat)
    requires Inv(b) && i < |b.requests|
    ensures var (r, (next, reply)) := (b.requests[i], Settle(b, b.requests[i].id));
      if r.stage != ChannelOpen then next == b && reply == Failure(WrongStage)
      else reply == Success(1) && Sets(b, next, i, Settled, Hold.Released)
           && Shifts(b.positions, next.positions, r.asset, SETTLE, r.amount)
  {
    FindsPair(b, i);
    if b.requests[i].stage == ChannelOpen {
      SettleKeeps(b, i);
      MoveConserves(b.positions, b.requests[i].asset, SETTLE, b.requests[i].amount);
    }
    hide Inv, Moved;
  }

  /** A handoff that may be committed deploys a request that opens, takes back an open one that fails, and
      moves nothing otherwise. */
  lemma HandoffEnds(b: Books, i: nat, outcome: Outcome)
    requires Inv(b) && i < |b.requests| && MayCommit(b.requests[i].stage, outcome)
    ensures var (r, (next, reply)) := (b.requests[i], Handoff(b, b.requests[i].id, outcome));
      && reply == Success(1) && Sets(b, next, i, outcome, if outcome == ChannelOpen then Hold.Deployed else Hold.Reserved)
      && (if outcome == ChannelOpen != r.stage then Shifts(b.positions, next.positions, r.asset, DEPLOY, r.amount)
          else if r.stage == ChannelOpen != outcome then Shifts(b.positions, next.positions, r.asset, UNDEPLOY, r.amount)
          else next.positions == b.positions)
  {
    var (r, h) := (b.requests[i], b.reservations[i]);
    FindsPair(b, i);
    assert Agrees(r, h) && Pair(r, h);
    BookedAtLeast(b, i);
    MoveConserves(b.positions, r.asset, DEPLOY, r.amount);
    MoveConserves(b.positions, r.asset, UNDEPLOY, r.amount);
    hide Inv, Moved, Shifts;
  }

  /** The positions hold what a request has booked. */
  lemma BookedAtLeast(b: Books, i: nat)
    requires Inv(b) && i < |b.requests|
    ensures var h := b.reservations[i];
      && (h.hold == Hold.Reserved ==> h.amount <= Sum(b.positions, h.asset, Bucket.Reserved))
      && (h.hold == Hold.Deployed ==> h.amount <= Sum(b.positions, h.asset, Bucket.Deployed))
  {
    var h := b.reservations[i];
    TiedBuckets(b, h.asset);
    BookedUpdate(b.reservations, i, h, h.asset, Bucket.Reserved);
    BookedUpdate(b.reservations, i, h, h.asset, Bucket.Deployed);
  }

  /** An ordinary request is stored exactly when it asks for something that is promised and held; a signed
      one is always stored. What it asks for leaves what is available for the reserve. */
  lemma CreateEnds(b: Books, id: string, asset: string, amount: nat, fee: nat, at: int, signed: bool)
    requires Inv(b) && MayCreate(b, id, asset, amount, signed)
    ensures var (next, reply) := Create(b, id, asset, amount, fee, at, signed);
      && (reply.Success? <==> 0 < amount <= Sum(b.positions, asset, Bucket.Available) && (signed || amount <= AvailableLiquidity(b, asset)))
      && (reply.Failure? ==> next == b)
      && (reply.Success? ==>
            && next.requests == b.requests + [Request(id, asset, amount, at, Requested)]
            && next.reservations == b.reservations + [Reservation(id, asset, amount, Hold.Reserved)]
            && Shifts(b.positions, next.positions, asset, RESERVE, amount))
  {
    ReservingConserves(b.positions, asset, amount, fee);
    if Sum(b.positions, asset, Bucket.Available) == 0 { NothingReserved(b.positions, asset, amount, fee); }
    hide Inv, Reserving, AvailableLiquidity;
  }

  // The supply side.

  /** A withdrawal takes exactly what it asks for out of one position, which closes when nothing is left
      in it; it succeeds exactly when that much is available there. */
  lemma WithdrawEnds(b: Books, id: string, amount: nat)
    requires Inv(b)
    ensures var (i, (next, reply)) := (PositionIndex(b.positions, id), Withdraw(b, id, amount));
      && (reply.Success? <==> i < |b.positions| && amount <= b.positions[i].available)
      && (reply.Failure? ==> next == b)
      && (reply.Success? ==>
            var (p, q) := (b.positions[i], next.positions[i]);
            && next == b.(positions := b.positions[i := q])
            && q.available + amount == p.available && q.supplied + amount == p.supplied
            && q == p.(available := q.available, supplied := q.supplied, status := q.status)
            && (q.status == Closed <==> q.supplied == 0 || p.status == Closed))
  {
    var i := PositionIndex(b.positions, id);
    if i < |b.positions| { assert SoundPosition(b.positions[i]); }
    hide Inv;
  }

  /** A claim succeeds exactly up to what was earned and not yet claimed. */
  lemma ClaimEnds(b: Books, id: string, amount: nat)
    requires Inv(b)
    ensures var (i, (next, reply)) := (PositionIndex(b.positions, id), ClaimFee(b, id, amount));
      && (reply.Success? <==> i < |b.positions| && b.positions[i].feesClaimed + amount <= b.positions[i].feesEarned)
      && (reply.Failure? ==> next == b)
      && (reply.Success? ==>
            next == b.(positions := b.positions[i := b.positions[i].(feesClaimed := b.positions[i].feesClaimed + amount)]))
  {
    var i := PositionIndex(b.positions, id);
    if i < |b.positions| { assert SoundPosition(b.positions[i]); }
    hide Inv;
  }

  /** What the vault summary promises after a live cell was applied is what the positions hold exactly when
      the cell's total is what they supply. */
  lemma PromiseIsKeptIff(b: Books, live: LiveVault)
    requires live.deployed + live.reserved <= live.total <= U64_MAX && live.deployed + live.reserved <= Supplied(b.positions, live.asset)
    ensures var next := SyncLive(b, live).0;
      AvailableLiquidity(next, live.asset) == Sum(next.positions, live.asset, Bucket.Available)
      <==> live.total == Supplied(b.positions, live.asset)
  {
    SyncedAvailable(b.positions, live);
  }

  /** A deposit of nothing is refused; any other is a new position, all of it available. */
  lemma DepositEnds(b: Books, id: string, asset: string, amount: nat)
    ensures Deposit(b, id, asset, amount)
      == if amount > 0 then (b.(positions := b.positions + [Position(id, asset, amount, amount, 0, 0, 0, 0, Active)]), Success(1))
         else (b, Failure(ZeroAmount))
  {}

  // What the passes reply.

  predicate SeenFailed(r: Request, seen: Sighting) {
    || ((r.stage == FundingSubmitted || r.stage == PendingFiberChannel) && !seen.usable
        && (seen.failed || seen.negotiationTimedOut || seen.fundingTimedOut))
    || (r.stage == FundingRequired && seen.builderTimedOut)
  }

  ghost function MovedIn(sight: Request -> Sighting): Request -> bool {
    r => SeenSettled(r, sight(r)) || SeenLost(r, sight(r)) || SeenOpened(r, sight(r)) || SeenFailed(r, sight(r))
  }

  ghost function HowMany(requests: seq<Request>, chosen: Request -> bool): nat {
    if requests == [] then 0
    else HowMany(requests[..|requests| - 1], chosen) + if chosen(requests[|requests| - 1]) then 1 else 0
  }

  lemma {:induction false} WatchedCount(requests: seq<Request>, sight: Request -> Sighting)
    ensures |WatchedItems(requests, WatchJudge(sight))| == HowMany(requests, MovedIn(sight))
  {
    if requests != [] { WatchedCount(requests[..|requests| - 1], sight); }
  }

  lemma {:induction false} ExpiredCount(requests: seq<Request>, now: int)
    ensures |Changed(requests, ExpiryJudge(now), Stage.Released)| == HowMany(requests, LapsedAt(now))
  {
    if requests != [] { ExpiredCount(requests[..|requests| - 1], now); }
  }

  /** The passes succeed and reply how many requests they moved. */
  lemma PassesCount(b: Books, sight: Request -> Sighting, now: int)
    requires Inv(b)
    ensures Watch(b, sight).1 == Success(HowMany(b.requests, MovedIn(sight)))
    ensures Expire(b, now).1 == Success(HowMany(b.requests, LapsedAt(now)))
  {
    WatchKeeps(b, sight);
    ExpireKeeps(b, now);
    WatchedCount(b.requests, sight);
    ExpiredCount(b.requests, now);
    hide Inv, HowMany, FollowedAll, FreedAll, WatchedItems, Changed;
  }
}
