/** The ledger ties out: in every reachable state the active positions hold, bucket by bucket,
    exactly what the reservations book, and each request's stage fixes its reservation's status. */
module LedgerTieOut {
  import opened Accounting
  import opened AccountingLaws
  import opened Ledger
  import opened LiveSync
  import opened Wrappers

  function BucketOf(hold: Hold): Bucket {
    match hold
    case Reserved => Bucket.Reserved
    case Deployed => Bucket.Deployed
    case Released | Failed => Bucket.Available
  }

  function Contribution(r: Reservation, asset: string, b: Bucket): nat {
    if r.asset == asset && BucketOf(r.hold) == b then r.amount else 0
  }

  /** What the reservations of an asset book in a bucket. */
  function Booked(rs: seq<Reservation>, asset: string, b: Bucket): nat {
    if rs == [] then 0 else Booked(rs[..|rs| - 1], asset, b) + Contribution(rs[|rs| - 1], asset, b)
  }

  ghost predicate Tie(ps: seq<Position>, rs: seq<Reservation>) {
    forall asset, b: Bucket :: b != Bucket.Available ==> Sum(ps, asset, b) == Booked(rs, asset, b)
  }

  /** The reservation status a request's stage stands for. */
  function HoldOf(stage: Stage): Hold {
    match stage
    case ChannelOpen => Hold.Deployed
    case Expired | Released | Settled => Hold.Released
    case _ => Hold.Reserved
  }

  ghost predicate SoundPosition(p: Position) {
    && Balanced(p)
    && (p.status == Closed ==> p.supplied == 0)
    && p.feesClaimed <= p.feesEarned
  }

  /** Requests and reservations are created together and correspond one to one. */
  ghost predicate Paired(b: Books) {
    && |b.reservations| == |b.requests|
    && (forall i :: 0 <= i < |b.requests| ==> Pair(b.requests[i], b.reservations[i]))
    && (forall i, j :: 0 <= i < j < |b.requests| ==> b.requests[i].id != b.requests[j].id)
  }

  ghost predicate Pair(request: Request, r: Reservation) {
    r.requestId == request.id && r.asset == request.asset && r.amount == request.amount > 0
  }

  /** What holds even in the middle of a pass. */
  ghost predicate Core(b: Books) {
    && Paired(b)
    && Tie(b.positions, b.reservations)
    && (forall i :: 0 <= i < |b.positions| ==> SoundPosition(b.positions[i]))
  }

  ghost predicate Agrees(request: Request, r: Reservation) {
    request.stage != Expired && r.hold == HoldOf(request.stage)
  }

  ghost predicate Inv(b: Books) {
    Core(b) && forall i :: 0 <= i < |b.requests| ==> Agrees(b.requests[i], b.reservations[i])
  }

  // Sums under an update of one element.

  lemma {:induction false} BookedUpdate(rs: seq<Reservation>, i: nat, r: Reservation, asset: string, b: Bucket)
    requires i < |rs|
    ensures Booked(rs[i := r], asset, b) == Booked(rs, asset, b) - Contribution(rs[i], asset, b) + Contribution(r, asset, b)
    ensures Contribution(rs[i], asset, b) <= Booked(rs, asset, b)
  {
    var last := |rs| - 1;
    if i == last {
      assert rs[i := r][..last] == rs[..last];
    } else {
      BookedUpdate(rs[..last], i, r, asset, b);
      assert rs[i := r][..last] == rs[..last][i := r];
    }
  }

  lemma {:induction false} SumUpdate(ps: seq<Position>, i: nat, p: Position, asset: string, b: Bucket)
    requires i < |ps|
    requires (if Eligible(p, asset) then Amount(p, b) else 0) == (if Eligible(ps[i], asset) then Amount(ps[i], b) else 0)
    ensures Sum(ps[i := p], asset, b) == Sum(ps, asset, b)
  {
    var last := |ps| - 1;
    if i == last {
      assert ps[i := p][..last] == ps[..last];
    } else {
      SumUpdate(ps[..last], i, p, asset, b);
      assert ps[i := p][..last] == ps[..last][i := p];
    }
  }

  /** The core of every operation: changing what a reservation books and moving its amount between
      the corresponding buckets keeps the tie, and the positions always hold enough for the move. */
  lemma Rebook(ps: seq<Position>, rs: seq<Reservation>, i: nat, hold: Hold)
    requires Tie(ps, rs) && i < |rs|
    requires BucketOf(rs[i].hold) != Bucket.Available && BucketOf(hold) != BucketOf(rs[i].hold)
    ensures var move := Move(BucketOf(rs[i].hold), BucketOf(hold));
      && rs[i].amount <= Sum(ps, rs[i].asset, move.from)
      && Tie(Moved(ps, rs[i].asset, move, rs[i].amount), rs[i := rs[i].(hold := hold)])
  {
    var r, s := rs[i], rs[i].(hold := hold);
    var move := Move(BucketOf(r.hold), BucketOf(hold));
    BookedUpdate(rs, i, s, r.asset, move.from);
    MoveConserves(ps, r.asset, move, r.amount);
    forall asset, b: Bucket | b != Bucket.Available
      ensures Sum(Moved(ps, r.asset, move, r.amount), asset, b) == Booked(rs[i := s], asset, b)
    {
      BookedUpdate(rs, i, s, asset, b);
    }
  }

  /** A status change inside one bucket moves nothing. */
  lemma Rename(ps: seq<Position>, rs: seq<Reservation>, i: nat, hold: Hold)
    requires Tie(ps, rs) && i < |rs| && BucketOf(hold) == BucketOf(rs[i].hold)
    ensures Tie(ps, rs[i := rs[i].(hold := hold)])
  {
    forall asset, b: Bucket | b != Bucket.Available
      ensures Sum(ps, asset, b) == Booked(rs[i := rs[i].(hold := hold)], asset, b)
    {
      BookedUpdate(rs, i, rs[i].(hold := hold), asset, b);
    }
  }

  lemma MovedStaysSound(ps: seq<Position>, asset: string, move: Move, amount: nat)
    requires move.from != move.to && forall i :: 0 <= i < |ps| ==> SoundPosition(ps[i])
    ensures var moved := Moved(ps, asset, move, amount);
      forall i :: 0 <= i < |moved| ==> SoundPosition(moved[i])
  {
    MoveConserves(ps, asset, move, amount);
    var moved := Moved(ps, asset, move, amount);
    forall i | 0 <= i < |moved| ensures SoundPosition(moved[i]) {
      assert SameButBuckets(ps[i], moved[i]);
    }
  }

  // One request's follow-up.

  lemma FindsPair(b: Books, i: nat)
    requires Paired(b) && i < |b.requests|
    ensures RequestIndex(b.requests, b.requests[i].id) == i
    ensures ReservationIndex(b.reservations, b.requests[i].id) == i
  {
    var id := b.requests[i].id;
    var j, k := RequestIndex(b.requests, id), ReservationIndex(b.reservations, id);
    assert j < |b.requests| && k < |b.reservations| by {
      assert b.requests[i].id == id && Pair(b.requests[i], b.reservations[i]);
    }
    assert Pair(b.requests[k], b.reservations[k]);
  }

  /** The reservation statuses from which the follow-up of a new stage is right. */
  predicate Due(stage: Stage, hold: Hold) {
    match stage
    case FundingRequired | FundingSubmitted | PendingFiberChannel | Released => hold == Hold.Reserved
    case ChannelOpen | Failed => hold == Hold.Reserved || hold == Hold.Deployed
    case Settled => hold == Hold.Deployed
    case Requested | Expired => false
  }

  /** A follow-up on request `i` touches its reservation only, and no move failed. */
  ghost predicate Follows(b: Books, next: Books, i: nat)
    requires i < |b.reservations| && i < |b.requests|
  {
    && next.requests == b.requests && next.warnings == b.warnings && next.live == b.live
    && |next.reservations| == |b.reservations|
    && (forall k :: 0 <= k < |b.reservations| && k != i ==> next.reservations[k] == b.reservations[k])
    && Core(next) && Agrees(b.requests[i], next.reservations[i])
  }

  /** Rebooking one reservation, with or without the matching move, is a follow-up. */
  lemma Rebooks(b: Books, next: Books, i: nat, hold: Hold)
    requires Core(b) && i < |b.requests| && hold == HoldOf(b.requests[i].stage) && b.requests[i].stage != Expired
    requires var r := b.reservations[i];
      && (r.hold == Hold.Reserved || r.hold == Hold.Deployed)
      && next == WithHold(b, i, hold).(positions :=
           if BucketOf(hold) == BucketOf(r.hold) then b.positions
           else Moved(b.positions, r.asset, Move(BucketOf(r.hold), BucketOf(hold)), r.amount))
    ensures Follows(b, next, i)
    ensures var r := b.reservations[i];
      BucketOf(hold) != BucketOf(r.hold) ==> r.amount <= Sum(b.positions, r.asset, BucketOf(r.hold))
  {
    var r := b.reservations[i];
    if BucketOf(hold) == BucketOf(r.hold) {
      Rename(b.positions, b.reservations, i, hold);
    } else {
      Rebook(b.positions, b.reservations, i, hold);
      MovedStaysSound(b.positions, r.asset, Move(BucketOf(r.hold), BucketOf(hold)), r.amount);
    }
    assert forall k :: 0 <= k < |b.requests| ==> Pair(b.requests[k], b.reservations[k]);
  }

  lemma FollowedKeeps(b: Books, i: nat)
    requires Core(b) && i < |b.requests| && Due(b.requests[i].stage, b.reservations[i].hold)
    requires b.requests[i].stage != Stage.Released
    ensures Follows(b, Followed(b, b.requests[i]), i)
  {
    FindsPair(b, i);
    assert Pair(b.requests[i], b.reservations[i]);
    Rebooks(b, Followed(b, b.requests[i]).(warnings := b.warnings), i, HoldOf(b.requests[i].stage));
  }

  lemma FreedKeeps(b: Books, i: nat, move: Move, fault: Fault)
    requires Core(b) && i < |b.requests| && Due(b.requests[i].stage, b.reservations[i].hold)
    requires (b.requests[i].stage == Stage.Released && move == RELEASE) || (b.requests[i].stage == Settled && move == SETTLE)
    ensures Follows(b, Freed(b, b.requests[i], move, fault).0, i) && Freed(b, b.requests[i], move, fault).1.Success?
  {
    FindsPair(b, i);
    assert Pair(b.requests[i], b.reservations[i]);
    Rebooks(b, WithHold(b, i, Hold.Released).(positions := Moved(b.positions, b.requests[i].asset, move, b.requests[i].amount)),
      i, Hold.Released);
  }

  // Passes over all requests.

  ghost predicate DistinctIds(requests: seq<Request>) {
    forall i, j :: 0 <= i < j < |requests| ==> requests[i].id != requests[j].id
  }

  ghost predicate MovesInto(request: Request, judge: Judge, stages: set<Stage>) {
    judge(request) != request.stage && judge(request) in stages
  }

  /** `items` are exactly the judged requests that moved into one of `stages`, each once. */
  ghost predicate Lists(requests: seq<Request>, judge: Judge, stages: set<Stage>, items: seq<Request>) {
    && DistinctIds(items)
    && (forall i :: 0 <= i < |requests| && MovesInto(requests[i], judge, stages) ==> Judged(requests, judge)[i] in items)
    && (forall x <- items :: x.stage in stages && ComesFrom(requests, judge, stages, x))
  }

  ghost predicate ComesFrom(requests: seq<Request>, judge: Judge, stages: set<Stage>, x: Request) {
    exists i :: 0 <= i < |requests| && MovesInto(requests[i], judge, stages) && x == Judged(requests, judge)[i]
  }

  lemma {:induction false} ChangedLists(requests: seq<Request>, judge: Judge, stage: Stage)
    requires DistinctIds(requests)
    ensures Lists(requests, judge, {stage}, Changed(requests, judge, stage))
  {
    if requests != [] {
      var n := |requests| - 1;
      var rest, items := requests[..n], Changed(requests, judge, stage);
      ChangedLists(rest, judge, stage);
      forall x <- items ensures x.stage == stage && ComesFrom(requests, judge, {stage}, x) {
        if x in Changed(rest, judge, stage) {
          var i :| 0 <= i < n && MovesInto(rest[i], judge, {stage}) && x == Judged(rest, judge)[i];
          assert x == Judged(requests, judge)[i];
        } else {
          assert x == Judged(requests, judge)[n];
        }
      }
      forall x <- Changed(rest, judge, stage) ensures x.id != requests[n].id {
        var i :| 0 <= i < n && MovesInto(rest[i], judge, {stage}) && x == Judged(rest, judge)[i];
      }
      forall i | 0 <= i <= n && MovesInto(requests[i], judge, {stage}) ensures Judged(requests, judge)[i] in items {
        if i < n { assert rest[i] == requests[i] && Judged(rest, judge)[i] in Changed(rest, judge, stage); }
      }
    }
  }

  lemma ListsJoin(requests: seq<Request>, judge: Judge, s: set<Stage>, t: set<Stage>, xs: seq<Request>, ys: seq<Request>)
    requires DistinctIds(requests) && s !! t && Lists(requests, judge, s, xs) && Lists(requests, judge, t, ys)
    ensures Lists(requests, judge, s + t, xs + ys)
  {
    forall x <- xs + ys ensures x.stage in s + t && ComesFrom(requests, judge, s + t, x) {
      var i :| 0 <= i < |requests| && MovesInto(requests[i], judge, s + t) && x == Judged(requests, judge)[i];
    }
    forall x, y | x in xs && y in ys ensures x.id != y.id {
      var i :| 0 <= i < |requests| && MovesInto(requests[i], judge, s) && x == Judged(requests, judge)[i];
      var j :| 0 <= j < |requests| && MovesInto(requests[j], judge, t) && y == Judged(requests, judge)[j];
    }
  }

  /** The state between a pass over the requests and the follow-ups on the changed ones. */
  ghost predicate Midway(b: Books, items: seq<Request>) {
    && Core(b) && DistinctIds(items)
    && (forall x <- items :: x in b.requests)
    && (forall i :: 0 <= i < |b.requests| ==>
          if b.requests[i] in items then Due(b.requests[i].stage, b.reservations[i].hold)
          else Agrees(b.requests[i], b.reservations[i]))
  }

  lemma PassStarts(b: Books, judge: Judge, stages: set<Stage>, items: seq<Request>)
    requires Inv(b) && Lists(b.requests, judge, stages, items)
    requires forall i :: 0 <= i < |b.requests| && judge(b.requests[i]) != b.requests[i].stage ==>
      judge(b.requests[i]) in stages && Due(judge(b.requests[i]), HoldOf(b.requests[i].stage))
    ensures Midway(b.(requests := Judged(b.requests, judge)), items)
  {
    var judged := Judged(b.requests, judge);
    forall i | 0 <= i < |judged| ensures Pair(judged[i], b.reservations[i]) {
      assert Pair(b.requests[i], b.reservations[i]);
    }
    forall i | 0 <= i < |judged|
      ensures if judged[i] in items then Due(judged[i].stage, b.reservations[i].hold) else Agrees(judged[i], b.reservations[i])
    {
      assert Agrees(b.requests[i], b.reservations[i]);
      if judged[i] in items {
        var j :| 0 <= j < |judged| && MovesInto(b.requests[j], judge, stages) && judged[i] == judged[j];
      }
    }
  }

  lemma MidwayStep(b: Books, next: Books, items: seq<Request>, i: nat)
    requires items != [] && Midway(b, items) && i < |b.requests| && b.requests[i] == items[0] && Follows(b, next, i)
    ensures Midway(next, items[1..])
  {
    forall k | 0 <= k < |b.requests|
      ensures if b.requests[k] in items[1..] then Due(b.requests[k].stage, next.reservations[k].hold)
              else Agrees(b.requests[k], next.reservations[k])
    {
      if k != i { assert b.requests[k] in items[1..] <==> b.requests[k] in items; }
    }
  }

  lemma {:induction false} FollowedAllKeeps(b: Books, items: seq<Request>)
    requires Midway(b, items) && forall x <- items :: x.stage != Stage.Released
    ensures Inv(FollowedAll(b, items)) && FollowedAll(b, items).warnings == b.warnings
    decreases items
  {
    if items != [] {
      assert items[0] in items;
      var i :| 0 <= i < |b.requests| && b.requests[i] == items[0];
      FollowedKeeps(b, i);
      MidwayStep(b, Followed(b, items[0]), items, i);
      FollowedAllKeeps(Followed(b, items[0]), items[1..]);
    }
  }

  lemma {:induction false} FreedAllKeeps(b: Books, items: seq<Request>)
    requires Midway(b, items) && forall x <- items :: x.stage == Stage.Released
    ensures Inv(FreedAll(b, items).0) && FreedAll(b, items).0.warnings == b.warnings && FreedAll(b, items).1.Success?
    decreases items
  {
    if items != [] {
      assert items[0] in items;
      var i :| 0 <= i < |b.requests| && b.requests[i] == items[0];
      FreedKeeps(b, i, RELEASE, ReserveMissing);
      var next := Freed(b, items[0], RELEASE, ReserveMissing).0;
      MidwayStep(b, next, items, i);
      FreedAllKeeps(next, items[1..]);
    }
  }

  const WATCHED := {ChannelOpen, Settled, Stage.Failed}

  lemma WatchedLists(requests: seq<Request>, judge: Judge)
    requires DistinctIds(requests)
    ensures Lists(requests, judge, WATCHED, WatchedItems(requests, judge))
  {
    var xs, ys, zs := Changed(requests, judge, ChannelOpen), Changed(requests, judge, Settled), Changed(requests, judge, Stage.Failed);
    ChangedLists(requests, judge, ChannelOpen);
    ChangedLists(requests, judge, Settled);
    ChangedLists(requests, judge, Stage.Failed);
    ListsJoin(requests, judge, {ChannelOpen}, {Settled}, xs, ys);
    ListsJoin(requests, judge, {ChannelOpen} + {Settled}, {Stage.Failed}, xs + ys, zs);
    assert {ChannelOpen} + {Settled} + {Stage.Failed} == WATCHED;
  }

  /** The watcher only makes moves the follow-ups know how to book. */
  lemma WatchIsDue(stage: Stage, seen: Sighting)
    requires stage != Expired && WatchedStage(stage, seen) != stage
    ensures WatchedStage(stage, seen) in WATCHED && Due(WatchedStage(stage, seen), HoldOf(stage))
  {}

  lemma WatchStarts(b: Books, sight: Request -> Sighting)
    requires Inv(b)
    ensures var judge := WatchJudge(sight);
      Midway(b.(requests := Judged(b.requests, judge)), WatchedItems(b.requests, judge))
  {
    var judge := WatchJudge(sight);
    WatchedLists(b.requests, judge);
    forall i | 0 <= i < |b.requests| && judge(b.requests[i]) != b.requests[i].stage
      ensures judge(b.requests[i]) in WATCHED && Due(judge(b.requests[i]), HoldOf(b.requests[i].stage))
    {
      assert Agrees(b.requests[i], b.reservations[i]);
      WatchIsDue(b.requests[i].stage, sight(b.requests[i]));
    }
    PassStarts(b, judge, WATCHED, WatchedItems(b.requests, judge));
  }

  lemma WatchKeeps(b: Books, sight: Request -> Sighting)
    requires Inv(b)
    ensures Inv(Watch(b, sight).0) && Watch(b, sight).0.warnings == b.warnings && Watch(b, sight).1.Success?
  {
    var judge := WatchJudge(sight);
    WatchStarts(b, sight);
    WatchedLists(b.requests, judge);
    FollowedAllKeeps(b.(requests := Judged(b.requests, judge)), WatchedItems(b.requests, judge));
  }

  lemma ExpireKeeps(b: Books, now: int)
    requires Inv(b)
    ensures Inv(Expire(b, now).0) && Expire(b, now).0.warnings == b.warnings && Expire(b, now).1.Success?
  {
    var judge := ExpiryJudge(now);
    ChangedLists(b.requests, judge, Stage.Released);
    PassStarts(b, judge, {Stage.Released}, Changed(b.requests, judge, Stage.Released));
    FreedAllKeeps(b.(requests := Judged(b.requests, judge)), Changed(b.requests, judge, Stage.Released));
  }

  // Operations on one request.

  lemma StageSet(b: Books, i: nat, stage: Stage)
    requires Inv(b) && i < |b.requests|
    ensures Core(WithStage(b, i, stage))
    ensures b.reservations[i].hold == HoldOf(b.requests[i].stage) && b.requests[i].stage != Expired
  {
    assert Agrees(b.requests[i], b.reservations[i]);
    forall k | 0 <= k < |b.requests| ensures Pair(WithStage(b, i, stage).requests[k], b.reservations[k]) {
      assert Pair(b.requests[k], b.reservations[k]);
    }
  }

  lemma StageBooked(b: Books, i: nat, stage: Stage, next: Books)
    requires Inv(b) && i < |b.requests| && Follows(WithStage(b, i, stage), next, i)
    ensures Inv(next)
  {
    forall k | 0 <= k < |next.requests| ensures Agrees(next.requests[k], next.reservations[k]) {
      assert Agrees(b.requests[k], b.reservations[k]);
    }
  }

  /** When a handoff may be committed: the request is not finished, and an open channel is not put
      back to funding. */
  predicate MayCommit(stage: Stage, outcome: Outcome) {
    && stage != Stage.Released && stage != Settled
    && (stage == ChannelOpen ==> outcome == ChannelOpen || outcome == Stage.Failed)
  }

  lemma HandoffKeeps(b: Books, i: nat, outcome: Outcome)
    requires Inv(b) && i < |b.requests| && MayCommit(b.requests[i].stage, outcome)
    ensures Inv(Handoff(b, b.requests[i].id, outcome).0)
    ensures Handoff(b, b.requests[i].id, outcome).0.warnings == b.warnings
  {
    FindsPair(b, i);
    StageSet(b, i, outcome);
    FollowedKeeps(WithStage(b, i, outcome), i);
    StageBooked(b, i, outcome, Handoff(b, b.requests[i].id, outcome).0);
  }

  /** A handoff committed after release or settlement deploys what nobody reserved. */
  lemma LateOpenBreaks(ps: seq<Position>, rs: seq<Reservation>, i: nat)
    requires Tie(ps, rs) && i < |rs| && rs[i].hold == Hold.Released && rs[i].amount > 0
    ensures !Tie(Moved(ps, rs[i].asset, DEPLOY, rs[i].amount), rs[i := rs[i].(hold := Hold.Deployed)])
  {
    var r := rs[i];
    var moved := Moved(ps, r.asset, DEPLOY, r.amount);
    MoveConserves(ps, r.asset, DEPLOY, r.amount);
    BookedUpdate(rs, i, r.(hold := Hold.Deployed), r.asset, Bucket.Deployed);
    BookedUpdate(rs, i, r.(hold := Hold.Deployed), r.asset, Bucket.Reserved);
    assert Sum(moved, r.asset, Bucket.Deployed) != Booked(rs[i := r.(hold := Hold.Deployed)], r.asset, Bucket.Deployed)
        || Sum(moved, r.asset, Bucket.Reserved) != Booked(rs[i := r.(hold := Hold.Deployed)], r.asset, Bucket.Reserved);
  }

  lemma HandoffBreaks(b: Books, i: nat, outcome: Outcome)
    requires Inv(b) && i < |b.requests| && !MayCommit(b.requests[i].stage, outcome)
    ensures !Inv(Handoff(b, b.requests[i].id, outcome).0)
  {
    FindsPair(b, i);
    assert Agrees(b.requests[i], b.reservations[i]) && Pair(b.requests[i], b.reservations[i]);
    var next := Handoff(b, b.requests[i].id, outcome).0;
    if outcome == ChannelOpen {
      LateOpenBreaks(b.positions, b.reservations, i);
    } else {
      assert !Agrees(next.requests[i], next.reservations[i]);
    }
  }

  lemma MarkIff(b: Books, i: nat, stage: Marking)
    requires Inv(b) && i < |b.requests|
    ensures Inv(Mark(b, b.requests[i].id, stage).0) <==> MayCommit(b.requests[i].stage, stage)
  {
    FindsPair(b, i);
    StageSet(b, i, stage);
    var next := Mark(b, b.requests[i].id, stage).0;
    if MayCommit(b.requests[i].stage, stage) {
      StageBooked(b, i, stage, next);
    } else {
      assert !Agrees(next.requests[i], next.reservations[i]);
    }
  }

  lemma ReleaseKeeps(b: Books, i: nat)
    requires Inv(b) && i < |b.requests| && Releasable(b.requests[i].stage)
    ensures Inv(Release(b, b.requests[i].id).0) && Release(b, b.requests[i].id).1.Success?
    ensures Release(b, b.requests[i].id).0.warnings == b.warnings
  {
    FindsPair(b, i);
    StageSet(b, i, Stage.Released);
    FreedKeeps(WithStage(b, i, Stage.Released), i, RELEASE, ReserveMissing);
    StageBooked(b, i, Stage.Released, Release(b, b.requests[i].id).0);
  }

  lemma SettleKeeps(b: Books, i: nat)
    requires Inv(b) && i < |b.requests| && b.requests[i].stage == ChannelOpen
    ensures Inv(Settle(b, b.requests[i].id).0) && Settle(b, b.requests[i].id).1.Success?
    ensures Settle(b, b.requests[i].id).0.warnings == b.warnings
  {
    FindsPair(b, i);
    StageSet(b, i, Settled);
    FreedKeeps(WithStage(b, i, Settled), i, SETTLE, DeploymentMissing);
    StageBooked(b, i, Settled, Settle(b, b.requests[i].id).0);
  }

  // Supply side.

  /** A deposit adds to what is available of its asset and to nothing else. */
  lemma DepositKeeps(b: Books, id: string, asset: string, amount: nat)
    requires Inv(b)
    ensures var next := Deposit(b, id, asset, amount).0;
      && Inv(next) && next.reservations == b.reservations && next.requests == b.requests
      && forall a, bucket: Bucket :: Sum(next.positions, a, bucket)
           == Sum(b.positions, a, bucket) + if a == asset && bucket == Bucket.Available then amount else 0
  {
    if amount > 0 {
      var next := Deposit(b, id, asset, amount).0;
      assert next.positions[..|b.positions|] == b.positions;
    }
  }

  lemma WithdrawKeeps(b: Books, id: string, amount: nat)
    requires Inv(b)
    ensures Inv(Withdraw(b, id, amount).0)
  {
    var (next, reply) := Withdraw(b, id, amount);
    var i := PositionIndex(b.positions, id);
    if reply.Success? {
      assert SoundPosition(b.positions[i]);
      forall asset, bucket: Bucket | bucket != Bucket.Available
        ensures Sum(next.positions, asset, bucket) == Booked(next.reservations, asset, bucket)
      {
        SumUpdate(b.positions, i, next.positions[i], asset, bucket);
      }
    }
  }

  lemma ClaimFeeKeeps(b: Books, id: string, amount: nat)
    requires Inv(b)
    ensures Inv(ClaimFee(b, id, amount).0)
  {
    var (next, reply) := ClaimFee(b, id, amount);
    var i := PositionIndex(b.positions, id);
    if reply.Success? {
      assert SoundPosition(b.positions[i]);
      forall asset, bucket: Bucket | bucket != Bucket.Available
        ensures Sum(next.positions, asset, bucket) == Booked(next.reservations, asset, bucket)
      {
        SumUpdate(b.positions, i, next.positions[i], asset, bucket);
      }
    }
  }

  lemma ReservingStaysSound(ps: seq<Position>, asset: string, amount: nat, fee: nat)
    requires forall i :: 0 <= i < |ps| ==> SoundPosition(ps[i])
    ensures forall i :: 0 <= i < |ps| ==> SoundPosition(Reserving(ps, asset, amount, fee)[i])
  {
    ReservingConserves(ps, asset, amount, fee);
    MovedStaysSound(ps, asset, RESERVE, amount);
    forall i | 0 <= i < |ps| ensures SoundPosition(Reserving(ps, asset, amount, fee)[i]) {
      assert SoundPosition(Moved(ps, asset, RESERVE, amount)[i]);
    }
  }

  ghost predicate NewId(requests: seq<Request>, id: string) {
    forall i :: 0 <= i < |requests| ==> requests[i].id != id
  }

  /** When a create keeps the tie: it is refused outright, or it reserves everything under a new id,
      or, the live cell promising more than the positions hold, it finds nothing at all to reserve. */
  ghost predicate MayCreate(b: Books, id: string, asset: string, amount: nat, signed: bool) {
    || amount == 0
    || (!signed && (AvailableLiquidity(b, asset) < amount || Sum(b.positions, asset, Bucket.Available) == 0))
    || (amount <= Sum(b.positions, asset, Bucket.Available) && NewId(b.requests, id))
  }

  lemma CreateTie(b: Books, id: string, asset: string, amount: nat, fee: nat, expiresAt: int, signed: bool)
    requires Inv(b) && 0 < amount && (signed || amount <= AvailableLiquidity(b, asset))
    ensures var next := Create(b, id, asset, amount, fee, expiresAt, signed).0;
      Tie(next.positions, next.reservations)
      <==> amount <= Sum(b.positions, asset, Bucket.Available) || (!signed && Sum(b.positions, asset, Bucket.Available) == 0)
  {
    var next := Create(b, id, asset, amount, fee, expiresAt, signed).0;
    var held := Sum(b.positions, asset, Bucket.Available);
    ReservingConserves(b.positions, asset, amount, fee);
    if signed || amount <= held { assert next.reservations[..|b.reservations|] == b.reservations; }
    if held < amount && (signed || 0 < held) {
      assert Sum(next.positions, asset, Bucket.Reserved) != Booked(next.reservations, asset, Bucket.Reserved);
    }
  }

  /** A request and its reservation appended together stay paired exactly when the id is new. */
  lemma AppendsPair(b: Books, next: Books, r: Request)
    requires Paired(b) && (forall i :: 0 <= i < |b.requests| ==> Agrees(b.requests[i], b.reservations[i]))
    requires r.stage == Requested && r.amount > 0 && next.requests == b.requests + [r]
    requires next.reservations == b.reservations + [Reservation(r.id, r.asset, r.amount, Hold.Reserved)]
    ensures Paired(next) <==> NewId(b.requests, r.id)
    ensures forall i :: 0 <= i < |next.requests| ==> Agrees(next.requests[i], next.reservations[i])
  {
    var n := |b.requests|;
    forall i | 0 <= i <= n ensures Pair(next.requests[i], next.reservations[i]) && Agrees(next.requests[i], next.reservations[i]) {
      if i < n { assert Pair(b.requests[i], b.reservations[i]) && Agrees(b.requests[i], b.reservations[i]); }
    }
    assert next.requests[n] == r && forall i :: 0 <= i < n ==> next.requests[i] == b.requests[i];
  }

  lemma CreateIff(b: Books, id: string, asset: string, amount: nat, fee: nat, expiresAt: int, signed: bool)
    requires Inv(b)
    ensures Inv(Create(b, id, asset, amount, fee, expiresAt, signed).0) <==> MayCreate(b, id, asset, amount, signed)
  {
    if 0 < amount && (signed || amount <= AvailableLiquidity(b, asset)) {
      var next := Create(b, id, asset, amount, fee, expiresAt, signed).0;
      CreateTie(b, id, asset, amount, fee, expiresAt, signed);
      ReservingStaysSound(b.positions, asset, amount, fee);
      if |next.requests| > |b.requests| { AppendsPair(b, next, Request(id, asset, amount, expiresAt, Requested)); }
    }
    hide Tie, Sum, Paired, Agrees;
  }

  /** When the live totals keep the tie: after the projection the positions hold what is booked. */
  predicate MaySync(b: Books, live: LiveVault) {
    && DeployedBy(b.positions, live) == Booked(b.reservations, live.asset, Bucket.Deployed)
    && ReservedBy(b.positions, live) == Booked(b.reservations, live.asset, Bucket.Reserved)
  }

  lemma SyncIff(b: Books, live: LiveVault)
    requires Inv(b)
    ensures Inv(SyncLive(b, live).0) <==> MaySync(b, live)
  {
    var ps, synced := b.positions, Synced(b.positions, live);
    SyncFills(ps, live);
    forall i | 0 <= i < |ps| ensures SoundPosition(synced[i]) {
      assert SoundPosition(ps[i]);
    }
    assert ps[..|ps|] == ps && synced[..|ps|] == synced;
    forall asset, bucket: Bucket | asset != live.asset ensures Sum(synced, asset, bucket) == Sum(ps, asset, bucket) {
      SyncSparesOthers(ps, live, asset, bucket, |ps|);
    }
    if MaySync(b, live) {
      forall asset, bucket: Bucket | bucket != Bucket.Available
        ensures Sum(synced, asset, bucket) == Booked(b.reservations, asset, bucket)
      {
        assert Sum(ps, asset, bucket) == Booked(b.reservations, asset, bucket);
      }
    }
  }

  // Whole runs.

  /** The exact condition under which a step keeps the books tied out. Only a handoff committed on a
      finished or open request, a create that finds only part of what it needs (or, settling a signed intent,
      nothing) or repeats an id, and a diverging live cell break them. */
  ghost predicate Admissible(b: Books, step: Step) {
    match step
    case DoHandoff(id, outcome) =>
      var i := RequestIndex(b.requests, id);
      i == |b.requests| || MayCommit(b.requests[i].stage, outcome)
    case DoMark(id, marking) =>
      var i := RequestIndex(b.requests, id);
      i == |b.requests| || MayCommit(b.requests[i].stage, marking)
    case DoCreate(id, asset, amount, _, _, signed) => MayCreate(b, id, asset, amount, signed)
    case DoSync(live) => MaySync(b, live)
    case _ => true
  }

  lemma StepIff(b: Books, step: Step)
    requires Inv(b)
    ensures Inv(Perform(b, step).0) <==> Admissible(b, step)
  {
    hide Inv, MayCreate, MayCommit, MaySync, Watch, Expire, Deposit, Create, Withdraw, ClaimFee, SyncLive;
    match step
    case DoDeposit(id, asset, amount) => DepositKeeps(b, id, asset, amount);
    case DoCreate(id, asset, amount, fee, at, signed) => CreateIff(b, id, asset, amount, fee, at, signed);
    case DoHandoff(id, outcome) =>
      var i := RequestIndex(b.requests, id);
      if i < |b.requests| {
        if MayCommit(b.requests[i].stage, outcome) { HandoffKeeps(b, i, outcome); } else { HandoffBreaks(b, i, outcome); }
      }
    case DoMark(id, marking) =>
      var i := RequestIndex(b.requests, id);
      if i < |b.requests| { MarkIff(b, i, marking); }
    case DoWatch(sight) => WatchKeeps(b, sight);
    case DoRelease(id) =>
      var i := RequestIndex(b.requests, id);
      if i < |b.requests| && Releasable(b.requests[i].stage) { ReleaseKeeps(b, i); }
    case DoSettle(id) =>
      var i := RequestIndex(b.requests, id);
      if i < |b.requests| && b.requests[i].stage == ChannelOpen { SettleKeeps(b, i); }
    case DoExpire(now) => ExpireKeeps(b, now);
    case DoWithdraw(id, amount) => WithdrawKeeps(b, id, amount);
    case DoClaimFee(id, amount) => ClaimFeeKeeps(b, id, amount);
    case DoSync(live) => SyncIff(b, live);
  }

  /** A reply that reports a bucket move that failed half-way through freeing a request. */
  predicate ReportsMissing(reply: Reply) {
    reply == Failure(ReserveMissing) || reply == Failure(DeploymentMissing)
  }

  /** Inside tied-out books no inner move ever fails: nothing is logged and no release, settlement
      or expiry reports missing liquidity. */
  lemma InnerMovesFit(b: Books, step: Step)
    requires Inv(b) && Admissible(b, step)
    ensures Perform(b, step).0.warnings == b.warnings && !ReportsMissing(Perform(b, step).1)
  {
    hide Watch, Expire, Reconciled, Freed, Inv;
    match step
    case DoHandoff(id, outcome) =>
      var i := RequestIndex(b.requests, id);
      if i < |b.requests| { HandoffKeeps(b, i, outcome); }
    case DoWatch(sight) => WatchKeeps(b, sight);
    case DoRelease(id) =>
      var i := RequestIndex(b.requests, id);
      if i < |b.requests| && Releasable(b.requests[i].stage) { ReleaseKeeps(b, i); }
    case DoSettle(id) =>
      var i := RequestIndex(b.requests, id);
      if i < |b.requests| && b.requests[i].stage == ChannelOpen { SettleKeeps(b, i); }
    case DoExpire(now) => ExpireKeeps(b, now);
    case DoDeposit(id, asset, amount) => assert Perform(b, step) == Deposit(b, id, asset, amount);
    case DoCreate(id, asset, amount, fee, at, signed) => assert Perform(b, step) == Create(b, id, asset, amount, fee, at, signed);
    case DoMark(id, marking) => assert Perform(b, step) == Mark(b, id, marking);
    case DoWithdraw(id, amount) => assert Perform(b, step) == Withdraw(b, id, amount);
    case DoClaimFee(id, amount) => assert Perform(b, step) == ClaimFee(b, id, amount);
    case DoSync(live) => assert Perform(b, step) == SyncLive(b, live);
  }

  function Run(b: Books, steps: seq<Step>): Books {
    if steps == [] then b else Perform(Run(b, steps[..|steps| - 1]), steps[|steps| - 1]).0
  }

  ghost predicate AdmissibleRun(b: Books, steps: seq<Step>) {
    steps == [] || (AdmissibleRun(b, steps[..|steps| - 1]) && Admissible(Run(b, steps[..|steps| - 1]), steps[|steps| - 1]))
  }

  const OPENING := Books([], [], [], None, 0)

  /** From empty books, every run of admissible steps ends tied out and never failed an inner move. */
  lemma {:induction false} RunTiesOut(steps: seq<Step>)
    requires AdmissibleRun(OPENING, steps)
    ensures Inv(Run(OPENING, steps)) && Run(OPENING, steps).warnings == 0
  {
    if steps == [] {
      assert Tie([], []);
    } else {
      var before := steps[..|steps| - 1];
      RunTiesOut(before);
      StepIff(Run(OPENING, before), steps[|steps| - 1]);
      InnerMovesFit(Run(OPENING, before), steps[|steps| - 1]);
    }
  }

  /** The channel opens after its request was released: from any tied-out books the late handoff books
      a deployment that no position holds. */
  lemma LateHandoff(b: Books, i: nat)
    requires Inv(b) && i < |b.requests| && Releasable(b.requests[i].stage)
    ensures var (released, r) := (Release(b, b.requests[i].id).0, b.requests[i]);
      var late := Handoff(released, r.id, ChannelOpen).0;
      && Inv(released) && !Inv(late) && r.amount > 0
      && Booked(late.reservations, r.asset, Bucket.Deployed) == Booked(released.reservations, r.asset, Bucket.Deployed) + r.amount
      && Sum(late.positions, r.asset, Bucket.Deployed) + Sum(late.positions, r.asset, Bucket.Reserved) + r.amount
         == Booked(late.reservations, r.asset, Bucket.Deployed) + Booked(late.reservations, r.asset, Bucket.Reserved)
  {
    ReleaseKeeps(b, i);
    FindsPair(b, i);
    var released := Release(b, b.requests[i].id).0;
    HandoffBreaks(released, i, ChannelOpen);
    LateSums(released, i);
  }

  lemma LateSums(b: Books, i: nat)
    requires Inv(b) && i < |b.requests| && b.requests[i].stage == Stage.Released
    ensures var (late, r) := (Handoff(b, b.requests[i].id, ChannelOpen).0, b.requests[i]);
      && r.amount > 0
      && Booked(late.reservations, r.asset, Bucket.Deployed) == Booked(b.reservations, r.asset, Bucket.Deployed) + r.amount
      && Sum(late.positions, r.asset, Bucket.Deployed) + Sum(late.positions, r.asset, Bucket.Reserved) + r.amount
         == Booked(late.reservations, r.asset, Bucket.Deployed) + Booked(late.reservations, r.asset, Bucket.Reserved)
  {
    var r := b.reservations[i];
    FindsPair(b, i);
    assert Pair(b.requests[i], r) && Agrees(b.requests[i], r);
    LateIs(b, i);
    LateBooks(b.positions, b.reservations, i);
    hide Inv, Handoff, Moved;
  }

  lemma LateIs(b: Books, i: nat)
    requires Paired(b) && i < |b.requests| && b.reservations[i].hold == Hold.Released
    ensures var (late, r) := (Handoff(b, b.requests[i].id, ChannelOpen).0, b.reservations[i]);
      && late.positions == Moved(b.positions, r.asset, DEPLOY, r.amount)
      && late.reservations == b.reservations[i := r.(hold := Hold.Deployed)]
  {
    FindsPair(b, i);
    assert Pair(b.requests[i], b.reservations[i]);
    hide Paired;
  }

  lemma LateBooks(ps: seq<Position>, rs: seq<Reservation>, i: nat)
    requires Tie(ps, rs) && i < |rs| && rs[i].hold == Hold.Released
    ensures var (r, moved) := (rs[i], Moved(ps, rs[i].asset, DEPLOY, rs[i].amount));
      var late := rs[i := r.(hold := Hold.Deployed)];
      && Booked(late, r.asset, Bucket.Deployed) == Booked(rs, r.asset, Bucket.Deployed) + r.amount
      && Sum(moved, r.asset, Bucket.Deployed) + Sum(moved, r.asset, Bucket.Reserved) + r.amount
         == Booked(late, r.asset, Bucket.Deployed) + Booked(late, r.asset, Bucket.Reserved)
  {
    var r := rs[i];
    MoveConserves(ps, r.asset, DEPLOY, r.amount);
    BookedUpdate(rs, i, r.(hold := Hold.Deployed), r.asset, Bucket.Deployed);
    BookedUpdate(rs, i, r.(hold := Hold.Deployed), r.asset, Bucket.Reserved);
  }
}
