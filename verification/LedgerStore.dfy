/** The store whose fields the ledger operations update in place. Each method does to the fields
    what the specification function in `Ledger` does to the books. */
module LedgerStore {
  import opened Accounting
  import opened Ledger
  import opened LiveSync
  import opened Wrappers

  lemma {:induction false} FollowedInTurn(b: Books, xs: seq<Request>, ys: seq<Request>)
    ensures FollowedAll(b, xs + ys) == FollowedAll(FollowedAll(b, xs), ys)
    decreases xs
  {
    if xs == [] {
      assert xs + ys == ys;
    } else {
      assert (xs + ys)[1..] == xs[1..] + ys;
      FollowedInTurn(Followed(b, xs[0]), xs[1..], ys);
    }
  }

  lemma ChangedStep(requests: seq<Request>, judge: Judge, stage: Stage, i: nat)
    requires i < |requests|
    ensures Changed(requests[..i + 1], judge, stage)
      == Changed(requests[..i], judge, stage)
       + if judge(requests[i]) == stage != requests[i].stage then [requests[i].(stage := stage)] else []
  {
    assert requests[..i + 1][..i] == requests[..i];
  }

  lemma {:induction false} ChangedStage(requests: seq<Request>, judge: Judge, stage: Stage)
    ensures forall i :: 0 <= i < |Changed(requests, judge, stage)| ==> Changed(requests, judge, stage)[i].stage == stage
  {
    if requests != [] { ChangedStage(requests[..|requests| - 1], judge, stage); }
  }

  lemma WatchMovesInto(stage: Stage, seen: Sighting)
    ensures WatchedStage(stage, seen) in {stage, ChannelOpen, Settled, Stage.Failed}
  {}

  class Store {
    var positions: array<Position>
    var reservations: seq<Reservation>
    var requests: seq<Request>
    var live: Option<LiveVault>
    var warnings: nat

    function Snapshot(): Books
      reads this, positions
    {
      Books(positions[..], reservations, requests, live, warnings)
    }

    constructor ()
      ensures Snapshot() == Books([], [], [], None, 0) && fresh(positions)
    {
      positions := new Position[0];
      reservations, requests, live, warnings := [], [], None, 0;
    }

    method FindRequest(id: string) returns (i: nat)
      ensures i == RequestIndex(requests, id)
    {
      i := 0;
      while i < |requests| && requests[i].id != id
        invariant i <= |requests|
        invariant forall k :: 0 <= k < i ==> requests[k].id != id
      {
        i := i + 1;
      }
    }

    method FindReservation(id: string) returns (i: nat)
      ensures i == ReservationIndex(reservations, id)
    {
      i := 0;
      while i < |reservations| && reservations[i].requestId != id
        invariant i <= |reservations|
        invariant forall k :: 0 <= k < i ==> reservations[k].requestId != id
      {
        i := i + 1;
      }
    }

    method FindPosition(id: string) returns (i: nat)
      ensures i == PositionIndex(positions[..], id)
    {
      i := 0;
      while i < positions.Length && positions[i].id != id
        invariant i <= positions.Length
        invariant forall k :: 0 <= k < i ==> positions[k].id != id
      {
        i := i + 1;
      }
    }

    method SetHold(i: nat, hold: Hold)
      requires i < |reservations|
      modifies this`reservations
      ensures Snapshot() == WithHold(old(Snapshot()), i, hold)
    {
      reservations := reservations[i := reservations[i].(hold := hold)];
    }

    method SetStage(i: nat, stage: Stage)
      requires i < |requests|
      modifies this`requests
      ensures Snapshot() == WithStage(old(Snapshot()), i, stage)
    {
      requests := requests[i := requests[i].(stage := stage)];
    }

    /** A position move whose failure is logged and otherwise ignored. */
    method Relocate(asset: string, amount: nat, move: Move)
      requires move.from != move.to
      modifies this`warnings, positions
      ensures Snapshot() == Relocated(old(Snapshot()), asset, amount, move)
    {
      var ok := MovePositions(positions, asset, amount, move);
      if !ok { warnings := warnings + 1; }
    }

    method MarkReservation(id: string, hold: Hold)
      modifies this`reservations
      ensures Snapshot() == Marked(old(Snapshot()), id, hold)
    {
      var i := FindReservation(id);
      if i < |reservations| { SetHold(i, hold); }
    }

    method UpdateReservation(updated: Request)
      modifies this`reservations, this`warnings, positions
      ensures Snapshot() == Reconciled(old(Snapshot()), updated)
    {
      var i := FindReservation(updated.id);
      if i == |reservations| { return; }
      var hold := reservations[i].hold;
      match updated.stage {
        case FundingRequired | FundingSubmitted | PendingFiberChannel =>
          if hold == Hold.Failed { SetHold(i, Hold.Reserved); }
        case ChannelOpen =>
          if hold != Hold.Deployed { Relocate(updated.asset, updated.amount, DEPLOY); }
          SetHold(i, Hold.Deployed);
        case Failed =>
          if hold == Hold.Deployed {
            Relocate(updated.asset, updated.amount, UNDEPLOY);
            SetHold(i, Hold.Reserved);
          } else if hold == Hold.Released {
            SetHold(i, Hold.Failed);
          }
        case Expired | Released | Settled =>
          SetHold(i, Hold.Released);
        case Requested =>
      }
    }

    method CommitHandoff(id: string, outcome: Outcome) returns (reply: Reply)
      modifies this`requests, this`reservations, this`warnings, positions
      ensures (Snapshot(), reply) == Handoff(old(Snapshot()), id, outcome)
    {
      var i := FindRequest(id);
      if i == |requests| { return Failure(NotFound); }
      SetStage(i, outcome);
      UpdateReservation(requests[i]);
      return Success(1);
    }

    method MarkStage(id: string, marking: Marking) returns (reply: Reply)
      modifies this`requests
      ensures (Snapshot(), reply) == Mark(old(Snapshot()), id, marking)
    {
      var i := FindRequest(id);
      if i == |requests| { return Failure(NotFound); }
      SetStage(i, marking);
      return Success(1);
    }

    method Free(request: Request, move: Move, fault: Fault) returns (reply: Reply)
      requires move.from != move.to
      modifies this`reservations, positions
      ensures (Snapshot(), reply) == Freed(old(Snapshot()), request, move, fault)
    {
      var ok := MovePositions(positions, request.asset, request.amount, move);
      if !ok { return Failure(fault); }
      MarkReservation(request.id, Hold.Released);
      return Success(1);
    }

    method ReleaseRequest(id: string) returns (reply: Reply)
      modifies this`requests, this`reservations, positions
      ensures (Snapshot(), reply) == Release(old(Snapshot()), id)
    {
      var i := FindRequest(id);
      if i == |requests| { return Failure(NotFound); }
      var request := requests[i];
      if !Releasable(request.stage) { return Failure(WrongStage); }
      SetStage(i, Stage.Released);
      reply := Free(request, RELEASE, ReserveMissing);
    }

    method SettleRequest(id: string) returns (reply: Reply)
      modifies this`requests, this`reservations, positions
      ensures (Snapshot(), reply) == Settle(old(Snapshot()), id)
    {
      var i := FindRequest(id);
      if i == |requests| { return Failure(NotFound); }
      var request := requests[i];
      if request.stage != ChannelOpen { return Failure(WrongStage); }
      SetStage(i, Settled);
      reply := Free(request, SETTLE, DeploymentMissing);
    }

    /** Marks the expired requests released and lists them. */
    method ExpireRequests(now: int) returns (expired: seq<Request>)
      modifies this`requests
      ensures requests == Judged(old(requests), ExpiryJudge(now))
      ensures expired == Changed(old(requests), ExpiryJudge(now), Stage.Released)
    {
      ghost var was := requests;
      expired := [];
      for i := 0 to |requests|
        invariant |requests| == |was|
        invariant forall k :: 0 <= k < i ==> requests[k] == Judged(was, ExpiryJudge(now))[k]
        invariant forall k :: i <= k < |was| ==> requests[k] == was[k]
        invariant expired == Changed(was[..i], ExpiryJudge(now), Stage.Released)
      {
        assert was[..i + 1][..i] == was[..i];
        if HasExpired(requests[i], now) {
          requests := requests[i := requests[i].(stage := Stage.Released)];
          expired := expired + [requests[i]];
        }
      }
      assert was[..|was|] == was;
    }

    method ReleaseExpired(now: int) returns (reply: Reply)
      modifies this`requests, this`reservations, positions
      ensures (Snapshot(), reply) == Expire(old(Snapshot()), now)
    {
      var expired := ExpireRequests(now);
      ghost var goal := FreedAll(Snapshot(), expired);
      for k := 0 to |expired|
        invariant FreedAll(Snapshot(), expired[k..]) == goal
      {
        assert expired[k..][1..] == expired[k + 1..];
        reply := Free(expired[k], RELEASE, ReserveMissing);
        if reply.Failure? { return; }
      }
      return Success(|expired|);
    }

    /** The follow-ups on the opened and on the failed requests. */
    method UpdateAll(items: seq<Request>)
      requires forall i :: 0 <= i < |items| ==> items[i].stage != Settled
      modifies this`reservations, this`warnings, positions
      ensures Snapshot() == FollowedAll(old(Snapshot()), items)
    {
      ghost var goal := FollowedAll(Snapshot(), items);
      for k := 0 to |items|
        invariant FollowedAll(Snapshot(), items[k..]) == goal
      {
        assert items[k..][1..] == items[k + 1..];
        UpdateReservation(items[k]);
      }
    }

    /** The follow-ups on the settled requests. */
    method SettleAll(items: seq<Request>)
      requires forall i :: 0 <= i < |items| ==> items[i].stage == Settled
      modifies this`reservations, this`warnings, positions
      ensures Snapshot() == FollowedAll(old(Snapshot()), items)
    {
      ghost var goal := FollowedAll(Snapshot(), items);
      for k := 0 to |items|
        invariant FollowedAll(Snapshot(), items[k..]) == goal
      {
        assert items[k..][1..] == items[k + 1..];
        Relocate(items[k].asset, items[k].amount, SETTLE);
        MarkReservation(items[k].id, Hold.Released);
      }
    }

    method SyncChannels(sight: Request -> Sighting) returns (reply: Reply)
      modifies this`requests, this`reservations, this`warnings, positions
      ensures (Snapshot(), reply) == Watch(old(Snapshot()), sight)
    {
      var active, settled, failed := JudgeRequests(sight);
      ghost var judged := Snapshot();
      ChangedStage(old(requests), WatchJudge(sight), ChannelOpen);
      ChangedStage(old(requests), WatchJudge(sight), Settled);
      ChangedStage(old(requests), WatchJudge(sight), Stage.Failed);
      UpdateAll(active);
      SettleAll(settled);
      assert Snapshot() == FollowedAll(judged, active + settled) by { FollowedInTurn(judged, active, settled); }
      UpdateAll(failed);
      assert Snapshot() == FollowedAll(judged, active + settled + failed) by { FollowedInTurn(judged, active + settled, failed); }
      reply := Success(|active| + |settled| + |failed|);
      assert WatchedItems(old(requests), WatchJudge(sight)) == active + settled + failed;
    }

    /** The watcher's first pass: new stages, and the three lists of changed requests. */
    method JudgeRequests(sight: Request -> Sighting) returns (active: seq<Request>, settled: seq<Request>, failed: seq<Request>)
      modifies this`requests
      ensures requests == Judged(old(requests), WatchJudge(sight))
      ensures active == Changed(old(requests), WatchJudge(sight), ChannelOpen)
      ensures settled == Changed(old(requests), WatchJudge(sight), Settled)
      ensures failed == Changed(old(requests), WatchJudge(sight), Stage.Failed)
    {
      ghost var was := requests;
      ghost var judge := WatchJudge(sight);
      active, settled, failed := [], [], [];
      assert forall stage :: Changed(was[..0], judge, stage) == [];
      hide WatchedStage, Changed;
      for i := 0 to |requests|
        invariant |requests| == |was|
        invariant forall k :: 0 <= k < i ==> requests[k] == Judged(was, judge)[k]
        invariant forall k :: i <= k < |was| ==> requests[k] == was[k]
        invariant active == Changed(was[..i], judge, ChannelOpen)
        invariant settled == Changed(was[..i], judge, Settled)
        invariant failed == Changed(was[..i], judge, Stage.Failed)
      {
        ChangedStep(was, judge, ChannelOpen, i);
        ChangedStep(was, judge, Settled, i);
        ChangedStep(was, judge, Stage.Failed, i);
        WatchMovesInto(requests[i].stage, sight(requests[i]));
        var stage := WatchedStage(requests[i].stage, sight(requests[i]));
        assert requests[i] == was[i] && judge(was[i]) == stage;
        if stage != requests[i].stage {
          requests := requests[i := requests[i].(stage := stage)];
          if stage == ChannelOpen {
            active := active + [requests[i]];
          } else if stage == Settled {
            settled := settled + [requests[i]];
          } else {
            failed := failed + [requests[i]];
          }
        }
      }
      assert was[..|was|] == was && judge == WatchJudge(sight);
    }

    method AddDeposit(id: string, asset: string, amount: nat) returns (reply: Reply)
      modifies this`positions
      ensures (Snapshot(), reply) == Deposit(old(Snapshot()), id, asset, amount)
      ensures reply.Success? ==> fresh(positions)
    {
      if amount == 0 { return Failure(ZeroAmount); }
      var p := Position(id, asset, amount, amount, 0, 0, 0, 0, Active);
      var n := positions.Length;
      var grown := new Position[n + 1](i requires 0 <= i <= n reads this, positions =>
        if i < positions.Length then positions[i] else p);
      assert grown[..] == positions[..] + [p];
      positions := grown;
      return Success(1);
    }

    method CreateRequest(id: string, asset: string, amount: nat, leaseFee: nat, expiresAt: int, signed: bool) returns (reply: Reply)
      requires amount <= U64_MAX && leaseFee <= U64_MAX
      modifies this`requests, this`reservations, this`warnings, positions
      ensures (Snapshot(), reply) == Create(old(Snapshot()), id, asset, amount, leaseFee, expiresAt, signed)
    {
      if amount == 0 { return Failure(ZeroAmount); }
      if !signed && AvailableLiquidity(Snapshot(), asset) < amount { return Failure(AlreadyReserved); }
      var ok := ReservePositionsWithFee(positions, asset, amount, leaseFee);
      if !ok {
        if !signed { return Failure(AlreadyReserved); }
        warnings := warnings + 1;
      }
      reservations := reservations + [Reservation(id, asset, amount, Hold.Reserved)];
      requests := requests + [Request(id, asset, amount, expiresAt, Requested)];
      return Success(1);
    }

    method SettleWithdrawal(positionId: string, amount: nat) returns (reply: Reply)
      modifies positions
      ensures (Snapshot(), reply) == Withdraw(old(Snapshot()), positionId, amount)
    {
      var i := FindPosition(positionId);
      if i == positions.Length { return Failure(NotFound); }
      if positions[i].available < amount { return Failure(OverAvailable); }
      positions[i] := Withdrawn(positions[i], amount);
      return Success(1);
    }

    method SettleFeeClaim(positionId: string, amount: nat) returns (reply: Reply)
      modifies positions
      ensures (Snapshot(), reply) == ClaimFee(old(Snapshot()), positionId, amount)
    {
      var i := FindPosition(positionId);
      if i == positions.Length { return Failure(NotFound); }
      var claimable := positions[i].feesEarned - Min(positions[i].feesEarned, positions[i].feesClaimed);
      if claimable < amount { return Failure(OverClaimable); }
      positions[i] := positions[i].(feesClaimed := positions[i].feesClaimed + amount);
      return Success(1);
    }

    method ApplyLive(vault: LiveVault) returns (changed: bool)
      modifies this`live, positions
      ensures Snapshot() == SyncLive(old(Snapshot()), vault).0
      ensures changed <==> Snapshot() != old(Snapshot())
    {
      changed := ApplyLiveVault(positions, live, vault);
      live := Some(vault);
    }
  }
}
