/** Money in total over whole runs: what is supplied, earned and claimed across all positions. */
module LedgerTotals {
  import opened Accounting
  import opened AccountingLaws
  import opened Ledger
  import opened LedgerTieOut
  import opened LiveSync
  import opened Wrappers

  /** A position's money, apart from how its supply is spread over the buckets. */
  predicate SameMoney(p: Position, q: Position) {
    && q.asset == p.asset && q.status == p.status
    && q.supplied == p.supplied && q.feesEarned == p.feesEarned && q.feesClaimed == p.feesClaimed
  }

  ghost predicate SameMoneyAll(ps: seq<Position>, qs: seq<Position>) {
    |qs| == |ps| && forall i :: 0 <= i < |ps| ==> SameMoney(ps[i], qs[i])
  }

  function TotalSupplied(ps: seq<Position>): nat {
    if ps == [] then 0 else TotalSupplied(ps[..|ps| - 1]) + ps[|ps| - 1].supplied
  }

  function TotalClaimed(ps: seq<Position>): nat {
    if ps == [] then 0 else TotalClaimed(ps[..|ps| - 1]) + ps[|ps| - 1].feesClaimed
  }

  lemma {:induction false} SameTotals(ps: seq<Position>, qs: seq<Position>)
    requires SameMoneyAll(ps, qs)
    ensures TotalSupplied(qs) == TotalSupplied(ps) && Earned(qs) == Earned(ps) && TotalClaimed(qs) == TotalClaimed(ps)
  {
    if ps != [] {
      var n := |ps| - 1;
      assert SameMoney(ps[n], qs[n]);
      SameTotals(ps[..n], qs[..n]);
    }
  }

  lemma {:induction false} TotalsUpdate(ps: seq<Position>, i: nat, p: Position)
    requires i < |ps|
    ensures TotalSupplied(ps[i := p]) == TotalSupplied(ps) - ps[i].supplied + p.supplied
    ensures Earned(ps[i := p]) == Earned(ps) - ps[i].feesEarned + p.feesEarned
    ensures TotalClaimed(ps[i := p]) == TotalClaimed(ps) - ps[i].feesClaimed + p.feesClaimed
    ensures ps[i].supplied <= TotalSupplied(ps)
  {
    var last := |ps| - 1;
    if i == last {
      assert ps[i := p][..last] == ps[..last];
    } else {
      TotalsUpdate(ps[..last], i, p);
      assert ps[i := p][..last] == ps[..last][i := p];
    }
  }

  // Steps that only move money between buckets.

  lemma RelocatedKeepsMoney(b: Books, asset: string, amount: nat, move: Move)
    requires move.from != move.to
    ensures SameMoneyAll(b.positions, Relocated(b, asset, amount, move).positions)
  {
    MoveConserves(b.positions, asset, move, amount);
  }

  lemma ReconciledKeepsMoney(b: Books, updated: Request)
    ensures SameMoneyAll(b.positions, Reconciled(b, updated).positions)
  {
    hide Relocated;
    RelocatedKeepsMoney(b, updated.asset, updated.amount, DEPLOY);
    RelocatedKeepsMoney(b, updated.asset, updated.amount, UNDEPLOY);
  }

  lemma FreedKeepsMoney(b: Books, request: Request, move: Move, fault: Fault)
    requires move.from != move.to
    ensures SameMoneyAll(b.positions, Freed(b, request, move, fault).0.positions)
  {
    MoveConserves(b.positions, request.asset, move, request.amount);
  }

  lemma FollowedKeepsMoney(b: Books, item: Request)
    ensures SameMoneyAll(b.positions, Followed(b, item).positions)
  {
    hide Relocated, Reconciled;
    RelocatedKeepsMoney(b, item.asset, item.amount, SETTLE);
    ReconciledKeepsMoney(b, item);
  }

  lemma SameMoneyJoins(ps: seq<Position>, qs: seq<Position>, rs: seq<Position>)
    requires SameMoneyAll(ps, qs) && SameMoneyAll(qs, rs)
    ensures SameMoneyAll(ps, rs)
  {
    forall i | 0 <= i < |ps| ensures SameMoney(ps[i], rs[i]) { assert SameMoney(ps[i], qs[i]) && SameMoney(qs[i], rs[i]); }
  }

  lemma {:induction false} FollowedAllKeepsMoney(b: Books, items: seq<Request>)
    ensures SameMoneyAll(b.positions, FollowedAll(b, items).positions)
    decreases items
  {
    if items != [] {
      FollowedKeepsMoney(b, items[0]);
      FollowedAllKeepsMoney(Followed(b, items[0]), items[1..]);
      SameMoneyJoins(b.positions, Followed(b, items[0]).positions, FollowedAll(b, items).positions);
    }
  }

  lemma {:induction false} FreedAllKeepsMoney(b: Books, items: seq<Request>)
    ensures SameMoneyAll(b.positions, FreedAll(b, items).0.positions)
    decreases items
  {
    if items != [] {
      var (next, reply) := Freed(b, items[0], RELEASE, ReserveMissing);
      FreedKeepsMoney(b, items[0], RELEASE, ReserveMissing);
      if reply.Success? {
        FreedAllKeepsMoney(next, items[1..]);
        SameMoneyJoins(b.positions, next.positions, FreedAll(next, items[1..]).0.positions);
      }
    }
  }

  lemma SyncKeepsMoney(ps: seq<Position>, live: LiveVault)
    ensures SameMoneyAll(ps, Synced(ps, live))
  {
    forall i | 0 <= i < |ps| ensures SameMoney(ps[i], Synced(ps, live)[i]) { SyncedKeeps(ps, live, i); }
  }

  predicate MovesMoney(step: Step) {
    step.DoDeposit? || step.DoCreate? || step.DoWithdraw? || step.DoClaimFee?
  }

  /** Handoffs, releases, settlements, passes and live cells leave every position's money alone. */
  lemma OthersKeepMoney(b: Books, step: Step)
    requires !MovesMoney(step)
    ensures SameMoneyAll(b.positions, Perform(b, step).0.positions)
  {
    hide Reconciled, Freed, FollowedAll, FreedAll, Synced;
    match step
    case DoHandoff(id, outcome) =>
      var i := RequestIndex(b.requests, id);
      if i < |b.requests| { ReconciledKeepsMoney(WithStage(b, i, outcome), b.requests[i].(stage := outcome)); }
    case DoRelease(id) =>
      var i := RequestIndex(b.requests, id);
      if i < |b.requests| { FreedKeepsMoney(WithStage(b, i, Stage.Released), b.requests[i], RELEASE, ReserveMissing); }
    case DoSettle(id) =>
      var i := RequestIndex(b.requests, id);
      if i < |b.requests| { FreedKeepsMoney(WithStage(b, i, Settled), b.requests[i], SETTLE, DeploymentMissing); }
    case DoWatch(sight) =>
      var judge := WatchJudge(sight);
      FollowedAllKeepsMoney(b.(requests := Judged(b.requests, judge)), WatchedItems(b.requests, judge));
    case DoExpire(now) =>
      var judge := ExpiryJudge(now);
      FreedAllKeepsMoney(b.(requests := Judged(b.requests, judge)), Changed(b.requests, judge, Stage.Released));
    case DoSync(live) => SyncKeepsMoney(b.positions, live);
    case _ =>
  }

  // Steps that bring money in or out.

  datatype Money = Money(deposited: nat, withdrawn: nat, fees: nat, claimed: nat)

  /** What a step's reply confirms to its caller. */
  function Receipt(b: Books, step: Step): Money {
    if Perform(b, step).1.Failure? then Money(0, 0, 0, 0)
    else match step
      case DoDeposit(_, _, amount) => Money(amount, 0, 0, 0)
      case DoWithdraw(_, amount) => Money(0, amount, 0, 0)
      case DoCreate(_, _, _, leaseFee, _, _) => Money(0, 0, leaseFee, 0)
      case DoClaimFee(_, amount) => Money(0, 0, 0, amount)
      case _ => Money(0, 0, 0, 0)
  }

  /** The positions' totals change by what the reply confirms. */
  ghost predicate Accounts(ps: seq<Position>, qs: seq<Position>, m: Money) {
    && TotalSupplied(qs) + m.withdrawn == TotalSupplied(ps) + m.deposited
    && Earned(qs) == Earned(ps) + m.fees && TotalClaimed(qs) == TotalClaimed(ps) + m.claimed
  }

  lemma DepositAccounts(b: Books, id: string, asset: string, amount: nat)
    ensures Accounts(b.positions, Deposit(b, id, asset, amount).0.positions, Receipt(b, DoDeposit(id, asset, amount)))
  {
    if amount > 0 {
      assert Deposit(b, id, asset, amount).0.positions[..|b.positions|] == b.positions;
    }
  }

  lemma WithdrawAccounts(b: Books, id: string, amount: nat)
    requires Inv(b)
    ensures Accounts(b.positions, Withdraw(b, id, amount).0.positions, Receipt(b, DoWithdraw(id, amount)))
  {
    hide TotalSupplied, Earned, TotalClaimed;
    var i := PositionIndex(b.positions, id);
    if i < |b.positions| && amount <= b.positions[i].available {
      assert SoundPosition(b.positions[i]);
      TotalsUpdate(b.positions, i, Withdrawn(b.positions[i], amount));
      hide Inv;
    }
  }

  lemma ClaimAccounts(b: Books, id: string, amount: nat)
    ensures Accounts(b.positions, ClaimFee(b, id, amount).0.positions, Receipt(b, DoClaimFee(id, amount)))
  {
    hide TotalSupplied, Earned, TotalClaimed;
    var i := PositionIndex(b.positions, id);
    if i < |b.positions| {
      TotalsUpdate(b.positions, i, b.positions[i].(feesClaimed := b.positions[i].feesClaimed + amount));
    }
  }

  /** Reserving earns fees and nothing else. */
  lemma {:induction false} ReservingTotals(ps: seq<Position>, asset: string, amount: nat, fee: nat, i: nat)
    requires i <= |ps|
    ensures TotalSupplied(Reserving(ps, asset, amount, fee)[..i]) == TotalSupplied(ps[..i])
    ensures TotalClaimed(Reserving(ps, asset, amount, fee)[..i]) == TotalClaimed(ps[..i])
  {
    if i > 0 {
      var after := Reserving(ps, asset, amount, fee);
      ReservingTotals(ps, asset, amount, fee, i - 1);
      assert after[..i][..i - 1] == after[..i - 1] && ps[..i][..i - 1] == ps[..i - 1];
    }
  }

  /** With nothing available nothing is reserved. */
  lemma NothingReserved(ps: seq<Position>, asset: string, amount: nat, fee: nat)
    requires Sum(ps, asset, Bucket.Available) == 0
    ensures Reserving(ps, asset, amount, fee) == ps
  {
    forall i | 0 <= i < |ps| ensures ReservedAt(ps, asset, amount, fee, i) == ps[i] {
      SumPrefix(ps, asset, Bucket.Available, i);
      SumMonotone(ps, asset, Bucket.Available, i + 1);
    }
  }

  lemma CreateAccounts(b: Books, id: string, asset: string, amount: nat, fee: nat, expiresAt: int, signed: bool)
    requires MayCreate(b, id, asset, amount, signed)
    ensures Accounts(b.positions, Create(b, id, asset, amount, fee, expiresAt, signed).0.positions,
                     Receipt(b, DoCreate(id, asset, amount, fee, expiresAt, signed)))
  {
    if 0 < amount && (signed || amount <= AvailableLiquidity(b, asset)) {
      if amount <= Sum(b.positions, asset, Bucket.Available) {
        var ps, after := b.positions, Reserving(b.positions, asset, amount, fee);
        FeeIsExact(ps, asset, amount, fee);
        ReservingTotals(ps, asset, amount, fee, |ps|);
        assert ps[..|ps|] == ps && after[..|ps|] == after;
      } else {
        NothingReserved(b.positions, asset, amount, fee);
      }
    }
  }

  lemma StepAccounts(b: Books, step: Step)
    requires Inv(b) && Admissible(b, step)
    ensures Accounts(b.positions, Perform(b, step).0.positions, Receipt(b, step))
  {
    hide Inv, Accounts, Receipt, Deposit, Create, Withdraw, ClaimFee;
    match step
    case DoDeposit(id, asset, amount) => DepositAccounts(b, id, asset, amount);
    case DoCreate(id, asset, amount, fee, expiresAt, signed) => CreateAccounts(b, id, asset, amount, fee, expiresAt, signed);
    case DoWithdraw(id, amount) => WithdrawAccounts(b, id, amount);
    case DoClaimFee(id, amount) => ClaimAccounts(b, id, amount);
    case _ => OthersAccount(b, step);
  }

  lemma OthersAccount(b: Books, step: Step)
    requires !MovesMoney(step)
    ensures Accounts(b.positions, Perform(b, step).0.positions, Receipt(b, step))
  {
    OthersKeepMoney(b, step);
    SameTotals(b.positions, Perform(b, step).0.positions);
    hide Perform;
  }

  /** Everything a run's replies confirmed. */
  function Receipts(b: Books, steps: seq<Step>): Money {
    if steps == [] then Money(0, 0, 0, 0)
    else
      var before := steps[..|steps| - 1];
      var (m, r) := (Receipts(b, before), Receipt(Run(b, before), steps[|steps| - 1]));
      Money(m.deposited + r.deposited, m.withdrawn + r.withdrawn, m.fees + r.fees, m.claimed + r.claimed)
  }

  /** Over every admissible run the supply is what was deposited less what was withdrawn, the earned fees
      are exactly the lease fees of the requests that were created, and the claimed fees what was paid out. */
  lemma {:induction false} RunAccounts(steps: seq<Step>)
    requires AdmissibleRun(OPENING, steps)
    ensures var (ps, m) := (Run(OPENING, steps).positions, Receipts(OPENING, steps));
      TotalSupplied(ps) + m.withdrawn == m.deposited && Earned(ps) == m.fees && TotalClaimed(ps) == m.claimed
  {
    if steps != [] {
      var before := steps[..|steps| - 1];
      RunAccounts(before);
      RunTiesOut(before);
      StepAccounts(Run(OPENING, before), steps[|steps| - 1]);
      hide Inv, Perform, Receipt, Admissible;
    }
  }
}
