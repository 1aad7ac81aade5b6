/** Runs from empty books that reach each of the three ways to break them. */
module LedgerBreaks {
  import opened Accounting
  import opened Ledger
  import opened LedgerTieOut
  import opened LiveSync
  import opened Wrappers

  /** An admissible run leads to a step that breaks the books. */
  ghost predicate LeadsTo(steps: seq<Step>, last: Step) {
    && AdmissibleRun(OPENING, steps) && Inv(Run(OPENING, steps))
    && !Inv(Perform(Run(OPENING, steps), last).0)
  }

  lemma RunNext(b: Books, steps: seq<Step>, step: Step)
    ensures Run(b, steps + [step]) == Perform(Run(b, steps), step).0
    ensures AdmissibleRun(b, steps + [step]) <==> AdmissibleRun(b, steps) && Admissible(Run(b, steps), step)
  {
    assert (steps + [step])[..|steps|] == steps;
  }

  lemma Breaks(steps: seq<Step>, last: Step)
    requires AdmissibleRun(OPENING, steps) && !Admissible(Run(OPENING, steps), last)
    ensures LeadsTo(steps, last)
  {
    RunTiesOut(steps);
    StepIff(Run(OPENING, steps), last);
  }

  function Deposited(asset: string, amount: nat): Position {
    Position("p", asset, amount, amount, 0, 0, 0, 0, Active)
  }

  lemma AfterDeposit(asset: string, amount: nat)
    requires amount > 0
    ensures var steps := [DoDeposit("p", asset, amount)];
      Run(OPENING, steps) == Books([Deposited(asset, amount)], [], [], None, 0) && AdmissibleRun(OPENING, steps)
  {
    RunNext(OPENING, [], DoDeposit("p", asset, amount));
    assert [] + [DoDeposit("p", asset, amount)] == [DoDeposit("p", asset, amount)];
  }

  lemma SumOfOne(p: Position, asset: string, b: Bucket)
    ensures Sum([p], asset, b) == if Eligible(p, asset) then Amount(p, b) else 0
    ensures Supplied([p], asset) == if Eligible(p, asset) then p.supplied else 0
  {
    assert [p][..0] == [];
  }

  /** The vault cell holds a reservation this store never made. */
  lemma SyncDiverges(asset: string, amount: nat, live: LiveVault)
    requires 0 < amount && live.asset == asset && 0 < live.reserved && live.deployed == 0
    ensures LeadsTo([DoDeposit("p", asset, amount)], DoSync(live))
  {
    AfterDeposit(asset, amount);
    SumOfOne(Deposited(asset, amount), asset, Bucket.Available);
    assert !MaySync(Run(OPENING, [DoDeposit("p", asset, amount)]), live);
    Breaks([DoDeposit("p", asset, amount)], DoSync(live));
  }

  /** The vault cell holds more than the positions supply, and a create asks for more than they do. */
  lemma CreateHalfway(asset: string, amount: nat, live: LiveVault, id: string, ask: nat, fee: nat, expiresAt: int)
    requires 0 < amount < ask <= live.total && live.asset == asset && live.reserved == live.deployed == 0
    ensures LeadsTo([DoDeposit("p", asset, amount)] + [DoSync(live)], DoCreate(id, asset, ask, fee, expiresAt, false))
  {
    var before := Books([Deposited(asset, amount)], [], [], None, 0);
    var synced := before.(live := Some(live));
    AfterDeposit(asset, amount);
    SumOfOne(Deposited(asset, amount), asset, Bucket.Available);
    SyncOfOne(asset, amount, live);
    RunNext(OPENING, [DoDeposit("p", asset, amount)], DoSync(live));
    assert !MayCreate(synced, id, asset, ask, false);
    hide Perform, Synced;
    Breaks([DoDeposit("p", asset, amount)] + [DoSync(live)], DoCreate(id, asset, ask, fee, expiresAt, false));
  }

  lemma SyncOfOne(asset: string, amount: nat, live: LiveVault)
    requires live.asset == asset && live.reserved == live.deployed == 0
    ensures var before := Books([Deposited(asset, amount)], [], [], None, 0);
      SyncLive(before, live).0 == before.(live := Some(live)) && MaySync(before, live)
  {
    assert Synced([Deposited(asset, amount)], live)[0] == Deposited(asset, amount);
  }

  lemma AfterCreate(asset: string, amount: nat, id: string, fee: nat, expiresAt: int)
    requires 0 < amount
    ensures var steps := [DoDeposit("p", asset, amount)] + [DoCreate(id, asset, amount, fee, expiresAt, false)];
      Run(OPENING, steps).requests == [Request(id, asset, amount, expiresAt, Requested)] && AdmissibleRun(OPENING, steps)
  {
    var create := DoCreate(id, asset, amount, fee, expiresAt, false);
    AfterDeposit(asset, amount);
    SumOfOne(Deposited(asset, amount), asset, Bucket.Available);
    CreateReserves(Books([Deposited(asset, amount)], [], [], None, 0), create);
    hide Perform, Run, AdmissibleRun, Admissible;
    RunNext(OPENING, [DoDeposit("p", asset, amount)], create);
  }

  /** A channel opens after its request was released. */
  lemma HandoffTooLate(asset: string, amount: nat, id: string, fee: nat, expiresAt: int)
    requires 0 < amount
    ensures LeadsTo([DoDeposit("p", asset, amount)] + [DoCreate(id, asset, amount, fee, expiresAt, false)] + [DoRelease(id)],
                    DoHandoff(id, ChannelOpen))
  {
    var steps := [DoDeposit("p", asset, amount)] + [DoCreate(id, asset, amount, fee, expiresAt, false)];
    var created := Run(OPENING, steps);
    hide Perform, Run, AdmissibleRun, Release, MayCreate;
    AfterCreate(asset, amount, id, fee, expiresAt);
    RunNext(OPENING, steps, DoRelease(id));
    ReleaseIs(created, id);
    ReleasedHasStage(created, Request(id, asset, amount, expiresAt, Requested));
    Breaks(steps + [DoRelease(id)], DoHandoff(id, ChannelOpen));
  }

  lemma ReleaseIs(b: Books, id: string)
    ensures Perform(b, DoRelease(id)) == Release(b, id)
  {}

  lemma CreateReserves(b: Books, create: Step)
    requires create.DoCreate? && b.requests == [] && 0 < create.amount <= AvailableLiquidity(b, create.asset)
    requires create.amount <= Sum(b.positions, create.asset, Bucket.Available)
    ensures Perform(b, create).0.requests == [Request(create.id, create.asset, create.amount, create.expiresAt, Requested)]
    ensures Admissible(b, create)
  {
    hide Sum, AvailableLiquidity, Reserving;
  }

  lemma ReleasedHasStage(b: Books, r: Request)
    requires b.requests == [r] && Releasable(r.stage)
    ensures Release(b, r.id).0.requests == [r.(stage := Stage.Released)]
  {}
}
