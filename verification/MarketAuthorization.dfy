/** Which orders get past the early stages without the provider's signature and the merchant's proof. */
module MarketAuthorization {
  import opened Market
  import opened MarketSafety
  import opened MarketTheorems
  import opened OutpointText
  import opened Wrappers

  /** A transaction puts no order under reconciliation that was not. */
  ghost predicate Quiet(t: Tables, u: Tables) {
    forall i :: 0 <= i < |t.orders| && i < |u.orders| && u.orders[i].status == Reconciling ==> t.orders[i].status == Reconciling
  }

  lemma OrderHandlersAreQuiet(s: State, step: Step)
    requires step.DoQuote? || step.DoStart? || step.DoProbe? || step.DoCancel? || step.DoWaive?
    requires Transaction(s, step).Some?
    ensures Quiet(s.tables, Transaction(s, step).value)
  {
    hide MayQuote, MayStart, MayProbe;
  }

  lemma OtherHandlersAreQuiet(s: State, step: Step)
    requires step.DoCreate? || step.DoSweep? || step.DoHeartbeat? || step.DoRegister? || step.DoDisable?
    requires Transaction(s, step).Some?
    ensures Quiet(s.tables, Transaction(s, step).value)
  {
    hide Admits, NewOrder;
  }

  lemma AcceptIsQuiet(t: Tables, now: int, f: Flight)
    requires f.AcceptFlight? && CommitAccept(t, now, f).Some?
    ensures Quiet(t, CommitAccept(t, now, f).value)
  {
    hide MayAccept;
  }

  lemma DeliveryIsQuiet(t: Tables, now: int, f: Flight)
    requires f.DeliveryFlight? && CommitDelivery(t, now, f).Some?
    ensures Quiet(t, CommitDelivery(t, now, f).value)
  {
    hide ReadyNow, HasAttestations;
  }

  lemma PaymentIsQuiet(t: Tables, f: Flight)
    requires f.PaymentFlight? && CommitPayment(t, f).Some?
    ensures Quiet(t, CommitPayment(t, f).value)
  {
    hide Bind;
  }

  lemma OfferIsQuiet(t: Tables, now: int, f: Flight)
    requires f.OfferFlight? && CommitPublish(t, now, f).Some?
    ensures Quiet(t, CommitPublish(t, now, f).value)
  {
    hide MayPublish;
  }

  lemma CommitsAreQuiet(s: State, step: Step)
    requires step.DoLand? && !step.flight.ReportFlight? && Transaction(s, step).Some?
    ensures Quiet(s.tables, Transaction(s, step).value)
  {
    hide Quiet, CommitAccept, CommitDelivery, CommitPayment;
    match step.flight
    case AcceptFlight(_, _) => AcceptIsQuiet(s.tables, step.now, step.flight);
    case DeliveryFlight(_) => DeliveryIsQuiet(s.tables, step.now, step.flight);
    case PaymentFlight(_, _) => PaymentIsQuiet(s.tables, step.flight);
    case OfferFlight(_) => OfferIsQuiet(s.tables, step.now, step.flight);
  }

  /** Of the transactions, only a failure report and a landing report put an order under reconciliation. */
  lemma ReconciledBy(s: State, step: Step, u: Tables, i: nat)
    requires Transaction(s, step) == Some(u) && i < |s.tables.orders| <= |u.orders|
    requires u.orders[i].status == Reconciling != s.tables.orders[i].status
    ensures step.DoFail? || (step.DoLand? && step.flight.ReportFlight?)
  {
    hide Transaction;
    match step
    case DoQuote(_, _, _) | DoStart(_, _, _) | DoProbe(_, _, _, _, _) | DoCancel(_, _) | DoWaive(_, _) =>
      OrderHandlersAreQuiet(s, step);
    case DoCreate(_, _, _, _) | DoSweep(_) | DoHeartbeat(_, _, _, _, _) | DoRegister(_, _, _, _) | DoDisable(_, _) =>
      OtherHandlersAreQuiet(s, step);
    case DoLand(_, _) => if !step.flight.ReportFlight? { CommitsAreQuiet(s, step); }
    case DoFail(_, _, _) =>
    case _ => NoTransaction(s, step);
  }

  lemma NoTransaction(s: State, step: Step)
    requires step.DoBeginAccept? || step.DoBeginReport? || step.DoBeginDelivery? || step.DoBeginPayment? || step.DoBeginPublish?
    ensures Transaction(s, step).None?
  {}

  lemma FailureReconciles(s: State, step: Step, i: nat)
    requires step.DoFail? && Transaction(s, step).Some? && i < |s.tables.orders|
    requires Transaction(s, step).value.orders[i] != s.tables.orders[i]
    ensures i == OrderIndex(s.tables.orders, step.id) && MayFail(s.tables.orders[i], step.node)
    ensures Transaction(s, step).value.orders[i] == AfterFailure(s.tables.orders[i], step.beforeFunding)
  {
    hide MayFail, AfterFailure;
  }

  /** A report that lands is about an order past the early stages. */
  lemma ReportIsLate(s: State, step: Step, i: nat)
    requires Inv(s) && step.DoLand? && step.flight.ReportFlight? && Transaction(s, step).Some? && i < |s.tables.orders|
    requires Transaction(s, step).value.orders[i] != s.tables.orders[i]
    ensures !Early(s.tables.orders[i].status)
  {
    hide Reported, BindOutpoint, SameChannel, Canonical, TablesOk;
    assert Landable(s.tables, step.flight);
  }

  /** An order gets past the early stages alive only by being started with both authorizations, or by a
      failure report that does not fail it outright. */
  lemma LeavesEarlyOnlyBy(s: State, step: Step, i: nat)
    requires Inv(s) && i < |s.tables.orders| && Early(s.tables.orders[i].status)
    requires var after := Perform(s, step).tables.orders;
      i < |after| && !Early(after[i].status) && !Dead(after[i].status)
    ensures var (o, p) := (s.tables.orders[i], Perform(s, step).tables.orders[i]);
      || (p.status == Opening && o.signed && o.proven)
      || (p.status == Reconciling && step.DoFail? && step.id == o.id && MayFail(o, step.node)
          && !(step.beforeFunding && o.channelId.None? && o.fundingOutpoint.None?))
  {
    var t, u := s.tables, Perform(s, step).tables;
    StepKeeps(s, step);
    assert Evolves(t.orders[i], u.orders[i]);
    hide Inv, Transaction, Departure, Advances;
    if u.orders[i].status == Reconciling {
      ReconciledBy(s, step, u, i);
      if step.DoFail? { FailureReconciles(s, step, i); } else { ReportIsLate(s, step, i); }
    }
  }

  /** Every order past the early stages that was not given up is signed and proven. */
  ghost predicate AllAuthorized(t: Tables) {
    forall i :: 0 <= i < |t.orders| ==> Authorized(t.orders[i])
  }

  predicate Authorized(o: Order) {
    !Early(o.status) && !Dead(o.status) ==> o.signed && o.proven
  }

  /** The provider reports an early order without both authorizations as failed, in a way that leaves
      the order alive. */
  predicate Bypasses(s: State, step: Step) {
    && step.DoFail?
    && var i := OrderIndex(s.tables.orders, step.id);
    && i < |s.tables.orders| && MayFail(s.tables.orders[i], step.node)
    && Early(s.tables.orders[i].status) && !(s.tables.orders[i].signed && s.tables.orders[i].proven)
    && AfterFailure(s.tables.orders[i], step.beforeFunding).status == Reconciling
  }

  lemma BypassBreaks(s: State, step: Step)
    requires Bypasses(s, step)
    ensures !AllAuthorized(Perform(s, step).tables)
  {
    var i := OrderIndex(s.tables.orders, step.id);
    assert !Authorized(Perform(s, step).tables.orders[i]);
  }

  lemma StaysAuthorized(s: State, step: Step, i: nat)
    requires Inv(s) && AllAuthorized(s.tables) && !Bypasses(s, step) && i < |s.tables.orders|
    requires i < |Perform(s, step).tables.orders|
    ensures Authorized(Perform(s, step).tables.orders[i])
  {
    hide Perform, Transaction, Departure, MayFail;
    var (o, p) := (s.tables.orders[i], Perform(s, step).tables.orders[i]);
    StepKeeps(s, step);
    assert Evolves(o, p) && Authorized(o);
    if Early(o.status) && !Early(p.status) && !Dead(p.status) {
      LeavesEarlyOnlyBy(s, step, i);
      IndexOf(s.tables.orders, i);
    }
    hide Inv, Advances, AllAuthorized;
  }

  lemma NewIsAuthorized(s: State, step: Step, i: nat)
    requires |s.tables.orders| <= i < |Perform(s, step).tables.orders|
    ensures Authorized(Perform(s, step).tables.orders[i])
  {
    OnlyCreateAdds(s, step);
    hide Transaction, Departure, Admits, Perform;
  }

  /** Authorization is lost by a step exactly when the step is such a failure report. */
  lemma AuthorizationKeptIff(s: State, step: Step)
    requires Inv(s) && AllAuthorized(s.tables)
    ensures AllAuthorized(Perform(s, step).tables) <==> !Bypasses(s, step)
  {
    hide Inv, Perform, Authorized, Bypasses;
    if Bypasses(s, step) {
      BypassBreaks(s, step);
    } else {
      forall i | 0 <= i < |Perform(s, step).tables.orders| ensures Authorized(Perform(s, step).tables.orders[i]) {
        if i < |s.tables.orders| { StaysAuthorized(s, step, i); } else { NewIsAuthorized(s, step, i); }
      }
    }
  }

  ghost predicate AlwaysAuthorized(s: State, steps: seq<Step>) {
    forall n :: 0 <= n <= |steps| ==> AllAuthorized(Run(s, steps[..n]).tables)
  }

  ghost predicate NeverBypassed(s: State, steps: seq<Step>) {
    forall n :: 0 <= n < |steps| ==> !Bypasses(Run(s, steps[..n]), steps[n])
  }

  /** Every order of a run that is delivered, or on its way, is signed and proven at every moment exactly
      when no step of the run is such a report. */
  lemma {:induction false} AlwaysAuthorizedIff(s: State, steps: seq<Step>)
    requires Inv(s) && AllAuthorized(s.tables)
    ensures AlwaysAuthorized(s, steps) <==> NeverBypassed(s, steps)
  {
    if steps == [] {
      assert Run(s, []) == s;
    } else {
      var k := |steps| - 1;
      AlwaysAuthorizedIff(s, steps[..k]);
      AlwaysSplits(s, steps);
      NeverSplits(s, steps);
      if AllAuthorized(Run(s, steps[..k]).tables) { LastStepIff(s, steps); }
      hide Inv, AllAuthorized, Bypasses, Run, AlwaysAuthorized, NeverBypassed;
    }
  }

  lemma LastStepIff(s: State, steps: seq<Step>)
    requires Inv(s) && steps != [] && AllAuthorized(Run(s, steps[..|steps| - 1]).tables)
    ensures AllAuthorized(Run(s, steps).tables) <==> !Bypasses(Run(s, steps[..|steps| - 1]), steps[|steps| - 1])
  {
    hide Inv, AllAuthorized, Bypasses, Perform, Forward;
    RunKeeps(s, steps[..|steps| - 1]);
    AuthorizationKeptIff(Run(s, steps[..|steps| - 1]), steps[|steps| - 1]);
  }

  lemma AlwaysSplits(s: State, steps: seq<Step>)
    requires steps != []
    ensures var rest := steps[..|steps| - 1];
      && (AlwaysAuthorized(s, steps) <==> AlwaysAuthorized(s, rest) && AllAuthorized(Run(s, steps).tables))
      && (AlwaysAuthorized(s, rest) ==> AllAuthorized(Run(s, rest).tables))
  {
    hide AllAuthorized, Run;
    var k := |steps| - 1;
    assert steps[..|steps|] == steps && steps[..k][..k] == steps[..k];
    assert forall n :: 0 <= n <= k ==> steps[..k][..n] == steps[..n];
    if AlwaysAuthorized(s, steps) {
      forall n | 0 <= n <= k ensures AllAuthorized(Run(s, steps[..k][..n]).tables) { assert AllAuthorized(Run(s, steps[..n]).tables); }
    }
    if AlwaysAuthorized(s, steps[..k]) {
      forall n | 0 <= n <= k ensures AllAuthorized(Run(s, steps[..n]).tables) { assert AllAuthorized(Run(s, steps[..k][..n]).tables); }
    }
  }

  lemma NeverSplits(s: State, steps: seq<Step>)
    requires steps != []
    ensures var k := |steps| - 1;
      NeverBypassed(s, steps) <==> NeverBypassed(s, steps[..k]) && !Bypasses(Run(s, steps[..k]), steps[k])
  {
    hide Bypasses, Run;
    var k := |steps| - 1;
    assert forall n :: 0 <= n < k ==> steps[..k][..n] == steps[..n] && steps[..k][n] == steps[n];
    if NeverBypassed(s, steps[..k]) {
      forall n | 0 <= n < k ensures !Bypasses(Run(s, steps[..n]), steps[n]) { assert !Bypasses(Run(s, steps[..k][..n]), steps[..k][n]); }
    }
  }
}
