/** What the connector demands before each effect, in plain figures of the quote and of what it sees. */
module OpeningRules {
  import opened Budget
  import opened BudgetBounds
  import opened BudgetLaws
  import opened Opening
  import OpeningBudget
  import opened OpeningSafety
  import opened OutpointText
  import opened Wrappers

  /** The local policy for a quote. */
  predicate MeetsPolicy(work: Work, config: Config) {
    && work.provider == config.node && work.recipient == config.owner && work.quoteHash != ""
    && 100 <= work.capacity && work.capacity <= 10_000_000
    && work.reserve == 99 && work.funding == work.capacity + 100
    && work.funding <= config.maxOrder && work.fee >= config.minFee
    && (!config.acceptPublic ==> work.merchant in config.allowed)
  }

  /** A quote is still good, and not for longer than a quarter of an hour. */
  predicate Unexpired(work: Work, now: int) { now + 1 <= work.expiresAt <= now + 900 }

  lemma PolicyIff(work: Work, config: Config)
    ensures Allowed(work, config) <==> MeetsPolicy(work, config)
  {}

  /** The worker takes an order in exactly when it meets the policy in time and is approved locally, if that
      is asked for, and for no other quote. */
  lemma AdmitIff(w: World, config: Config, now: int, work: Work)
    requires w.phase.Idle?
    ensures var j := Lookup(w.journals, work.id);
      Perform(w, config, Admit(now, work)) ==
        if MeetsPolicy(work, config) && Unexpired(work, now) && (j.approved || config.autoApprove) && j.quoteHash in {"", work.quoteHash}
        then w.(phase := Admitted(work)) else w
  {
    PolicyIff(work, config);
    hide Allowed, MeetsPolicy, Lookup;
  }

  /** It goes on exactly when nothing was attempted for the order and the quote is still good. */
  lemma LoadIff(w: World, config: Config, now: int)
    requires w.phase.Admitted?
    ensures var (work, j) := (w.phase.work, Lookup(w.journals, w.phase.work.id));
      Perform(w, config, Load(now)).phase ==
        if !j.attempted && MeetsPolicy(work, config) && Unexpired(work, now) then Attempting(Loaded, work, j, NOTHING) else Idle
  {
    PolicyIff(w.phase.work, config);
    hide Allowed, MeetsPolicy, Lookup;
  }

  /** An attempt that is settled on the chain, or has become an established channel. */
  predicate Done(j: Journal, channels: seq<Channel>, settled: set<string>) {
    || (CanonicalOf(j.fundingOutpoint).Some? && CanonicalOf(j.fundingOutpoint).value in settled)
    || exists i :: 0 <= i < |channels| && channels[i].established && Matches(j, channels[i])
  }

  lemma PendingIff(journals: seq<Journal>, channels: seq<Channel>, settled: set<string>)
    ensures OpeningInProgress(channels, journals, settled) <==> exists j <- journals :: j.attempted && !Done(j, channels, settled)
  {
    hide Matches, CanonicalOf;
    forall j: Journal ensures Pending(j, channels, settled) <==> j.attempted && !Done(j, channels, settled) {}
    hide Pending, Done;
    if j :| j in journals && Pending(j, channels, settled) {
      var i :| 0 <= i < |journals| && journals[i] == j;
    }
    if i :| 0 <= i < |journals| && Pending(journals[i], channels, settled) { assert journals[i] in journals; }
  }

  /** The guard lets an order pass exactly when every earlier attempt is done, the figures can be read, and
      the order fits the limit on top of everything they commit. */
  lemma GuardIff(v: View, funding: nat, maxTotal: nat)
    requires 0 < funding && maxTotal <= OutpointText.U64_MAX
    ensures Fits(v, funding, maxTotal) <==>
      && (forall j <- v.journals :: j.attempted ==> Done(j, v.channels, v.settled))
      && ReadableBalances(v.channels, v.settled) && FundedAttempts(v.journals, v.channels, v.settled)
      && Figure(v.channels, v.journals, v.settled, v.journals) + funding <= maxTotal
  {
    PendingIff(v.journals, v.channels, v.settled);
    ExposureIsExact(v.channels, v.journals, v.settled);
    hide OpeningInProgress, TotalExposure, Done, ReadableBalances, FundedAttempts, Figure;
  }

  lemma EquipIff(w: World, config: Config, available: nat, peerListed: bool, lockKnown: bool)
    requires At(w.phase, Guarded)
    ensures At(Perform(w, config, Equip(available, peerListed, lockKnown)).phase, Equipped)
      <==> peerListed && lockKnown && available >= w.phase.work.funding + 63
  {}

  // Over whole runs.

  ghost predicate OnlyPolicy(w: World, config: Config) {
    && (forall work <- w.opens :: MeetsPolicy(work, config))
    && (w.phase.Admitted? || w.phase.Attempting? ==> MeetsPolicy(w.phase.work, config))
  }

  lemma StepKeepsPolicy(w: World, config: Config, step: Step)
    requires OnlyPolicy(w, config)
    ensures OnlyPolicy(Perform(w, config, step), config)
  {
    if step.Admit? { PolicyIff(step.work, config); }
    hide Allowed, MeetsPolicy, Lookup, Fits, Saved, Writes, Starts;
  }

  /** In every run, under every configuration and whatever crashes or races, every opening met the local
      policy. */
  lemma {:induction false} OpeningsMeetPolicy(config: Config, steps: seq<Step>)
    ensures OnlyPolicy(Run(BLANK, config, steps), config)
  {
    if steps != [] {
      OpeningsMeetPolicy(config, steps[..|steps| - 1]);
      StepKeepsPolicy(Run(BLANK, config, steps[..|steps| - 1]), config, steps[|steps| - 1]);
    }
  }

  /** In a careful run every other attempt was done when the worker looked, and only an order that was
      attempted after it is not. */
  lemma OneUncertainOpening(config: Config, steps: seq<Step>, id: string)
    requires Careful(config, steps) && At(Run(BLANK, config, steps).phase, Recorded)
    requires var w := Run(BLANK, config, steps); Lookup(w.journals, id).attempted && id != w.phase.work.id
    ensures var view := Run(BLANK, config, steps).phase.view;
      Lookup(view.journals, id).attempted && Done(Lookup(view.journals, id), view.channels, view.settled)
  {
    var view := Run(BLANK, config, steps).phase.view;
    OpeningBudget.CarefulKeepsView(config, steps);
    assert Fits(view, Run(BLANK, config, steps).phase.work.funding, config.maxTotal);
    PendingIff(view.journals, view.channels, view.settled);
    assert Lookup(view.journals, id) in view.journals;
    hide Run, Done, TotalExposure;
  }

  /** What a step makes of an order's journal. */
  lemma JournalMoves(w: World, config: Config, step: Step, id: string)
    ensures var (p, j) := (w.phase, Lookup(Perform(w, config, step).journals, id));
      if step.Record? && At(p, Begun) && id == p.copy.orderId
      then j == p.copy.(quoteHash := p.work.quoteHash, attempted := true, funding := p.work.funding)
      else if step.Answer? && At(p, Issued) && id == p.copy.orderId
      then j == p.copy.(channelId := if step.accepted then step.channelId else p.copy.channelId)
      else if step.EndObserve? && p.Observing? && id == p.copy.orderId && (p.copy.attempted && p.copy.funding == 0 ==> step.quoted.Some?)
      then j == p.copy.(channelId := Some(step.seenId), fundingOutpoint := Some(step.outpoint),
                        funding := if p.copy.attempted && p.copy.funding == 0 then step.quoted.value else p.copy.funding)
      else if step.EndApprove? && step.copy in w.approvals && id == step.copy.orderId
      then j == step.copy.(approved := true)
      else j == Lookup(w.journals, id)
  {
    LookupNext(w, config, step, id);
    hide Perform, Lookup;
  }

  /** An operator's approval reads the journal for the quote that is on offer, once that is valid. */
  lemma ApprovalReads(w: World, config: Config, now: int, work: Work)
    ensures Perform(w, config, BeginApprove(now, work)).approvals ==
      if MeetsPolicy(work, config) && Unexpired(work, now) then w.approvals + {Lookup(w.journals, work.id).(quoteHash := work.quoteHash)}
      else w.approvals
  {
    PolicyIff(work, config);
    hide Allowed, MeetsPolicy, Lookup;
  }
}
