/** The funding limit over whole runs of the connector. */
module OpeningBudget {
  import opened Budget
  import opened BudgetLaws
  import opened Opening
  import opened OpeningSafety
  import opened Wrappers

  /** What the stored attempts that have not been resolved commit. */
  function Unresolved(journals: seq<Journal>, resolved: set<string>): nat {
    if journals == [] then 0
    else
      var j := journals[|journals| - 1];
      Unresolved(journals[..|journals| - 1], resolved) + if j.attempted && j.orderId !in resolved then j.funding else 0
  }

  function Weight(j: Journal, resolved: set<string>): nat {
    if j.attempted && j.orderId !in resolved then j.funding else 0
  }

  /** What the openings sent to the node and not resolved commit. */
  function OpenedSum(opens: seq<Work>, resolved: set<string>): nat {
    if opens == [] then 0
    else
      var o := opens[|opens| - 1];
      OpenedSum(opens[..|opens| - 1], resolved) + if o.id !in resolved then o.funding else 0
  }

  lemma {:induction false} UnresolvedUpdate(journals: seq<Journal>, i: nat, j: Journal, resolved: set<string>)
    requires i < |journals|
    ensures Unresolved(journals[i := j], resolved) == Unresolved(journals, resolved) - Weight(journals[i], resolved) + Weight(j, resolved)
  {
    var last := |journals| - 1;
    if i == last {
      assert journals[i := j][..last] == journals[..last];
    } else {
      UnresolvedUpdate(journals[..last], i, j, resolved);
      assert journals[i := j][..last] == journals[..last][i := j];
    }
  }

  lemma UnresolvedSaved(journals: seq<Journal>, j: Journal, resolved: set<string>)
    ensures Unresolved(Saved(journals, j), resolved)
      == Unresolved(journals, resolved) - Weight(Lookup(journals, j.orderId), resolved) + Weight(j, resolved)
  {
    var i := JournalIndex(journals, j.orderId);
    if i < |journals| {
      UnresolvedUpdate(journals, i, j, resolved);
    } else {
      assert (journals + [j])[..|journals|] == journals;
    }
  }

  lemma {:induction false} UnresolvedFalls(journals: seq<Journal>, resolved: set<string>, more: set<string>)
    requires resolved <= more
    ensures Unresolved(journals, more) <= Unresolved(journals, resolved)
  {
    if journals != [] { UnresolvedFalls(journals[..|journals| - 1], resolved, more); }
  }

  /** The openings are among the recorded attempts, so they commit no more. */
  lemma {:induction false} OpenedIsRecorded(opens: seq<Work>, journals: seq<Journal>, resolved: set<string>)
    requires forall i :: 0 <= i < |opens| ==> Records(journals, opens[i].id, opens[i].funding)
    requires forall i, j :: 0 <= i < j < |opens| ==> opens[i].id != opens[j].id
    ensures OpenedSum(opens, resolved) <= Unresolved(journals, resolved)
  {
    if opens != [] {
      var n := |opens| - 1;
      var o, rest := opens[n], opens[..n];
      var cleared := Lookup(journals, o.id).(attempted := false);
      UnresolvedSaved(journals, cleared, resolved);
      forall i | 0 <= i < n ensures Records(Saved(journals, cleared), rest[i].id, rest[i].funding) {
        LookupSaved(journals, cleared, rest[i].id);
        assert Records(journals, opens[i].id, opens[i].funding);
      }
      OpenedIsRecorded(rest, Saved(journals, cleared), resolved);
    }
  }

  /** What the connector relies on when it computes its exposure: no two attempts match one listed
      channel, and a settlement it accepts as recovering an attempt is real. */
  ghost predicate Trustworthy(w: World, channels: seq<Channel>, settled: set<string>) {
    && OneMatch(w.journals, channels)
    && (forall j <- w.journals :: j.attempted && !Owed(j, channels, settled) ==> j.orderId in w.resolved)
  }

  lemma {:induction false} UnresolvedIsOwed(journals: seq<Journal>, channels: seq<Channel>, settled: set<string>, resolved: set<string>)
    requires forall j <- journals :: j.attempted && !Owed(j, channels, settled) ==> j.orderId in resolved
    ensures Unresolved(journals, resolved) <= OwedSum(journals, channels, settled)
  {
    hide Owed;
    if journals != [] {
      var n := |journals| - 1;
      assert journals[n] in journals;
      UnresolvedIsOwed(journals[..n], channels, settled, resolved);
    }
  }

  predicate HasRoom(p: Phase) { At(p, Guarded) || At(p, Equipped) || At(p, Begun) }

  /** The limit holds, and from the guard to the record there is room for the order being opened. */
  ghost predicate WithinBudget(w: World, config: Config) {
    && Unresolved(w.journals, w.resolved) <= config.maxTotal
    && (HasRoom(w.phase) ==> Unresolved(w.journals, w.resolved) + w.phase.work.funding <= config.maxTotal)
  }

  ghost predicate Sound(w: World, step: Step) {
    !Erases(w, step) && (step.Guard? ==> Trustworthy(w, step.channels, step.settled))
  }

  lemma GuardMakesRoom(w: World, config: Config, channels: seq<Channel>, settled: set<string>, funding: nat)
    requires Trustworthy(w, channels, settled) && Fits(View(channels, w.journals, settled), funding, config.maxTotal) && 0 < funding
    ensures Unresolved(w.journals, w.resolved) + funding <= config.maxTotal
  {
    hide TotalExposure, OneMatch, Owed;
    ExposureIsConservative(w.journals, channels, settled);
    UnresolvedIsOwed(w.journals, channels, settled, w.resolved);
  }

  /** Only recording an attempt adds to what is unresolved, and it adds what the guard made room for. */
  lemma WritesWeigh(w: World, config: Config, step: Step)
    requires Durable(w, config) && !Erases(w, step)
    ensures Unresolved(Perform(w, config, step).journals, w.resolved)
         <= Unresolved(w.journals, w.resolved) + if step.Record? && At(w.phase, Begun) then w.phase.work.funding else 0
  {
    hide Saved, NextPhase, Writes, Erases, Lookup;
    if Writes(w, step).Some? {
      WriteIsHonest(w, config, step);
      UnresolvedSaved(w.journals, Writes(w, step).value, w.resolved);
    }
  }

  lemma StepKeepsBudget(w: World, config: Config, step: Step)
    requires Durable(w, config) && WithinBudget(w, config) && Sound(w, step)
    ensures WithinBudget(Perform(w, config, step), config)
  {
    hide Saved, Fits, Trustworthy, Unresolved, Valid, Consents, Writes, Erases, Lookup;
    var v := Perform(w, config, step);
    WritesWeigh(w, config, step);
    UnresolvedFalls(v.journals, w.resolved, v.resolved);
    if HasRoom(v.phase) && !HasRoom(w.phase) {
      GuardMakesRoom(w, config, step.channels, step.settled, w.phase.work.funding);
    }
  }

  ghost predicate SoundRun(config: Config, steps: seq<Step>) {
    steps == [] || (SoundRun(config, steps[..|steps| - 1]) && Sound(Run(BLANK, config, steps[..|steps| - 1]), steps[|steps| - 1]))
  }

  lemma {:induction false} SoundRunIsCareful(config: Config, steps: seq<Step>)
    requires SoundRun(config, steps)
    ensures Careful(config, steps) && WithinBudget(Run(BLANK, config, steps), config)
  {
    hide Durable, Perform, Trustworthy, Erases;
    if steps != [] {
      SoundRunIsCareful(config, steps[..|steps| - 1]);
      CarefulIsDurable(config, steps[..|steps| - 1]);
      StepKeepsBudget(Run(BLANK, config, steps[..|steps| - 1]), config, steps[|steps| - 1]);
    }
  }

  /** In every sound run, and whatever the coordinator answers, the openings that are not resolved stay
      within the limit, each is recorded as attempted with its funding, and none was sent twice. */
  lemma BudgetHolds(config: Config, steps: seq<Step>)
    requires SoundRun(config, steps)
    ensures var w := Run(BLANK, config, steps);
      && OpenedSum(w.opens, w.resolved) <= config.maxTotal
      && (forall i :: 0 <= i < |w.opens| ==> Records(w.journals, w.opens[i].id, w.opens[i].funding))
      && OpenedOnce(w)
  {
    hide Records, Run, PhaseIsHonest;
    var w := Run(BLANK, config, steps);
    SoundRunIsCareful(config, steps);
    CarefulIsDurable(config, steps);
    OpensOnceByJournal(config, steps);
    OpenedIsRecorded(w.opens, w.journals, w.resolved);
  }

  predicate Checked(p: Phase) { HasRoom(p) || AfterRecord(p) }

  /** What the guard saw still covers the order, and no other order was attempted since. */
  ghost predicate ViewHolds(w: World, config: Config) {
    Checked(w.phase) ==>
      && Fits(w.phase.view, w.phase.work.funding, config.maxTotal)
      && forall id :: Lookup(w.journals, id).attempted ==> Lookup(w.phase.view.journals, id).attempted || id == w.phase.work.id
  }

  /** A checked order was checked before, or passes the guard now with the journals as they are. */
  lemma CheckedBy(w: World, config: Config, step: Step)
    ensures var v := Perform(w, config, step);
      Checked(v.phase) ==>
        && w.phase.Attempting? && v.phase.work == w.phase.work
        && ((Checked(w.phase) && v.phase.view == w.phase.view)
          || (v.phase.view.journals == w.journals && Fits(v.phase.view, v.phase.work.funding, config.maxTotal)))
  {
    hide Saved, Fits, Valid, Consents, Writes, Lookup, Starts;
  }

  lemma StepKeepsView(w: World, config: Config, step: Step)
    requires Durable(w, config) && ViewHolds(w, config) && !Erases(w, step)
    ensures ViewHolds(Perform(w, config, step), config)
  {
    hide Fits, Perform, NextPhase, Writes, Starts, Erases, Lookup, Durable;
    var v := Perform(w, config, step);
    CheckedBy(w, config, step);
    forall id | Checked(v.phase) && Lookup(v.journals, id).attempted
      ensures Lookup(v.phase.view.journals, id).attempted || id == v.phase.work.id
    {
      NothingInvented(w, config, step, id);
    }
  }

  lemma {:induction false} CarefulKeepsView(config: Config, steps: seq<Step>)
    requires Careful(config, steps)
    ensures ViewHolds(Run(BLANK, config, steps), config)
  {
    if steps != [] {
      CarefulKeepsView(config, steps[..|steps| - 1]);
      CarefulIsDurable(config, steps[..|steps| - 1]);
      StepKeepsView(Run(BLANK, config, steps[..|steps| - 1]), config, steps[|steps| - 1]);
    }
  }

  /** At the moment an opening is sent its attempt is on record; the exposure the guard computed, foreign
      channels included, leaves room for it; and nothing else was attempted in between. */
  lemma IssueIsCovered(config: Config, steps: seq<Step>)
    requires Careful(config, steps) && At(Run(BLANK, config, steps).phase, Recorded)
    ensures var w := Run(BLANK, config, steps);
      var (work, view) := (w.phase.work, w.phase.view);
      var exposure := TotalExposure(view.channels, view.journals, view.settled);
      && Allowed(work, config) && Records(w.journals, work.id, work.funding)
      && exposure.Some? && exposure.value + work.funding <= config.maxTotal
      && (forall id :: Lookup(w.journals, id).attempted ==> Lookup(view.journals, id).attempted || id == work.id)
  {
    hide TotalExposure, OpeningInProgress, Run, Records;
    CarefulIsDurable(config, steps);
    CarefulKeepsView(config, steps);
  }

  // What an approval that raced with the worker can do.

  ghost predicate Reaches(w: World, config: Config, v: World) {
    exists steps :: Run(w, config, steps) == v
  }

  lemma ReachesItself(w: World, config: Config)
    ensures Reaches(w, config, w)
  {
    assert Run(w, config, []) == w;
  }

  lemma ReachesNext(w: World, config: Config, v: World, step: Step)
    requires Reaches(w, config, v)
    ensures Reaches(w, config, Perform(v, config, step))
  {
    var steps :| Run(w, config, steps) == v;
    assert (steps + [step])[..|steps|] == steps;
    assert Run(w, config, steps + [step]) == Perform(v, config, step);
  }

  /** Where an order ends that goes all the way through the worker undisturbed. */
  function Completed(w: World, work: Work): World {
    var j := Attempted(Lookup(w.journals, work.id), work);
    w.(journals := Saved(Saved(w.journals, j), j), started := w.started + {work.id}, opens := w.opens + [work], phase := Idle)
  }

  ghost predicate Untouched(journals: seq<Journal>) { forall j <- journals :: !j.attempted }

  /** Any order that policy allows within the limit. */
  predicate Affordable(work: Work, config: Config) { Allowed(work, config) && work.funding <= config.maxTotal }

  /** With nothing attempted on record, any affordable order with consent goes through, whatever was
      opened before. */
  lemma OpensFromIdle(start: World, w: World, config: Config, work: Work)
    requires Reaches(start, config, w) && w.phase.Idle? && work.id !in w.started && Untouched(w.journals)
    requires Affordable(work, config) && Consents(Lookup(w.journals, work.id), work, config)
    ensures Reaches(start, config, Completed(w, work))
  {
    var copy := Lookup(w.journals, work.id);
    var now := work.expiresAt - 1;
    var view := View([], w.journals, {});
    NothingListed(w.journals, w.journals);
    assert !copy.attempted && Fits(view, work.funding, config.maxTotal) && Valid(work, config, now);
    hide Fits, Saved, Lookup, Reaches, Valid, Consents, Untouched;
    var admitted := w.(phase := Admitted(work));
    assert Perform(w, config, Admit(now, work)) == admitted;
    ReachesNext(start, config, w, Admit(now, work));
    var loaded := w.(phase := Attempting(Loaded, work, copy, NOTHING));
    assert Perform(admitted, config, Load(now)) == loaded;
    ReachesNext(start, config, admitted, Load(now));
    LoadedGoesThrough(start, loaded, config, work, copy, view);
  }

  lemma LoadedGoesThrough(start: World, loaded: World, config: Config, work: Work, copy: Journal, view: View)
    requires Reaches(start, config, loaded) && loaded.phase == Attempting(Loaded, work, copy, NOTHING) && work.id !in loaded.started
    requires view == View([], loaded.journals, {}) && Fits(view, work.funding, config.maxTotal) && copy == Lookup(loaded.journals, work.id)
    ensures Reaches(start, config, Completed(loaded, work))
  {
    hide Fits, Saved, Lookup, Reaches;
    var guarded := loaded.(phase := Attempting(Guarded, work, copy, view));
    assert Perform(loaded, config, Guard([], {})) == guarded;
    ReachesNext(start, config, loaded, Guard([], {}));
    var ready := Equip(work.funding + CHANGE_MARGIN, true, true);
    var equipped := loaded.(phase := Attempting(Equipped, work, copy, view));
    assert Perform(guarded, config, ready) == equipped;
    ReachesNext(start, config, guarded, ready);
    var begun := loaded.(phase := Attempting(Begun, work, copy, view), started := loaded.started + {work.id});
    assert Perform(equipped, config, Start(true, false)) == begun;
    ReachesNext(start, config, equipped, Start(true, false));
    BegunGoesThrough(start, begun, config, work, copy, view);
  }

  lemma BegunGoesThrough(start: World, begun: World, config: Config, work: Work, copy: Journal, view: View)
    requires Reaches(start, config, begun) && begun.phase == Attempting(Begun, work, copy, view)
    ensures var j := Attempted(copy, work);
      Reaches(start, config, begun.(journals := Saved(Saved(begun.journals, j), j), phase := Idle, opens := begun.opens + [work]))
  {
    hide Saved, Reaches;
    var j := Attempted(copy, work);
    var recorded := begun.(journals := Saved(begun.journals, j), phase := Attempting(Recorded, work, j, view));
    assert Perform(begun, config, Record) == recorded;
    ReachesNext(start, config, begun, Record);
    var issued := recorded.(opens := begun.opens + [work], phase := Attempting(Issued, work, j, view));
    assert Perform(recorded, config, Issue) == issued;
    ReachesNext(start, config, recorded, Issue);
    assert Perform(issued, config, Answer(false, None)) == issued.(journals := Saved(issued.journals, j), phase := Idle);
    ReachesNext(start, config, issued, Answer(false, None));
  }

  lemma {:induction false} NothingListed(journals: seq<Journal>, listed: seq<Journal>)
    requires Untouched(listed)
    ensures Exposure([], journals, {}, listed) == Some(0)
    ensures !OpeningInProgress([], listed, {})
  {
    if listed != [] {
      var n := |listed| - 1;
      assert listed[n] in listed;
      NothingListed(journals, listed[..n]);
    }
    assert forall i :: 0 <= i < |listed| ==> listed[i] in listed;
  }

  ghost predicate UniqueIds(journals: seq<Journal>) {
    forall i, j :: 0 <= i < j < |journals| ==> journals[i].orderId != journals[j].orderId
  }

  /** An approval lands on the only attempt on record. */
  ghost predicate ErasesTheOnlyAttempt(w: World, copy: Journal) {
    && w.phase.Idle? && copy in w.approvals && !copy.attempted && UniqueIds(w.journals)
    && forall j <- w.journals :: j.attempted ==> j.orderId == copy.orderId
  }

  lemma ErasureClears(w: World, copy: Journal)
    requires ErasesTheOnlyAttempt(w, copy)
    ensures Untouched(Saved(w.journals, Approved(copy)))
  {
    var i := JournalIndex(w.journals, copy.orderId);
    var saved := Saved(w.journals, Approved(copy));
    forall k | 0 <= k < |saved| ensures !saved[k].attempted {
      if k < |w.journals| { assert w.journals[k] in w.journals; }
    }
  }

  /** From any state, once the only attempt on record is erased, any other affordable order with consent
      is opened on top of everything that was opened before. */
  lemma ErasureOverspends(start: World, w: World, config: Config, copy: Journal, work: Work)
    requires Reaches(start, config, w) && ErasesTheOnlyAttempt(w, copy) && Affordable(work, config)
    requires work.id != copy.orderId && work.id !in w.started && Consents(Lookup(w.journals, work.id), work, config)
    ensures exists v :: Reaches(start, config, v) && v.opens == w.opens + [work] && v.resolved == w.resolved
  {
    var erased := Perform(w, config, EndApprove(copy));
    ErasureClears(w, copy);
    LookupSaved(w.journals, Approved(copy), work.id);
    hide Reaches, Consents, Lookup, Saved, Affordable, UniqueIds, Untouched;
    ReachesNext(start, config, w, EndApprove(copy));
    OpensFromIdle(start, erased, config, work);
    assert Completed(erased, work).opens == w.opens + [work];
  }

  /** What an operator's approval reads and saves of an order without a journal. */
  function Fresh(work: Work): Journal { Journal(work.id, work.quoteHash, false, false, None, None, 0) }

  function ApprovedBoth(a: Work, b: Work): World {
    World([Approved(Fresh(a)), Approved(Fresh(b))], {}, [], Idle, {Fresh(a), Fresh(b)},
          {(a.id, a.quoteHash), (b.id, b.quoteHash)}, {})
  }

  /** An operator approves an order that has no journal. */
  lemma ApprovalAdds(start: World, w: World, config: Config, work: Work)
    requires Reaches(start, config, w) && Allowed(work, config)
    requires forall i :: 0 <= i < |w.journals| ==> w.journals[i].orderId != work.id
    ensures Reaches(start, config, w.(journals := w.journals + [Approved(Fresh(work))],
      approvals := w.approvals + {Fresh(work)}, granted := w.granted + {(work.id, work.quoteHash)}))
  {
    var begin := BeginApprove(work.expiresAt - 1, work);
    hide Reaches, Allowed, JournalIndex, Perform;
    var reading := w.(approvals := w.approvals + {Fresh(work)});
    ApprovalReads(w, config, work);
    ApprovalSaves(reading, config, work);
    ReachesNext(start, config, w, begin);
    ReachesNext(start, config, reading, EndApprove(Fresh(work)));
  }

  lemma ApprovalReads(w: World, config: Config, work: Work)
    requires Allowed(work, config) && forall i :: 0 <= i < |w.journals| ==> w.journals[i].orderId != work.id
    ensures Perform(w, config, BeginApprove(work.expiresAt - 1, work)) == w.(approvals := w.approvals + {Fresh(work)})
  {
    assert JournalIndex(w.journals, work.id) == |w.journals|;
    hide Allowed, JournalIndex;
  }

  lemma ApprovalSaves(w: World, config: Config, work: Work)
    requires Fresh(work) in w.approvals && forall i :: 0 <= i < |w.journals| ==> w.journals[i].orderId != work.id
    ensures Perform(w, config, EndApprove(Fresh(work)))
      == w.(journals := w.journals + [Approved(Fresh(work))], granted := w.granted + {(work.id, work.quoteHash)})
  {
    assert JournalIndex(w.journals, work.id) == |w.journals|;
    hide JournalIndex;
  }

  /** Both orders are approved, then the first is opened. */
  lemma FirstIsOpened(config: Config, a: Work, b: Work)
    requires Affordable(a, config) && Affordable(b, config) && a.id != b.id
    ensures Reaches(BLANK, config, Completed(ApprovedBoth(a, b), a))
  {
    hide Reaches, Allowed;
    ReachesItself(BLANK, config);
    ApprovalAdds(BLANK, BLANK, config, a);
    var one := World([Approved(Fresh(a))], {}, [], Idle, {Fresh(a)}, {(a.id, a.quoteHash)}, {});
    assert BLANK.(journals := BLANK.journals + [Approved(Fresh(a))], approvals := BLANK.approvals + {Fresh(a)},
                  granted := BLANK.granted + {(a.id, a.quoteHash)}) == one;
    ApprovalAdds(BLANK, one, config, b);
    var both := ApprovedBoth(a, b);
    assert one.(journals := one.journals + [Approved(Fresh(b))], approvals := one.approvals + {Fresh(b)},
                granted := one.granted + {(b.id, b.quoteHash)}) == both;
    assert both.journals[0] == Approved(Fresh(a));
    OpensFromIdle(BLANK, both, config, a);
  }

  lemma FirstLeaves(a: Work, b: Work)
    requires a.id != b.id
    ensures var after := Completed(ApprovedBoth(a, b), a);
      && after.journals == [Attempted(Approved(Fresh(a)), a), Approved(Fresh(b))]
      && after.opens == [a] && Lookup(after.journals, b.id) == Approved(Fresh(b))
  {
    var (ja, jb) := (Approved(Fresh(a)), Approved(Fresh(b)));
    var j := Attempted(ja, a);
    assert JournalIndex([ja, jb], a.id) == 0 && JournalIndex([j, jb], a.id) == 0;
    assert Saved([ja, jb], j) == [j, jb] && Saved([j, jb], j) == [j, jb];
    assert [j, jb][1] == jb;
    assert JournalIndex([j, jb], b.id) == 1;
  }

  lemma OpenedTwo(a: Work, b: Work)
    ensures OpenedSum([a] + [b], {}) == a.funding + b.funding
  {
    assert ([a] + [b])[..1] == [a] && [a][..0] == [];
    assert OpenedSum([a], {}) == a.funding;
  }

  /** Under every configuration, any two affordable orders that together exceed the limit can both be
      opened: two approvals of the first read its journal before the attempt, and one is saved after it. */
  lemma TwoOrdersOverspend(config: Config, a: Work, b: Work)
    requires Affordable(a, config) && Affordable(b, config) && a.id != b.id && a.funding + b.funding > config.maxTotal
    ensures exists v :: Reaches(BLANK, config, v) && OpenedSum(v.opens, v.resolved) > config.maxTotal
  {
    FirstIsOpened(config, a, b);
    FirstLeaves(a, b);
    OpenedTwo(a, b);
    hide Reaches, Affordable, Lookup, OpenedSum, Saved;
    ErasureOverspends(BLANK, Completed(ApprovedBoth(a, b), a), config, Fresh(a), b);
  }
}
