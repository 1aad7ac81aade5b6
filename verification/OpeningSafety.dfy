/** At most one opening per order under crashes and races, what makes attempts durable, and local consent. */
module OpeningSafety {
  import opened Budget
  import opened Opening
  import opened Wrappers

  const BLANK := World([], {}, [], Idle, {}, {}, {})

  predicate Opened(w: World, id: string) {
    exists i :: 0 <= i < |w.opens| && w.opens[i].id == id
  }

  ghost predicate OpenedOnce(w: World) {
    forall i, j :: 0 <= i < j < |w.opens| ==> w.opens[i].id != w.opens[j].id
  }

  // Once by the coordinator: whatever happens to the journal.

  /** The coordinator's record guards every opening. */
  ghost predicate GuardedByStart(w: World) {
    && (forall i :: 0 <= i < |w.opens| ==> w.opens[i].id in w.started)
    && (At(w.phase, Begun) || At(w.phase, Recorded) ==> w.phase.work.id in w.started && !Opened(w, w.phase.work.id))
  }

  predicate Repeats(step: Step) { step.Start? && step.again }

  lemma StepKeepsOnce(w: World, config: Config, step: Step)
    requires OpenedOnce(w) && GuardedByStart(w) && !Repeats(step)
    ensures OpenedOnce(Perform(w, config, step)) && GuardedByStart(Perform(w, config, step))
  {
    hide Fits, Saved, Writes, Valid, Consents, Lookup;
    var v := Perform(w, config, step);
    if At(v.phase, Begun) && !At(w.phase, Begun) {
      forall i | 0 <= i < |v.opens| ensures v.opens[i].id != v.phase.work.id { assert w.opens[i].id in w.started; }
    }
  }

  /** With a coordinator that starts an order once, no order is opened twice in any run, with crashes
      anywhere and stale approvals landing at any time. */
  lemma {:induction false} OpensAtMostOnce(config: Config, steps: seq<Step>)
    requires forall i :: 0 <= i < |steps| ==> !Repeats(steps[i])
    ensures OpenedOnce(Run(BLANK, config, steps)) && GuardedByStart(Run(BLANK, config, steps))
  {
    if steps != [] {
      OpensAtMostOnce(config, steps[..|steps| - 1]);
      StepKeepsOnce(Run(BLANK, config, steps[..|steps| - 1]), config, steps[|steps| - 1]);
    }
  }

  // Attempts are durable unless a stale approval erases one.

  predicate Records(journals: seq<Journal>, id: string, funding: nat) {
    Lookup(journals, id).attempted && Lookup(journals, id).funding == funding
  }

  /** A copy that may overwrite the stored journal without losing an attempt. */
  predicate Retains(journals: seq<Journal>, copy: Journal) {
    var stored := Lookup(journals, copy.orderId);
    stored.attempted ==> copy.attempted && copy.funding == stored.funding
  }

  /** An attempt in a copy is also in the store. */
  predicate Backed(journals: seq<Journal>, copy: Journal) {
    copy.attempted ==> Records(journals, copy.orderId, copy.funding)
  }

  /** Every attempt of `before` is in `after`, with the same commitment. */
  ghost predicate KeepsAttempts(before: seq<Journal>, after: seq<Journal>) {
    forall id :: Lookup(before, id).attempted ==> Records(after, id, Lookup(before, id).funding)
  }

  lemma LookupSaved(journals: seq<Journal>, j: Journal, id: string)
    ensures Lookup(Saved(journals, j), id) == if id == j.orderId then j else Lookup(journals, id)
  {
    var i, saved := JournalIndex(journals, j.orderId), Saved(journals, j);
    var k, m := JournalIndex(journals, id), JournalIndex(saved, id);
    if id == j.orderId {
      assert saved[i].orderId == id && forall n :: 0 <= n < i ==> saved[n] == journals[n];
    } else {
      assert forall n :: 0 <= n < |journals| && n != i ==> saved[n] == journals[n];
    }
  }

  predicate BeforeRecord(p: Phase) {
    At(p, Loaded) || At(p, Guarded) || At(p, Equipped) || At(p, Begun)
  }

  predicate AfterRecord(p: Phase) { At(p, Recorded) || At(p, Issued) }

  /** Every copy in flight is honest about attempts; until it is recorded, nothing was attempted for the
      order the worker is opening. */
  predicate PhaseIsHonest(w: World, config: Config) {
    && (w.phase.Admitted? || w.phase.Attempting? ==> Allowed(w.phase.work, config))
    && (w.phase.Attempting? ==> w.phase.copy.orderId == w.phase.work.id)
    && (BeforeRecord(w.phase) ==> !w.phase.copy.attempted && !Lookup(w.journals, w.phase.work.id).attempted)
    && (AfterRecord(w.phase) ==> && w.phase.copy.attempted && w.phase.copy.funding == w.phase.work.funding
                                 && Records(w.journals, w.phase.work.id, w.phase.work.funding))
    && (w.phase.Observing? ==> Retains(w.journals, w.phase.copy) && Backed(w.journals, w.phase.copy))
  }

  /** The journal as every process left it. */
  ghost predicate Durable(w: World, config: Config) {
    && (forall i :: 0 <= i < |w.opens| ==> Allowed(w.opens[i], config) && Records(w.journals, w.opens[i].id, w.opens[i].funding))
    && (forall id :: Lookup(w.journals, id).attempted ==> Lookup(w.journals, id).funding > 0)
    && (forall copy <- w.approvals :: Backed(w.journals, copy))
    && PhaseIsHonest(w, config)
  }

  /** A stale approval that overwrites a recorded attempt. */
  predicate Erases(w: World, step: Step) {
    step.EndApprove? && step.copy in w.approvals && !Retains(w.journals, step.copy)
  }

  /** A write neither loses nor invents an attempt, except the one the worker records. */
  lemma WriteIsHonest(w: World, config: Config, step: Step)
    requires Durable(w, config) && !Erases(w, step) && Writes(w, step).Some?
    ensures var j := Writes(w, step).value;
      && Retains(w.journals, j) && (j.attempted ==> j.funding > 0)
      && (Backed(w.journals, j) || (step.Record? && At(w.phase, Begun) && j == Attempted(w.phase.copy, w.phase.work)))
  {
    hide Lookup;
  }

  lemma AttemptSurvives(w: World, config: Config, step: Step, id: string)
    requires Durable(w, config) && !Erases(w, step) && Lookup(w.journals, id).attempted
    ensures Records(Perform(w, config, step).journals, id, Lookup(w.journals, id).funding)
  {
    hide Saved, NextPhase, Writes, Erases;
    if Writes(w, step).Some? {
      WriteIsHonest(w, config, step);
      LookupSaved(w.journals, Writes(w, step).value, id);
    }
  }

  /** Attempts survive a step exactly when it is not such an approval. */
  lemma AttemptsSurviveIff(w: World, config: Config, step: Step)
    requires Durable(w, config)
    ensures KeepsAttempts(w.journals, Perform(w, config, step).journals) <==> !Erases(w, step)
  {
    hide Saved, NextPhase;
    if Erases(w, step) {
      LookupSaved(w.journals, Approved(step.copy), step.copy.orderId);
    } else {
      forall id | Lookup(w.journals, id).attempted
        ensures Records(Perform(w, config, step).journals, id, Lookup(w.journals, id).funding)
      {
        AttemptSurvives(w, config, step, id);
      }
    }
  }

  /** What any journal looks like after a step. */
  lemma LookupNext(w: World, config: Config, step: Step, id: string)
    ensures Lookup(Perform(w, config, step).journals, id)
      == if Writes(w, step).Some? && id == Writes(w, step).value.orderId then Writes(w, step).value else Lookup(w.journals, id)
  {
    hide Saved, NextPhase, Writes, Lookup;
    if Writes(w, step).Some? { LookupSaved(w.journals, Writes(w, step).value, id); }
  }

  /** A copy held anywhere stays backed. */
  lemma BackedStays(w: World, config: Config, step: Step, copy: Journal)
    requires Durable(w, config) && !Erases(w, step) && Backed(w.journals, copy)
    ensures Backed(Perform(w, config, step).journals, copy)
  {
    hide NextPhase, Writes, Saved, Erases, Lookup, Perform;
    if copy.attempted { AttemptSurvives(w, config, step, copy.orderId); }
  }

  /** Only recording adds an attempt, for the order being opened. */
  lemma NothingInvented(w: World, config: Config, step: Step, id: string)
    requires Durable(w, config) && !Erases(w, step) && Lookup(Perform(w, config, step).journals, id).attempted
    ensures Lookup(w.journals, id).attempted || (step.Record? && At(w.phase, Begun) && id == w.phase.work.id)
    ensures Lookup(Perform(w, config, step).journals, id).funding > 0
  {
    hide NextPhase, Writes, Saved, Erases, Lookup, Perform;
    LookupNext(w, config, step, id);
    if Writes(w, step).Some? { WriteIsHonest(w, config, step); }
  }

  /** An order on its way to the record has just been loaded, or was on its way before. */
  lemma BeforeRecordBy(w: World, config: Config, step: Step)
    requires BeforeRecord(Perform(w, config, step).phase)
    ensures var p, q := w.phase, Perform(w, config, step).phase;
      && !(step.Record? && At(p, Begun))
      && if BeforeRecord(p) then q.work == p.work && q.copy == p.copy
         else p.Admitted? && q.work == p.work && q.copy == Lookup(w.journals, p.work.id) && !q.copy.attempted
  {
    hide Saved, Writes, Lookup, Fits, Consents, Valid, Starts;
  }

  /** Until it is recorded, an attempt stays unrecorded. */
  lemma UnrecordedStays(w: World, config: Config, step: Step)
    requires Durable(w, config) && !Erases(w, step)
    ensures var v := Perform(w, config, step);
      BeforeRecord(v.phase) ==> !v.phase.copy.attempted && !Lookup(v.journals, v.phase.work.id).attempted
  {
    hide Perform, Lookup, Backed, Retains, Erases, Records, Allowed;
    var v := Perform(w, config, step);
    if BeforeRecord(v.phase) {
      BeforeRecordBy(w, config, step);
      if Lookup(v.journals, v.phase.work.id).attempted { NothingInvented(w, config, step, v.phase.work.id); }
    }
  }

  /** Once recorded, it stays on record. */
  lemma RecordedStays(w: World, config: Config, step: Step)
    requires Durable(w, config) && !Erases(w, step)
    ensures var v := Perform(w, config, step);
      AfterRecord(v.phase) ==> && v.phase.copy.attempted && v.phase.copy.funding == v.phase.work.funding
                               && Records(v.journals, v.phase.work.id, v.phase.work.funding)
  {
    if AfterRecord(w.phase) { AttemptSurvives(w, config, step, w.phase.work.id); }
    if step.Record? && At(w.phase, Begun) { LookupNext(w, config, step, w.phase.work.id); }
    hide Saved, Lookup, Fits, Consents, Valid, Allowed, Backed, Retains, Erases;
  }

  /** While a channel is observed nothing is recorded, so the copy stays what the journal says. */
  lemma ObservedStays(w: World, config: Config, step: Step)
    requires Durable(w, config) && !Erases(w, step)
    ensures var v := Perform(w, config, step);
      v.phase.Observing? ==> Retains(v.journals, v.phase.copy) && Backed(v.journals, v.phase.copy)
  {
    var v := Perform(w, config, step);
    if w.phase.Observing? {
      var id := w.phase.copy.orderId;
      BackedStays(w, config, step, w.phase.copy);
      if Lookup(v.journals, id).attempted { NothingInvented(w, config, step, id); }
      if Lookup(w.journals, id).attempted { AttemptSurvives(w, config, step, id); }
    }
    hide Saved, Lookup, Fits, Consents, Valid, Allowed, Erases;
  }

  lemma PhaseStaysHonest(w: World, config: Config, step: Step)
    requires Durable(w, config) && !Erases(w, step)
    ensures PhaseIsHonest(Perform(w, config, step), config)
  {
    UnrecordedStays(w, config, step);
    RecordedStays(w, config, step);
    ObservedStays(w, config, step);
    hide Saved, Writes, Fits, Consents, Retains, Backed, Records, Erases, Allowed;
  }

  lemma OpensStayRecorded(w: World, config: Config, step: Step)
    requires Durable(w, config) && !Erases(w, step)
    ensures var v := Perform(w, config, step);
      forall i :: 0 <= i < |v.opens| ==> Allowed(v.opens[i], config) && Records(v.journals, v.opens[i].id, v.opens[i].funding)
  {
    var v := Perform(w, config, step);
    assert v.opens == if step.Issue? && At(w.phase, Recorded) then w.opens + [w.phase.work] else w.opens;
    hide Perform, Erases, Lookup, Backed, Retains;
    forall i | 0 <= i < |v.opens| ensures Allowed(v.opens[i], config) && Records(v.journals, v.opens[i].id, v.opens[i].funding) {
      AttemptSurvives(w, config, step, v.opens[i].id);
    }
  }

  lemma ApprovalsStayBacked(w: World, config: Config, step: Step)
    requires Durable(w, config) && !Erases(w, step)
    ensures var v := Perform(w, config, step); forall copy <- v.approvals :: Backed(v.journals, copy)
  {
    var v := Perform(w, config, step);
    if step.BeginApprove? { LookupNext(w, config, step, step.approved.id); }
    forall copy <- v.approvals ensures Backed(v.journals, copy) {
      if copy in w.approvals { BackedStays(w, config, step, copy); }
    }
    hide Saved, Lookup, NextPhase, PhaseIsHonest, Valid, Durable, Erases;
  }

  lemma StepKeepsDurable(w: World, config: Config, step: Step)
    requires Durable(w, config) && !Erases(w, step)
    ensures Durable(Perform(w, config, step), config)
  {
    hide Perform, Lookup, PhaseIsHonest, Backed, Records, Allowed, Erases;
    var v := Perform(w, config, step);
    PhaseStaysHonest(w, config, step);
    OpensStayRecorded(w, config, step);
    ApprovalsStayBacked(w, config, step);
    forall id | Lookup(v.journals, id).attempted ensures Lookup(v.journals, id).funding > 0 {
      NothingInvented(w, config, step, id);
    }
  }

  /** A run in which no approval read before an attempt is saved after it. */
  ghost predicate Careful(config: Config, steps: seq<Step>) {
    steps == [] || (Careful(config, steps[..|steps| - 1]) && !Erases(Run(BLANK, config, steps[..|steps| - 1]), steps[|steps| - 1]))
  }

  lemma {:induction false} CarefulIsDurable(config: Config, steps: seq<Step>)
    requires Careful(config, steps)
    ensures Durable(Run(BLANK, config, steps), config)
  {
    if steps != [] {
      CarefulIsDurable(config, steps[..|steps| - 1]);
      StepKeepsDurable(Run(BLANK, config, steps[..|steps| - 1]), config, steps[|steps| - 1]);
    }
  }

  // Once by the journal: whatever the coordinator answers.

  ghost predicate GuardedByJournal(w: World) {
    OpenedOnce(w) && (At(w.phase, Recorded) ==> !Opened(w, w.phase.work.id))
  }

  lemma StepKeepsOnceByJournal(w: World, config: Config, step: Step)
    requires Durable(w, config) && GuardedByJournal(w)
    ensures GuardedByJournal(Perform(w, config, step))
  {
    hide Fits, Saved, Writes, Valid, Consents, Lookup;
    if step.Record? && At(w.phase, Begun) {
      forall i | 0 <= i < |w.opens| ensures w.opens[i].id != w.phase.work.id {
        assert Records(w.journals, w.opens[i].id, w.opens[i].funding);
      }
    }
  }

  /** With a coordinator that may start an order any number of times, the journal alone prevents a second
      opening in every run that erases no attempt. */
  lemma {:induction false} OpensOnceByJournal(config: Config, steps: seq<Step>)
    requires Careful(config, steps)
    ensures GuardedByJournal(Run(BLANK, config, steps))
  {
    if steps != [] {
      OpensOnceByJournal(config, steps[..|steps| - 1]);
      CarefulIsDurable(config, steps[..|steps| - 1]);
      StepKeepsOnceByJournal(Run(BLANK, config, steps[..|steps| - 1]), config, steps[|steps| - 1]);
    }
  }

  // Local consent.

  /** A journal that claims approval was approved for the quote it names. */
  predicate Granted(w: World, j: Journal) {
    j.approved ==> j.quoteHash != "" && (j.orderId, j.quoteHash) in w.granted
  }

  predicate WorkIsGranted(w: World, config: Config, work: Work) {
    Allowed(work, config) && (work.id, work.quoteHash) in w.granted
  }

  predicate PhaseIsGranted(w: World, config: Config) {
    && (w.phase.Admitted? || w.phase.Attempting? ==> WorkIsGranted(w, config, w.phase.work))
    && (w.phase.Attempting? ==> w.phase.copy.orderId == w.phase.work.id && Granted(w, w.phase.copy))
    && (w.phase.Observing? ==> Granted(w, w.phase.copy))
  }

  /** Whatever is on its way to being opened is allowed by policy and was approved locally, for exactly
      that quote. */
  ghost predicate Consented(w: World, config: Config) {
    && (forall id :: Granted(w, Lookup(w.journals, id)))
    && (forall copy <- w.approvals :: copy.quoteHash != "")
    && (forall i :: 0 <= i < |w.opens| ==> WorkIsGranted(w, config, w.opens[i]))
    && PhaseIsGranted(w, config)
  }

  lemma WriteIsGranted(w: World, config: Config, step: Step)
    requires Consented(w, config) && Writes(w, step).Some?
    ensures Granted(Perform(w, config, step), Writes(w, step).value)
  {
    hide Saved, NextPhase, Lookup;
  }

  lemma JournalsStayGranted(w: World, config: Config, step: Step, id: string)
    requires Consented(w, config)
    ensures Granted(Perform(w, config, step), Lookup(Perform(w, config, step).journals, id))
  {
    if Writes(w, step).Some? { WriteIsGranted(w, config, step); }
    LookupNext(w, config, step, id);
    assert Granted(w, Lookup(w.journals, id));
    hide Saved, NextPhase, Writes, Lookup;
  }

  lemma WorkStaysGranted(w: World, config: Config, step: Step)
    requires Consented(w, config) && !config.autoApprove
    ensures var v := Perform(w, config, step);
      v.phase.Admitted? || v.phase.Attempting? ==> WorkIsGranted(v, config, v.phase.work)
  {
    if step.Admit? { assert Granted(w, Lookup(w.journals, step.work.id)); }
    hide Saved, Lookup, Fits, Writes, Allowed, Starts;
  }

  lemma CopyStaysGranted(w: World, config: Config, step: Step)
    requires Consented(w, config)
    ensures var v := Perform(w, config, step);
      && (v.phase.Attempting? ==> v.phase.copy.orderId == v.phase.work.id && Granted(v, v.phase.copy))
      && (v.phase.Observing? ==> Granted(v, v.phase.copy))
  {
    if step.Load? && w.phase.Admitted? { assert Granted(w, Lookup(w.journals, w.phase.work.id)); }
    if step.BeginObserve? { assert Granted(w, Lookup(w.journals, step.id)); }
    hide Saved, Lookup, Fits, Writes, Valid, Consents, Starts, Allowed;
  }

  lemma StepKeepsConsent(w: World, config: Config, step: Step)
    requires Consented(w, config) && !config.autoApprove
    ensures Consented(Perform(w, config, step), config)
  {
    var v := Perform(w, config, step);
    forall id ensures Granted(v, Lookup(v.journals, id)) { JournalsStayGranted(w, config, step, id); }
    WorkStaysGranted(w, config, step);
    CopyStaysGranted(w, config, step);
    hide Saved, Lookup, Fits, NextPhase, Writes, Granted, Allowed;
  }

  /** Without automatic approval, every opening in every run, races included, carries out a quote that
      local policy allows and an operator approved. */
  lemma {:induction false} OpensOnlyApproved(config: Config, steps: seq<Step>)
    requires !config.autoApprove
    ensures Consented(Run(BLANK, config, steps), config)
  {
    if steps != [] {
      OpensOnlyApproved(config, steps[..|steps| - 1]);
      StepKeepsConsent(Run(BLANK, config, steps[..|steps| - 1]), config, steps[|steps| - 1]);
    }
  }
}
