/** The worker's own code for one order and the journal operations it uses, when nothing interrupts
    it: what it leaves behind is what the state machine reaches in the same steps. */
module OpeningWorker {
  import opened Budget
  import opened Opening
  import opened Wrappers

  /** What the node and the coordinator do during an attempt: the wallet's free balance, whether the
      merchant's node is a listed peer and the closing lock is known, whether the coordinator's answer
      arrives, and whether the node accepts and which channel it names. */
  datatype Outcome = Outcome(available: nat, peerListed: bool, lockKnown: bool, answered: bool, accepted: bool, channelId: Option<string>)

  predicate Ready(seen: Outcome, work: Work) {
    work.funding + CHANGE_MARGIN <= seen.available && seen.peerListed && seen.lockKnown
  }

  /** Opening an admitted order, as steps of the machine; steps after an early exit change nothing. */
  function Attempt(w: World, config: Config, now: int, channels: seq<Channel>, settled: set<string>, seen: Outcome): World {
    var fits := Perform(Perform(w, config, Load(now)), config, Guard(channels, settled));
    var ready := Perform(fits, config, Equip(seen.available, seen.peerListed, seen.lockKnown));
    var recorded := Perform(Perform(ready, config, Start(seen.answered, false)), config, Record);
    Perform(Perform(recorded, config, Issue), config, Answer(seen.accepted, seen.channelId))
  }

  /** Steps that find the worker idle change nothing. */
  lemma IdleStays(w: World, config: Config, channels: seq<Channel>, settled: set<string>, seen: Outcome)
    requires w.phase.Idle?
    ensures Perform(w, config, Guard(channels, settled)) == w
    ensures Perform(w, config, Equip(seen.available, seen.peerListed, seen.lockKnown)) == w
    ensures Perform(w, config, Start(seen.answered, false)) == w
    ensures Perform(w, config, Record) == w && Perform(w, config, Issue) == w && Perform(w, config, Answer(seen.accepted, seen.channelId)) == w
  {}

  /** From the coordinator's answer on, nothing stops the attempt. */
  lemma BegunEnds(w: World, config: Config, seen: Outcome)
    requires At(w.phase, Begun)
    ensures var j := Attempted(w.phase.copy, w.phase.work);
      Perform(Perform(Perform(w, config, Record), config, Issue), config, Answer(seen.accepted, seen.channelId))
      == w.(phase := Idle, opens := w.opens + [w.phase.work], journals := Saved(Saved(w.journals, j), Answered(j, seen.accepted, seen.channelId)))
  {
    hide Saved;
  }

  /** From the guard on. */
  lemma GuardedEnds(w: World, config: Config, seen: Outcome)
    requires At(w.phase, Guarded)
    ensures var work := w.phase.work;
      var j := Attempted(w.phase.copy, work);
      var started := w.(phase := Idle, started := w.started + {work.id});
      var ready := Perform(w, config, Equip(seen.available, seen.peerListed, seen.lockKnown));
      var recorded := Perform(Perform(ready, config, Start(seen.answered, false)), config, Record);
      Perform(Perform(recorded, config, Issue), config, Answer(seen.accepted, seen.channelId)) ==
        if !Ready(seen, work) || work.id in w.started then w.(phase := Idle)
        else if !seen.answered then started
        else started.(opens := w.opens + [work], journals := Saved(Saved(w.journals, j), Answered(j, seen.accepted, seen.channelId)))
  {
    hide Saved;
    var work := w.phase.work;
    var idle := w.(phase := Idle);
    IdleStays(idle, config, [], {}, seen);
    IdleStays(idle.(started := w.started + {work.id}), config, [], {}, seen);
    if Ready(seen, work) && work.id !in w.started && seen.answered {
      BegunEnds(w.(phase := w.phase.(stage := Begun), started := w.started + {work.id}), config, seen);
    }
  }

  /** What opening an admitted order comes to, by where it stops. */
  lemma AttemptCases(w: World, config: Config, now: int, channels: seq<Channel>, settled: set<string>, seen: Outcome)
    requires w.phase.Admitted?
    ensures var work, copy := w.phase.work, Lookup(w.journals, w.phase.work.id);
      var j := Attempted(copy, work);
      var started := w.(phase := Idle, started := w.started + {work.id});
      Attempt(w, config, now, channels, settled, seen) ==
        if copy.attempted || !Valid(work, config, now) || !Fits(View(channels, w.journals, settled), work.funding, config.maxTotal)
           || !Ready(seen, work) || work.id in w.started then w.(phase := Idle)
        else if !seen.answered then started
        else started.(opens := w.opens + [work], journals := Saved(Saved(w.journals, j), Answered(j, seen.accepted, seen.channelId)))
  {
    hide Fits, Saved, Lookup, Valid;
    var work, copy := w.phase.work, Lookup(w.journals, w.phase.work.id);
    var view := View(channels, w.journals, settled);
    IdleStays(w.(phase := Idle), config, channels, settled, seen);
    if !copy.attempted && Valid(work, config, now) {
      var loaded := w.(phase := Attempting(Loaded, work, copy, NOTHING));
      assert Perform(w, config, Load(now)) == loaded;
      if Fits(view, work.funding, config.maxTotal) {
        var guarded := w.(phase := Attempting(Guarded, work, copy, view));
        assert Perform(loaded, config, Guard(channels, settled)) == guarded;
        GuardedEnds(guarded, config, seen);
      }
    }
  }

  class Connector {
    const config: Config
    var journals: seq<Journal>
    /** The coordinator's record and the node's log of requests. */
    var started: set<string>
    var opens: seq<Work>
    ghost var approvals: set<Journal>
    ghost var granted: set<(string, string)>
    ghost var resolved: set<string>

    ghost function Snapshot(): World
      reads this
    {
      World(journals, started, opens, Idle, approvals, granted, resolved)
    }

    constructor (config: Config)
      ensures this.config == config && Snapshot() == World([], {}, [], Idle, {}, {}, {})
    {
      this.config := config;
      journals, started, opens, approvals, granted, resolved := [], {}, [], {}, {}, {};
    }

    method FindJournal(id: string) returns (i: nat)
      ensures i == JournalIndex(journals, id)
    {
      i := 0;
      while i < |journals| && journals[i].orderId != id
        invariant i <= |journals|
        invariant forall k :: 0 <= k < i ==> journals[k].orderId != id
      {
        i := i + 1;
      }
    }

    method ReadJournal(id: string) returns (j: Journal)
      ensures j == Lookup(journals, id)
    {
      var i := FindJournal(id);
      return if i < |journals| then journals[i] else Journal(id, "", false, false, None, None, 0);
    }

    method Save(j: Journal)
      modifies this`journals
      ensures journals == Saved(old(journals), j)
    {
      var i := FindJournal(j.orderId);
      if i < |journals| { journals := journals[i := j]; } else { journals := journals + [j]; }
    }

    method AnyPending(channels: seq<Channel>, settled: set<string>) returns (pending: bool)
      ensures pending <==> OpeningInProgress(channels, journals, settled)
    {
      hide Pending;
      for i := 0 to |journals|
        invariant forall k :: 0 <= k < i ==> !Pending(journals[k], channels, settled)
      {
        if Pending(journals[i], channels, settled) { return true; }
      }
      return false;
    }

    /** The second half of an attempt: the order was admitted, and the journal is read again. */
    method OpenOrder(work: Work, now: int, channels: seq<Channel>, settled: set<string>, seen: Outcome)
      modifies this`journals, this`started, this`opens
      ensures Snapshot() == Attempt(old(Snapshot()).(phase := Admitted(work)), config, now, channels, settled, seen)
    {
      hide Saved, Lookup, OpeningInProgress, TotalExposure, Attempt, Valid;
      AttemptCases(Snapshot().(phase := Admitted(work)), config, now, channels, settled, seen);
      var journal := ReadJournal(work.id);
      if journal.attempted { return; }
      if !Valid(work, config, now) { return; }
      var pending := AnyPending(channels, settled);
      if pending { return; }
      var exposure := SumExposure(channels, journals, settled);
      if exposure.None? { return; }
      var room := if config.maxTotal < exposure.value then 0 else config.maxTotal - exposure.value;
      if room < work.funding { return; }
      if seen.available < work.funding + CHANGE_MARGIN || !seen.peerListed || !seen.lockKnown { return; }
      if work.id in started { return; }
      started := started + {work.id};
      if !seen.answered { return; }
      journal := journal.(quoteHash := work.quoteHash, attempted := true, funding := work.funding);
      Save(journal);
      opens := opens + [work];
      if seen.accepted { journal := journal.(channelId := seen.channelId); }
      Save(journal);
    }

    /** One accepted order: local consent, then the opening, the order being validated before each. */
    method Process(work: Work, now: int, later: int, channels: seq<Channel>, settled: set<string>, seen: Outcome)
      modifies this`journals, this`started, this`opens
      ensures var admitted := Perform(old(Snapshot()), config, Admit(now, work));
        Snapshot() == if admitted.phase.Admitted? then Attempt(admitted, config, later, channels, settled, seen) else admitted
    {
      hide Saved, Lookup, Attempt, Valid;
      if !Valid(work, config, now) { return; }
      var journal := ReadJournal(work.id);
      if !config.autoApprove && !journal.approved { return; }
      if journal.quoteHash != "" && journal.quoteHash != work.quoteHash { return; }
      OpenOrder(work, later, channels, settled, seen);
    }

    /** An operator's approval that nothing interrupts. */
    method Approve(now: int, work: Work)
      modifies this`journals, this`approvals, this`granted
      ensures Snapshot() == if !Valid(work, config, now) then old(Snapshot()) else
        Perform(Perform(old(Snapshot()), config, BeginApprove(now, work)), config,
                EndApprove(Lookup(old(journals), work.id).(quoteHash := work.quoteHash)))
    {
      hide Saved, Lookup, Valid;
      if !Valid(work, config, now) { return; }
      var journal := ReadJournal(work.id);
      journal := journal.(quoteHash := work.quoteHash);
      approvals := approvals + {journal};
      granted := granted + {(work.id, work.quoteHash)};
      Save(journal.(approved := true));
    }
  }
}
