/** The connector opening channels: a durable journal, an unreliable coordinator and node, crashes at
    any point, and an operator approving orders from another process. */
module Opening {
  import opened Budget
  import opened Wrappers

  const PROVIDER_RESERVE := 99
  const CHANGE_MARGIN := 63
  const VALIDITY := 900

  datatype Config = Config(node: string, owner: string, maxOrder: nat, maxTotal: nat, minFee: nat,
                           autoApprove: bool, acceptPublic: bool, allowed: set<string>)

  /** An order's quote as the worker sees it. */
  datatype Work = Work(id: string, quoteHash: string, provider: string, recipient: string, merchant: string,
                       capacity: nat, reserve: nat, funding: nat, fee: nat, expiresAt: int)

  /** What the worker looked at when it computed its exposure. */
  datatype View = View(channels: seq<Channel>, journals: seq<Journal>, settled: set<string>)

  const NOTHING := View([], [], {})

  datatype Stage = Loaded | Guarded | Equipped | Begun | Recorded | Issued

  /** Where the worker is between two effects. Everything here is lost in a crash, and an attempt that
      ends with an error loses it too. */
  datatype Phase =
    | Idle
    | Admitted(work: Work)
    | Attempting(stage: Stage, work: Work, copy: Journal, view: View)
    | Observing(copy: Journal)

  /** `opens` logs the channel openings sent to the node; `started` is the coordinator's record;
      `approvals` are the journal copies operators hold and `granted` logs the quotes they approved;
      `resolved` are the orders whose funding has really come back. */
  datatype World = World(journals: seq<Journal>, started: set<string>, opens: seq<Work>, phase: Phase,
                         approvals: set<Journal>, granted: set<(string, string)>, resolved: set<string>)

  /** `answered` says whether the coordinator's answer arrives; `again` that it lets an order it already
      started be started once more, which a correct coordinator never does. */
  datatype Step =
    | Admit(now: int, work: Work)
    | Load(now: int)
    | Guard(channels: seq<Channel>, settled: set<string>)
    | Equip(available: nat, peerListed: bool, lockKnown: bool)
    | Start(answered: bool, again: bool)
    | Record
    | Issue
    | Answer(accepted: bool, channelId: Option<string>)
    | BeginObserve(id: string)
    | EndObserve(seenId: string, outpoint: string, quoted: Option<nat>)
    | BeginApprove(now: int, approved: Work)
    | EndApprove(copy: Journal)
    | Crash
    | Resolve(id: string)

  function JournalIndex(journals: seq<Journal>, id: string): (i: nat)
    ensures i <= |journals|
    ensures i < |journals| ==> journals[i].orderId == id
    ensures forall k :: 0 <= k < i ==> journals[k].orderId != id
  {
    if journals == [] || journals[0].orderId == id then 0 else 1 + JournalIndex(journals[1..], id)
  }

  /** A stored journal, or a blank one. */
  function Lookup(journals: seq<Journal>, id: string): (j: Journal)
    ensures j.orderId == id
  {
    var i := JournalIndex(journals, id);
    if i < |journals| then journals[i] else Journal(id, "", false, false, None, None, 0)
  }

  /** Overwrites the whole record. */
  function Saved(journals: seq<Journal>, j: Journal): seq<Journal> {
    var i := JournalIndex(journals, j.orderId);
    if i < |journals| then journals[i := j] else journals + [j]
  }

  /** What local policy requires of a quote at any time. A quote's digest is never empty. */
  predicate Allowed(work: Work, config: Config) {
    && work.provider == config.node && work.recipient == config.owner && work.quoteHash != ""
    && 100 <= work.capacity <= 10_000_000 && work.funding == work.capacity + work.reserve + 1
    && work.reserve == PROVIDER_RESERVE && work.funding <= config.maxOrder && config.minFee <= work.fee
    && (config.acceptPublic || work.merchant in config.allowed)
  }

  predicate Valid(work: Work, config: Config, now: int) {
    Allowed(work, config) && now < work.expiresAt <= now + VALIDITY
  }

  /** Local consent: the operator approved this order's quote, unless the configuration approves all. */
  predicate Consents(copy: Journal, work: Work, config: Config) {
    (config.autoApprove || copy.approved) && (copy.quoteHash == "" || copy.quoteHash == work.quoteHash)
  }

  /** The funding limit, before anything is asked of the coordinator. */
  predicate Fits(v: View, funding: nat, maxTotal: nat) {
    var exposure := TotalExposure(v.channels, v.journals, v.settled);
    && !OpeningInProgress(v.channels, v.journals, v.settled)
    && exposure.Some? && funding <= if maxTotal < exposure.value then 0 else maxTotal - exposure.value
  }

  function Attempted(copy: Journal, work: Work): Journal {
    copy.(quoteHash := work.quoteHash, attempted := true, funding := work.funding)
  }

  /** An accepted opening names its channel, or none; a refusal leaves the journal as it was. */
  function Answered(copy: Journal, accepted: bool, channelId: Option<string>): Journal {
    if accepted then copy.(channelId := channelId) else copy
  }

  function Approved(copy: Journal): Journal { copy.(approved := true) }

  /** What observing a channel writes into the journal; a legacy attempt without a figure takes the
      quoted one. */
  function Observed(copy: Journal, id: string, outpoint: string, quoted: Option<nat>): Option<Journal> {
    var seen := copy.(channelId := Some(id), fundingOutpoint := Some(outpoint));
    if !(copy.attempted && copy.funding == 0) then Some(seen)
    else if quoted.Some? then Some(seen.(funding := quoted.value)) else None
  }

  predicate At(p: Phase, stage: Stage) { p.Attempting? && p.stage == stage }

  /** Where the worker goes; a step that does not fit its phase changes nothing. */
  function NextPhase(w: World, config: Config, step: Step): Phase {
    var p := w.phase;
    match step
    case Admit(now, work) =>
      if p.Idle? && Valid(work, config, now) && Consents(Lookup(w.journals, work.id), work, config) then Admitted(work) else p
    case Load(now) =>
      if !p.Admitted? then p
      else if Lookup(w.journals, p.work.id).attempted || !Valid(p.work, config, now) then Idle
      else Attempting(Loaded, p.work, Lookup(w.journals, p.work.id), NOTHING)
    case Guard(channels, settled) =>
      var view := View(channels, w.journals, settled);
      if !At(p, Loaded) then p
      else if Fits(view, p.work.funding, config.maxTotal) then p.(stage := Guarded, view := view) else Idle
    case Equip(available, peerListed, lockKnown) =>
      if !At(p, Guarded) then p
      else if p.work.funding + CHANGE_MARGIN <= available && peerListed && lockKnown then p.(stage := Equipped) else Idle
    case Start(answered, again) =>
      if !At(p, Equipped) then p
      else if Starts(w, step) && answered then p.(stage := Begun) else Idle
    case Record => if At(p, Begun) then p.(stage := Recorded, copy := Attempted(p.copy, p.work)) else p
    case Issue => if At(p, Recorded) then p.(stage := Issued) else p
    case Answer(_, _) => if At(p, Issued) then Idle else p
    case BeginObserve(id) => if p.Idle? then Observing(Lookup(w.journals, id)) else p
    case EndObserve(_, _, _) => if p.Observing? then Idle else p
    case Crash => Idle
    case BeginApprove(_, _) | EndApprove(_) | Resolve(_) => p
  }

  /** Whether the coordinator starts the order. */
  predicate Starts(w: World, step: Step) {
    step.Start? && At(w.phase, Equipped) && (w.phase.work.id !in w.started || step.again)
  }

  /** The record a step saves, if any. */
  function Writes(w: World, step: Step): Option<Journal> {
    match step
    case Record => if At(w.phase, Begun) then Some(Attempted(w.phase.copy, w.phase.work)) else None
    case Answer(accepted, channelId) => if At(w.phase, Issued) then Some(Answered(w.phase.copy, accepted, channelId)) else None
    case EndObserve(id, outpoint, quoted) => if w.phase.Observing? then Observed(w.phase.copy, id, outpoint, quoted) else None
    case EndApprove(copy) => if copy in w.approvals then Some(Approved(copy)) else None
    case _ => None
  }

  function Perform(w: World, config: Config, step: Step): World {
    var write := Writes(w, step);
    World(
      if write.Some? then Saved(w.journals, write.value) else w.journals,
      if Starts(w, step) then w.started + {w.phase.work.id} else w.started,
      if step.Issue? && At(w.phase, Recorded) then w.opens + [w.phase.work] else w.opens,
      NextPhase(w, config, step),
      if step.BeginApprove? && Valid(step.approved, config, step.now)
        then w.approvals + {Lookup(w.journals, step.approved.id).(quoteHash := step.approved.quoteHash)} else w.approvals,
      if step.EndApprove? && step.copy in w.approvals then w.granted + {(step.copy.orderId, step.copy.quoteHash)} else w.granted,
      if step.Resolve? then w.resolved + {step.id} else w.resolved)
  }

  function Run(w: World, config: Config, steps: seq<Step>): World {
    if steps == [] then w else Perform(Run(w, config, steps[..|steps| - 1]), config, steps[|steps| - 1])
  }
}
