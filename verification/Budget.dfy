/** The connector's funding budget: what its channels and its journal of opening attempts commit,
    and the proof that the figure is conservative. */
module Budget {
  import opened OutpointText
  import opened Wrappers

  const SHANNONS := 100_000_000
  const CHANNEL_RESERVE := 99

  /** The connector's durable record of one order. */
  datatype Journal = Journal(orderId: string, quoteHash: string, approved: bool, attempted: bool,
                             channelId: Option<string>, fundingOutpoint: Option<string>, funding: nat)

  datatype Channel = Channel(channelId: Option<string>, outpoint: Option<string>, balance: string, established: bool)

  function Max(a: nat, b: nat): nat { if a < b then b else a }

  function CanonicalOf(point: Option<string>): Option<string> {
    if point.Some? then Canonical(point.value) else None
  }

  predicate Matches(j: Journal, c: Channel) {
    || (j.channelId.Some? && c.channelId == j.channelId)
    || (CanonicalOf(j.fundingOutpoint).Some? && CanonicalOf(c.outpoint) == CanonicalOf(j.fundingOutpoint))
  }

  predicate Recovered(point: Option<string>, settled: set<string>) {
    CanonicalOf(point).Some? && CanonicalOf(point).value in settled
  }

  predicate MatchesAny(j: Journal, channels: seq<Channel>) {
    exists i :: 0 <= i < |channels| && Matches(j, channels[i])
  }

  /** The largest commitment of an attempt matching a channel. */
  function Committed(journals: seq<Journal>, c: Channel): nat {
    if journals == [] then 0
    else
      var (rest, j) := (Committed(journals[..|journals| - 1], c), journals[|journals| - 1]);
      if j.attempted && Matches(j, c) then Max(rest, j.funding) else rest
  }

  function Add(a: nat, b: nat): Option<nat> {
    if a + b <= U64_MAX then Some(a + b) else None
  }

  /** The balance rounded up to whole units plus the reserve; None when unreadable or too large. */
  function Current(c: Channel): Option<nat> {
    match Number(c.balance)
    case None => None
    case Some(shannons) => Add((shannons + SHANNONS - 1) / SHANNONS, CHANNEL_RESERVE)
  }

  function ChannelExposure(channels: seq<Channel>, journals: seq<Journal>, settled: set<string>): Option<nat> {
    if channels == [] then Some(0)
    else
      var (rest, c) := (ChannelExposure(channels[..|channels| - 1], journals, settled), channels[|channels| - 1]);
      if rest.None? || Recovered(c.outpoint, settled) then rest
      else if Current(c).None? then None
      else Add(rest.value, Max(Current(c).value, Committed(journals, c)))
  }

  /** An attempt that no listed channel accounts for and no settlement has resolved. */
  predicate Unaccounted(j: Journal, channels: seq<Channel>, settled: set<string>) {
    j.attempted && !Recovered(j.fundingOutpoint, settled) && !MatchesAny(j, channels)
  }

  function Exposure(channels: seq<Channel>, journals: seq<Journal>, settled: set<string>, listed: seq<Journal>): Option<nat> {
    if listed == [] then ChannelExposure(channels, journals, settled)
    else
      var (rest, j) := (Exposure(channels, journals, settled, listed[..|listed| - 1]), listed[|listed| - 1]);
      if rest.None? || !Unaccounted(j, channels, settled) then rest
      else if j.funding == 0 then None
      else Add(rest.value, j.funding)
  }

  /** The total the provider policy reports and the opening guard subtracts. */
  function TotalExposure(channels: seq<Channel>, journals: seq<Journal>, settled: set<string>): Option<nat> {
    Exposure(channels, journals, settled, journals)
  }

  predicate OpeningInProgress(channels: seq<Channel>, journals: seq<Journal>, settled: set<string>) {
    exists i :: 0 <= i < |journals| && Pending(journals[i], channels, settled)
  }

  /** An attempt not yet seen as an established channel. */
  predicate Pending(j: Journal, channels: seq<Channel>, settled: set<string>) {
    && j.attempted && !Recovered(j.fundingOutpoint, settled)
    && !exists i :: 0 <= i < |channels| && Matches(j, channels[i]) && channels[i].established
  }

  method MaxCommitment(journals: seq<Journal>, c: Channel) returns (committed: nat)
    ensures committed == Committed(journals, c)
  {
    committed := 0;
    for i := 0 to |journals|
      invariant committed == Committed(journals[..i], c)
    {
      assert journals[..i + 1][..i] == journals[..i];
      if journals[i].attempted && Matches(journals[i], c) { committed := Max(committed, journals[i].funding); }
    }
    assert journals[..|journals|] == journals;
  }

  method FindMatch(j: Journal, channels: seq<Channel>) returns (found: bool)
    ensures found <==> MatchesAny(j, channels)
  {
    hide Matches;
    for i := 0 to |channels|
      invariant forall k :: 0 <= k < i ==> !Matches(j, channels[k])
    {
      if Matches(j, channels[i]) { return true; }
    }
    return false;
  }

  lemma {:induction false} ErrorsStick(channels: seq<Channel>, journals: seq<Journal>, settled: set<string>, listed: seq<Journal>, i: nat)
    requires i <= |listed| && Exposure(channels, journals, settled, listed[..i]).None?
    ensures Exposure(channels, journals, settled, listed).None?
    decreases |listed| - i
  {
    if i < |listed| {
      assert listed[..i + 1][..i] == listed[..i];
      ErrorsStick(channels, journals, settled, listed, i + 1);
    } else {
      assert listed[..i] == listed;
    }
  }

  lemma {:induction false} ChannelErrorsStick(channels: seq<Channel>, journals: seq<Journal>, settled: set<string>, i: nat)
    requires i <= |channels| && ChannelExposure(channels[..i], journals, settled).None?
    ensures ChannelExposure(channels, journals, settled).None?
    decreases |channels| - i
  {
    if i < |channels| {
      assert channels[..i + 1][..i] == channels[..i];
      ChannelErrorsStick(channels, journals, settled, i + 1);
    } else {
      assert channels[..i] == channels;
    }
  }

  method SumChannels(channels: seq<Channel>, journals: seq<Journal>, settled: set<string>) returns (total: Option<nat>)
    ensures total == ChannelExposure(channels, journals, settled)
  {
    hide Current, Recovered, Committed;
    var sum := 0;
    for i := 0 to |channels|
      invariant Some(sum) == ChannelExposure(channels[..i], journals, settled)
    {
      assert channels[..i + 1][..i] == channels[..i];
      var c := channels[i];
      if !Recovered(c.outpoint, settled) {
        var current := Current(c);
        var committed := MaxCommitment(journals, c);
        var next := if current.Some? then Add(sum, Max(current.value, committed)) else None;
        assert next == ChannelExposure(channels[..i + 1], journals, settled);
        if next.None? {
          ChannelErrorsStick(channels, journals, settled, i + 1);
          return None;
        }
        sum := next.value;
      }
    }
    assert channels[..|channels|] == channels;
    return Some(sum);
  }

  method SumExposure(channels: seq<Channel>, journals: seq<Journal>, settled: set<string>) returns (total: Option<nat>)
    ensures total == TotalExposure(channels, journals, settled)
  {
    hide ChannelExposure, Recovered, MatchesAny;
    total := SumChannels(channels, journals, settled);
    assert journals[..0] == [];
    if total.None? { ErrorsStick(channels, journals, settled, journals, 0); return; }
    var sum := total.value;
    for i := 0 to |journals|
      invariant Some(sum) == Exposure(channels, journals, settled, journals[..i])
    {
      assert journals[..i + 1][..i] == journals[..i];
      var j := journals[i];
      if j.attempted && !Recovered(j.fundingOutpoint, settled) {
        var found := FindMatch(j, channels);
        if !found {
          var next := if j.funding == 0 then None else Add(sum, j.funding);
          assert next == Exposure(channels, journals, settled, journals[..i + 1]);
          if next.None? {
            ErrorsStick(channels, journals, settled, journals, i + 1);
            return None;
          }
          sum := next.value;
        }
      }
    }
    assert journals[..|journals|] == journals;
    return Some(sum);
  }
}
