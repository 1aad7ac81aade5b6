/** The exposure figure from above: what it can come to at most, what it comes to exactly, and when a
    settlement frees the budget. */
module BudgetBounds {
  import opened Budget
  import opened BudgetLaws
  import opened OutpointText
  import opened Wrappers

  /** A listed channel's balance in whole units, rounded up, and the reserve beside it. */
  function Holding(c: Channel): nat {
    if Number(c.balance).Some? then (Number(c.balance).value + 99_999_999) / 100_000_000 + 99 else 0
  }

  /** What the channels that are not recovered hold. */
  function Holdings(channels: seq<Channel>, settled: set<string>): nat {
    if channels == [] then 0
    else
      var c := channels[|channels| - 1];
      Holdings(channels[..|channels| - 1], settled) + if Recovered(c.outpoint, settled) then 0 else Holding(c)
  }

  /** How often an attempt can be counted: for every unrecovered channel it matches, or once when it is
      neither recovered nor matched by any. */
  function Claims(j: Journal, channels: seq<Channel>, settled: set<string>): nat {
    if !j.attempted then 0
    else if MatchesAny(j, channels) then OpenMatches(j, channels, settled)
    else if Recovered(j.fundingOutpoint, settled) then 0 else 1
  }

  function OpenMatches(j: Journal, channels: seq<Channel>, settled: set<string>): nat {
    if channels == [] then 0
    else
      var c := channels[|channels| - 1];
      OpenMatches(j, channels[..|channels| - 1], settled) + if Matches(j, c) && !Recovered(c.outpoint, settled) then 1 else 0
  }

  function Claimed(journals: seq<Journal>, channels: seq<Channel>, settled: set<string>): nat {
    if journals == [] then 0
    else
      var j := journals[|journals| - 1];
      Claimed(journals[..|journals| - 1], channels, settled) + Claims(j, channels, settled) * j.funding
  }

  // Channels and attempts apart.

  /** What the attempts that match a channel commit together. */
  function MatchedBy(journals: seq<Journal>, c: Channel): nat {
    if journals == [] then 0
    else
      var j := journals[|journals| - 1];
      MatchedBy(journals[..|journals| - 1], c) + if j.attempted && Matches(j, c) then j.funding else 0
  }

  lemma {:induction false} CommittedAtMost(journals: seq<Journal>, c: Channel)
    ensures Committed(journals, c) <= MatchedBy(journals, c)
  {
    hide Matches;
    if journals != [] { CommittedAtMost(journals[..|journals| - 1], c); }
  }

  /** Every attempt once for each unrecovered channel it matches. */
  function Weighted(journals: seq<Journal>, channels: seq<Channel>, settled: set<string>): nat {
    if journals == [] then 0
    else
      var j := journals[|journals| - 1];
      Weighted(journals[..|journals| - 1], channels, settled) + (if j.attempted then OpenMatches(j, channels, settled) else 0) * j.funding
  }

  lemma {:induction false} WeightedNothing(journals: seq<Journal>, settled: set<string>)
    ensures Weighted(journals, [], settled) == 0
  {
    if journals != [] { WeightedNothing(journals[..|journals| - 1], settled); }
  }

  lemma {:induction false} WeightedMore(journals: seq<Journal>, channels: seq<Channel>, c: Channel, settled: set<string>)
    ensures Weighted(journals, channels + [c], settled)
      == Weighted(journals, channels, settled) + if Recovered(c.outpoint, settled) then 0 else MatchedBy(journals, c)
  {
    hide Matches, Recovered;
    assert (channels + [c])[..|channels|] == channels;
    if journals != [] {
      WeightedMore(journals[..|journals| - 1], channels, c, settled);
      var j := journals[|journals| - 1];
      assert OpenMatches(j, channels + [c], settled)
        == OpenMatches(j, channels, settled) + if Matches(j, c) && !Recovered(c.outpoint, settled) then 1 else 0;
    }
  }

  lemma CurrentIsHolding(c: Channel)
    ensures Current(c).Some? ==> Current(c).value == Holding(c)
  {
    hide Number;
  }

  lemma {:induction false} ChannelsAtMost(channels: seq<Channel>, journals: seq<Journal>, settled: set<string>)
    requires ChannelExposure(channels, journals, settled).Some?
    ensures Holdings(channels, settled) <= ChannelExposure(channels, journals, settled).value
    ensures ChannelExposure(channels, journals, settled).value <= Holdings(channels, settled) + Weighted(journals, channels, settled)
  {
    hide Holding, Current, Matches;
    if channels == [] {
      WeightedNothing(journals, settled);
    } else {
      var n := |channels| - 1;
      var c := channels[n];
      ChannelsAtMost(channels[..n], journals, settled);
      CurrentIsHolding(c);
      CommittedAtMost(journals, c);
      WeightedMore(journals, channels[..n], c, settled);
      assert channels == channels[..n] + [c];
    }
  }

  lemma {:induction false} JournalsAtMost(channels: seq<Channel>, journals: seq<Journal>, settled: set<string>, listed: seq<Journal>)
    requires Exposure(channels, journals, settled, listed).Some?
    ensures ChannelExposure(channels, journals, settled).Some?
    ensures Exposure(channels, journals, settled, listed).value + Weighted(listed, channels, settled)
         == ChannelExposure(channels, journals, settled).value + Claimed(listed, channels, settled)
  {
    hide ChannelExposure, Matches, Recovered;
    if listed != [] {
      var j := listed[|listed| - 1];
      JournalsAtMost(channels, journals, settled, listed[..|listed| - 1]);
      if !MatchesAny(j, channels) { NoMatchNoClaim(j, channels, settled); }
    }
  }

  lemma {:induction false} NoMatchNoClaim(j: Journal, channels: seq<Channel>, settled: set<string>)
    requires !MatchesAny(j, channels)
    ensures OpenMatches(j, channels, settled) == 0
  {
    hide Matches;
    if channels != [] {
      var n := |channels| - 1;
      assert forall i :: 0 <= i < n ==> !Matches(j, channels[..n][i]);
      NoMatchNoClaim(j, channels[..n], settled);
    }
  }

  /** On every input: at least what the unrecovered channels hold, and at most that and each attempt as
      often as it can be counted. */
  lemma ExposureIsBounded(channels: seq<Channel>, journals: seq<Journal>, settled: set<string>)
    requires TotalExposure(channels, journals, settled).Some?
    ensures Holdings(channels, settled) <= TotalExposure(channels, journals, settled).value
    ensures TotalExposure(channels, journals, settled).value <= Holdings(channels, settled) + Claimed(journals, channels, settled)
  {
    hide ChannelExposure, Holdings;
    JournalsAtMost(channels, journals, settled, journals);
    JournalCounts(channels, journals, settled, journals, |journals|);
    ChannelsAtMost(channels, journals, settled);
  }

  // When the figure is what is owed.

  /** Every attempt matches at most one unrecovered channel, and only while it is owed. */
  ghost predicate ClearMatches(journals: seq<Journal>, channels: seq<Channel>, settled: set<string>) {
    forall j <- journals :: j.attempted ==>
      OpenMatches(j, channels, settled) <= 1 && (OpenMatches(j, channels, settled) == 1 ==> Owed(j, channels, settled))
  }

  lemma {:induction false} OpenMatch(j: Journal, channels: seq<Channel>, settled: set<string>, i: nat)
    requires i < |channels| && Matches(j, channels[i]) && !Recovered(channels[i].outpoint, settled)
    ensures OpenMatches(j, channels, settled) > 0
  {
    hide Matches, Recovered;
    if i < |channels| - 1 { OpenMatch(j, channels[..|channels| - 1], settled, i); }
  }

  /** An attempt is counted once when it is owed and not at all otherwise, exactly under that condition. */
  lemma CountedAsOwedIff(j: Journal, channels: seq<Channel>, settled: set<string>)
    requires j.attempted
    ensures Claims(j, channels, settled) == (if Owed(j, channels, settled) then 1 else 0)
      <==> OpenMatches(j, channels, settled) <= 1 && (OpenMatches(j, channels, settled) == 1 ==> Owed(j, channels, settled))
  {
    hide Matches, Recovered;
    if MatchesAny(j, channels) {
      var i :| 0 <= i < |channels| && Matches(j, channels[i]);
      if !Recovered(channels[i].outpoint, settled) { OpenMatch(j, channels, settled, i); }
    } else {
      NoMatchNoClaim(j, channels, settled);
    }
  }

  lemma OneClaim(j: Journal, channels: seq<Channel>, settled: set<string>)
    requires ClearMatches([j], channels, settled)
    ensures Claims(j, channels, settled) * j.funding == if Owed(j, channels, settled) then j.funding else 0
  {
    assert j in [j];
    if j.attempted { CountedAsOwedIff(j, channels, settled); }
    hide Claims, OpenMatches;
  }

  lemma {:induction false} ClaimedIsOwed(journals: seq<Journal>, channels: seq<Channel>, settled: set<string>)
    requires ClearMatches(journals, channels, settled)
    ensures Claimed(journals, channels, settled) == OwedSum(journals, channels, settled)
  {
    if journals != [] {
      var n := |journals| - 1;
      assert ClearMatches([journals[n]], channels, settled) && ClearMatches(journals[..n], channels, settled);
      hide Owed, Claims, ClearMatches;
      OneClaim(journals[n], channels, settled);
      ClaimedIsOwed(journals[..n], channels, settled);
    }
  }

  /** With clear matches the figure is at most what is owed and what the unrecovered channels hold. */
  lemma ExposureIsNoMore(channels: seq<Channel>, journals: seq<Journal>, settled: set<string>)
    requires ClearMatches(journals, channels, settled) && TotalExposure(channels, journals, settled).Some?
    ensures TotalExposure(channels, journals, settled).value <= OwedSum(journals, channels, settled) + Holdings(channels, settled)
  {
    ExposureIsBounded(channels, journals, settled);
    ClaimedIsOwed(journals, channels, settled);
  }

  lemma CommittedOne(j: Journal, c: Channel)
    requires j.attempted && Matches(j, c)
    ensures Committed([j], c) == j.funding
  {
    hide Matches;
    assert [j][..0] == [] && [j][0] == j;
    assert Committed([], c) == 0;
  }

  /** Without them it can be more: a node that lists one channel twice has its attempt counted twice. */
  lemma TwoListingsOvercount()
    ensures var journals, channels := [Journal("a", "", true, true, Some("c"), None, 600)], [Channel(Some("c"), None, "0", true), Channel(Some("c"), None, "0", true)];
      && TotalExposure(channels, journals, {}) == Some(1200)
      && OwedSum(journals, channels, {}) + Holdings(channels, {}) == 798
  {
    var j, c := Journal("a", "", true, true, Some("c"), None, 600), Channel(Some("c"), None, "0", true);
    assert [c, c][..1] == [c] && [c][..0] == [] && [j][..0] == [];
    assert "0"[1..] == "" && Digits("0"[1..], 10, 0) == Some(0);
    assert Number("0") == Some(0);
    assert Matches(j, c) && Matches(j, [c, c][0]);
    CommittedOne(j, c);
    assert ChannelExposure([c], [j], {}) == Some(600);
    assert Holding(c) == 99 && Holdings([], {}) == 0 && !Recovered(c.outpoint, {});
    assert Holdings([c], {}) == 99;
    assert OwedSum([], [c, c], {}) == 0;
  }

  // What frees the budget.

  lemma OneMoreCounted(rest: seq<Channel>, c: Channel, journals: seq<Journal>, settled: set<string>)
    ensures ChannelExposure(rest + [c], journals, settled) == Some(0)
      <==> ChannelExposure(rest, journals, settled) == Some(0) && Recovered(c.outpoint, settled)
  {
    hide Recovered, Number, Committed;
    assert (rest + [c])[..|rest|] == rest;
    assert Current(c).Some? ==> Current(c).value >= 99;
    hide Current;
  }

  lemma {:induction false} NothingCounted(channels: seq<Channel>, journals: seq<Journal>, settled: set<string>)
    ensures ChannelExposure(channels, journals, settled) == Some(0) <==> AllRecovered(channels, settled)
  {
    if channels != [] {
      hide Recovered, ChannelExposure, AllRecovered;
      var n := |channels| - 1;
      NothingCounted(channels[..n], journals, settled);
      OneMoreCounted(channels[..n], channels[n], journals, settled);
      OneMoreRecovered(channels[..n], channels[n], settled);
      assert channels == channels[..n] + [channels[n]];
    }
  }

  predicate AllRecovered(channels: seq<Channel>, settled: set<string>) {
    forall c <- channels :: Recovered(c.outpoint, settled)
  }

  lemma OneMoreRecovered(rest: seq<Channel>, c: Channel, settled: set<string>)
    ensures AllRecovered(rest + [c], settled) <==> AllRecovered(rest, settled) && Recovered(c.outpoint, settled)
  {
    hide Recovered;
  }

  lemma {:induction false} NothingListed(channels: seq<Channel>, journals: seq<Journal>, settled: set<string>, listed: seq<Journal>)
    ensures Exposure(channels, journals, settled, listed) == Some(0) <==>
      && ChannelExposure(channels, journals, settled) == Some(0)
      && forall j <- listed :: j.attempted ==> Recovered(j.fundingOutpoint, settled) || MatchesAny(j, channels)
  {
    hide Recovered, MatchesAny, ChannelExposure;
    if listed != [] {
      var n := |listed| - 1;
      NothingListed(channels, journals, settled, listed[..n]);
      assert listed == listed[..n] + [listed[n]];
    }
  }

  function PointOf(text: Option<string>): Option<Point> {
    if text.Some? then Meaning(text.value) else None
  }

  /** A channel is an attempt's own when the node gave it that identifier, or when it was funded at the same
      point, however the two spell it. */
  predicate IsOwn(j: Journal, c: Channel) {
    (j.channelId.Some? && c.channelId == j.channelId) || (PointOf(j.fundingOutpoint).Some? && PointOf(c.outpoint) == PointOf(j.fundingOutpoint))
  }

  lemma MatchesIff(j: Journal, c: Channel)
    ensures Matches(j, c) <==> IsOwn(j, c)
  {
    if CanonicalOf(j.fundingOutpoint).Some? && CanonicalOf(c.outpoint).Some? {
      CanonicalIff(j.fundingOutpoint.value, c.outpoint.value);
    }
    hide Meaning, Print;
  }

  /** The chain has settled a point: its canonical text is among the verified ones. */
  predicate IsSettled(text: Option<string>, settled: set<string>) {
    PointOf(text).Some? && Print(PointOf(text).value) in settled
  }

  /** The budget is free exactly when the chain shows every listed channel settled, and every attempt
      settled or seen as one of them; no balance matters then. */
  lemma FreeIff(channels: seq<Channel>, journals: seq<Journal>, settled: set<string>)
    ensures TotalExposure(channels, journals, settled) == Some(0) <==>
      && (forall c <- channels :: IsSettled(c.outpoint, settled))
      && (forall j <- journals :: j.attempted ==> IsSettled(j.fundingOutpoint, settled) || exists c <- channels :: IsOwn(j, c))
  {
    NothingCounted(channels, journals, settled);
    NothingListed(channels, journals, settled, journals);
    forall j: Journal ensures MatchesAny(j, channels) <==> exists c <- channels :: IsOwn(j, c) { OwnIff(j, channels); }
    forall text ensures Recovered(text, settled) <==> IsSettled(text, settled) {}
    hide Matches, MatchesAny, ChannelExposure, Recovered, IsSettled, IsOwn;
  }

  lemma OwnIff(j: Journal, channels: seq<Channel>)
    ensures MatchesAny(j, channels) <==> exists c <- channels :: IsOwn(j, c)
  {
    forall c: Channel ensures Matches(j, c) <==> IsOwn(j, c) { MatchesIff(j, c); }
    hide Matches, IsOwn;
    if MatchesAny(j, channels) {
      var i :| 0 <= i < |channels| && Matches(j, channels[i]);
      assert channels[i] in channels;
    }
    if c :| c in channels && IsOwn(j, c) {
      var i :| 0 <= i < |channels| && channels[i] == c;
    }
  }

  /** Channels that differ at most in the balance of what is recovered. */
  predicate AlikeBut(c: Channel, d: Channel, settled: set<string>) {
    d == c.(balance := d.balance) && (Recovered(c.outpoint, settled) || d == c)
  }

  lemma {:induction false} ChannelsAlike(channels: seq<Channel>, others: seq<Channel>, journals: seq<Journal>, settled: set<string>)
    requires |others| == |channels| && forall i :: 0 <= i < |channels| ==> AlikeBut(channels[i], others[i], settled)
    ensures ChannelExposure(others, journals, settled) == ChannelExposure(channels, journals, settled)
  {
    hide Recovered, Current, Committed;
    if channels != [] {
      var n := |channels| - 1;
      assert AlikeBut(channels[n], others[n], settled);
      ChannelsAlike(channels[..n], others[..n], journals, settled);
    }
  }

  lemma {:induction false} ListedAlike(channels: seq<Channel>, others: seq<Channel>, journals: seq<Journal>, settled: set<string>, listed: seq<Journal>)
    requires ChannelExposure(others, journals, settled) == ChannelExposure(channels, journals, settled)
    requires forall j <- listed :: MatchesAny(j, others) <==> MatchesAny(j, channels)
    ensures Exposure(others, journals, settled, listed) == Exposure(channels, journals, settled, listed)
  {
    hide ChannelExposure, Recovered, MatchesAny;
    if listed != [] {
      assert listed[|listed| - 1] in listed;
      ListedAlike(channels, others, journals, settled, listed[..|listed| - 1]);
    }
  }

  lemma MatchesAlike(j: Journal, channels: seq<Channel>, others: seq<Channel>, settled: set<string>)
    requires |others| == |channels| && forall i :: 0 <= i < |channels| ==> AlikeBut(channels[i], others[i], settled)
    ensures MatchesAny(j, others) <==> MatchesAny(j, channels)
  {
    forall i | 0 <= i < |channels| ensures Matches(j, others[i]) <==> Matches(j, channels[i]) {
      assert AlikeBut(channels[i], others[i], settled);
    }
    hide Matches, AlikeBut;
  }

  /** The balance of a recovered channel never matters, readable or not. */
  lemma RecoveredBalanceIsIgnored(channels: seq<Channel>, others: seq<Channel>, journals: seq<Journal>, settled: set<string>)
    requires |others| == |channels| && forall i :: 0 <= i < |channels| ==> AlikeBut(channels[i], others[i], settled)
    ensures TotalExposure(others, journals, settled) == TotalExposure(channels, journals, settled)
  {
    hide MatchesAny, AlikeBut, ChannelExposure;
    ChannelsAlike(channels, others, journals, settled);
    forall j <- journals ensures MatchesAny(j, others) <==> MatchesAny(j, channels) { MatchesAlike(j, channels, others, settled); }
    ListedAlike(channels, others, journals, settled, journals);
  }

  // When there is a figure at all.

  /** The commitments without any bound on their sum. */
  function ChannelFigure(channels: seq<Channel>, journals: seq<Journal>, settled: set<string>): nat {
    if channels == [] then 0
    else
      var c := channels[|channels| - 1];
      ChannelFigure(channels[..|channels| - 1], journals, settled)
      + if Recovered(c.outpoint, settled) then 0 else Max(Holding(c), Committed(journals, c))
  }

  function Figure(channels: seq<Channel>, journals: seq<Journal>, settled: set<string>, listed: seq<Journal>): nat {
    if listed == [] then ChannelFigure(channels, journals, settled)
    else
      var j := listed[|listed| - 1];
      Figure(channels, journals, settled, listed[..|listed| - 1]) + if Unaccounted(j, channels, settled) then j.funding else 0
  }

  predicate ReadableBalances(channels: seq<Channel>, settled: set<string>) {
    forall c <- channels :: !Recovered(c.outpoint, settled) ==> Number(c.balance).Some?
  }

  predicate FundedAttempts(listed: seq<Journal>, channels: seq<Channel>, settled: set<string>) {
    forall j <- listed :: Unaccounted(j, channels, settled) ==> j.funding > 0
  }

  lemma CurrentExact(c: Channel)
    ensures Current(c) == if Number(c.balance).Some? then Some(Holding(c)) else None
  {
    NumberFits(c.balance);
    hide Number;
  }

  lemma ReadableMore(channels: seq<Channel>, settled: set<string>)
    requires channels != []
    ensures var (rest, c) := (channels[..|channels| - 1], channels[|channels| - 1]);
      ReadableBalances(channels, settled)
      <==> ReadableBalances(rest, settled) && (!Recovered(c.outpoint, settled) ==> Number(c.balance).Some?)
  {
    hide Recovered, Number;
    assert channels == channels[..|channels| - 1] + [channels[|channels| - 1]];
  }

  lemma {:induction false} ChannelExact(channels: seq<Channel>, journals: seq<Journal>, settled: set<string>)
    ensures ChannelExposure(channels, journals, settled)
      == if ReadableBalances(channels, settled) && ChannelFigure(channels, journals, settled) <= OutpointText.U64_MAX
         then Some(ChannelFigure(channels, journals, settled)) else None
  {
    if channels != [] {
      hide Recovered, Number, Current, Holding, Committed, ReadableBalances;
      ChannelExact(channels[..|channels| - 1], journals, settled);
      CurrentExact(channels[|channels| - 1]);
      ReadableMore(channels, settled);
    }
  }

  lemma {:induction false} ListedExact(channels: seq<Channel>, journals: seq<Journal>, settled: set<string>, listed: seq<Journal>)
    ensures Exposure(channels, journals, settled, listed)
      == if ReadableBalances(channels, settled) && FundedAttempts(listed, channels, settled)
            && Figure(channels, journals, settled, listed) <= OutpointText.U64_MAX
         then Some(Figure(channels, journals, settled, listed)) else None
  {
    if listed == [] {
      ChannelExact(channels, journals, settled);
    } else {
      hide Recovered, ChannelFigure, Unaccounted, ReadableBalances;
      var n := |listed| - 1;
      var j := listed[n];
      ListedExact(channels, journals, settled, listed[..n]);
      assert FundedAttempts(listed, channels, settled) <==>
        FundedAttempts(listed[..n], channels, settled) && (Unaccounted(j, channels, settled) ==> j.funding > 0) by {
        assert listed == listed[..n] + [j];
      }
      hide FundedAttempts;
    }
  }

  /** There is a figure exactly when every unrecovered balance is a number, every attempt that nothing
      accounts for has an amount, and their sum fits 64 bits; then it is that sum, whatever the order. */
  lemma ExposureIsExact(channels: seq<Channel>, journals: seq<Journal>, settled: set<string>)
    ensures TotalExposure(channels, journals, settled)
      == if ReadableBalances(channels, settled) && FundedAttempts(journals, channels, settled)
            && Figure(channels, journals, settled, journals) <= OutpointText.U64_MAX
         then Some(Figure(channels, journals, settled, journals)) else None
  {
    ListedExact(channels, journals, settled, journals);
  }
}
