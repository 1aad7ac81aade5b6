/** The exposure figure is conservative, and settlement is the only thing that lowers it. */
module BudgetLaws {
  import opened Budget
  import opened OutpointText
  import opened Wrappers

  /** An attempt that is still owed: neither it nor a channel it matches is reported settled. */
  ghost predicate Owed(j: Journal, channels: seq<Channel>, settled: set<string>) {
    && j.attempted && !Recovered(j.fundingOutpoint, settled)
    && forall i :: 0 <= i < |channels| && Matches(j, channels[i]) ==> !Recovered(channels[i].outpoint, settled)
  }

  /** What the owed attempts committed. */
  ghost function OwedSum(journals: seq<Journal>, channels: seq<Channel>, settled: set<string>): nat {
    if journals == [] then 0
    else
      var j := journals[|journals| - 1];
      OwedSum(journals[..|journals| - 1], channels, settled) + if Owed(j, channels, settled) then j.funding else 0
  }

  /** No channel is matched by two attempts. */
  ghost predicate OneMatch(journals: seq<Journal>, channels: seq<Channel>) {
    forall i, j, c :: 0 <= i < j < |journals| && 0 <= c < |channels| && journals[i].attempted && journals[j].attempted ==>
      !(Matches(journals[i], channels[c]) && Matches(journals[j], channels[c]))
  }

  /** What the owed attempts that match one of the first channels committed. */
  ghost function MatchedSum(journals: seq<Journal>, channels: seq<Channel>, settled: set<string>, first: nat): nat
    requires first <= |channels|
  {
    if journals == [] then 0
    else
      var j := journals[|journals| - 1];
      MatchedSum(journals[..|journals| - 1], channels, settled, first)
      + if Owed(j, channels, settled) && MatchesAny(j, channels[..first]) then j.funding else 0
  }

  lemma MatchesOneMore(j: Journal, channels: seq<Channel>, first: nat)
    requires first < |channels|
    ensures MatchesAny(j, channels[..first + 1]) <==> MatchesAny(j, channels[..first]) || Matches(j, channels[first])
  {
    hide Matches;
    if MatchesAny(j, channels[..first]) {
      var i :| 0 <= i < first && Matches(j, channels[..first][i]);
      assert channels[..first + 1][i] == channels[i];
    }
    if Matches(j, channels[first]) { assert channels[..first + 1][first] == channels[first]; }
  }

  /** One more channel accounts for at most its largest commitment, and for nothing once recovered. */
  lemma {:induction false} ChannelCovers(journals: seq<Journal>, channels: seq<Channel>, settled: set<string>, first: nat)
    requires first < |channels| && OneMatch(journals, channels)
    ensures MatchedSum(journals, channels, settled, first + 1) <= MatchedSum(journals, channels, settled, first)
      + if Recovered(channels[first].outpoint, settled) then 0 else Committed(journals, channels[first])
    ensures (forall j <- journals :: !(j.attempted && Matches(j, channels[first]))) ==>
      MatchedSum(journals, channels, settled, first + 1) == MatchedSum(journals, channels, settled, first)
  {
    hide Matches, Recovered;
    if journals != [] {
      var n := |journals| - 1;
      var rest, j := journals[..n], journals[n];
      assert OneMatch(rest, channels);
      ChannelCovers(rest, channels, settled, first);
      MatchesOneMore(j, channels, first);
      if j.attempted && Matches(j, channels[first]) {
        forall k <- rest ensures !(k.attempted && Matches(k, channels[first])) {}
      }
    }
  }

  lemma {:induction false} ChannelsCover(journals: seq<Journal>, channels: seq<Channel>, settled: set<string>, first: nat)
    requires first <= |channels| && OneMatch(journals, channels)
    requires ChannelExposure(channels[..first], journals, settled).Some?
    ensures MatchedSum(journals, channels, settled, first) <= ChannelExposure(channels[..first], journals, settled).value
  {
    hide Matches, Recovered, Current;
    if first == 0 {
      NothingMatched(journals, channels, settled);
    } else {
      assert channels[..first][..first - 1] == channels[..first - 1];
      ChannelsCover(journals, channels, settled, first - 1);
      ChannelCovers(journals, channels, settled, first - 1);
    }
  }

  lemma {:induction false} NothingMatched(journals: seq<Journal>, channels: seq<Channel>, settled: set<string>)
    ensures MatchedSum(journals, channels, settled, 0) == 0
  {
    if journals != [] { NothingMatched(journals[..|journals| - 1], channels, settled); }
  }

  lemma {:induction false} JournalsCover(journals: seq<Journal>, channels: seq<Channel>, settled: set<string>, listed: seq<Journal>)
    requires Exposure(channels, journals, settled, listed).Some?
    ensures ChannelExposure(channels, journals, settled).Some?
    ensures OwedSum(listed, channels, settled) + ChannelExposure(channels, journals, settled).value
         <= Exposure(channels, journals, settled, listed).value + MatchedSum(listed, channels, settled, |channels|)
  {
    hide Matches, Recovered, ChannelExposure;
    assert channels[..|channels|] == channels;
    if listed != [] { JournalsCover(journals, channels, settled, listed[..|listed| - 1]); }
  }

  /** The exposure is at least everything the owed attempts committed. */
  lemma ExposureIsConservative(journals: seq<Journal>, channels: seq<Channel>, settled: set<string>)
    requires OneMatch(journals, channels) && TotalExposure(channels, journals, settled).Some?
    ensures OwedSum(journals, channels, settled) <= TotalExposure(channels, journals, settled).value
  {
    hide Matches, Recovered, ChannelExposure;
    assert channels[..|channels|] == channels;
    JournalsCover(journals, channels, settled, journals);
    ChannelsCover(journals, channels, settled, |channels|);
  }

  /** Without the matching assumption two attempts can hide behind one channel: it is counted once. */
  lemma SharedChannelUndercounts()
    ensures var journals := [Journal("a", "", true, true, Some("c"), None, 600), Journal("b", "", true, true, Some("c"), None, 600)];
      var channels := [Channel(Some("c"), None, "0", true)];
      TotalExposure(channels, journals, {}) == Some(600) && OwedSum(journals, channels, {}) == 1200
  {
    var a, b := Journal("a", "", true, true, Some("c"), None, 600), Journal("b", "", true, true, Some("c"), None, 600);
    var c := Channel(Some("c"), None, "0", true);
    assert [a, b][..1] == [a] && [a][..0] == [] && [c][..0] == [];
    assert "0"[1..] == "" && Digits("0"[1..], 10, 0) == Some(0);
    assert Number("0") == Some(0);
    assert Matches(a, [c][0]) && Matches(b, [c][0]);
    assert Committed([a], c) == 600;
    assert [a, b][1] == b && Matches(b, c) && Committed([a, b][..1], c) == 600;
    assert Committed([a, b], c) == 600;
    assert ChannelExposure([c], [a, b], {}) == Some(600);
    assert Exposure([c], [a, b], {}, [a]) == Some(600);
    assert OwedSum([a], [c], {}) == 600;
  }

  // Each attempt by itself.

  lemma {:induction false} CommittedAtLeast(journals: seq<Journal>, c: Channel, i: nat)
    requires i < |journals| && journals[i].attempted && Matches(journals[i], c)
    ensures journals[i].funding <= Committed(journals, c)
  {
    if i < |journals| - 1 { CommittedAtLeast(journals[..|journals| - 1], c, i); }
  }

  lemma {:induction false} ChannelCounts(channels: seq<Channel>, journals: seq<Journal>, settled: set<string>, i: nat, k: nat)
    requires i < |journals| && k < |channels| && journals[i].attempted && Matches(journals[i], channels[k])
    requires !Recovered(channels[k].outpoint, settled) && ChannelExposure(channels, journals, settled).Some?
    ensures journals[i].funding <= ChannelExposure(channels, journals, settled).value
  {
    hide Matches, Recovered, Current;
    var n := |channels| - 1;
    if k < n { ChannelCounts(channels[..n], journals, settled, i, k); } else { CommittedAtLeast(journals, channels[k], i); }
  }

  lemma {:induction false} JournalCounts(channels: seq<Channel>, journals: seq<Journal>, settled: set<string>, listed: seq<Journal>, i: nat)
    requires Exposure(channels, journals, settled, listed).Some?
    ensures ChannelExposure(channels, journals, settled).Some?
    ensures ChannelExposure(channels, journals, settled).value <= Exposure(channels, journals, settled, listed).value
    ensures i < |listed| && Unaccounted(listed[i], channels, settled) ==>
      listed[i].funding <= Exposure(channels, journals, settled, listed).value
  {
    hide ChannelExposure, Unaccounted;
    if listed != [] { JournalCounts(channels, journals, settled, listed[..|listed| - 1], i); }
  }

  /** For any channel list, with or without shared matches, the exposure covers each owed attempt. */
  lemma OwedIsCounted(channels: seq<Channel>, journals: seq<Journal>, settled: set<string>, i: nat)
    requires i < |journals| && Owed(journals[i], channels, settled) && TotalExposure(channels, journals, settled).Some?
    ensures journals[i].funding <= TotalExposure(channels, journals, settled).value
  {
    hide Matches, Recovered, ChannelExposure;
    JournalCounts(channels, journals, settled, journals, i);
    if MatchesAny(journals[i], channels) {
      var k :| 0 <= k < |channels| && Matches(journals[i], channels[k]);
      ChannelCounts(channels, journals, settled, i, k);
    }
  }

  // Channels that disappear from the list.

  ghost predicate Among(left: seq<Channel>, channels: seq<Channel>) {
    forall c <- left :: c in channels
  }

  lemma StillOwed(j: Journal, left: seq<Channel>, channels: seq<Channel>, settled: set<string>)
    requires Among(left, channels) && Owed(j, channels, settled)
    ensures Owed(j, left, settled)
  {
    hide Matches, Recovered;
    forall m | 0 <= m < |left| && Matches(j, left[m]) ensures !Recovered(left[m].outpoint, settled) {
      assert left[m] in channels;
    }
  }

  lemma {:induction false} OwedSumGrows(journals: seq<Journal>, left: seq<Channel>, channels: seq<Channel>, settled: set<string>)
    requires Among(left, channels)
    ensures OwedSum(journals, channels, settled) <= OwedSum(journals, left, settled)
  {
    hide Owed, Among;
    if journals != [] {
      var j := journals[|journals| - 1];
      OwedSumGrows(journals[..|journals| - 1], left, channels, settled);
      if Owed(j, channels, settled) { StillOwed(j, left, channels, settled); }
    }
  }

  lemma OneMatchStays(journals: seq<Journal>, left: seq<Channel>, channels: seq<Channel>)
    requires Among(left, channels) && OneMatch(journals, channels)
    ensures OneMatch(journals, left)
  {
    hide Matches;
    forall i, j, c | 0 <= i < j < |journals| && 0 <= c < |left| && journals[i].attempted && journals[j].attempted
      ensures !(Matches(journals[i], left[c]) && Matches(journals[j], left[c]))
    {
      assert left[c] in channels;
      var k :| 0 <= k < |channels| && channels[k] == left[c];
      assert !(Matches(journals[i], channels[k]) && Matches(journals[j], channels[k]));
    }
  }

  /** Whatever channels the node stops listing, the figure over the rest still covers everything that was
      owed with all of them. */
  lemma DroppedChannelsStayCounted(left: seq<Channel>, channels: seq<Channel>, journals: seq<Journal>, settled: set<string>)
    requires Among(left, channels) && OneMatch(journals, channels) && TotalExposure(left, journals, settled).Some?
    ensures OwedSum(journals, channels, settled) <= TotalExposure(left, journals, settled).value
  {
    OneMatchStays(journals, left, channels);
    OwedSumGrows(journals, left, channels, settled);
    ExposureIsConservative(journals, left, settled);
  }

  // Settlement.

  lemma RecoveredGrows(point: Option<string>, settled: set<string>, more: set<string>)
    requires settled <= more && Recovered(point, settled)
    ensures Recovered(point, more)
  {}

  lemma {:induction false} ChannelSettles(channels: seq<Channel>, journals: seq<Journal>, settled: set<string>, more: set<string>)
    requires settled <= more && ChannelExposure(channels, journals, settled).Some?
    ensures ChannelExposure(channels, journals, more).Some?
    ensures ChannelExposure(channels, journals, more).value <= ChannelExposure(channels, journals, settled).value
  {
    hide Current, Recovered;
    if channels != [] {
      var c := channels[|channels| - 1];
      ChannelSettles(channels[..|channels| - 1], journals, settled, more);
      if Recovered(c.outpoint, settled) { RecoveredGrows(c.outpoint, settled, more); }
    }
  }

  lemma {:induction false} JournalSettles(channels: seq<Channel>, journals: seq<Journal>, settled: set<string>,
                                          more: set<string>, listed: seq<Journal>)
    requires settled <= more && Exposure(channels, journals, settled, listed).Some?
    ensures Exposure(channels, journals, more, listed).Some?
    ensures Exposure(channels, journals, more, listed).value <= Exposure(channels, journals, settled, listed).value
  {
    hide ChannelExposure, Recovered, MatchesAny;
    if listed == [] {
      ChannelSettles(channels, journals, settled, more);
    } else {
      var j := listed[|listed| - 1];
      JournalSettles(channels, journals, settled, more, listed[..|listed| - 1]);
      if Recovered(j.fundingOutpoint, settled) { RecoveredGrows(j.fundingOutpoint, settled, more); }
    }
  }

  /** More verified settlements never raise the figure, and never turn it into an error. */
  lemma SettlementOnlyLowers(channels: seq<Channel>, journals: seq<Journal>, settled: set<string>, more: set<string>)
    requires settled <= more && TotalExposure(channels, journals, settled).Some?
    ensures TotalExposure(channels, journals, more).Some?
    ensures TotalExposure(channels, journals, more).value <= TotalExposure(channels, journals, settled).value
  {
    JournalSettles(channels, journals, settled, more, journals);
  }
}
