/** What a settlement proof establishes about the whole committed history, of which the
    proof shows only a part. */
module SettlementSoundness {
  import OutpointText
  import opened TextOrder
  import opened Wrappers
  import opened SettlementGraph
  import opened SettlementProof

  /** Every output of `h` arrived in a wallet or is a commitment spent somewhere in `chain`. */
  ghost predicate FullyResolved(chain: Chain, h: Hash) {
    h in chain && forall i: nat :: i < |chain[h].outputs| ==> !Unresolved(chain, h, i)
  }

  ghost predicate Accepted(funding: OutPoint, root: Tx, txs: Chain) {
    Summary(funding, root, txs).Success? && Summary(funding, root, txs).value.Some?
  }

  ghost function Proof(funding: OutPoint, root: Tx, txs: Chain): Settlement
    requires Accepted(funding, root, txs)
  {
    Summary(funding, root, txs).value.value
  }

  ghost predicate Confirmed(funding: OutPoint, root: Tx, txs: Chain) {
    Accepted(funding, root, txs) && Proof(funding, root, txs).confirmed
  }

  lemma WithinSpends(txs: Chain, chain: Chain, h: Hash, p: OutPoint)
    requires Within(txs, chain) && Spends(txs, h, p)
    ensures Spends(chain, h, p)
  {
  }

  /** A commitment spend that starts inside an unresolved-free part ends inside it. */
  lemma ResolvedStaysInside(txs: Chain, chain: Chain, a: Hash, b: Hash)
    requires Within(txs, chain) && ConflictFree(chain) && a in txs && Follows(chain, a, b)
    requires PendingOf(txs, txs.Keys) == {}
    ensures b in txs
  {
    var i: nat :| FollowsAt(chain, a, i, b);
    KindsAreDisjoint(txs[a].outputs[i]);
    assert OutPoint(a, i) !in PendingOf(txs, txs.Keys);
    var k :| Spends(txs, k, OutPoint(a, i));
    assert Spends(chain, k, OutPoint(a, i));
  }

  /** Nothing reachable in the history is missing from a confirmed proof. */
  lemma ConfirmedCovers(txs: Chain, chain: Chain, closing: Hash)
    requires Within(txs, chain) && ConflictFree(chain) && closing in txs
    requires PendingOf(txs, txs.Keys) == {}
    ensures Reachable(chain, closing) <= txs.Keys
  {
    forall a, b | a in txs && Follows(chain, a, b) ensures b in txs {
      ResolvedStaysInside(txs, chain, a, b);
    }
    ReachableIsLeast(chain, txs.Keys, closing);
  }

  lemma ReachableGrows(txs: Chain, chain: Chain, closing: Hash)
    requires Within(txs, chain)
    ensures Reachable(txs, closing) <= Reachable(chain, closing)
  {
    forall h | h in Reachable(txs, closing) ensures h in Reachable(chain, closing) {
      var steps: nat :| Reaches(txs, closing, h, steps);
      ReachesGrows(txs, chain, closing, h, steps);
    }
  }

  /** A part that holds everything reachable reaches it on its own. */
  lemma {:induction false} ReachesInside(txs: Chain, chain: Chain, closing: Hash, h: Hash, steps: nat)
    requires Within(txs, chain) && Reachable(chain, closing) <= txs.Keys && Reaches(chain, closing, h, steps)
    ensures Reaches(txs, closing, h, steps) && h in txs
    decreases steps
  {
    assert h in chain;
    assert h in Reachable(chain, closing);
    if steps > 0 {
      var m :| Reaches(chain, closing, m, steps - 1) && Follows(chain, m, h);
      ReachesInside(txs, chain, closing, m, steps - 1);
      var i: nat :| FollowsAt(chain, m, i, h);
      assert FollowsAt(txs, m, i, h);
      assert Follows(txs, m, h);
    }
  }

  lemma ReachableInside(txs: Chain, chain: Chain, closing: Hash)
    requires Within(txs, chain) && Reachable(chain, closing) == txs.Keys
    ensures Reachable(txs, closing) == txs.Keys
  {
    forall h | h in txs ensures h in Reachable(txs, closing) {
      assert h in Reachable(chain, closing);
      var steps: nat :| Reaches(chain, closing, h, steps);
      ReachesInside(txs, chain, closing, h, steps);
    }
  }

  /** Inside a complete graph nothing is pending exactly when the history resolves it all. */
  lemma CompletePending(txs: Chain, chain: Chain, closing: Hash)
    requires Within(txs, chain) && ConflictFree(chain) && Reachable(chain, closing) == txs.Keys && closing in txs
    ensures PendingOf(txs, txs.Keys) == PendingOf(chain, txs.Keys)
  {
    ReachableIsClosed(chain, closing);
    forall h, i: nat | h in txs && i < |txs[h].outputs| ensures Unresolved(txs, h, i) <==> Unresolved(chain, h, i) {
      if Commitment(txs[h].outputs[i]) && IsSpent(chain, OutPoint(h, i)) {
        var k :| Spends(chain, k, OutPoint(h, i));
        assert FollowsAt(chain, h, i, k);
        assert Follows(chain, h, k);
        assert Spends(txs, k, OutPoint(h, i));
      }
      if IsSpent(txs, OutPoint(h, i)) {
        var k :| Spends(txs, k, OutPoint(h, i));
        WithinSpends(txs, chain, k, OutPoint(h, i));
      }
    }
  }

  lemma NothingPending(chain: Chain, hashes: set<Hash>)
    requires hashes <= chain.Keys
    ensures PendingOf(chain, hashes) == {} <==> forall h :: h in hashes ==> FullyResolved(chain, h)
  {
    forall h | h in hashes && !FullyResolved(chain, h) ensures PendingOf(chain, hashes) != {} {
      var i: nat :| i < |chain[h].outputs| && Unresolved(chain, h, i);
      assert OutPoint(h, i) in PendingOf(chain, hashes);
    }
    if PendingOf(chain, hashes) != {} {
      var p :| p in PendingOf(chain, hashes);
      assert !FullyResolved(chain, p.tx);
    }
  }

  /** What the whole history must look like for `txs` to be a confirmed proof. */
  ghost predicate SettledBy(funding: OutPoint, root: Tx, txs: Chain, chain: Chain, closing: Hash) {
    && FundingError(funding, root).None? && |txs| <= MAX_TRANSACTIONS
    && Spends(chain, closing, funding)
    && txs.Keys == Reachable(chain, closing)
    && forall h :: h in txs ==> FullyResolved(chain, h)
  }

  lemma ConfirmedIsSettled(funding: OutPoint, root: Tx, txs: Chain, chain: Chain)
    requires Within(txs, chain) && ConflictFree(chain) && Confirmed(funding, root, txs)
    ensures SettledBy(funding, root, txs, chain, Proof(funding, root, txs).closing)
  {
    AcceptedMeans(funding, root, txs);
    var closing := Proof(funding, root, txs).closing;
    WithinSpends(txs, chain, closing, funding);
    ConfirmedCovers(txs, chain, closing);
    ReachableGrows(txs, chain, closing);
    CompletePending(txs, chain, closing);
    NothingPending(chain, txs.Keys);
  }

  lemma SettledIsConfirmed(funding: OutPoint, root: Tx, txs: Chain, chain: Chain, closing: Hash)
    requires Within(txs, chain) && ConflictFree(chain) && SettledBy(funding, root, txs, chain, closing)
    ensures Confirmed(funding, root, txs) && Proof(funding, root, txs).closing == closing
  {
    ReachableIsClosed(chain, closing);
    ReachableInside(txs, chain, closing);
    CompletePending(txs, chain, closing);
    NothingPending(chain, txs.Keys);
    WithinConflictFree(txs, chain);
    AcceptedWhen(funding, root, txs, closing);
  }

  /** Confirmation against hidden history.  A proof made of a part of the committed history
      is confirmed exactly when that part is everything the funding spend leads to in the
      whole history, and every output there is resolved. */
  lemma ConfirmedIff(funding: OutPoint, root: Tx, txs: Chain, chain: Chain)
    requires Within(txs, chain) && ConflictFree(chain)
    ensures Confirmed(funding, root, txs) <==> exists closing :: SettledBy(funding, root, txs, chain, closing)
  {
    if Confirmed(funding, root, txs) { ConfirmedIsSettled(funding, root, txs, chain); }
    if closing :| SettledBy(funding, root, txs, chain, closing) {
      SettledIsConfirmed(funding, root, txs, chain, closing);
    }
  }

  /** An accepted proof names the history's own closing transaction and only its consequences. */
  lemma AcceptedIsRelated(funding: OutPoint, root: Tx, txs: Chain, chain: Chain)
    requires Within(txs, chain) && ConflictFree(chain) && Accepted(funding, root, txs)
    ensures var s := Proof(funding, root, txs);
      Spends(chain, s.closing, funding) && s.transactions <= Reachable(chain, s.closing)
  {
    AcceptedMeans(funding, root, txs);
    WithinSpends(txs, chain, Proof(funding, root, txs).closing, funding);
    ReachableGrows(txs, chain, Proof(funding, root, txs).closing);
  }

  /** Seeing more history never makes an old transaction's resolved output pending again. */
  lemma PendingOnlyShrinks(funding: OutPoint, root: Tx, part: Chain, whole: Chain, p: OutPoint)
    requires Within(part, whole) && Accepted(funding, root, part) && Accepted(funding, root, whole)
    requires p in Proof(funding, root, whole).pending && p.tx in part
    ensures p in Proof(funding, root, part).pending
  {
    AcceptedMeans(funding, root, part);
    AcceptedMeans(funding, root, whole);
    if IsSpent(part, p) {
      var k :| Spends(part, k, p);
      WithinSpends(part, whole, k, p);
    }
    assert Unresolved(part, p.tx, p.index);
  }

  /** A confirmed proof cannot be extended: any accepted superset is the same proof. */
  lemma ConfirmedIsMaximal(funding: OutPoint, root: Tx, part: Chain, whole: Chain)
    requires Within(part, whole) && Confirmed(funding, root, part) && Accepted(funding, root, whole)
    ensures part == whole
  {
    assert Accepted(funding, root, part);
    hide Proof, Accepted, Confirmed, Summary, Reachable, PendingOf, FullyResolved, Spends, Within;
    AcceptedMeans(funding, root, whole);
    AcceptedMeans(funding, root, part);
    var s, t := Proof(funding, root, part), Proof(funding, root, whole);
    ConfirmedIsSettled(funding, root, part, whole);
    assert Spends(whole, s.closing, funding) && Spends(whole, t.closing, funding);
    SameKeys(part, whole);
  }

  lemma SameKeys(part: Chain, whole: Chain)
    requires Within(part, whole) && part.Keys == whole.Keys
    ensures part == whole
  {}

  /** A claim the coordinator certifies as confirmed accounts for the whole settlement. */
  lemma CertifiedIsSettled(chain: Chain, funding: OutPoint, claim: Claim, s: Settlement)
    requires ConflictFree(chain) && Verdict(chain, funding, claim) == Some(s) && s.confirmed
    ensures SettledBy(funding, chain[funding.tx], Restrict(chain, Elements(claim.transactions)), chain, s.closing)
    ensures claim.confirmed && claim.pending == [] && Elements(claim.transactions) == Reachable(chain, s.closing)
  {
    var txs := Restrict(chain, Elements(claim.transactions));
    AcceptedMeans(funding, chain[funding.tx], txs);
    ConfirmedIsSettled(funding, chain[funding.tx], txs, chain);
    NothingListed(claim.pending);
    hide SettledBy, Restrict, Reachable, PendingOf, Sorted;
  }

  lemma NothingListed(points: seq<string>)
    ensures Elements(points) == Texts({}) <==> points == []
  {
    assert Texts({}) == {};
    assert points == [] || points[0] in Elements(points);
  }

  /** Discoverer and checker agree: of the claims about what discovery reports, the coordinator certifies
      exactly those that list its pending outpoints in order; the transactions may be in any order. */
  lemma DiscoveredIsCertified(chain: Chain, funding: OutPoint, s: Settlement, listing: seq<Hash>, points: seq<string>)
    requires Genuine(chain, funding, s) && Distinct(listing) && Elements(listing) == s.transactions
    ensures Verdict(chain, funding, Claim(s.closing, listing, points, s.confirmed))
      == if Sorted(points) && Elements(points) == Texts(s.pending) then Some(s) else None
  {
    var txs := Restrict(chain, s.transactions);
    AcceptedMeans(funding, chain[funding.tx], txs);
    assert s.closing in Elements(listing);
    DistinctSize(listing);
  }

  /** There is exactly one such list. */
  lemma OneCertifiedList(s: Settlement)
    ensures exists points :: Sorted(points) && Elements(points) == Texts(s.pending)
    ensures forall a, b :: Sorted(a) && Elements(a) == Texts(s.pending) && Sorted(b) && Elements(b) == Texts(s.pending) ==> a == b
  {
    ListingExists(Texts(s.pending));
    var xs: seq<string> :| Sorted(xs) && forall x :: x in xs <==> x in Texts(s.pending);
    assert Elements(xs) == Texts(s.pending);
    forall a: seq<string>, b: seq<string> | Sorted(a) && Elements(a) == Texts(s.pending) && Sorted(b) && Elements(b) == Texts(s.pending)
      ensures a == b
    {
      forall x ensures x in a <==> x in b { assert x in Elements(a) <==> x in Elements(b); }
      SortedIsUnique(a, b);
    }
  }

  /** What is listed are the canonical texts of the points. */
  lemma TextIsCanonical(p: OutPoint, hash: seq<OutpointText.byte>)
    requires |hash| == 32 && p.tx == "0x" + OutpointText.HexEncode(hash) && p.index <= OutpointText.U32_MAX
    ensures OutpointText.Canonical(Text(p)) == Some(Text(p))
    ensures OutpointText.Meaning(Text(p)) == Some(OutpointText.Point(hash, p.index))
  {
    OutpointText.PrintRoundTrip(OutpointText.Point(hash, p.index));
  }

  lemma {:induction false} DistinctSize<T>(xs: seq<T>)
    requires Distinct(xs)
    ensures |Elements(xs)| == |xs|
    decreases xs
  {
    if xs != [] {
      var rest := xs[..|xs| - 1];
      assert xs == rest + [xs[|xs| - 1]];
      assert Elements(xs) == Elements(rest) + {xs[|xs| - 1]};
      DistinctSize(rest);
    }
  }

  /** With an indexer that hides nothing, what discovery reports as pending is exactly what
      the history leaves unresolved. */
  lemma DiscoveredPendingIsExact(chain: Chain, funding: OutPoint, s: Settlement)
    requires ConflictFree(chain) && Genuine(chain, funding, s) && s.transactions == Reachable(chain, s.closing)
    ensures s.pending == PendingOf(chain, s.transactions)
    ensures s.confirmed <==> forall h :: h in Reachable(chain, s.closing) ==> FullyResolved(chain, h)
  {
    var txs := Restrict(chain, s.transactions);
    AcceptedMeans(funding, chain[funding.tx], txs);
    CompletePending(txs, chain, s.closing);
    NothingPending(chain, txs.Keys);
  }

  /** The simplest case: one transaction spends the funding output straight into wallets. */
  lemma CooperativeCloseIsConfirmed(funding: OutPoint, root: Tx, closing: Hash, tx: Tx)
    requires FundingError(funding, root).None? && funding in tx.inputs && Distinct(tx.inputs)
    requires forall i :: 0 <= i < |tx.outputs| ==> Wallet(tx.outputs[i])
    ensures Confirmed(funding, root, map[closing := tx])
  {
    var txs := map[closing := tx];
    ReachableIsClosed(txs, closing);
    assert Reachable(txs, closing) == txs.Keys;
    assert PendingOf(txs, txs.Keys) == {};
    assert |txs| == 1;
    AcceptedWhen(funding, root, txs, closing);
  }

  lemma ConfirmedExample()
    ensures var funded := Tx([], [Cell(false, "type", FIBER_FUNDING_CODE_HASH, Some(20), true)]);
      Confirmed(OutPoint("f", 0), funded, map["c" := Tx([OutPoint("f", 0)], [Cell(false, "type", WALLET_CODE_HASH, Some(20), true)])])
  {
    var funded := Tx([], [Cell(false, "type", FIBER_FUNDING_CODE_HASH, Some(20), true)]);
    var close := Tx([OutPoint("f", 0)], [Cell(false, "type", WALLET_CODE_HASH, Some(20), true)]);
    CooperativeCloseIsConfirmed(OutPoint("f", 0), funded, "c", close);
  }

  // What a confirmed proof says of each output.

  /** A cell that only its owner's wallet can spend: the wallet script over a key hash, no type, no data. */
  predicate InWallet(cell: Cell) {
    && cell.codeHash == "0x9bd7e06f3ecf4be0f2fcd2188b23f1b9fcc88e5d4b65a8637b17723bbda3cce8" && cell.hashType == "type"
    && !cell.typed && cell.argsLen == Some(20) && cell.emptyData
  }

  /** A cell under the channel's commitment script. */
  predicate InCommitment(cell: Cell) {
    && cell.codeHash == "0x740dee83f87c6f309824d8fd3fbdd3c8380ee6fc9acc90b1a748438afcdf81d8" && cell.hashType == "type"
    && !cell.typed && cell.emptyData
  }

  /** The cell the channel was funded with. */
  predicate IsFunding(cell: Cell) {
    && cell.codeHash == "0x6c67887fe201ee0c7853f1682c0b77c0e6214044c156c7558269390a8afa6d7c" && cell.hashType == "type"
    && !cell.typed && cell.argsLen == Some(20) && cell.emptyData
  }

  /** A proof is confirmed exactly when it names a channel's funding output, nothing in it conflicts, it is the
      funding spend with everything that follows from it, and each of its outputs is either in a wallet or a
      commitment that one of its own transactions spends. */
  lemma ConfirmedMeans(funding: OutPoint, root: Tx, txs: Chain)
    ensures Confirmed(funding, root, txs) <==>
      && funding.index < |root.outputs| && IsFunding(root.outputs[funding.index]) && |txs| <= 32 && ConflictFree(txs)
      && (exists closing :: Spends(txs, closing, funding) && Reachable(txs, closing) == txs.Keys)
      && forall h, i: nat :: h in txs && i < |txs[h].outputs| ==>
           InWallet(txs[h].outputs[i]) || (InCommitment(txs[h].outputs[i]) && IsSpent(txs, OutPoint(h, i)))
  {
    FundingIff(funding, root);
    ResolvedIff(txs);
    hide Summary, Reachable, ConflictFree, PendingOf, IsSpent, FullyResolved, IsFunding, FundingError, InWallet, InCommitment;
    if Accepted(funding, root, txs) {
      AcceptedMeans(funding, root, txs);
      AcceptedFits(funding, root, txs);
    }
    if FundingError(funding, root).None? && |txs| <= 32 && ConflictFree(txs)
       && exists closing :: Spends(txs, closing, funding) && Reachable(txs, closing) == txs.Keys {
      var closing :| Spends(txs, closing, funding) && Reachable(txs, closing) == txs.Keys;
      AcceptedWhen(funding, root, txs, closing);
    }
  }

  lemma AcceptedFits(funding: OutPoint, root: Tx, txs: Chain)
    requires Accepted(funding, root, txs)
    ensures FundingError(funding, root).None? && |txs| <= 32
  {}

  lemma FundingIff(funding: OutPoint, root: Tx)
    ensures FundingError(funding, root).None? <==> funding.index < |root.outputs| && IsFunding(root.outputs[funding.index])
  {}

  lemma ResolvedIff(txs: Chain)
    ensures PendingOf(txs, txs.Keys) == {} <==>
      forall h, i: nat :: h in txs && i < |txs[h].outputs| ==>
        InWallet(txs[h].outputs[i]) || (InCommitment(txs[h].outputs[i]) && IsSpent(txs, OutPoint(h, i)))
  {
    NothingPending(txs, txs.Keys);
    forall h, i: nat | h in txs && i < |txs[h].outputs| ensures !Unresolved(txs, h, i) <==>
      InWallet(txs[h].outputs[i]) || (InCommitment(txs[h].outputs[i]) && IsSpent(txs, OutPoint(h, i))) {}
    hide PendingOf, IsSpent, Unresolved, InWallet, InCommitment;
    if forall h :: h in txs ==> FullyResolved(txs, h) {
      forall h, i: nat | h in txs && i < |txs[h].outputs|
        ensures InWallet(txs[h].outputs[i]) || (InCommitment(txs[h].outputs[i]) && IsSpent(txs, OutPoint(h, i)))
      {
        assert FullyResolved(txs, h);
      }
    }
  }
}
