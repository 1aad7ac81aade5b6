/** The graph of committed transactions behind a spent channel, and what a settlement
    summary of a set of transactions means.  Nothing here traverses anything: reachability
    is a relation over the whole set, so the traversals in `Settlement` have an
    independent definition to meet. */
module SettlementGraph {
  import opened Wrappers

  const FIBER_FUNDING_CODE_HASH := "0x6c67887fe201ee0c7853f1682c0b77c0e6214044c156c7558269390a8afa6d7c"
  const COMMITMENT_CODE_HASH := "0x740dee83f87c6f309824d8fd3fbdd3c8380ee6fc9acc90b1a748438afcdf81d8"
  const WALLET_CODE_HASH := "0x9bd7e06f3ecf4be0f2fcd2188b23f1b9fcc88e5d4b65a8637b17723bbda3cce8"
  const MAX_TRANSACTIONS := 32

  type Hash = string

  datatype OutPoint = OutPoint(tx: Hash, index: nat)

  /** `argsLen` is None when the lock arguments are not hex. */
  datatype Cell = Cell(typed: bool, hashType: string, codeHash: string, argsLen: Option<nat>, emptyData: bool)

  datatype Tx = Tx(inputs: seq<OutPoint>, outputs: seq<Cell>)

  /** Committed transactions by hash. */
  type Chain = map<Hash, Tx>

  datatype Settlement = Settlement(closing: Hash, transactions: set<Hash>, pending: set<OutPoint>, confirmed: bool)

  datatype Error =
    | NotCommitted | OutputMissing | UnexpectedFundingOutput | UnexpectedFundingArguments
    | ProofTooLarge | ConflictingSpends | DoesNotSpend | TransactionMissing | Unrelated
    | InvalidProofSize | DuplicateTransaction | NotSpent | ClaimDiffers
    | IndexerUnavailable | CursorStuck | IndexerScanLimit | OutputScanLimit | TransactionScanLimit

  predicate Contract(cell: Cell, code: string) {
    !cell.typed && cell.hashType == "type" && cell.codeHash == code
  }

  predicate Wallet(cell: Cell) {
    Contract(cell, WALLET_CODE_HASH) && cell.emptyData && cell.argsLen == Some(20)
  }

  predicate Commitment(cell: Cell) {
    Contract(cell, COMMITMENT_CODE_HASH) && cell.emptyData
  }

  /** The two recognised kinds of output cannot be confused. */
  lemma KindsAreDisjoint(cell: Cell)
    ensures !(Wallet(cell) && Commitment(cell))
  {
    assert WALLET_CODE_HASH[64] == 'e' && COMMITMENT_CODE_HASH[64] == 'd';
  }

  predicate Spends(txs: Chain, h: Hash, point: OutPoint) {
    h in txs && point in txs[h].inputs
  }

  predicate Distinct<T(==)>(xs: seq<T>) {
    forall i, j :: 0 <= i < j < |xs| ==> xs[i] != xs[j]
  }

  /** At most one spender per outpoint, naming it once: what consensus guarantees. */
  ghost predicate ConflictFree(txs: Chain) {
    && (forall h, k, p :: Spends(txs, h, p) && Spends(txs, k, p) ==> h == k)
    && (forall h :: h in txs ==> Distinct(txs[h].inputs))
  }

  ghost predicate IsSpent(txs: Chain, point: OutPoint) {
    exists h :: Spends(txs, h, point)
  }

  /** Transaction `b` spends output `i` of `a`, and that output is a commitment. */
  ghost predicate FollowsAt(txs: Chain, a: Hash, i: nat, b: Hash) {
    a in txs && i < |txs[a].outputs| && Commitment(txs[a].outputs[i]) && Spends(txs, b, OutPoint(a, i))
  }

  ghost predicate Follows(txs: Chain, a: Hash, b: Hash) {
    exists i: nat :: FollowsAt(txs, a, i, b)
  }

  /** `b` is `steps` commitment spends away from `a`. */
  ghost predicate Reaches(txs: Chain, a: Hash, b: Hash, steps: nat)
    decreases steps
  {
    if steps == 0 then a == b && a in txs
    else exists m :: Reaches(txs, a, m, steps - 1) && Follows(txs, m, b)
  }

  ghost function Reachable(txs: Chain, a: Hash): set<Hash> {
    set b | b in txs && exists steps: nat :: Reaches(txs, a, b, steps)
  }

  /** An output that neither reached a wallet nor is a commitment spent inside `txs`. */
  ghost predicate Unresolved(txs: Chain, h: Hash, i: nat) {
    h in txs && i < |txs[h].outputs|
    && !Wallet(txs[h].outputs[i])
    && !(Commitment(txs[h].outputs[i]) && IsSpent(txs, OutPoint(h, i)))
  }

  ghost function PendingOf(txs: Chain, hashes: set<Hash>): set<OutPoint>
    requires hashes <= txs.Keys
  {
    set h, i | h in hashes && 0 <= i < |txs[h].outputs| && Unresolved(txs, h, i) :: OutPoint(h, i)
  }

  /** What the funding transaction must look like before anything else is considered. */
  function FundingError(funding: OutPoint, root: Tx): Option<Error> {
    if funding.index >= |root.outputs| then Some(OutputMissing)
    else
      var cell := root.outputs[funding.index];
      if !Contract(cell, FIBER_FUNDING_CODE_HASH) || !cell.emptyData then Some(UnexpectedFundingOutput)
      else if cell.argsLen != Some(20) then Some(UnexpectedFundingArguments)
      else None
  }

  /** The meaning of a set of transactions as a settlement proof of `funding`. */
  ghost function Summary(funding: OutPoint, root: Tx, txs: Chain): Result<Option<Settlement>, Error> {
    if FundingError(funding, root).Some? then Failure(FundingError(funding, root).value)
    else if |txs| > MAX_TRANSACTIONS then Failure(ProofTooLarge)
    else if !ConflictFree(txs) then Failure(ConflictingSpends)
    else if !IsSpent(txs, funding) then
      if txs == map[] then Success(None) else Failure(DoesNotSpend)
    else
      var closing :| Spends(txs, closing, funding);
      if Reachable(txs, closing) != txs.Keys then Failure(Unrelated)
      else
        var pending := PendingOf(txs, txs.Keys);
        Success(Some(Settlement(closing, txs.Keys, pending, pending == {})))
  }

  /** `txs` is a faithful part of the history `chain`. */
  ghost predicate Within(txs: Chain, chain: Chain) {
    txs.Keys <= chain.Keys && forall h :: h in txs ==> txs[h] == chain[h]
  }

  function Restrict(chain: Chain, hashes: set<Hash>): (txs: Chain)
    ensures Within(txs, chain) && txs.Keys == chain.Keys * hashes
  {
    map h | h in chain && h in hashes :: chain[h]
  }

  lemma WithinConflictFree(txs: Chain, chain: Chain)
    requires Within(txs, chain) && ConflictFree(chain)
    ensures ConflictFree(txs)
  {
    forall h, k, p | Spends(txs, h, p) && Spends(txs, k, p) ensures h == k {
      assert Spends(chain, h, p) && Spends(chain, k, p);
    }
  }

  lemma {:induction false} ReachesGrows(txs: Chain, chain: Chain, a: Hash, b: Hash, steps: nat)
    requires Within(txs, chain) && Reaches(txs, a, b, steps)
    ensures Reaches(chain, a, b, steps) && b in txs
    decreases steps
  {
    if steps > 0 {
      var m :| Reaches(txs, a, m, steps - 1) && Follows(txs, m, b);
      ReachesGrows(txs, chain, a, m, steps - 1);
      var i: nat :| FollowsAt(txs, m, i, b);
      assert FollowsAt(chain, m, i, b);
      assert Follows(chain, m, b);
    }
  }

  ghost predicate ClosedUnder(txs: Chain, hashes: set<Hash>) {
    forall a, b :: a in hashes && Follows(txs, a, b) ==> b in hashes
  }

  /** A closed set that holds the start holds everything reachable. */
  lemma {:induction false} ClosedContains(txs: Chain, hashes: set<Hash>, a: Hash, b: Hash, steps: nat)
    requires ClosedUnder(txs, hashes) && a in hashes && Reaches(txs, a, b, steps)
    ensures b in hashes
    decreases steps
  {
    if steps > 0 {
      var m :| Reaches(txs, a, m, steps - 1) && Follows(txs, m, b);
      ClosedContains(txs, hashes, a, m, steps - 1);
    }
  }

  lemma ReachableIsLeast(txs: Chain, hashes: set<Hash>, a: Hash)
    requires a in hashes && ClosedUnder(txs, hashes)
    ensures Reachable(txs, a) <= hashes
  {
    forall b | b in Reachable(txs, a) ensures b in hashes {
      var steps: nat :| Reaches(txs, a, b, steps);
      ClosedContains(txs, hashes, a, b, steps);
    }
  }

  lemma ReachableIsClosed(txs: Chain, a: Hash)
    requires a in txs
    ensures a in Reachable(txs, a) && ClosedUnder(txs, Reachable(txs, a))
  {
    assert Reaches(txs, a, a, 0);
    forall m, b | m in Reachable(txs, a) && Follows(txs, m, b) ensures b in Reachable(txs, a) {
      var steps: nat :| Reaches(txs, a, m, steps);
      assert Reaches(txs, a, b, steps + 1);
    }
  }

  /** What an accepted, spent proof says about its transactions. */
  lemma AcceptedMeans(funding: OutPoint, root: Tx, txs: Chain)
    requires Summary(funding, root, txs).Success? && Summary(funding, root, txs).value.Some?
    ensures var s := Summary(funding, root, txs).value.value;
      ConflictFree(txs) && Spends(txs, s.closing, funding) && Reachable(txs, s.closing) == txs.Keys
      && s.transactions == txs.Keys && s.pending == PendingOf(txs, txs.Keys) && (s.confirmed <==> s.pending == {})
  {
  }

  /** The converse of `AcceptedMeans`: what makes a set of transactions an accepted proof. */
  lemma AcceptedWhen(funding: OutPoint, root: Tx, txs: Chain, closing: Hash)
    requires FundingError(funding, root).None? && |txs| <= MAX_TRANSACTIONS && ConflictFree(txs)
    requires Spends(txs, closing, funding) && Reachable(txs, closing) == txs.Keys
    ensures var pending := PendingOf(txs, txs.Keys);
      Summary(funding, root, txs) == Success(Some(Settlement(closing, txs.Keys, pending, pending == {})))
  {
  }
}
