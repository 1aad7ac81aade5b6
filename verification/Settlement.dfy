/** Read-only proof of native channel settlement: the checker `Summarize`/`Verify`, the
    indexer query `Spender` and the bounded discovery `Inspect`. */
module SettlementProof {
  import OutpointText
  import opened TextOrder
  import opened Wrappers
  import opened SettlementGraph

  /** Enter one transaction's inputs, refusing a point that is already spent. */
  method RecordInputs(spends: map<OutPoint, Hash>, hash: Hash, inputs: seq<OutPoint>)
    returns (r: Option<map<OutPoint, Hash>>)
    ensures r.Some? <==> (forall i :: 0 <= i < |inputs| ==> inputs[i] !in spends && inputs[i] !in inputs[..i])
    ensures r.Some? ==> forall p :: p in r.value <==> p in spends || p in inputs
    ensures r.Some? ==> forall p :: p in r.value ==> r.value[p] == if p in spends then spends[p] else hash
  {
    var found := spends;
    for i := 0 to |inputs|
      invariant forall p :: p in found <==> p in spends || p in inputs[..i]
      invariant forall p :: p in found ==> found[p] == if p in spends then spends[p] else hash
      invariant forall j :: 0 <= j < i ==> inputs[j] !in spends && inputs[j] !in inputs[..j]
    {
      if inputs[i] in found { return None; }
      found := found[inputs[i] := hash];
    }
    assert inputs[..|inputs|] == inputs;
    return Some(found);
  }

  /** The spend table of a conflict-free set of transactions. */
  ghost predicate SpendTable(spends: map<OutPoint, Hash>, txs: Chain) {
    && (forall p :: p in spends ==> Spends(txs, spends[p], p))
    && (forall h, p :: Spends(txs, h, p) ==> p in spends && spends[p] == h)
  }

  /** A transaction joins a conflict-free set exactly when none of its inputs is already
      spent there or named twice. */
  lemma JoinConflictFree(txs: Chain, hash: Hash, tx: Tx, spends: map<OutPoint, Hash>)
    requires hash !in txs && ConflictFree(txs) && SpendTable(spends, txs)
    ensures ConflictFree(txs[hash := tx]) <==>
      forall i :: 0 <= i < |tx.inputs| ==> tx.inputs[i] !in spends && tx.inputs[i] !in tx.inputs[..i]
  {
    var more := txs[hash := tx];
    forall h, p ensures Spends(more, h, p) <==> if h == hash then p in tx.inputs else Spends(txs, h, p) {}
    if ConflictFree(more) {
      forall i | 0 <= i < |tx.inputs| ensures tx.inputs[i] !in spends && tx.inputs[i] !in tx.inputs[..i] {
        assert Spends(more, hash, tx.inputs[i]);
        assert Distinct(more[hash].inputs);
      }
    }
  }

  lemma PartConflictFree(part: Chain, txs: Chain)
    requires Within(part, txs) && !ConflictFree(part)
    ensures !ConflictFree(txs)
  {
    if ConflictFree(txs) { WithinConflictFree(part, txs); }
  }

  /** Record every spend of the supplied transactions; None when a point is spent twice. */
  method CollectSpends(txs: Chain) returns (spends: Option<map<OutPoint, Hash>>)
    ensures spends.Some? <==> ConflictFree(txs)
    ensures spends.Some? ==> SpendTable(spends.value, txs)
  {
    var found: map<OutPoint, Hash> := map[];
    var todo := txs.Keys;
    ghost var done := map[];
    while todo != {}
      invariant todo <= txs.Keys && done.Keys == txs.Keys - todo && Within(done, txs)
      invariant ConflictFree(done) && SpendTable(found, done)
      decreases todo
    {
      var hash :| hash in todo;
      var recorded := RecordInputs(found, hash, txs[hash].inputs);
      ghost var more := done[hash := txs[hash]];
      JoinConflictFree(done, hash, txs[hash], found);
      if recorded.None? {
        PartConflictFree(more, txs);
        return None;
      }
      forall h, p | Spends(more, h, p) ensures p in recorded.value && recorded.value[p] == h {
        assert h == hash || Spends(done, h, p);
      }
      found, todo, done := recorded.value, todo - {hash}, more;
    }
    assert done == txs;
    return Some(found);
  }

  /** Classify one transaction's outputs: wallet arrivals end there, spent commitments queue
      their spender, everything else stays pending. */
  method ClassifyOutputs(txs: Chain, spends: map<OutPoint, Hash>, hash: Hash, queue: seq<Hash>, pending: set<OutPoint>)
    returns (queued: seq<Hash>, unresolved: set<OutPoint>)
    requires hash in txs && SpendTable(spends, txs)
    ensures queue <= queued
    ensures forall k :: |queue| <= k < |queued| ==> Follows(txs, hash, queued[k])
    ensures forall b :: Follows(txs, hash, b) ==> b in queued
    ensures unresolved == pending + PendingOf(txs, {hash})
  {
    queued, unresolved := queue, pending;
    var outputs := txs[hash].outputs;
    for index := 0 to |outputs|
      invariant queue <= queued
      invariant forall k :: |queue| <= k < |queued| ==> Follows(txs, hash, queued[k])
      invariant forall i: nat, b :: i < index && FollowsAt(txs, hash, i, b) ==> b in queued
      invariant unresolved == pending + set i: nat | 0 <= i < index && Unresolved(txs, hash, i) :: OutPoint(hash, i)
    {
      var cell, point := outputs[index], OutPoint(hash, index);
      KindsAreDisjoint(cell);
      if Wallet(cell) { continue; }
      if Commitment(cell) && point in spends {
        assert FollowsAt(txs, hash, index, spends[point]);
        queued := queued + [spends[point]];
        continue;
      }
      unresolved := unresolved + {point};
    }
  }

  /** What holds before every pop of the worklist: only reachable transactions are known,
      every successor of a visited one is visited or queued, and `pending` is the
      unresolved outputs of the visited ones. */
  ghost predicate Traversed(txs: Chain, closing: Hash, queue: seq<Hash>, visited: set<Hash>, pending: set<OutPoint>) {
    && closing in txs
    && (closing in visited || closing in queue)
    && visited <= Reachable(txs, closing)
    && (forall h :: h in queue ==> h in Reachable(txs, closing))
    && (forall a, b :: a in visited && Follows(txs, a, b) ==> b in visited || b in queue)
    && pending == PendingOf(txs, visited)
  }

  lemma StartTraversal(txs: Chain, closing: Hash)
    requires closing in txs
    ensures Traversed(txs, closing, [closing], {}, {})
  {
    ReachableIsClosed(txs, closing);
  }

  /** Popping a transaction that was visited before changes nothing but the queue. */
  lemma SkipVisited(txs: Chain, closing: Hash, queue: seq<Hash>, visited: set<Hash>, pending: set<OutPoint>)
    requires Traversed(txs, closing, queue, visited, pending) && queue != [] && queue[|queue| - 1] in visited
    ensures Traversed(txs, closing, queue[..|queue| - 1], visited, pending)
  {
    assert forall h :: h in queue ==> h in queue[..|queue| - 1] || h == queue[|queue| - 1];
  }

  lemma VisitNew(txs: Chain, closing: Hash, queue: seq<Hash>, visited: set<Hash>, pending: set<OutPoint>,
                 hash: Hash, queued: seq<Hash>, unresolved: set<OutPoint>)
    requires Traversed(txs, closing, queue + [hash], visited, pending) && hash !in visited && hash in txs
    requires queue <= queued
    requires forall k :: |queue| <= k < |queued| ==> Follows(txs, hash, queued[k])
    requires forall b :: Follows(txs, hash, b) ==> b in queued
    requires unresolved == pending + PendingOf(txs, {hash})
    ensures Traversed(txs, closing, queued, visited + {hash}, unresolved)
  {
    assert hash in queue + [hash];
    ReachableIsClosed(txs, closing);
    forall h | h in queued ensures h in Reachable(txs, closing) {
      var k :| 0 <= k < |queued| && queued[k] == h;
      assert k < |queue| ==> h == queue[k] && h in queue + [hash];
    }
    assert forall h :: h in queue ==> h in queued;
    forall a, b | a in visited + {hash} && Follows(txs, a, b) ensures b in visited + {hash} || b in queued {
      assert a in visited ==> b in visited || b in queue + [hash];
    }
    assert PendingOf(txs, visited + {hash}) == PendingOf(txs, visited) + PendingOf(txs, {hash});
  }

  lemma FinishTraversal(txs: Chain, closing: Hash, visited: set<Hash>, pending: set<OutPoint>)
    requires Traversed(txs, closing, [], visited, pending)
    ensures visited == Reachable(txs, closing)
  {
    ReachableIsLeast(txs, visited, closing);
  }

  lemma {:induction false} FullSubset<T>(part: set<T>, whole: set<T>)
    requires part <= whole
    ensures |part| <= |whole| && (|part| == |whole| ==> part == whole)
    decreases part
  {
    if part != {} {
      var x :| x in part;
      FullSubset(part - {x}, whole - {x});
    }
  }

  /** Reconstruct the graph from committed transactions.  The worklist may hold a
      transaction many times; the result is the order-free `Summary`. */
  method Summarize(funding: OutPoint, root: Tx, txs: Chain) returns (r: Result<Option<Settlement>, Error>)
    ensures r == Summary(funding, root, txs)
  {
    var invalid := FundingError(funding, root);
    if invalid.Some? { return Failure(invalid.value); }
    if |txs| > MAX_TRANSACTIONS { return Failure(ProofTooLarge); }
    var collected := CollectSpends(txs);
    if collected.None? { return Failure(ConflictingSpends); }
    var spends := collected.value;
    if funding !in spends {
      if txs != map[] { return Failure(DoesNotSpend); }
      return Success(None);
    }
    var closing := spends[funding];
    assert forall h :: Spends(txs, h, funding) ==> h == closing;
    var queue, visited, pending: set<OutPoint> := [closing], {}, {};
    StartTraversal(txs, closing);
    while queue != []
      invariant Traversed(txs, closing, queue, visited, pending)
      decreases txs.Keys - visited, |queue|
    {
      var rest, hash := queue[..|queue| - 1], queue[|queue| - 1];
      assert queue == rest + [hash];
      assert hash in queue;
      if hash in visited {
        SkipVisited(txs, closing, queue, visited, pending);
        queue := rest;
        continue;
      }
      // Spenders come from `txs` itself, so the lookup of `hash` cannot miss.
      var queued, unresolved := ClassifyOutputs(txs, spends, hash, rest, pending);
      VisitNew(txs, closing, rest, visited, pending, hash, queued, unresolved);
      visited := visited + {hash};
      queue, pending := queued, unresolved;
    }
    FinishTraversal(txs, closing, visited, pending);
    FullSubset(visited, txs.Keys);
    if |visited| != |txs| { return Failure(Unrelated); }
    return Success(Some(Settlement(closing, visited, pending, pending == {})));
  }

  /** A connector's signed claim: both lists as they arrive, in any order and with repeats. */
  datatype Claim = Claim(closing: Hash, transactions: seq<Hash>, pending: seq<string>, confirmed: bool)

  function Text(p: OutPoint): string {
    p.tx + "#" + OutpointText.Decimal(p.index)
  }

  function Texts(points: set<OutPoint>): set<string> {
    set p | p in points :: Text(p)
  }

  function Elements<T>(xs: seq<T>): set<T> {
    set x | x in xs
  }

  /** The settlement the coordinator certifies for a claim on the committed history, if any. */
  ghost function Verdict(chain: Chain, funding: OutPoint, claim: Claim): Option<Settlement> {
    if 0 < |claim.transactions| <= MAX_TRANSACTIONS && Distinct(claim.transactions)
       && funding.tx in chain && Elements(claim.transactions) <= chain.Keys
    then match Summary(funding, chain[funding.tx], Restrict(chain, Elements(claim.transactions)))
      case Success(Some(s)) => if Agrees(claim, s) then Some(s) else None
      case _ => None
    else None
  }

  /** The pending list must be the one sorted listing of the pending outpoints' texts. */
  predicate Agrees(claim: Claim, s: Settlement) {
    && claim.closing == s.closing && claim.confirmed == s.confirmed
    && Sorted(claim.pending) && Elements(claim.pending) == Texts(s.pending)
  }

  /** Fetch every claimed transaction once. */
  method FetchClaimed(chain: Chain, hashes: seq<Hash>) returns (r: Result<Chain, Error>)
    ensures r.Success? <==> Distinct(hashes) && Elements(hashes) <= chain.Keys
    ensures r.Success? ==> r.value == Restrict(chain, Elements(hashes))
    ensures r.Failure? ==> r.error in {DuplicateTransaction, NotCommitted}
  {
    var txs: Chain := map[];
    for i := 0 to |hashes|
      invariant Distinct(hashes[..i])
      invariant forall h :: h in txs <==> h in hashes[..i]
      invariant Within(txs, chain)
    {
      if hashes[i] in txs { return Failure(DuplicateTransaction); }
      if hashes[i] !in chain {
        assert hashes[i] in Elements(hashes);
        return Failure(NotCommitted);
      }
      txs := txs[hashes[i] := chain[hashes[i]]];
    }
    assert hashes[..|hashes|] == hashes;
    return Success(txs);
  }

  /** Check a connector's claim against transactions fetched independently. */
  method Verify(chain: Chain, funding: OutPoint, claim: Claim) returns (r: Result<Settlement, Error>)
    ensures Verdict(chain, funding, claim) == if r.Success? then Some(r.value) else None
  {
    if !(0 < |claim.transactions| <= MAX_TRANSACTIONS) { return Failure(InvalidProofSize); }
    if funding.tx !in chain { return Failure(NotCommitted); }
    var fetched := FetchClaimed(chain, claim.transactions);
    if fetched.Failure? { return Failure(fetched.error); }
    var summarized := Summarize(funding, chain[funding.tx], fetched.value);
    if summarized.Failure? { return Failure(summarized.error); }
    if summarized.value.None? { return Failure(NotSpent); }
    var verified := summarized.value.value;
    if !Agrees(claim, verified) { return Failure(ClaimDiffers); }
    return Success(verified);
  }

  /** One entry of an indexer page: a transaction that uses the queried lock. */
  datatype Entry = Entry(tx: Hash, isInput: bool)
  datatype Page = Page(entries: seq<Entry>, cursor: Option<string>)

  /** Everything the node answers about a point.  Pages are arbitrary: the indexer may omit,
      invent, repeat or refuse (None). */
  datatype Indexer = Indexer(live: OutPoint -> bool, page: (OutPoint, nat) -> Option<Page>)

  const PAGE_LIMIT := 20
  const PAGE_SIZE := 100

  /** The first `pages` pages for a point contain no input entry for `h`. */
  ghost predicate Absent(indexer: Indexer, point: OutPoint, pages: nat, h: Hash) {
    forall k: nat, e :: k < pages && indexer.page(point, k).Some? && e in indexer.page(point, k).value.entries && e.isInput
      ==> e.tx != h
  }

  ghost predicate LastPage(indexer: Indexer, point: OutPoint, k: nat) {
    indexer.page(point, k).Some? && |indexer.page(point, k).value.entries| < PAGE_SIZE
  }

  /** The scan reached a short page without meeting any real spender of the point. */
  ghost predicate Exhausted(chain: Chain, indexer: Indexer, point: OutPoint) {
    exists last: nat :: LastPage(indexer, point, last) && forall h :: Spends(chain, h, point) ==> Absent(indexer, point, last + 1, h)
  }

  ghost predicate SoleSpender(chain: Chain, h: Hash, p: OutPoint) {
    Spends(chain, h, p) && forall k :: Spends(chain, k, p) ==> k == h
  }

  /** An indexer that hides no spend: a spent point is not live and its spender is listed
      on or before every short page. */
  ghost predicate Complete(chain: Chain, indexer: Indexer) {
    forall h, p :: Spends(chain, h, p) ==>
      !indexer.live(p) && forall last: nat :: LastPage(indexer, p, last) ==> !Absent(indexer, p, last + 1, h)
  }

  /** Page `k` arrives and lists only committed transactions as inputs. */
  ghost predicate Readable(chain: Chain, indexer: Indexer, p: OutPoint, k: nat) {
    && indexer.page(p, k).Some?
    && forall e :: e in indexer.page(p, k).value.entries && e.isInput ==> e.tx in chain
  }

  /** The cursor of page `k` is there and differs from the one it was asked with. */
  ghost predicate Turns(indexer: Indexer, p: OutPoint, k: nat) {
    && indexer.page(p, k).Some? && indexer.page(p, k).value.cursor.Some?
    && (k > 0 && indexer.page(p, k - 1).Some? ==> indexer.page(p, k).value.cursor != indexer.page(p, k - 1).value.cursor)
  }

  /** A query about `p` comes to an end: the point is live, or every page up to a short one within the
      limit is readable and the cursors advance. */
  ghost predicate Answers(chain: Chain, indexer: Indexer, p: OutPoint) {
    indexer.live(p) || exists last: nat :: last < PAGE_LIMIT && LastPage(indexer, p, last) && Walks(chain, indexer, p, last)
  }

  ghost predicate Walks(chain: Chain, indexer: Indexer, p: OutPoint, last: nat) {
    forall k: nat :: k <= last ==> Readable(chain, indexer, p, k) && (k < last ==> Turns(indexer, p, k))
  }

  /** Scan one page for the transaction that really spends `point`. */
  method ScanPage(chain: Chain, entries: seq<Entry>, point: OutPoint) returns (r: Result<Option<Hash>, Error>)
    ensures r.Success? && r.value.Some? ==> Spends(chain, r.value.value, point)
    ensures r.Success? && r.value.None? ==> forall e :: e in entries && e.isInput ==> !Spends(chain, e.tx, point)
    ensures r.Failure? ==> r.error == NotCommitted && exists e :: e in entries && e.isInput && e.tx !in chain
  {
    var seen: set<Hash> := {};
    for i := 0 to |entries|
      invariant forall h :: h in seen ==> !Spends(chain, h, point)
      invariant forall k :: 0 <= k < i && entries[k].isInput ==> entries[k].tx in seen
    {
      var entry := entries[i];
      if !entry.isInput || entry.tx in seen { continue; }
      seen := seen + {entry.tx};
      if entry.tx !in chain { return Failure(NotCommitted); }
      if point in chain[entry.tx].inputs { return Success(Some(entry.tx)); }
    }
    return Success(None);
  }

  lemma ExhaustedMeansUnspent(chain: Chain, indexer: Indexer, point: OutPoint)
    requires Complete(chain, indexer) && (indexer.live(point) || Exhausted(chain, indexer, point))
    ensures !IsSpent(chain, point)
  {
  }

  /** Ask the node for the spender of `point`: nothing found is never proof of nothing. */
  method Spender(chain: Chain, indexer: Indexer, point: OutPoint) returns (r: Result<Option<Hash>, Error>)
    requires ConflictFree(chain)
    ensures r.Success? && r.value.Some? ==> SoleSpender(chain, r.value.value, point)
    ensures r == Success(None) && Complete(chain, indexer) ==> !IsSpent(chain, point)
    ensures r.Failure? ==> !Answers(chain, indexer, point)
    ensures r.Failure? ==> r.error in {NotCommitted, IndexerUnavailable, CursorStuck, IndexerScanLimit}
  {
    if indexer.live(point) {
      if Complete(chain, indexer) { ExhaustedMeansUnspent(chain, indexer, point); }
      return Success(None);
    }
    var cursor: Option<string> := None;
    for k := 0 to PAGE_LIMIT
      invariant forall h :: Spends(chain, h, point) ==> Absent(indexer, point, k, h)
      invariant forall j: nat :: j < k ==> !LastPage(indexer, point, j)
      invariant if k == 0 then cursor.None? else indexer.page(point, k - 1).Some? && cursor == indexer.page(point, k - 1).value.cursor
    {
      var page := indexer.page(point, k);
      assert !Readable(chain, indexer, point, k) || !(LastPage(indexer, point, k) || Turns(indexer, point, k)) ==>
        !Answers(chain, indexer, point);
      if page.None? { return Failure(IndexerUnavailable); }
      var scanned := ScanPage(chain, page.value.entries, point);
      if scanned.Failure? || scanned.value.Some? { return scanned; }
      if |page.value.entries| < PAGE_SIZE {
        assert LastPage(indexer, point, k);
        if Complete(chain, indexer) { ExhaustedMeansUnspent(chain, indexer, point); }
        return Success(None);
      }
      if page.value.cursor.None? || page.value.cursor == cursor { return Failure(CursorStuck); }
      cursor := page.value.cursor;
    }
    return Failure(IndexerScanLimit);
  }

  ghost predicate CommitmentPoint(txs: Chain, p: OutPoint) {
    p.tx in txs && p.index < |txs[p.tx].outputs| && Commitment(txs[p.tx].outputs[p.index])
  }

  /** `h` is linked to the spend of `funding` by transactions of `txs` alone. */
  ghost predicate Grounded(txs: Chain, funding: OutPoint, h: Hash) {
    exists closing, steps: nat :: Spends(txs, closing, funding) && Reaches(txs, closing, h, steps)
  }

  /** The points already popped or waiting to be. */
  ghost function Known(queue: seq<OutPoint>, visited: set<OutPoint>): set<OutPoint> {
    visited + Elements(queue)
  }

  /** Popping the last point and pushing others: only the pushed ones are new. */
  lemma PopKnown(queue: seq<OutPoint>, visited: set<OutPoint>, pushed: seq<OutPoint>)
    requires queue != []
    ensures var (rest, p) := (queue[..|queue| - 1], queue[|queue| - 1]);
      Known(rest + pushed, visited + {p}) == Known(queue, visited) + Elements(pushed)
  {
    var rest, p := queue[..|queue| - 1], queue[|queue| - 1];
    assert queue == rest + [p];
  }

  lemma LastKnown(queue: seq<OutPoint>, visited: set<OutPoint>)
    requires queue != []
    ensures queue[|queue| - 1] in Known(queue, visited)
    ensures queue[|queue| - 1] in visited ==> Known(queue[..|queue| - 1], visited) == Known(queue, visited)
  {
    if queue[|queue| - 1] in visited {
      PopKnown(queue, visited, []);
      assert queue[..|queue| - 1] + [] == queue[..|queue| - 1] && visited + {queue[|queue| - 1]} == visited;
    }
  }

  ghost predicate AllGrounded(txs: Chain, funding: OutPoint) {
    forall h {:trigger Grounded(txs, funding, h)} :: h in txs ==> Grounded(txs, funding, h)
  }

  ghost predicate IsFrontier(txs: Chain, funding: OutPoint, known: set<OutPoint>) {
    forall p :: p in known <==> p == funding || CommitmentPoint(txs, p)
  }

  ghost predicate SpendersKnown(chain: Chain, txs: Chain, visited: set<OutPoint>) {
    forall p, h :: p in visited && Spends(chain, h, p) ==> h in txs
  }

  /** What holds before every pop of the discovery worklist; `complete` says that no spend
      of a visited point was missed. */
  ghost predicate Discovered(chain: Chain, complete: bool, funding: OutPoint, txs: Chain,
                             known: set<OutPoint>, visited: set<OutPoint>) {
    && Within(txs, chain)
    && AllGrounded(txs, funding)
    && IsFrontier(txs, funding, known)
    && (complete ==> SpendersKnown(chain, txs, visited))
  }

  lemma GroundedGrows(txs: Chain, more: Chain, funding: OutPoint, h: Hash)
    requires Within(txs, more) && Grounded(txs, funding, h)
    ensures Grounded(more, funding, h)
  {
    var closing, steps: nat :| Spends(txs, closing, funding) && Reaches(txs, closing, h, steps);
    ReachesGrows(txs, more, closing, h, steps);
  }

  /** The spender of a known point is grounded once it is known itself. */
  lemma SpenderIsGrounded(txs: Chain, funding: OutPoint, p: OutPoint, h: Hash)
    requires Spends(txs, h, p)
    requires p == funding || (CommitmentPoint(txs, p) && Grounded(txs, funding, p.tx))
    ensures Grounded(txs, funding, h)
  {
    if p == funding {
      assert Reaches(txs, h, h, 0);
    } else {
      var closing, steps: nat :| Spends(txs, closing, funding) && Reaches(txs, closing, p.tx, steps);
      assert FollowsAt(txs, p.tx, p.index, h);
      assert Follows(txs, p.tx, h);
      assert Reaches(txs, closing, h, steps + 1);
    }
  }

  lemma StayGrounded(txs: Chain, more: Chain, funding: OutPoint, p: OutPoint, h: Hash)
    requires Within(txs, more) && more.Keys == txs.Keys + {h} && Spends(more, h, p)
    requires AllGrounded(txs, funding) && (p == funding || CommitmentPoint(txs, p))
    ensures AllGrounded(more, funding)
  {
    assert p != funding ==> Grounded(txs, funding, p.tx);
    forall k | k in txs ensures Grounded(more, funding, k) {
      assert Grounded(txs, funding, k);
      GroundedGrows(txs, more, funding, k);
    }
    SpenderIsGrounded(more, funding, p, h);
  }

  lemma SpendersStayKnown(chain: Chain, txs: Chain, visited: set<OutPoint>, p: OutPoint, h: Hash)
    requires SpendersKnown(chain, txs, visited) && SoleSpender(chain, h, p)
    ensures SpendersKnown(chain, txs[h := chain[h]], visited + {p})
  {
  }

  /** `pushed` is the commitment outputs of `tx`. */
  ghost predicate OutputsOf(hash: Hash, tx: Tx, pushed: seq<OutPoint>) {
    forall p :: p in pushed <==> p.tx == hash && p.index < |tx.outputs| && Commitment(tx.outputs[p.index])
  }

  lemma FrontierGrows(txs: Chain, funding: OutPoint, h: Hash, tx: Tx, known: set<OutPoint>, pushed: seq<OutPoint>)
    requires h !in txs && IsFrontier(txs, funding, known) && OutputsOf(h, tx, pushed)
    ensures IsFrontier(txs[h := tx], funding, known + Elements(pushed))
  {
    forall p ensures CommitmentPoint(txs[h := tx], p) <==> CommitmentPoint(txs, p) || p in pushed {}
  }

  lemma DiscoverNew(chain: Chain, complete: bool, funding: OutPoint, txs: Chain, known: set<OutPoint>,
                    visited: set<OutPoint>, p: OutPoint, h: Hash, pushed: seq<OutPoint>)
    requires Discovered(chain, complete, funding, txs, known, visited)
    requires p in known && SoleSpender(chain, h, p) && h !in txs
    requires OutputsOf(h, chain[h], pushed)
    ensures Discovered(chain, complete, funding, txs[h := chain[h]], known + Elements(pushed), visited + {p})
  {
    StayGrounded(txs, txs[h := chain[h]], funding, p, h);
    FrontierGrows(txs, funding, h, chain[h], known, pushed);
    if complete { SpendersStayKnown(chain, txs, visited, p, h); }
  }

  /** A popped point with nothing new to add: visited already, no spender found, or its
      spender known. */
  lemma DiscoverNothing(chain: Chain, complete: bool, funding: OutPoint, txs: Chain, known: set<OutPoint>,
                        visited: set<OutPoint>, p: OutPoint)
    requires Discovered(chain, complete, funding, txs, known, visited)
    requires complete ==> !IsSpent(chain, p) || exists h :: h in txs && SoleSpender(chain, h, p)
    ensures Discovered(chain, complete, funding, txs, known, visited + {p})
  {
  }

  /** Whatever has been discovered is an accepted proof of itself. */
  lemma DiscoveredIsAccepted(chain: Chain, funding: OutPoint, root: Tx, txs: Chain)
    requires ConflictFree(chain) && Within(txs, chain) && |txs| <= MAX_TRANSACTIONS
    requires FundingError(funding, root).None?
    requires AllGrounded(txs, funding)
    ensures Summary(funding, root, txs).Success?
    ensures Summary(funding, root, txs).value.None? <==> txs == map[]
  {
    WithinConflictFree(txs, chain);
    if txs != map[] {
      var h :| h in txs;
      assert Grounded(txs, funding, h);
      var closing, n: nat :| Spends(txs, closing, funding) && Reaches(txs, closing, h, n);
      forall k | k in txs ensures k in Reachable(txs, closing) {
        assert Grounded(txs, funding, k);
        var c, m: nat :| Spends(txs, c, funding) && Reaches(txs, c, k, m);
      }
      assert Reachable(txs, closing) == txs.Keys;
      AcceptedWhen(funding, root, txs, closing);
    }
  }

  lemma FrontierIsClosed(chain: Chain, funding: OutPoint, txs: Chain, visited: set<OutPoint>)
    requires Within(txs, chain) && IsFrontier(txs, funding, visited) && SpendersKnown(chain, txs, visited)
    ensures ClosedUnder(chain, txs.Keys)
  {
    forall a, b | a in txs && Follows(chain, a, b) ensures b in txs {
      var i: nat :| FollowsAt(chain, a, i, b);
      assert CommitmentPoint(txs, OutPoint(a, i));
    }
  }

  lemma GroundedIsReachable(chain: Chain, txs: Chain, funding: OutPoint, closing: Hash)
    requires Within(txs, chain) && AllGrounded(txs, funding) && SoleSpender(chain, closing, funding)
    ensures txs.Keys <= Reachable(chain, closing)
  {
    forall k | k in txs ensures k in Reachable(chain, closing) {
      assert Grounded(txs, funding, k);
      var c, n: nat :| Spends(txs, c, funding) && Reaches(txs, c, k, n);
      assert Spends(chain, c, funding);
      ReachesGrows(txs, chain, c, k, n);
    }
  }

  /** When no spend was missed, a finished discovery holds the whole graph. */
  lemma DiscoveryIsExhaustive(chain: Chain, funding: OutPoint, txs: Chain, visited: set<OutPoint>)
    requires Discovered(chain, true, funding, txs, visited, visited)
    ensures forall h :: SoleSpender(chain, h, funding) ==> h in txs && Reachable(chain, h) == txs.Keys
  {
    forall h | SoleSpender(chain, h, funding) ensures h in txs && Reachable(chain, h) == txs.Keys {
      FrontierIsClosed(chain, funding, txs, visited);
      ReachableIsLeast(chain, txs.Keys, h);
      GroundedIsReachable(chain, txs, funding, h);
    }
  }

  /** Discovery starts from the funding outpoint alone. */
  lemma StartDiscovery(chain: Chain, complete: bool, funding: OutPoint)
    ensures Discovered(chain, complete, funding, map[], {funding}, {})
  {
  }

  method CommitmentOutputs(hash: Hash, tx: Tx) returns (points: seq<OutPoint>)
    ensures OutputsOf(hash, tx, points)
  {
    points := [];
    for index := 0 to |tx.outputs|
      invariant forall p :: p in points <==> p.tx == hash && p.index < index && Commitment(tx.outputs[p.index])
    {
      if Commitment(tx.outputs[index]) { points := points + [OutPoint(hash, index)]; }
    }
  }

  /** `s` is the summary of its own transactions on the committed history. */
  ghost predicate Genuine(chain: Chain, funding: OutPoint, s: Settlement) {
    && funding.tx in chain && s.transactions <= chain.Keys
    && Summary(funding, chain[funding.tx], Restrict(chain, s.transactions)) == Success(Some(s))
  }

  const OUTPUT_SCAN_LIMIT := 64

  // What a discovery has to look at, by the history alone.

  /** The transactions linked to the funding spend in the whole history. */
  ghost function Settling(chain: Chain, funding: OutPoint): set<Hash> {
    set h | h in chain && Grounded(chain, funding, h)
  }

  /** The funding point and the commitment outputs of those transactions. */
  ghost function Frontier(chain: Chain, funding: OutPoint): set<OutPoint> {
    {funding} + set h, i | h in Settling(chain, funding) && 0 <= i < |chain[h].outputs| && Commitment(chain[h].outputs[i])
                  :: OutPoint(h, i)
  }

  ghost predicate AnswersAll(chain: Chain, indexer: Indexer, funding: OutPoint) {
    forall p <- Frontier(chain, funding) :: Answers(chain, indexer, p)
  }

  /** Discovery looks at nothing else. */
  lemma DiscoveredInside(chain: Chain, complete: bool, funding: OutPoint, txs: Chain, known: set<OutPoint>, visited: set<OutPoint>)
    requires Discovered(chain, complete, funding, txs, known, visited)
    ensures txs.Keys <= Settling(chain, funding) && known <= Frontier(chain, funding)
  {
    forall h | h in txs ensures h in Settling(chain, funding) {
      assert Grounded(txs, funding, h);
      GroundedGrows(txs, chain, funding, h);
    }
  }

  lemma SpenderSettles(chain: Chain, funding: OutPoint, txs: Chain, p: OutPoint, h: Hash)
    requires Within(txs, chain) && AllGrounded(txs, funding) && (p == funding || CommitmentPoint(txs, p)) && Spends(chain, h, p)
    ensures h in Settling(chain, funding)
  {
    var more := txs[h := chain[h]];
    StayGrounded(txs, more, funding, p, h);
    GroundedGrows(more, chain, funding, h);
  }

  /** One transaction or point beyond a full set. */
  lemma OneTooMany<T>(part: set<T>, x: T, whole: set<T>)
    requires part <= whole && x in whole && x !in part
    ensures |part| < |whole|
  {
    FullSubset(part + {x}, whole);
  }

  lemma TooManyPoints(chain: Chain, complete: bool, funding: OutPoint, txs: Chain, known: set<OutPoint>,
                      visited: set<OutPoint>, point: OutPoint)
    requires Discovered(chain, complete, funding, txs, known, visited) && visited <= known && point in known - visited
    requires |visited| == OUTPUT_SCAN_LIMIT
    ensures |Frontier(chain, funding)| > 64
  {
    DiscoveredInside(chain, complete, funding, txs, known, visited);
    OneTooMany(visited, point, Frontier(chain, funding));
  }

  lemma Unanswered(chain: Chain, indexer: Indexer, funding: OutPoint, txs: Chain, known: set<OutPoint>,
                   visited: set<OutPoint>, point: OutPoint)
    requires Discovered(chain, Complete(chain, indexer), funding, txs, known, visited) && point in known
    ensures !Answers(chain, indexer, point) ==> !AnswersAll(chain, indexer, funding)
  {
    DiscoveredInside(chain, Complete(chain, indexer), funding, txs, known, visited);
  }

  /** When no spend was missed, a finished discovery has looked at all of it. */
  lemma NothingMissed(chain: Chain, funding: OutPoint, txs: Chain, visited: set<OutPoint>)
    requires Discovered(chain, true, funding, txs, visited, visited)
    ensures txs.Keys == Settling(chain, funding) && visited == Frontier(chain, funding)
  {
    DiscoveredInside(chain, true, funding, txs, visited, visited);
    FrontierIsClosed(chain, funding, txs, visited);
    forall h | h in Settling(chain, funding) ensures h in txs {
      var closing, steps: nat :| Spends(chain, closing, funding) && Reaches(chain, closing, h, steps);
      assert funding in visited;
      ClosedContains(chain, txs.Keys, closing, h, steps);
    }
    forall p | p in Frontier(chain, funding) ensures p in visited {
      assert p == funding || CommitmentPoint(txs, p);
    }
  }

  /** Look one point up: a new spender joins the transactions and its commitments are pushed. */
  method Expand(chain: Chain, indexer: Indexer, funding: OutPoint, txs: Chain, point: OutPoint,
                ghost known: set<OutPoint>, ghost seen: set<OutPoint>)
    returns (r: Result<(Chain, seq<OutPoint>), Error>)
    requires ConflictFree(chain) && Discovered(chain, Complete(chain, indexer), funding, txs, known, seen)
    requires point in known && |txs| <= MAX_TRANSACTIONS
    ensures r.Failure? ==> r.error in {NotCommitted, IndexerUnavailable, CursorStuck, IndexerScanLimit, TransactionScanLimit}
    ensures r.Failure? ==> if r.error == TransactionScanLimit then |Settling(chain, funding)| > 32 else !Answers(chain, indexer, point)
    ensures r.Success? ==> |r.value.0| <= MAX_TRANSACTIONS
    ensures r.Success? ==> Discovered(chain, Complete(chain, indexer), funding, r.value.0,
      known + Elements(r.value.1), seen + {point})
  {
    var found := Spender(chain, indexer, point);
    if found.Failure? { return Failure(found.error); }
    if found.value.None? || found.value.value in txs {
      DiscoverNothing(chain, Complete(chain, indexer), funding, txs, known, seen, point);
      assert known + Elements([]) == known;
      return Success((txs, []));
    }
    var hash := found.value.value;
    if |txs| == MAX_TRANSACTIONS {
      DiscoveredInside(chain, Complete(chain, indexer), funding, txs, known, seen);
      SpenderSettles(chain, funding, txs, point, hash);
      OneTooMany(txs.Keys, hash, Settling(chain, funding));
      return Failure(TransactionScanLimit);
    }
    var pushed := CommitmentOutputs(hash, chain[hash]);
    DiscoverNew(chain, Complete(chain, indexer), funding, txs, known, seen, point, hash, pushed);
    return Success((txs[hash := chain[hash]], pushed));
  }

  /** The discovery worklist: bounded in visited points and in transactions. */
  method Discover(chain: Chain, indexer: Indexer, funding: OutPoint)
    returns (r: Result<Chain, Error>, ghost visited: set<OutPoint>)
    requires ConflictFree(chain)
    ensures r.Failure? ==> r.error in {NotCommitted, IndexerUnavailable, CursorStuck, IndexerScanLimit,
      OutputScanLimit, TransactionScanLimit}
    ensures r == Failure(TransactionScanLimit) ==> |Settling(chain, funding)| > 32
    ensures r == Failure(OutputScanLimit) ==> |Frontier(chain, funding)| > 64
    ensures r.Failure? && r.error !in {OutputScanLimit, TransactionScanLimit} ==> !AnswersAll(chain, indexer, funding)
    ensures r.Success? ==> |r.value| <= MAX_TRANSACTIONS && |visited| <= OUTPUT_SCAN_LIMIT
    ensures r.Success? ==> Discovered(chain, Complete(chain, indexer), funding, r.value, visited, visited)
  {
    var queue, seen := [funding], {};
    var txs: Chain := map[];
    ghost var known := {funding};
    visited := {};
    StartDiscovery(chain, Complete(chain, indexer), funding);
    hide Discovered, Complete, Answers, AnswersAll, Settling, Frontier, ConflictFree;
    while queue != []
      invariant known == Known(queue, seen)
      invariant Discovered(chain, Complete(chain, indexer), funding, txs, known, seen)
      invariant |txs| <= MAX_TRANSACTIONS && |seen| <= OUTPUT_SCAN_LIMIT
      decreases OUTPUT_SCAN_LIMIT - |seen|, |queue|
    {
      var rest, point := queue[..|queue| - 1], queue[|queue| - 1];
      LastKnown(queue, seen);
      if point in seen {
        queue := rest;
        continue;
      }
      if |seen| == OUTPUT_SCAN_LIMIT {
        TooManyPoints(chain, Complete(chain, indexer), funding, txs, known, seen, point);
        return Failure(OutputScanLimit), {};
      }
      var expanded := Expand(chain, indexer, funding, txs, point, known, seen);
      if expanded.Failure? {
        Unanswered(chain, indexer, funding, txs, known, seen, point);
        return Failure(expanded.error), {};
      }
      PopKnown(queue, seen, expanded.value.1);
      txs, queue, seen := expanded.value.0, rest + expanded.value.1, seen + {point};
      known := known + Elements(expanded.value.1);
    }
    assert known == seen;
    return Success(txs), seen;
  }

  /** Discover the funding spend and everything its commitments lead to.  The errors that
      accuse a proof (unrelated, conflicting, does not spend) cannot come out of discovery. */
  method Inspect(chain: Chain, indexer: Indexer, funding: OutPoint) returns (r: Result<Option<Settlement>, Error>)
    requires ConflictFree(chain)
    ensures r.Failure? ==> r.error in {NotCommitted, OutputMissing, UnexpectedFundingOutput, UnexpectedFundingArguments,
      IndexerUnavailable, CursorStuck, IndexerScanLimit, OutputScanLimit, TransactionScanLimit}
    ensures r.Success? && r.value.Some? ==> Genuine(chain, funding, r.value.value)
    ensures r.Success? && Complete(chain, indexer) ==> if r.value.None? then !IsSpent(chain, funding)
      else r.value.value.transactions == Reachable(chain, r.value.value.closing)
    ensures r == Failure(TransactionScanLimit) ==> |Settling(chain, funding)| > 32
    ensures r == Failure(OutputScanLimit) ==> |Frontier(chain, funding)| > 64
    ensures AnswersAll(chain, indexer, funding) && r.Failure? ==>
      || funding.tx !in chain || FundingError(funding, chain[funding.tx]) == Some(r.error)
      || r.error in {OutputScanLimit, TransactionScanLimit}
    ensures Complete(chain, indexer) && AnswersAll(chain, indexer, funding) ==>
      (r.Success? <==> && funding.tx in chain && FundingError(funding, chain[funding.tx]).None?
                       && |Settling(chain, funding)| <= 32 && |Frontier(chain, funding)| <= 64)
  {
    if funding.tx !in chain { return Failure(NotCommitted); }
    var root := chain[funding.tx];
    var validated := Summarize(funding, root, map[]);
    if validated.Failure? { return validated; }
    ghost var visited;
    var discovered;
    discovered, visited := Discover(chain, indexer, funding);
    if discovered.Failure? { return Failure(discovered.error); }
    var txs := discovered.value;
    DiscoveredIsAccepted(chain, funding, root, txs);
    assert Restrict(chain, txs.Keys) == txs;
    r := Summarize(funding, root, txs);
    if r.value.Some? { AcceptedMeans(funding, root, txs); }
    if Complete(chain, indexer) {
      NothingMissed(chain, funding, txs, visited);
      DiscoveryIsExhaustive(chain, funding, txs, visited);
      assert forall h :: Spends(chain, h, funding) ==> SoleSpender(chain, h, funding);
    }
  }
}
