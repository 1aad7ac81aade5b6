/** A request that settles a signed intent is on the chain before it is stored, so the live cell may
    already count it. When the books survive that. */
module LedgerIntents {
  import opened Accounting
  import opened AccountingLaws
  import opened Ledger
  import opened LedgerTieOut
  import opened LiveSync
  import opened Wrappers

  /** The positions hold what is booked and `extra` more reserved of one asset. */
  ghost predicate AheadBy(ps: seq<Position>, rs: seq<Reservation>, asset: string, extra: nat) {
    forall a, b: Bucket :: b != Bucket.Available ==>
      Sum(ps, a, b) == Booked(rs, a, b) + if a == asset && b == Bucket.Reserved then extra else 0
  }

  /** Tied out but for a reservation the live cell already shows. */
  ghost predicate Ahead(b: Books, asset: string, extra: nat) {
    && Paired(b) && AheadBy(b.positions, b.reservations, asset, extra)
    && (forall i :: 0 <= i < |b.positions| ==> SoundPosition(b.positions[i]))
    && (forall i :: 0 <= i < |b.requests| ==> Agrees(b.requests[i], b.reservations[i]))
  }

  lemma LateTie(ps: seq<Position>, rs: seq<Reservation>, id: string, asset: string, amount: nat, fee: nat)
    requires AheadBy(ps, rs, asset, amount) && 0 < amount
    ensures Tie(Reserving(ps, asset, amount, fee), rs + [Reservation(id, asset, amount, Hold.Reserved)])
       <==> Sum(ps, asset, Bucket.Available) == 0
  {
    var after, late := Reserving(ps, asset, amount, fee), rs + [Reservation(id, asset, amount, Hold.Reserved)];
    ReservingConserves(ps, asset, amount, fee);
    assert late[..|rs|] == rs;
    if Sum(ps, asset, Bucket.Available) > 0 {
      assert Sum(after, asset, Bucket.Reserved) != Booked(late, asset, Bucket.Reserved);
    }
  }

  /** Storing a request that the positions already reflect ties the books out exactly when nothing else
      is available: otherwise it is reserved a second time. */
  lemma LateCreateIff(b: Books, id: string, asset: string, amount: nat, fee: nat, expiresAt: int)
    requires Ahead(b, asset, amount) && 0 < amount && NewId(b.requests, id)
    ensures Inv(Create(b, id, asset, amount, fee, expiresAt, true).0) <==> Sum(b.positions, asset, Bucket.Available) == 0
  {
    var next := Create(b, id, asset, amount, fee, expiresAt, true).0;
    LateTie(b.positions, b.reservations, id, asset, amount, fee);
    ReservingStaysSound(b.positions, asset, amount, fee);
    AppendsPair(b, next, Request(id, asset, amount, expiresAt, Requested));
    hide Tie, AheadBy, Sum, Paired, Agrees;
  }

  lemma {:induction false} BalancedSums(ps: seq<Position>, asset: string)
    requires forall i :: 0 <= i < |ps| && Eligible(ps[i], asset) ==> Balanced(ps[i])
    ensures Sum(ps, asset, Bucket.Available) + Sum(ps, asset, Bucket.Reserved) + Sum(ps, asset, Bucket.Deployed) == Supplied(ps, asset)
  {
    if ps != [] { BalancedSums(ps[..|ps| - 1], asset); }
  }

  /** The live cell shows the booked figures and one reservation more, all within the supply. */
  ghost predicate ShowsMore(b: Books, live: LiveVault, extra: nat) {
    && live.deployed == Booked(b.reservations, live.asset, Bucket.Deployed)
    && live.reserved == Booked(b.reservations, live.asset, Bucket.Reserved) + extra
    && live.deployed + live.reserved <= Supplied(b.positions, live.asset)
  }

  lemma SyncedSound(b: Books, live: LiveVault)
    requires forall i :: 0 <= i < |b.positions| ==> SoundPosition(b.positions[i])
    ensures forall i :: 0 <= i < |b.positions| ==> SoundPosition(Synced(b.positions, live)[i])
  {
    SyncFills(b.positions, live);
    forall i | 0 <= i < |b.positions| ensures SoundPosition(Synced(b.positions, live)[i]) {
      assert SoundPosition(b.positions[i]);
      SyncedKeeps(b.positions, live, i);
    }
  }

  lemma SyncedAhead(b: Books, live: LiveVault, extra: nat)
    requires Tie(b.positions, b.reservations) && ShowsMore(b, live, extra)
    ensures AheadBy(Synced(b.positions, live), b.reservations, live.asset, extra)
  {
    var ps, synced := b.positions, Synced(b.positions, live);
    SyncFills(ps, live);
    hide Synced, SyncedAt, Sum, Booked, Supplied;
    assert ps[..|ps|] == ps && synced[..|ps|] == synced;
    forall a, bucket: Bucket | bucket != Bucket.Available && a != live.asset
      ensures Sum(synced, a, bucket) == Booked(b.reservations, a, bucket)
    {
      SyncSparesOthers(ps, live, a, bucket, |ps|);
    }
  }

  lemma SyncedAvailable(ps: seq<Position>, live: LiveVault)
    requires live.deployed + live.reserved <= Supplied(ps, live.asset)
    ensures Sum(Synced(ps, live), live.asset, Bucket.Available) == Supplied(ps, live.asset) - live.deployed - live.reserved
  {
    var synced := Synced(ps, live);
    SyncFills(ps, live);
    SyncedPrefix(ps, live, |ps|);
    assert ps[..|ps|] == ps && synced[..|ps|] == synced;
    hide SyncedAt, Sum, Supplied, Balanced;
    forall i | 0 <= i < |ps| && Eligible(synced[i], live.asset) ensures Balanced(synced[i]) { SyncedKeeps(ps, live, i); }
    BalancedSums(synced, live.asset);
  }

  lemma SyncRunsAhead(b: Books, live: LiveVault, extra: nat)
    requires Inv(b) && ShowsMore(b, live, extra)
    ensures Ahead(SyncLive(b, live).0, live.asset, extra)
    ensures Sum(Synced(b.positions, live), live.asset, Bucket.Available)
         == Supplied(b.positions, live.asset) - live.deployed - live.reserved
  {
    SyncedAhead(b, live, extra);
    SyncedAvailable(b.positions, live);
    SyncedSound(b, live);
    hide SoundPosition, Synced, AheadBy, Tie, Agrees, Pair;
  }

  /** So when the live cell is applied first, the request that follows keeps the books exactly when it took
      the last of the supply. */
  lemma SyncThenCreateIff(b: Books, live: LiveVault, id: string, amount: nat, fee: nat, expiresAt: int)
    requires Inv(b) && 0 < amount && NewId(b.requests, id) && ShowsMore(b, live, amount)
    ensures Inv(Create(SyncLive(b, live).0, id, live.asset, amount, fee, expiresAt, true).0)
       <==> live.deployed + live.reserved == Supplied(b.positions, live.asset)
  {
    SyncRunsAhead(b, live, amount);
    hide Inv, Ahead, Create;
    LateCreateIff(SyncLive(b, live).0, id, live.asset, amount, fee, expiresAt);
  }

  // The next live cell.

  ghost predicate TiedElsewhere(b: Books, asset: string) {
    forall a, bucket: Bucket :: a != asset && bucket != Bucket.Available ==> Sum(b.positions, a, bucket) == Booked(b.reservations, a, bucket)
  }

  lemma SyncTies(b: Books, live: LiveVault)
    requires TiedElsewhere(b, live.asset) && MaySync(b, live)
    ensures Tie(Synced(b.positions, live), b.reservations)
  {
    var ps, synced := b.positions, Synced(b.positions, live);
    SyncFills(ps, live);
    hide Synced, SyncedAt, Sum, Booked;
    assert ps[..|ps|] == ps && synced[..|ps|] == synced;
    forall a, bucket: Bucket | a != live.asset && bucket != Bucket.Available
      ensures Sum(synced, a, bucket) == Booked(b.reservations, a, bucket)
    {
      SyncSparesOthers(ps, live, a, bucket, |ps|);
    }
  }

  /** Whatever the positions of its asset hold, a live cell that shows what is booked ties the books out. */
  lemma SyncHeals(b: Books, live: LiveVault)
    requires Paired(b) && TiedElsewhere(b, live.asset) && MaySync(b, live)
    requires forall i :: 0 <= i < |b.positions| ==> SoundPosition(b.positions[i])
    requires forall i :: 0 <= i < |b.requests| ==> Agrees(b.requests[i], b.reservations[i])
    ensures Inv(SyncLive(b, live).0)
  {
    SyncTies(b, live);
    SyncedSound(b, live);
    hide SoundPosition, Synced, Tie, Agrees, Pair, MaySync, TiedElsewhere;
  }

  lemma {:induction false} SuppliedKept(ps: seq<Position>, qs: seq<Position>, asset: string)
    requires |qs| == |ps| && forall i :: 0 <= i < |ps| ==> qs[i].supplied == ps[i].supplied && (Eligible(qs[i], asset) <==> Eligible(ps[i], asset))
    ensures Supplied(qs, asset) == Supplied(ps, asset)
  {
    if ps != [] { SuppliedKept(ps[..|ps| - 1], qs[..|ps| - 1], asset); }
  }

  lemma ReservingKeepsSupply(ps: seq<Position>, asset: string, amount: nat, fee: nat)
    ensures Supplied(Reserving(ps, asset, amount, fee), asset) == Supplied(ps, asset)
  {
    hide Taken, FeeShare;
    SuppliedKept(ps, Reserving(ps, asset, amount, fee), asset);
  }

  lemma SyncingKeepsSupply(ps: seq<Position>, live: LiveVault)
    ensures Supplied(Synced(ps, live), live.asset) == Supplied(ps, live.asset)
  {
    SyncedPrefix(ps, live, |ps|);
    assert ps[..|ps|] == ps && Synced(ps, live)[..|ps|] == Synced(ps, live);
  }

  lemma LateBooks(ps: seq<Position>, rs: seq<Reservation>, id: string, asset: string, amount: nat, fee: nat)
    requires AheadBy(ps, rs, asset, amount)
    ensures var after, late := Reserving(ps, asset, amount, fee), rs + [Reservation(id, asset, amount, Hold.Reserved)];
      && Booked(late, asset, Bucket.Reserved) == Booked(rs, asset, Bucket.Reserved) + amount
      && Booked(late, asset, Bucket.Deployed) == Booked(rs, asset, Bucket.Deployed)
      && forall a, bucket: Bucket :: a != asset && bucket != Bucket.Available ==> Sum(after, a, bucket) == Booked(late, a, bucket)
  {
    var late := rs + [Reservation(id, asset, amount, Hold.Reserved)];
    ReservingConserves(ps, asset, amount, fee);
    assert late[..|rs|] == rs;
  }

  /** An amount reserved twice is put right by the next live cell. */
  lemma LaterSyncRestores(b: Books, live: LiveVault, id: string, amount: nat, fee: nat, expiresAt: int)
    requires Inv(b) && 0 < amount && NewId(b.requests, id) && ShowsMore(b, live, amount)
    ensures Inv(SyncLive(Create(SyncLive(b, live).0, id, live.asset, amount, fee, expiresAt, true).0, live).0)
  {
    var synced := SyncLive(b, live).0;
    var late := Create(synced, id, live.asset, amount, fee, expiresAt, true).0;
    SyncRunsAhead(b, live, amount);
    ReservingStaysSound(synced.positions, live.asset, amount, fee);
    AppendsPair(synced, late, Request(id, live.asset, amount, expiresAt, Requested));
    LateBooks(synced.positions, b.reservations, id, live.asset, amount, fee);
    SyncingKeepsSupply(b.positions, live);
    ReservingKeepsSupply(synced.positions, live.asset, amount, fee);
    hide Inv, Sum, Booked, Supplied, Synced, Reserving, SoundPosition, Agrees, Paired, AheadBy;
    SyncHeals(late, live);
  }
}
