/** The projection of the vault cell's live totals onto the stored positions: a second greedy loop,
    proved against prefix sums of the supply. */
module LiveSync {
  import opened Accounting
  import opened Wrappers

  /** The vault cell's own figures. */
  datatype LiveVault = LiveVault(asset: string, total: nat, reserved: nat, deployed: nat, feeBalance: nat)

  /** What the cell leaves free, the sum saturating at the word size. */
  function Unused(live: LiveVault): nat {
    live.total - Min(live.total, Min(U64_MAX, live.reserved + live.deployed))
  }

  /** What the active positions of an asset supply. */
  function Supplied(ps: seq<Position>, asset: string): nat {
    if ps == [] then 0
    else Supplied(ps[..|ps| - 1], asset) + if Eligible(ps[|ps| - 1], asset) then ps[|ps| - 1].supplied else 0
  }

  /** How much of the deployed total the first positions cover, all supplies being used up in turn. */
  function DeployedBy(ps: seq<Position>, live: LiveVault): nat {
    Min(live.deployed, Supplied(ps, live.asset))
  }

  /** How much of the reserved total fits in what deployment left of the first positions. */
  function ReservedBy(ps: seq<Position>, live: LiveVault): nat {
    Min(live.reserved, Supplied(ps, live.asset) - DeployedBy(ps, live))
  }

  function DeployedLeft(ps: seq<Position>, live: LiveVault, i: nat): nat
    requires i <= |ps|
  {
    live.deployed - DeployedBy(ps[..i], live)
  }

  function ReservedLeft(ps: seq<Position>, live: LiveVault, i: nat): nat
    requires i <= |ps|
  {
    live.reserved - ReservedBy(ps[..i], live)
  }

  function Spread(p: Position, deployed: nat, reserved: nat): Position
    requires deployed + reserved <= p.supplied
  {
    p.(deployed := deployed, reserved := reserved, available := p.supplied - deployed - reserved)
  }

  function SyncedAt(ps: seq<Position>, live: LiveVault, i: nat): Position
    requires i < |ps|
  {
    if !Eligible(ps[i], live.asset) then ps[i]
    else
      var deployed := Min(ps[i].supplied, DeployedLeft(ps, live, i));
      var reserved := Min(ps[i].supplied - deployed, ReservedLeft(ps, live, i));
      Spread(ps[i], deployed, reserved)
  }

  function Synced(ps: seq<Position>, live: LiveVault): (synced: seq<Position>)
    ensures |synced| == |ps|
    ensures forall i :: 0 <= i < |ps| ==> synced[i] == SyncedAt(ps, live, i)
  {
    seq(|ps|, i requires 0 <= i < |ps| => SyncedAt(ps, live, i))
  }

  lemma SuppliedPrefix(ps: seq<Position>, asset: string, i: nat)
    requires i < |ps|
    ensures Supplied(ps[..i + 1], asset) == Supplied(ps[..i], asset) + if Eligible(ps[i], asset) then ps[i].supplied else 0
  {
    assert ps[..i + 1][..i] == ps[..i];
  }

  /** What the projection puts into a bucket at position `i`. */
  function Placed(ps: seq<Position>, live: LiveVault, b: Bucket, i: nat): nat
    requires i < |ps|
  {
    if Eligible(ps[i], live.asset) then Amount(SyncedAt(ps, live, i), b) else 0
  }

  /** One position covers what the prefix sums say it adds. */
  lemma SyncStep(ps: seq<Position>, live: LiveVault, i: nat)
    requires i < |ps|
    ensures DeployedLeft(ps, live, i + 1) == DeployedLeft(ps, live, i) - Placed(ps, live, Deployed, i)
    ensures ReservedLeft(ps, live, i + 1) == ReservedLeft(ps, live, i) - Placed(ps, live, Reserved, i)
  {
    SuppliedPrefix(ps, live.asset, i);
  }

  /** What the loop writes at an eligible position, and when that changes it. */
  lemma SyncedIs(ps: seq<Position>, live: LiveVault, i: nat, deployedLeft: nat, reservedLeft: nat)
    requires i < |ps| && Eligible(ps[i], live.asset)
    requires deployedLeft == DeployedLeft(ps, live, i) && reservedLeft == ReservedLeft(ps, live, i)
    ensures var p, q := ps[i], SyncedAt(ps, live, i);
      && q.deployed == Min(p.supplied, deployedLeft) && q.reserved == Min(p.supplied - q.deployed, reservedLeft)
      && q == p.(deployed := q.deployed, reserved := q.reserved, available := p.supplied - q.deployed - q.reserved)
  {
    hide DeployedLeft, ReservedLeft;
  }

  method ApplyLiveVault(positions: array<Position>, stored: Option<LiveVault>, live: LiveVault) returns (changed: bool)
    modifies positions
    ensures positions[..] == Synced(old(positions[..]), live)
    ensures changed <==> stored != Some(live) || positions[..] != old(positions[..])
  {
    ghost var was := positions[..];
    changed := stored != Some(live);
    var reservedLeft, deployedLeft := live.reserved, live.deployed;
    assert deployedLeft == DeployedLeft(was, live, 0) && reservedLeft == ReservedLeft(was, live, 0);
    hide DeployedLeft, ReservedLeft, SyncedAt;
    ghost var altered := 0;
    for i := 0 to positions.Length
      invariant |was| == positions.Length
      invariant deployedLeft == DeployedLeft(was, live, i)
      invariant reservedLeft == ReservedLeft(was, live, i)
      invariant !changed ==> stored == Some(live) && forall k :: 0 <= k < i ==> positions[k] == was[k]
      invariant changed && stored == Some(live) ==> altered < i && positions[altered] != was[altered]
      invariant forall k :: 0 <= k < i ==> positions[k] == SyncedAt(was, live, k)
      invariant forall k :: i <= k < positions.Length ==> positions[k] == was[k]
    {
      SyncStep(was, live, i);
      var p := positions[i];
      if Eligible(p, live.asset) {
        SyncedIs(was, live, i, deployedLeft, reservedLeft);
        var deployed := Min(p.supplied, deployedLeft);
        deployedLeft := deployedLeft - Min(deployedLeft, deployed);
        var reservable := p.supplied - Min(p.supplied, deployed);
        var reserved := Min(reservable, reservedLeft);
        reservedLeft := reservedLeft - Min(reservedLeft, reserved);
        var available := p.supplied - Min(p.supplied, deployed + reserved);
        if p.deployed != deployed || p.reserved != reserved || p.available != available {
          positions[i] := p.(deployed := deployed, reserved := reserved, available := available);
          changed := true;
          altered := i;
        }
      } else {
        SyncedSkips(was, live, i);
      }
    }
  }

  lemma SyncedSkips(ps: seq<Position>, live: LiveVault, i: nat)
    requires i < |ps| && !Eligible(ps[i], live.asset)
    ensures SyncedAt(ps, live, i) == ps[i]
  {}

  /** A position whose supply is exactly spread over its buckets. */
  predicate Balanced(p: Position) {
    p.supplied == p.available + p.reserved + p.deployed
  }

  lemma SyncedKeeps(ps: seq<Position>, live: LiveVault, i: nat)
    requires i < |ps|
    ensures var q := SyncedAt(ps, live, i);
      q == ps[i].(deployed := q.deployed, reserved := q.reserved, available := q.available)
  {}

  /** The sums of the projection grow by what is placed. */
  lemma SyncedSums(ps: seq<Position>, live: LiveVault, b: Bucket, i: nat)
    requires i < |ps|
    ensures Sum(Synced(ps, live)[..i + 1], live.asset, b) == Sum(Synced(ps, live)[..i], live.asset, b) + Placed(ps, live, b, i)
    ensures Supplied(Synced(ps, live)[..i + 1], live.asset) - Supplied(ps[..i + 1], live.asset)
         == Supplied(Synced(ps, live)[..i], live.asset) - Supplied(ps[..i], live.asset)
  {
    hide SyncedAt;
    SyncedKeeps(ps, live, i);
    SumPrefix(Synced(ps, live), live.asset, b, i);
    SuppliedPrefix(Synced(ps, live), live.asset, i);
    SuppliedPrefix(ps, live.asset, i);
  }

  lemma {:induction false} SyncedPrefix(ps: seq<Position>, live: LiveVault, i: nat)
    requires i <= |ps|
    ensures Sum(Synced(ps, live)[..i], live.asset, Deployed) == live.deployed - DeployedLeft(ps, live, i)
    ensures Sum(Synced(ps, live)[..i], live.asset, Reserved) == live.reserved - ReservedLeft(ps, live, i)
    ensures Supplied(Synced(ps, live)[..i], live.asset) == Supplied(ps[..i], live.asset)
  {
    if i > 0 {
      hide *;
      SyncedPrefix(ps, live, i - 1);
      SyncedSums(ps, live, Deployed, i - 1);
      SyncedSums(ps, live, Reserved, i - 1);
      SyncStep(ps, live, i - 1);
    }
  }

  /** The projection fills deployment first and reservations with what is left, and balances every
      position it touches. */
  lemma SyncFills(ps: seq<Position>, live: LiveVault)
    ensures Sum(Synced(ps, live), live.asset, Deployed) == DeployedBy(ps, live)
    ensures Sum(Synced(ps, live), live.asset, Reserved) == ReservedBy(ps, live)
    ensures forall i :: 0 <= i < |ps| && !Eligible(ps[i], live.asset) ==> Synced(ps, live)[i] == ps[i]
    ensures forall i :: 0 <= i < |ps| && Eligible(ps[i], live.asset) ==> Balanced(Synced(ps, live)[i])
  {
    assert ps[..|ps|] == ps && Synced(ps, live)[..|ps|] == Synced(ps, live);
    SyncedPrefix(ps, live, |ps|);
  }

  /** Other assets keep every sum. */
  lemma {:induction false} SyncSparesOthers(ps: seq<Position>, live: LiveVault, asset: string, b: Bucket, i: nat)
    requires i <= |ps| && asset != live.asset
    ensures Sum(Synced(ps, live)[..i], asset, b) == Sum(ps[..i], asset, b)
  {
    if i > 0 {
      SyncSparesOthers(ps, live, asset, b, i - 1);
      SumPrefix(Synced(ps, live), asset, b, i - 1);
      SumPrefix(ps, asset, b, i - 1);
    }
  }

  /** Applying the same totals twice changes nothing the second time. */
  lemma SyncIsIdempotent(ps: seq<Position>, live: LiveVault)
    ensures Synced(Synced(ps, live), live) == Synced(ps, live)
  {
    var synced := Synced(ps, live);
    forall i | 0 <= i < |ps| ensures SyncedAt(synced, live, i) == synced[i] {
      SyncedPrefix(ps, live, i);
    }
  }

  lemma SuppliedWithin(ps: seq<Position>, asset: string, i: nat, j: nat)
    requires i < j < |ps| && Eligible(ps[i], asset)
    ensures Supplied(ps[..i], asset) + ps[i].supplied <= Supplied(ps[..j], asset)
  {
    SuppliedPrefix(ps, asset, i);
    SuppliedMonotone(ps, asset, i + 1, j);
  }

  lemma {:induction false} SuppliedMonotone(ps: seq<Position>, asset: string, i: nat, j: nat)
    requires i <= j <= |ps|
    ensures Supplied(ps[..i], asset) <= Supplied(ps[..j], asset)
    decreases j
  {
    if i < j {
      SuppliedMonotone(ps, asset, i, j - 1);
      SuppliedPrefix(ps, asset, j - 1);
    }
  }

  /** The projection fills the positions in their order: a later one holds nothing deployed before an earlier
      active one of the asset is all deployed, and nothing reserved before it is all in use. */
  lemma SyncIsGreedy(ps: seq<Position>, live: LiveVault, i: nat, j: nat)
    requires i < j < |ps| && ps[i].asset == ps[j].asset == live.asset && ps[i].status == ps[j].status == Active
    ensures var (p, q) := (Synced(ps, live)[i], Synced(ps, live)[j]);
      (q.deployed > 0 ==> p.deployed == p.supplied) && (q.reserved > 0 ==> p.available == 0)
  {
    SuppliedWithin(ps, live.asset, i, j);
  }

  /** Closed positions and other assets are never touched. */
  lemma SyncSpares(ps: seq<Position>, live: LiveVault, i: nat)
    requires i < |ps| && (ps[i].asset != live.asset || ps[i].status == Closed)
    ensures Synced(ps, live)[i] == ps[i]
  {}
}
