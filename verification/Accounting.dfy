/** Liquidity positions and the greedy loops that move an amount from one bucket to another.
    Each loop is tied to a closed form in prefix sums: position `i` gives what is left of the
    amount after the positions before it, at most what its own bucket holds. */
module Accounting {
  datatype PositionStatus = Active | Closed

  datatype Position = Position(id: string, asset: string, supplied: nat, available: nat, reserved: nat,
                               deployed: nat, feesEarned: nat, feesClaimed: nat, status: PositionStatus)

  datatype Bucket = Available | Reserved | Deployed

  datatype Move = Move(from: Bucket, to: Bucket)

  const RESERVE := Move(Available, Reserved)
  const DEPLOY := Move(Reserved, Deployed)
  const UNDEPLOY := Move(Deployed, Reserved)
  const RELEASE := Move(Reserved, Available)
  const SETTLE := Move(Deployed, Available)

  const U64_MAX := 0xFFFF_FFFF_FFFF_FFFF

  function Min(a: nat, b: nat): nat { if a < b then a else b }

  function Amount(p: Position, b: Bucket): nat {
    match b
    case Available => p.available
    case Reserved => p.reserved
    case Deployed => p.deployed
  }

  function With(p: Position, b: Bucket, amount: nat): Position {
    match b
    case Available => p.(available := amount)
    case Reserved => p.(reserved := amount)
    case Deployed => p.(deployed := amount)
  }

  predicate Eligible(p: Position, asset: string) {
    p.asset == asset && p.status == Active
  }

  /** What the active positions of an asset hold in a bucket. */
  function Sum(ps: seq<Position>, asset: string, b: Bucket): nat {
    if ps == [] then 0
    else
      var (rest, p) := (ps[..|ps| - 1], ps[|ps| - 1]);
      Sum(rest, asset, b) + if Eligible(p, asset) then Amount(p, b) else 0
  }

  /** What still has to be found after the first `i` positions. */
  function Left(ps: seq<Position>, asset: string, b: Bucket, amount: nat, i: nat): nat
    requires i <= |ps|
  {
    amount - Min(amount, Sum(ps[..i], asset, b))
  }

  /** What position `i` contributes to moving `amount` out of a bucket. */
  function Taken(ps: seq<Position>, asset: string, b: Bucket, amount: nat, i: nat): nat
    requires i < |ps|
  {
    if Eligible(ps[i], asset) then Min(Amount(ps[i], b), Left(ps, asset, b, amount, i)) else 0
  }

  function Shift(p: Position, move: Move, amount: nat): Position
    requires move.from != move.to && amount <= Amount(p, move.from)
  {
    With(With(p, move.from, Amount(p, move.from) - amount), move.to, Amount(p, move.to) + amount)
  }

  function MovedAt(ps: seq<Position>, asset: string, move: Move, amount: nat, i: nat): Position
    requires move.from != move.to && i < |ps|
  {
    var taken := Taken(ps, asset, move.from, amount, i);
    if taken == 0 then ps[i] else Shift(ps[i], move, taken)
  }

  /** The positions after moving `amount`: the closed form the loops are proved against. */
  function Moved(ps: seq<Position>, asset: string, move: Move, amount: nat): (moved: seq<Position>)
    requires move.from != move.to
    ensures |moved| == |ps|
    ensures forall i :: 0 <= i < |ps| ==> moved[i] == MovedAt(ps, asset, move, amount, i)
  {
    seq(|ps|, i requires 0 <= i < |ps| => MovedAt(ps, asset, move, amount, i))
  }

  lemma SumPrefix(ps: seq<Position>, asset: string, b: Bucket, i: nat)
    requires i < |ps|
    ensures Sum(ps[..i + 1], asset, b) == Sum(ps[..i], asset, b) + if Eligible(ps[i], asset) then Amount(ps[i], b) else 0
  {
    assert ps[..i + 1][..i] == ps[..i];
  }

  lemma {:induction false} SumMonotone(ps: seq<Position>, asset: string, b: Bucket, i: nat)
    requires i <= |ps|
    ensures Sum(ps[..i], asset, b) <= Sum(ps, asset, b)
    decreases |ps|
  {
    if i < |ps| {
      var rest := ps[..|ps| - 1];
      assert rest[..i] == ps[..i];
      SumMonotone(rest, asset, b, i);
    } else {
      assert ps[..i] == ps;
    }
  }

  lemma LeftStep(ps: seq<Position>, asset: string, b: Bucket, amount: nat, i: nat)
    requires i < |ps|
    ensures Left(ps, asset, b, amount, i + 1) == Left(ps, asset, b, amount, i) - Taken(ps, asset, b, amount, i)
  {
    SumPrefix(ps, asset, b, i);
  }

  lemma NothingLeft(ps: seq<Position>, asset: string, b: Bucket, amount: nat, i: nat, k: nat)
    requires i <= k < |ps| && Left(ps, asset, b, amount, i) == 0
    ensures Left(ps, asset, b, amount, k) == 0
  {
    SumMonotone(ps[..k], asset, b, i);
    assert ps[..k][..i] == ps[..i];
  }

  /** Once nothing is left the remaining positions give nothing. */
  lemma TailUntouched(ps: seq<Position>, asset: string, b: Bucket, amount: nat, i: nat)
    requires i <= |ps| && Left(ps, asset, b, amount, i) == 0
    ensures forall k :: i <= k < |ps| ==> Taken(ps, asset, b, amount, k) == 0
  {
    forall k | i <= k < |ps| ensures Taken(ps, asset, b, amount, k) == 0 { NothingLeft(ps, asset, b, amount, i, k); }
  }

  /** A loop that stopped found everything exactly when the positions hold it. */
  lemma FoundIff(ps: seq<Position>, asset: string, b: Bucket, amount: nat, i: nat)
    requires i <= |ps| && (i < |ps| ==> Left(ps, asset, b, amount, i) == 0)
    ensures Left(ps, asset, b, amount, i) == 0 <==> amount <= Sum(ps, asset, b)
  {
    SumMonotone(ps, asset, b, i);
    assert ps[..|ps|] == ps;
  }

  /** Deploy, undeploy, release and settle: the four loops differ only in the buckets. */
  method MovePositions(positions: array<Position>, asset: string, total: nat, move: Move) returns (ok: bool)
    requires move.from != move.to
    modifies positions
    ensures positions[..] == Moved(old(positions[..]), asset, move, total)
    ensures ok <==> total <= Sum(old(positions[..]), asset, move.from)
  {
    ghost var was := positions[..];
    var amount := total;
    var i := 0;
    while i < positions.Length && amount > 0
      invariant 0 <= i <= positions.Length == |was|
      invariant amount == Left(was, asset, move.from, total, i)
      invariant forall k :: 0 <= k < i ==> positions[k] == MovedAt(was, asset, move, total, k)
      invariant forall k :: i <= k < positions.Length ==> positions[k] == was[k]
    {
      LeftStep(was, asset, move.from, total, i);
      var p := positions[i];
      if Eligible(p, asset) {
        var taken := Min(Amount(p, move.from), amount);
        if taken > 0 {
          positions[i] := Shift(p, move, taken);
          amount := amount - taken;
        }
      }
      i := i + 1;
    }
    if amount == 0 { TailUntouched(was, asset, move.from, total, i); }
    FoundIff(was, asset, move.from, total, i);
    return amount == 0;
  }

  /** The floored proportional share, the product saturating at the word size. */
  function Floored(taken: nat, amount: nat, fee: nat): (share: nat)
    requires amount > 0
    ensures taken == 0 ==> share == 0
  {
    Min(fee * taken, U64_MAX) / amount
  }

  /** Share of a contributor that gives `taken` of the `left` still missing: the floored share
      capped by the undistributed fee, except that completing the amount takes all of it. */
  function ShareOf(taken: nat, left: nat, amount: nat, fee: nat, undistributed: nat): (share: nat)
    requires taken <= left <= amount
    ensures share <= undistributed && (taken == 0 ==> share == 0)
  {
    if taken == 0 then 0
    else if taken == left then undistributed
    else Min(Floored(taken, amount, fee), undistributed)
  }

  /** The fee handed out by the first `n` positions. */
  function FeeGiven(ps: seq<Position>, asset: string, amount: nat, fee: nat, n: nat): (given: nat)
    requires n <= |ps|
    ensures given <= fee
  {
    if n == 0 then 0
    else
      var given := FeeGiven(ps, asset, amount, fee, n - 1);
      given + ShareOf(Taken(ps, asset, Available, amount, n - 1), Left(ps, asset, Available, amount, n - 1), amount, fee, fee - given)
  }

  function FeeShare(ps: seq<Position>, asset: string, amount: nat, fee: nat, i: nat): nat
    requires i < |ps|
  {
    ShareOf(Taken(ps, asset, Available, amount, i), Left(ps, asset, Available, amount, i), amount, fee,
      fee - FeeGiven(ps, asset, amount, fee, i))
  }

  function Credited(p: Position, fee: nat): Position {
    p.(feesEarned := p.feesEarned + fee)
  }

  function ReservedAt(ps: seq<Position>, asset: string, amount: nat, fee: nat, i: nat): Position
    requires i < |ps|
  {
    var taken := Taken(ps, asset, Available, amount, i);
    if taken == 0 then ps[i] else Credited(Shift(ps[i], RESERVE, taken), FeeShare(ps, asset, amount, fee, i))
  }

  /** The positions after reserving `amount` and splitting `fee`. */
  function Reserving(ps: seq<Position>, asset: string, amount: nat, fee: nat): (reserved: seq<Position>)
    ensures |reserved| == |ps|
    ensures forall i :: 0 <= i < |ps| ==> reserved[i] == ReservedAt(ps, asset, amount, fee, i)
  {
    seq(|ps|, i requires 0 <= i < |ps| => ReservedAt(ps, asset, amount, fee, i))
  }

  lemma ReserveStep(ps: seq<Position>, asset: string, amount: nat, fee: nat, i: nat)
    requires i < |ps|
    ensures FeeGiven(ps, asset, amount, fee, i + 1) == FeeGiven(ps, asset, amount, fee, i) + FeeShare(ps, asset, amount, fee, i)
    ensures Taken(ps, asset, Available, amount, i)
      == if Eligible(ps[i], asset) then Min(ps[i].available, Left(ps, asset, Available, amount, i)) else 0
    ensures var taken := Taken(ps, asset, Available, amount, i);
      if taken == 0 then ReservedAt(ps, asset, amount, fee, i) == ps[i] && FeeShare(ps, asset, amount, fee, i) == 0
      else ReservedAt(ps, asset, amount, fee, i) == Credited(Shift(ps[i], RESERVE, taken), FeeShare(ps, asset, amount, fee, i))
  {}

  lemma TailReserved(ps: seq<Position>, asset: string, amount: nat, fee: nat, i: nat)
    requires i <= |ps| && Left(ps, asset, Available, amount, i) == 0
    ensures forall k :: i <= k < |ps| ==> ReservedAt(ps, asset, amount, fee, k) == ps[k]
  {
    TailUntouched(ps, asset, Available, amount, i);
  }

  method ReservePositionsWithFee(positions: array<Position>, asset: string, total: nat, leaseFee: nat) returns (ok: bool)
    requires total <= U64_MAX && leaseFee <= U64_MAX
    modifies positions
    ensures positions[..] == Reserving(old(positions[..]), asset, total, leaseFee)
    ensures ok <==> total <= Sum(old(positions[..]), asset, Available)
  {
    ghost var was := positions[..];
    var amount, undistributed := total, leaseFee;
    assert amount == Left(was, asset, Available, total, 0) && FeeGiven(was, asset, total, leaseFee, 0) == 0;
    hide Left, Taken, FeeGiven, ReservedAt, ShareOf;
    var totalAmount := if total < 1 then 1 else total;
    var i := 0;
    while i < positions.Length && amount > 0
      invariant 0 <= i <= positions.Length == |was|
      invariant amount == Left(was, asset, Available, total, i)
      invariant undistributed == leaseFee - FeeGiven(was, asset, total, leaseFee, i)
      invariant forall k :: 0 <= k < i ==> positions[k] == ReservedAt(was, asset, total, leaseFee, k)
      invariant forall k :: i <= k < positions.Length ==> positions[k] == was[k]
    {
      LeftStep(was, asset, Available, total, i);
      ReserveStep(was, asset, total, leaseFee, i);
      var p := positions[i];
      if Eligible(p, asset) {
        var taken := Min(p.available, amount);
        if taken > 0 {
          var feeShare := ShareOf(taken, amount, totalAmount, leaseFee, undistributed);
          positions[i] := Credited(Shift(p, RESERVE, taken), feeShare);
          amount := amount - taken;
          undistributed := undistributed - Min(undistributed, feeShare);
        }
      }
      i := i + 1;
    }
    if amount == 0 { TailReserved(was, asset, total, leaseFee, i); }
    FoundIff(was, asset, Available, total, i);
    return amount == 0;
  }
}
