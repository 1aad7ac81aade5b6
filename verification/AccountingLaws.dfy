/** What the position loops conserve, how the lease fee is split, and the projection of the
    live vault totals onto positions. */
module AccountingLaws {
  import opened Accounting

  /** Everything about a position except how its supply is spread over the buckets. */
  ghost predicate SameButBuckets(p: Position, q: Position) {
    && q == p.(available := q.available, reserved := q.reserved, deployed := q.deployed)
    && q.available + q.reserved + q.deployed == p.available + p.reserved + p.deployed
  }

  /** What a move of `amount` really moves: all of it, or all there is. */
  function Movable(ps: seq<Position>, asset: string, b: Bucket, amount: nat): nat {
    Min(amount, Sum(ps, asset, b))
  }

  /** The sum of a bucket after `moved` left one bucket of `asset` for another. */
  function Expected(was: nat, here: bool, b: Bucket, move: Move, moved: nat): int {
    was + (if here && b == move.to then moved else 0) - (if here && b == move.from then moved else 0)
  }

  /** `qs` holds what `ps` holds except that `moved` of `asset` changed buckets. */
  ghost predicate Shifts(ps: seq<Position>, qs: seq<Position>, asset: string, move: Move, moved: nat) {
    forall a, b :: Sum(qs, a, b) == Expected(Sum(ps, a, b), a == asset, b, move, moved)
  }

  function Counted(p: Position, asset: string, b: Bucket): nat {
    if Eligible(p, asset) then Amount(p, b) else 0
  }

  lemma MovedElement(ps: seq<Position>, asset: string, move: Move, amount: nat, a: string, b: Bucket, i: nat)
    requires move.from != move.to && i < |ps|
    ensures Counted(MovedAt(ps, asset, move, amount, i), a, b)
      == Expected(Counted(ps[i], a, b), a == asset, b, move, Taken(ps, asset, move.from, amount, i))
  {
    var taken := Taken(ps, asset, move.from, amount, i);
    if taken > 0 { assert Eligible(ps[i], asset) && MovedAt(ps, asset, move, amount, i) == Shift(ps[i], move, taken); }
  }

  lemma {:induction false} MovedPrefix(ps: seq<Position>, asset: string, move: Move, amount: nat, a: string, b: Bucket, i: nat)
    requires move.from != move.to && i <= |ps|
    ensures Sum(Moved(ps, asset, move, amount)[..i], a, b)
      == Expected(Sum(ps[..i], a, b), a == asset, b, move, Movable(ps[..i], asset, move.from, amount))
  {
    if i > 0 {
      var moved := Moved(ps, asset, move, amount);
      MovedPrefix(ps, asset, move, amount, a, b, i - 1);
      MovedElement(ps, asset, move, amount, a, b, i - 1);
      SumPrefix(moved, a, b, i - 1);
      SumPrefix(ps, a, b, i - 1);
      LeftStep(ps, asset, move.from, amount, i - 1);
    }
  }

  /** A move shifts exactly what it can between two buckets of one asset: every other sum stays,
      every position keeps its total, and ineligible positions are untouched. */
  lemma MoveConserves(ps: seq<Position>, asset: string, move: Move, amount: nat)
    requires move.from != move.to
    ensures Shifts(ps, Moved(ps, asset, move, amount), asset, move, Movable(ps, asset, move.from, amount))
    ensures forall i :: 0 <= i < |ps| ==> SameButBuckets(ps[i], Moved(ps, asset, move, amount)[i])
    ensures forall i :: 0 <= i < |ps| && !Eligible(ps[i], asset) ==> Moved(ps, asset, move, amount)[i] == ps[i]
  {
    var moved := Moved(ps, asset, move, amount);
    assert ps[..|ps|] == ps && moved[..|ps|] == moved;
    forall a, b { MovedPrefix(ps, asset, move, amount, a, b, |ps|); }
  }

  /** A complete move can be undone: the way back also completes and restores every sum. */
  lemma MoveBack(ps: seq<Position>, asset: string, move: Move, amount: nat)
    requires move.from != move.to && amount <= Sum(ps, asset, move.from)
    ensures amount <= Sum(Moved(ps, asset, move, amount), asset, move.to)
    ensures Shifts(ps, Moved(Moved(ps, asset, move, amount), asset, Move(move.to, move.from), amount), asset, move, 0)
  {
    MoveConserves(ps, asset, move, amount);
    MoveConserves(Moved(ps, asset, move, amount), asset, Move(move.to, move.from), amount);
  }

  lemma {:induction false} SumIgnoresFees(ps: seq<Position>, qs: seq<Position>, asset: string, b: Bucket)
    requires |ps| == |qs|
    requires forall i :: 0 <= i < |ps| ==> qs[i] == ps[i].(feesEarned := qs[i].feesEarned)
    ensures Sum(qs, asset, b) == Sum(ps, asset, b)
  {
    if |ps| > 0 { SumIgnoresFees(ps[..|ps| - 1], qs[..|qs| - 1], asset, b); }
  }

  lemma ReservedIsMoved(ps: seq<Position>, asset: string, amount: nat, fee: nat, i: nat)
    requires i < |ps|
    ensures ReservedAt(ps, asset, amount, fee, i) == Credited(MovedAt(ps, asset, RESERVE, amount, i), FeeShare(ps, asset, amount, fee, i))
  {
    var share := FeeShare(ps, asset, amount, fee, i);
    assert Taken(ps, asset, Available, amount, i) == 0 ==> share == 0;
  }

  /** Reserving with a fee is the plain move plus credits to the earned fees. */
  lemma ReservingConserves(ps: seq<Position>, asset: string, amount: nat, fee: nat)
    ensures Shifts(ps, Reserving(ps, asset, amount, fee), asset, RESERVE, Movable(ps, asset, Available, amount))
    ensures forall i :: 0 <= i < |ps| ==>
      Reserving(ps, asset, amount, fee)[i] == Credited(Moved(ps, asset, RESERVE, amount)[i], FeeShare(ps, asset, amount, fee, i))
  {
    var moved, after := Moved(ps, asset, RESERVE, amount), Reserving(ps, asset, amount, fee);
    MoveConserves(ps, asset, RESERVE, amount);
    forall i | 0 <= i < |ps|
      ensures after[i] == Credited(moved[i], FeeShare(ps, asset, amount, fee, i))
    {
      ReservedIsMoved(ps, asset, amount, fee, i);
    }
    forall a, b { SumIgnoresFees(moved, after, a, b); }
  }

  // The lease fee.

  function Earned(ps: seq<Position>): nat {
    if ps == [] then 0 else Earned(ps[..|ps| - 1]) + ps[|ps| - 1].feesEarned
  }

  lemma {:induction false} EarnedPrefix(ps: seq<Position>, asset: string, amount: nat, fee: nat, i: nat)
    requires i <= |ps|
    ensures Earned(Reserving(ps, asset, amount, fee)[..i]) == Earned(ps[..i]) + FeeGiven(ps, asset, amount, fee, i)
  {
    hide ShareOf, ReservedAt, FeeShare;
    var after := Reserving(ps, asset, amount, fee);
    if i > 0 {
      EarnedPrefix(ps, asset, amount, fee, i - 1);
      ReserveStep(ps, asset, amount, fee, i - 1);
      assert after[..i][..i - 1] == after[..i - 1] && ps[..i][..i - 1] == ps[..i - 1];
    }
  }

  lemma {:induction false} FeeCompletes(ps: seq<Position>, asset: string, amount: nat, fee: nat, i: nat)
    requires amount > 0 && i <= |ps| && Left(ps, asset, Available, amount, i) == 0
    ensures FeeGiven(ps, asset, amount, fee, i) == fee
  {
    if i > 0 {
      LeftStep(ps, asset, Available, amount, i - 1);
      if Left(ps, asset, Available, amount, i - 1) == 0 { FeeCompletes(ps, asset, amount, fee, i - 1); }
    }
  }

  /** A reservation that succeeds credits exactly the lease fee, however it is split. */
  lemma FeeIsExact(ps: seq<Position>, asset: string, amount: nat, fee: nat)
    requires 0 < amount <= Sum(ps, asset, Available)
    ensures Earned(Reserving(ps, asset, amount, fee)) == Earned(ps) + fee
  {
    var after := Reserving(ps, asset, amount, fee);
    assert ps[..|ps|] == ps && after[..|ps|] == after;
    EarnedPrefix(ps, asset, amount, fee, |ps|);
    FeeCompletes(ps, asset, amount, fee, |ps|);
  }

  /** How many of the first `n` positions give something. */
  function Contributors(ps: seq<Position>, asset: string, amount: nat, n: nat): nat
    requires n <= |ps|
  {
    if n == 0 then 0
    else Contributors(ps, asset, amount, n - 1) + if Taken(ps, asset, Available, amount, n - 1) > 0 then 1 else 0
  }

  lemma FlooredBounds(taken: nat, amount: nat, fee: nat)
    requires amount > 0
    ensures Floored(taken, amount, fee) * amount <= fee * taken
    ensures fee * taken <= U64_MAX ==> fee * taken <= Floored(taken, amount, fee) * amount + amount - 1
  {
    var product := Min(fee * taken, U64_MAX);
    assert product == amount * (product / amount) + product % amount;
  }

  lemma Scaled(x: nat, y: nat, z: nat)
    ensures (x + y) * z == x * z + y * z
    ensures x <= y ==> x * z <= y * z
    ensures x < y && 0 < z ==> x * z < y * z
  {}

  /** Adding a share that is at most proportional keeps the fee handed out at most proportional. */
  lemma StaysBehind(given: nat, share: nat, done: nat, taken: nat, amount: nat, fee: nat)
    requires given * amount <= fee * done && share * amount <= fee * taken
    ensures (given + share) * amount <= fee * (done + taken)
  {
    Scaled(given, share, amount);
    Scaled(done, taken, fee);
  }

  /** The cap never binds before the last contributor: what is undistributed still covers the
      proportional share of everything missing. */
  lemma CapIsSlack(taken: nat, left: nat, amount: nat, fee: nat, given: nat)
    requires taken <= left <= amount && amount > 0
    requires given * amount <= fee * (amount - left)
    ensures given + Floored(taken, amount, fee) <= fee
    ensures (given + Floored(taken, amount, fee)) * amount <= fee * (amount - left + taken)
  {
    var share := Floored(taken, amount, fee);
    FlooredBounds(taken, amount, fee);
    StaysBehind(given, share, amount - left, taken, amount, fee);
    Scaled(amount - left + taken, amount, fee);
    if given + share > fee { Scaled(fee, given + share, amount); }
  }

  ghost predicate Behind(ps: seq<Position>, asset: string, amount: nat, fee: nat, i: nat)
    requires i <= |ps|
  {
    FeeGiven(ps, asset, amount, fee, i) * amount <= fee * (amount - Left(ps, asset, Available, amount, i))
  }

  /** Before the last contributor a share is the floored one, and the fee handed out so far is at
      most proportional to the amount found so far. */
  lemma {:induction false} SharesAreFloored(ps: seq<Position>, asset: string, amount: nat, fee: nat, i: nat)
    requires i < |ps| && Left(ps, asset, Available, amount, i + 1) > 0
    ensures Behind(ps, asset, amount, fee, i) && Behind(ps, asset, amount, fee, i + 1)
    ensures FeeShare(ps, asset, amount, fee, i) == Floored(Taken(ps, asset, Available, amount, i), amount, fee)
  {
    hide Floored;
    var taken, left := Taken(ps, asset, Available, amount, i), Left(ps, asset, Available, amount, i);
    var given := FeeGiven(ps, asset, amount, fee, i);
    LeftStep(ps, asset, Available, amount, i);
    if i > 0 { SharesAreFloored(ps, asset, amount, fee, i - 1); }
    assert Behind(ps, asset, amount, fee, i);
    CapIsSlack(taken, left, amount, fee, given);
  }

  /** A floored share loses less than one unit: the pure arithmetic of one more contributor. */
  lemma ShareLosesLessThanOne(given: nat, done: nat, taken: nat, amount: nat, fee: nat, count: nat)
    requires 0 < amount && taken <= amount && fee * amount <= U64_MAX
    requires fee * done <= given * amount + count * (amount - 1)
    ensures fee * (done + taken) <= (given + Floored(taken, amount, fee)) * amount + (count + 1) * (amount - 1)
  {
    Scaled(taken, amount, fee);
    FlooredBounds(taken, amount, fee);
    Scaled(done, taken, fee);
    Scaled(given, Floored(taken, amount, fee), amount);
    Scaled(count, 1, amount - 1);
  }

  lemma LastTakesTheRest(given: nat, share: nat, done: nat, taken: nat, amount: nat, fee: nat, count: nat)
    requires done + taken == amount && given + share == fee && given * amount <= fee * done
    ensures fee * taken <= share * amount
    ensures fee * done <= given * amount + count * (amount - 1) ==> share * amount <= fee * taken + count * (amount - 1)
  {
    Scaled(given, share, amount);
    Scaled(done, taken, fee);
  }

  lemma {:induction false} NotFarBehind(ps: seq<Position>, asset: string, amount: nat, fee: nat, i: nat)
    requires i <= |ps| && Left(ps, asset, Available, amount, i) > 0 && fee * amount <= U64_MAX
    ensures fee * (amount - Left(ps, asset, Available, amount, i))
         <= FeeGiven(ps, asset, amount, fee, i) * amount + Contributors(ps, asset, amount, i) * (amount - 1)
  {
    if i > 0 {
      var taken, left := Taken(ps, asset, Available, amount, i - 1), Left(ps, asset, Available, amount, i - 1);
      var (given, count) := (FeeGiven(ps, asset, amount, fee, i - 1), Contributors(ps, asset, amount, i - 1));
      LeftStep(ps, asset, Available, amount, i - 1);
      NotFarBehind(ps, asset, amount, fee, i - 1);
      SharesAreFloored(ps, asset, amount, fee, i - 1);
      ReserveStep(ps, asset, amount, fee, i - 1);
      assert Contributors(ps, asset, amount, i) == count + if taken > 0 then 1 else 0;
      hide *;
      if taken > 0 {
        ShareLosesLessThanOne(given, amount - left, taken, amount, fee, count);
      }
    }
  }

  lemma LastShareSplit(ps: seq<Position>, asset: string, amount: nat, fee: nat, i: nat)
    requires i < |ps| && Taken(ps, asset, Available, amount, i) == Left(ps, asset, Available, amount, i) > 0
    ensures Behind(ps, asset, amount, fee, i)
    ensures FeeGiven(ps, asset, amount, fee, i) + FeeShare(ps, asset, amount, fee, i) == fee
  {
    if i > 0 {
      LeftStep(ps, asset, Available, amount, i - 1);
      SharesAreFloored(ps, asset, amount, fee, i - 1);
    }
  }

  /** The split is fair: a contributor before the last gets exactly its floored proportional share
      (`SharesAreFloored`); the last gets at least its exact share and, when the product fits the word
      size, less than one unit more for each contributor before it. */
  lemma LastShareIsFair(ps: seq<Position>, asset: string, amount: nat, fee: nat, i: nat)
    requires i < |ps| && Taken(ps, asset, Available, amount, i) == Left(ps, asset, Available, amount, i) > 0
    ensures fee * Taken(ps, asset, Available, amount, i) <= FeeShare(ps, asset, amount, fee, i) * amount
    ensures fee * amount <= U64_MAX ==>
      FeeShare(ps, asset, amount, fee, i) * amount
        <= fee * Taken(ps, asset, Available, amount, i) + Contributors(ps, asset, amount, i) * (amount - 1)
  {
    var (taken, share) := (Taken(ps, asset, Available, amount, i), FeeShare(ps, asset, amount, fee, i));
    var (given, count) := (FeeGiven(ps, asset, amount, fee, i), Contributors(ps, asset, amount, i));
    LastShareSplit(ps, asset, amount, fee, i);
    LastTakesTheRest(given, share, amount - taken, taken, amount, fee, count);
    if fee * amount <= U64_MAX { NotFarBehind(ps, asset, amount, fee, i); }
  }

  // In what order, and from whom.

  lemma LeftMeansEarlierDrained(ps: seq<Position>, asset: string, b: Bucket, amount: nat, i: nat, j: nat)
    requires i < j < |ps| && Eligible(ps[i], asset) && Taken(ps, asset, b, amount, j) > 0
    ensures Taken(ps, asset, b, amount, i) == Amount(ps[i], b)
  {
    SumPrefix(ps, asset, b, i);
    SumMonotone(ps[..j], asset, b, i + 1);
    assert ps[..j][..i + 1] == ps[..i + 1];
  }

  /** A move drains the positions in their order: nothing is taken from one while an earlier active position
      of the asset still has something. */
  lemma MoveIsGreedy(ps: seq<Position>, asset: string, move: Move, amount: nat, i: nat, j: nat)
    requires move.from != move.to && i < j < |ps| && ps[i].asset == asset && ps[i].status == Active
    ensures Moved(ps, asset, move, amount)[j] != ps[j] ==> Amount(Moved(ps, asset, move, amount)[i], move.from) == 0
  {
    if Taken(ps, asset, move.from, amount, j) > 0 { LeftMeansEarlierDrained(ps, asset, move.from, amount, i, j); }
    hide Taken;
  }

  /** So does a reservation. */
  lemma ReservingIsGreedy(ps: seq<Position>, asset: string, amount: nat, fee: nat, i: nat, j: nat)
    requires i < j < |ps| && ps[i].asset == asset && ps[i].status == Active
    ensures Reserving(ps, asset, amount, fee)[j] != ps[j] ==> Reserving(ps, asset, amount, fee)[i].available == 0
  {
    if Taken(ps, asset, Available, amount, j) > 0 { LeftMeansEarlierDrained(ps, asset, Available, amount, i, j); }
    hide Taken, FeeShare;
  }

  /** Closed positions and other assets are never touched. */
  lemma OthersAreSpared(ps: seq<Position>, asset: string, move: Move, amount: nat, fee: nat, i: nat)
    requires move.from != move.to && i < |ps| && (ps[i].asset != asset || ps[i].status == Closed)
    ensures Moved(ps, asset, move, amount)[i] == ps[i] && Reserving(ps, asset, amount, fee)[i] == ps[i]
  {}
}
