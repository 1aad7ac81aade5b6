/** Texts in the order a sorted set lists them. */
module TextOrder {
  predicate Before(a: string, b: string) {
    b != "" && (a == "" || a[0] < b[0] || (a[0] == b[0] && Before(a[1..], b[1..])))
  }

  /** Strictly ascending, so without repeats. */
  predicate Sorted(texts: seq<string>) {
    forall i, j :: 0 <= i < j < |texts| ==> Before(texts[i], texts[j])
  }

  lemma {:induction false} BeforeIsTransitive(a: string, b: string, c: string)
    requires Before(a, b) && Before(b, c)
    ensures Before(a, c)
  {
    if a != "" && a[0] == b[0] == c[0] { BeforeIsTransitive(a[1..], b[1..], c[1..]); }
  }

  lemma {:induction false} BeforeIsIrreflexive(a: string)
    ensures !Before(a, a)
  {
    if a != "" { BeforeIsIrreflexive(a[1..]); }
  }

  lemma {:induction false} BeforeIsTotal(a: string, b: string)
    requires a != b
    ensures Before(a, b) || Before(b, a)
  {
    if a != "" && b != "" && a[0] == b[0] {
      assert a == [a[0]] + a[1..] && b == [b[0]] + b[1..];
      BeforeIsTotal(a[1..], b[1..]);
    }
  }

  lemma BeforeIsAsymmetric(a: string, b: string)
    requires Before(a, b)
    ensures !Before(b, a)
  {
    if Before(b, a) { BeforeIsTransitive(a, b, a); BeforeIsIrreflexive(a); }
  }

  lemma FirstIsLeast(texts: seq<string>, x: string)
    requires Sorted(texts) && x in texts
    ensures x == texts[0] || Before(texts[0], x)
  {}

  lemma FirstIsOnce(texts: seq<string>)
    requires Sorted(texts) && texts != []
    ensures Sorted(texts[1..]) && texts[0] !in texts[1..]
  {
    if texts[0] in texts[1..] {
      var i :| 0 < i < |texts| && texts[i] == texts[0];
      BeforeIsIrreflexive(texts[0]);
    }
  }

  /** A set of texts has one sorted listing. */
  lemma {:induction false} SortedIsUnique(a: seq<string>, b: seq<string>)
    requires Sorted(a) && Sorted(b) && forall x :: x in a <==> x in b
    ensures a == b
  {
    assert b == [] || b[0] in b;
    if a != [] {
      assert a[0] in b;
      FirstIsLeast(a, b[0]);
      FirstIsLeast(b, a[0]);
      if a[0] != b[0] { BeforeIsAsymmetric(a[0], b[0]); }
      FirstIsOnce(a);
      FirstIsOnce(b);
      assert a == [a[0]] + a[1..] && b == [b[0]] + b[1..];
      forall x ensures x in a[1..] <==> x in b[1..] {
        assert (x in a <==> x == a[0] || x in a[1..]) && (x in b <==> x == b[0] || x in b[1..]);
      }
      SortedIsUnique(a[1..], b[1..]);
    }
  }

  function Inserted(x: string, texts: seq<string>): seq<string> {
    if texts == [] || Before(x, texts[0]) then [x] + texts else [texts[0]] + Inserted(x, texts[1..])
  }

  lemma {:induction false} InsertedHolds(x: string, texts: seq<string>, y: string)
    ensures y in Inserted(x, texts) <==> y == x || y in texts
  {
    if texts != [] && !Before(x, texts[0]) {
      InsertedHolds(x, texts[1..], y);
      assert texts == [texts[0]] + texts[1..];
    }
  }

  lemma {:induction false} InsertedIsSorted(x: string, texts: seq<string>)
    requires Sorted(texts) && x !in texts
    ensures Sorted(Inserted(x, texts))
  {
    if texts != [] {
      if Before(x, texts[0]) {
        forall j | 0 <= j < |texts| ensures Before(x, texts[j]) {
          if j > 0 { BeforeIsTransitive(x, texts[0], texts[j]); }
        }
      } else {
        BeforeIsTotal(x, texts[0]);
        FirstIsOnce(texts);
        InsertedIsSorted(x, texts[1..]);
        var rest := Inserted(x, texts[1..]);
        forall j | 0 <= j < |rest| ensures Before(texts[0], rest[j]) {
          InsertedHolds(x, texts[1..], rest[j]);
          if rest[j] != x { FirstIsLeast(texts, rest[j]); }
        }
      }
    }
  }

  /** And there is one. */
  lemma {:induction false} ListingExists(texts: set<string>)
    ensures exists xs: seq<string> :: Sorted(xs) && forall x :: x in xs <==> x in texts
  {
    if texts == {} {
      assert Sorted([]);
    } else {
      var x :| x in texts;
      ListingExists(texts - {x});
      var xs: seq<string> :| Sorted(xs) && forall y :: y in xs <==> y in texts - {x};
      InsertedIsSorted(x, xs);
      forall y ensures y in Inserted(x, xs) <==> y in texts { InsertedHolds(x, xs, y); }
    }
  }

  /** The order is the dictionary's: the first difference decides, and a beginning comes first. */
  lemma {:induction false} BeforeIff(a: string, b: string)
    ensures Before(a, b) <==>
      exists k :: 0 <= k <= |a| && k < |b| && a[..k] == b[..k] && (k < |a| ==> a[k] < b[k])
  {
    if a != "" && b != "" && a[0] == b[0] {
      BeforeIff(a[1..], b[1..]);
      assert a == [a[0]] + a[1..] && b == [b[0]] + b[1..];
      if Before(a, b) {
        var k :| 0 <= k <= |a[1..]| && k < |b[1..]| && a[1..][..k] == b[1..][..k] && (k < |a[1..]| ==> a[1..][k] < b[1..][k]);
        assert a[..k + 1] == [a[0]] + a[1..][..k] && b[..k + 1] == [b[0]] + b[1..][..k];
      }
      if k :| 0 <= k <= |a| && k < |b| && a[..k] == b[..k] && (k < |a| ==> a[k] < b[k]) {
        assert a[1..][..k - 1] == a[..k][1..] && b[1..][..k - 1] == b[..k][1..];
      }
    } else if a != "" && b != "" {
      assert a[..0] == b[..0];
      if k :| 0 < k <= |a| && k < |b| && a[..k] == b[..k] { assert a[..k][0] == b[..k][0]; }
    } else {
      assert a[..0] == b[..0];
    }
  }
}
