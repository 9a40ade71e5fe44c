/**
 * `list.sort(key=..., reverse=True)` as `employer_matches` uses it: descending
 * by key, and stable, so rows with equal keys keep the order they had.
 */
module Ranking {
  /** A row with the number it is sorted by. */
  datatype Ranked<T> = Ranked(score: real, item: T)

  predicate Descending<T>(xs: seq<Ranked<T>>)
  {
    forall i, j :: 0 <= i < j < |xs| ==> xs[i].score >= xs[j].score
  }

  /** `x` placed after every row whose score is at least its own. */
  function Insert<T>(sorted: seq<Ranked<T>>, x: Ranked<T>): (r: seq<Ranked<T>>)
    ensures |r| == |sorted| + 1
  {
    if sorted == [] then [x]
    else if sorted[0].score >= x.score then [sorted[0]] + Insert(sorted[1..], x)
    else [x] + sorted
  }

  /** The sorted order: each row in turn inserted into the sorted earlier rows. */
  function SortDesc<T>(xs: seq<Ranked<T>>): (r: seq<Ranked<T>>)
    ensures |r| == |xs|
  {
    if xs == [] then [] else Insert(SortDesc(xs[..|xs| - 1]), xs[|xs| - 1])
  }

  /** The rows with score `c`, in order. */
  function WithScore<T>(xs: seq<Ranked<T>>, c: real): seq<Ranked<T>>
  {
    if xs == [] then [] else (if xs[0].score == c then [xs[0]] else []) + WithScore(xs[1..], c)
  }

  /** Inserting keeps every score under a bound that the row and the sequence are under. */
  lemma {:induction false} InsertBound<T>(sorted: seq<Ranked<T>>, x: Ranked<T>, b: real)
    requires x.score <= b && forall i :: 0 <= i < |sorted| ==> sorted[i].score <= b
    ensures forall i :: 0 <= i < |Insert(sorted, x)| ==> Insert(sorted, x)[i].score <= b
  {
    if sorted != [] && sorted[0].score >= x.score {
      InsertBound(sorted[1..], x, b);
      var rest := Insert(sorted[1..], x);
      assert forall i :: 1 <= i < |rest| + 1 ==> ([sorted[0]] + rest)[i] == rest[i - 1];
    }
  }

  lemma {:induction false} InsertDescending<T>(sorted: seq<Ranked<T>>, x: Ranked<T>)
    requires Descending(sorted)
    ensures Descending(Insert(sorted, x))
  {
    if sorted != [] && sorted[0].score >= x.score {
      var rest := Insert(sorted[1..], x);
      InsertDescending(sorted[1..], x);
      InsertBound(sorted[1..], x, sorted[0].score);
      var r := [sorted[0]] + rest;
      assert forall i :: 1 <= i < |r| ==> r[i] == rest[i - 1];
    }
  }

  lemma {:induction false} InsertPermutation<T>(sorted: seq<Ranked<T>>, x: Ranked<T>)
    ensures multiset(Insert(sorted, x)) == multiset(sorted) + multiset{x}
  {
    if sorted != [] && sorted[0].score >= x.score {
      InsertPermutation(sorted[1..], x);
      assert sorted == [sorted[0]] + sorted[1..];
    }
  }

  /** The result is in descending order of score. */
  lemma {:induction false} SortDescDescending<T>(xs: seq<Ranked<T>>)
    ensures Descending(SortDesc(xs))
  {
    if xs != [] {
      SortDescDescending(xs[..|xs| - 1]);
      InsertDescending(SortDesc(xs[..|xs| - 1]), xs[|xs| - 1]);
    }
  }

  /** The result holds the same rows. */
  lemma {:induction false} SortDescPermutation<T>(xs: seq<Ranked<T>>)
    ensures multiset(SortDesc(xs)) == multiset(xs)
  {
    if xs != [] {
      var init := xs[..|xs| - 1];
      SortDescPermutation(init);
      InsertPermutation(SortDesc(init), xs[|xs| - 1]);
      assert xs == init + [xs[|xs| - 1]];
    }
  }

  lemma {:induction false} WithScoreConcat<T>(a: seq<Ranked<T>>, b: seq<Ranked<T>>, c: real)
    ensures WithScore(a + b, c) == WithScore(a, c) + WithScore(b, c)
  {
    if a == [] {
      assert a + b == b;
    } else {
      var ab := a + b;
      assert ab[0] == a[0] && ab[1..] == a[1..] + b;
      var h := if a[0].score == c then [a[0]] else [];
      assert WithScore(ab, c) == h + WithScore(a[1..] + b, c);
      WithScoreConcat(a[1..], b, c);
      assert WithScore(a, c) == h + WithScore(a[1..], c);
      assert h + (WithScore(a[1..], c) + WithScore(b, c)) == (h + WithScore(a[1..], c)) + WithScore(b, c);
    }
  }

  /** In a descending sequence that starts below `c`, no row has score `c`. */
  lemma {:induction false} WithScoreBelow<T>(xs: seq<Ranked<T>>, c: real)
    requires Descending(xs) && xs != [] && xs[0].score < c
    ensures WithScore(xs, c) == []
  {
    if |xs| > 1 {
      WithScoreBelow(xs[1..], c);
    }
  }

  lemma {:induction false} InsertStable<T>(sorted: seq<Ranked<T>>, x: Ranked<T>, c: real)
    requires Descending(sorted)
    ensures WithScore(Insert(sorted, x), c) == WithScore(sorted, c) + (if x.score == c then [x] else [])
  {
    if sorted == [] {
    } else if sorted[0].score >= x.score {
      InsertStable(sorted[1..], x, c);
      var rest := Insert(sorted[1..], x);
      assert ([sorted[0]] + rest)[1..] == rest;
    } else {
      if x.score == c {
        WithScoreBelow(sorted, c);
      }
      assert ([x] + sorted)[1..] == sorted;
    }
  }

  /** Stability: the rows sharing any one score come out in the order they went in. */
  lemma {:induction false} SortDescStable<T>(xs: seq<Ranked<T>>, c: real)
    ensures WithScore(SortDesc(xs), c) == WithScore(xs, c)
  {
    if xs != [] {
      var init := xs[..|xs| - 1];
      var x := xs[|xs| - 1];
      SortDescStable(init, c);
      SortDescDescending(init);
      InsertStable(SortDesc(init), x, c);
      assert xs == init + [x];
      WithScoreConcat(init, [x], c);
      assert [x][1..] == [];
    }
  }

  /** The rows without their scores. */
  function Items<T>(xs: seq<Ranked<T>>): (r: seq<T>)
    ensures |r| == |xs| && forall i :: 0 <= i < |xs| ==> r[i] == xs[i].item
  {
    if xs == [] then [] else [xs[0].item] + Items(xs[1..])
  }

  lemma {:induction false} ItemsConcat<T>(a: seq<Ranked<T>>, b: seq<Ranked<T>>)
    ensures Items(a + b) == Items(a) + Items(b)
  {
    assert |Items(a + b)| == |Items(a) + Items(b)|;
    forall i | 0 <= i < |a + b| ensures Items(a + b)[i] == (Items(a) + Items(b))[i] {
      if i < |a| { assert (a + b)[i] == a[i]; } else { assert (a + b)[i] == b[i - |a|]; }
    }
  }

  lemma {:induction false} InsertItems<T>(sorted: seq<Ranked<T>>, x: Ranked<T>)
    ensures multiset(Items(Insert(sorted, x))) == multiset(Items(sorted)) + multiset{x.item}
  {
    if sorted == [] {
    } else if sorted[0].score >= x.score {
      var h := sorted[0];
      var rest := Insert(sorted[1..], x);
      assert Insert(sorted, x) == [h] + rest;
      ItemsCons(h, rest);
      ItemsCons(h, sorted[1..]);
      assert [h] + sorted[1..] == sorted;
      InsertItems(sorted[1..], x);
      MultisetCons(h.item, Items(rest));
      MultisetCons(h.item, Items(sorted[1..]));
    } else {
      assert Insert(sorted, x) == [x] + sorted;
      ItemsCons(x, sorted);
      MultisetCons(x.item, Items(sorted));
    }
  }

  lemma ItemsCons<T>(h: Ranked<T>, t: seq<Ranked<T>>)
    ensures Items([h] + t) == [h.item] + Items(t)
  {
    var r := [h] + t;
    assert r[0] == h && r[1..] == t;
  }

  lemma MultisetCons<T>(h: T, t: seq<T>)
    ensures multiset([h] + t) == multiset{h} + multiset(t)
  {
  }

  /** Sorting only reorders the rows' items. */
  lemma {:induction false} SortDescItems<T>(xs: seq<Ranked<T>>)
    ensures multiset(Items(SortDesc(xs))) == multiset(Items(xs))
  {
    if xs != [] {
      var init := xs[..|xs| - 1];
      var x := xs[|xs| - 1];
      assert xs == init + [x];
      ItemsConcat(init, [x]);
      var items := Items(init) + [x.item];
      assert Items(xs) == items;
      assert SortDesc(xs) == Insert(SortDesc(init), x);
      SortDescItems(init);
      InsertItems(SortDesc(init), x);
      assert multiset(items) == multiset(Items(init)) + multiset{x.item};
    }
  }
}
