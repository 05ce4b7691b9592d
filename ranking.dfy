/**
 * The ranking of the crop classifier's classes in
 * backend/api/Wheather/crop_recommendation.py: `zip` the classes with their
 * probabilities, sort by probability with `reverse=True` (a stable sort, so
 * classes of equal probability keep their original order) and keep the
 * first three names.
 */
module Ranking {
  import opened PyText

  /** One pair of the `zip`, with its position in it. */
  datatype Scored = Scored(pos: nat, crop: string, prob: real)

  /** `zip(classes, probabilities)`, each pair tagged with its position;
      the shorter list decides the length. */
  function Zip(classes: seq<string>, probs: seq<real>): (r: seq<Scored>)
    ensures |r| == if |classes| < |probs| then |classes| else |probs|
    ensures forall i :: 0 <= i < |r| ==> r[i] == Scored(i, classes[i], probs[i])
  {
    if |classes| == 0 || |probs| == 0 then []
    else
      var n := if |classes| < |probs| then |classes| else |probs|;
      Zip(classes[..n - 1], probs[..n - 1]) + [Scored(n - 1, classes[n - 1], probs[n - 1])]
  }

  /** The order the stable descending sort produces: higher probability
      first, and on a tie the earlier pair first. */
  predicate Before(a: Scored, b: Scored) {
    a.prob > b.prob || (a.prob == b.prob && a.pos < b.pos)
  }

  predicate Ordered(s: seq<Scored>) {
    forall i, j :: 0 <= i < j < |s| ==> Before(s[i], s[j])
  }

  /** Inserts `x` after every element at least as probable. */
  function Insert(s: seq<Scored>, x: Scored): (r: seq<Scored>)
    ensures multiset(r) == multiset(s) + multiset{x}
    ensures |r| == |s| + 1
  {
    if s == [] then [x]
    else if s[0].prob >= x.prob then
      assert s == [s[0]] + s[1..];
      [s[0]] + Insert(s[1..], x)
    else [x] + s
  }

  /** `sorted(pairs, key=lambda p: p[1], reverse=True)`. */
  function SortDesc(s: seq<Scored>): (r: seq<Scored>)
    ensures multiset(r) == multiset(s)
    ensures |r| == |s|
  {
    if s == [] then []
    else
      assert s == s[..|s| - 1] + [s[|s| - 1]];
      Insert(SortDesc(s[..|s| - 1]), s[|s| - 1])
  }

  /** `a` comes before every element of `s`. */
  predicate Heads(a: Scored, s: seq<Scored>) {
    forall j :: 0 <= j < |s| ==> Before(a, s[j])
  }

  /** Putting a head in front of an ordered sequence keeps it ordered. */
  lemma ConsOrdered(a: Scored, s: seq<Scored>)
    requires Ordered(s) && Heads(a, s)
    ensures Ordered([a] + s)
  {
    var r := [a] + s;
    forall i, j | 0 <= i < j < |r|
      ensures Before(r[i], r[j])
    {
      assert r[j] == s[j - 1];
      if i > 0 {
        assert r[i] == s[i - 1];
      }
    }
  }

  /** The tail of an ordered sequence is ordered and follows its head. */
  lemma OrderedTail(s: seq<Scored>)
    requires Ordered(s) && s != []
    ensures Ordered(s[1..]) && Heads(s[0], s[1..])
  {
    var rest := s[1..];
    forall i, j | 0 <= i < j < |rest|
      ensures Before(rest[i], rest[j])
    {
      assert rest[i] == s[i + 1] && rest[j] == s[j + 1];
    }
    forall j | 0 <= j < |rest|
      ensures Before(s[0], rest[j])
    {
      assert rest[j] == s[j + 1];
    }
  }

  /** Inserting a pair that comes after every pair already sorted keeps
      the order. */
  lemma {:induction false} InsertOrdered(s: seq<Scored>, x: Scored)
    requires Ordered(s)
    requires forall y :: y in s ==> y.pos < x.pos
    ensures Ordered(Insert(s, x))
  {
    if s == [] {
    } else if s[0].prob >= x.prob {
      var rest := s[1..];
      OrderedTail(s);
      forall y | y in rest
        ensures y.pos < x.pos
      {
        assert y in s;
      }
      InsertOrdered(rest, x);
      HeadsInserted(s[0], rest, x);
      ConsOrdered(s[0], Insert(rest, x));
    } else {
      forall j | 0 <= j < |s|
        ensures Before(x, s[j])
      {
        if j > 0 {
          assert Before(s[0], s[j]);
        }
      }
      ConsOrdered(x, s);
    }
  }

  /** A head of `s` that also comes before `x` heads `s` with `x` inserted. */
  lemma HeadsInserted(a: Scored, s: seq<Scored>, x: Scored)
    requires Heads(a, s) && Before(a, x)
    ensures Heads(a, Insert(s, x))
  {
    var t := Insert(s, x);
    forall j | 0 <= j < |t|
      ensures Before(a, t[j])
    {
      assert t[j] in multiset(t);
      if t[j] != x {
        assert t[j] in multiset(s);
        var k :| 0 <= k < |s| && s[k] == t[j];
      }
    }
  }

  /** Sorting pairs whose positions increase gives them in the stable
      descending order. */
  lemma {:induction false} SortOrdered(s: seq<Scored>)
    requires forall i, j :: 0 <= i < j < |s| ==> s[i].pos < s[j].pos
    ensures Ordered(SortDesc(s))
  {
    if s != [] {
      var init, x := s[..|s| - 1], s[|s| - 1];
      SortOrdered(init);
      forall y | y in SortDesc(init)
        ensures y.pos < x.pos
      {
        assert y in multiset(SortDesc(init));
        var k :| 0 <= k < |init| && init[k] == y;
      }
      InsertOrdered(SortDesc(init), x);
    }
  }

  function Name(p: Scored): string {
    p.crop
  }

  /** `[crop for crop, prob in crop_probs[:3]]`. */
  function TopThree(classes: seq<string>, probs: seq<real>): (r: seq<string>)
    ensures |r| <= 3
  {
    Map(Name, Take(SortDesc(Zip(classes, probs)), 3))
  }

  /** The names of the first three pairs of any list. */
  lemma FirstNames(sorted: seq<Scored>)
    ensures var r := Map(Name, Take(sorted, 3));
      |r| == (if |sorted| < 3 then |sorted| else 3) &&
      (forall i :: 0 <= i < |r| ==> r[i] == sorted[i].crop)
  {
    var top := Take(sorted, 3);
    assert forall i :: 0 <= i < |top| ==> top[i] == sorted[i];
  }

  /** The three picks are the most probable classes, ties going to the class
      listed first: every pick is one of the pairs, and it comes before every
      pair left out in the stable descending order. */
  lemma TopThreeAreBest(classes: seq<string>, probs: seq<real>)
    ensures var z := Zip(classes, probs);
      var sorted := SortDesc(z);
      |TopThree(classes, probs)| == (if |z| < 3 then |z| else 3) &&
      multiset(sorted) == multiset(z) &&
      (forall i :: 0 <= i < |TopThree(classes, probs)| ==> TopThree(classes, probs)[i] == sorted[i].crop) &&
      (forall i, j :: 0 <= i < 3 <= j < |sorted| ==> Before(sorted[i], sorted[j]))
  {
    var z := Zip(classes, probs);
    FirstNames(SortDesc(z));
    SortOrdered(z);
  }
}
