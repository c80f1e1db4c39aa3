/** Facts about sequences that several components share. */
module Sequences {

  ghost predicate Distinct<A>(xs: seq<A>)
  {
    forall i, j :: 0 <= i < j < |xs| ==> xs[i] != xs[j]
  }

  function Remove<A>(xs: seq<A>, k: nat): seq<A>
    requires k < |xs|
  {
    xs[..k] + xs[k + 1..]
  }

  lemma RemoveIs<A>(xs: seq<A>, k: nat)
    requires Distinct(xs) && k < |xs|
    ensures Distinct(Remove(xs, k)) && forall y :: y in Remove(xs, k) <==> y in xs && y != xs[k]
  {
    var r := Remove(xs, k);
    forall y | y in xs && y != xs[k]
      ensures y in r
    {
      var i :| 0 <= i < |xs| && xs[i] == y;
      assert r[if i < k then i else i - 1] == y;
    }
  }

  lemma AppendIs<A>(xs: seq<A>, x: A)
    requires Distinct(xs) && x !in xs
    ensures Distinct(xs + [x]) && forall y :: y in xs + [x] <==> y in xs || y == x
  {
  }

  lemma PrependIs<A>(xs: seq<A>, x: A)
    requires Distinct(xs) && x !in xs
    ensures Distinct([x] + xs) && forall y :: y in [x] + xs <==> y in xs || y == x
  {
  }

  /** The first place of an element. */
  function Place<A(==)>(xs: seq<A>, x: A): (i: nat)
    requires x in xs
    ensures i < |xs| && xs[i] == x
  {
    if xs[0] == x then 0 else 1 + Place(xs[1..], x)
  }

  /** The members of a sequence whose mark is as wanted, in order. */
  function Select<A>(xs: seq<A>, marks: seq<bool>, want: bool): seq<A>
    requires |xs| == |marks|
  {
    if xs == [] then []
    else
      var rest := Select(xs[..|xs| - 1], marks[..|xs| - 1], want);
      if marks[|xs| - 1] == want then rest + [xs[|xs| - 1]] else rest
  }

  lemma SelectNext<A>(xs: seq<A>, marks: seq<bool>, want: bool, x: A, mark: bool)
    requires |xs| == |marks|
    ensures Select(xs + [x], marks + [mark], want) ==
            if mark == want then Select(xs, marks, want) + [x] else Select(xs, marks, want)
  {
    assert (xs + [x])[..|xs|] == xs && (marks + [mark])[..|xs|] == marks;
  }

  lemma Associative<A>(xs: seq<A>, ys: seq<A>, zs: seq<A>)
    ensures xs + (ys + zs) == (xs + ys) + zs
  {
  }

  lemma Cut<A>(xs: seq<A>, i: nat)
    requires i < |xs|
    ensures xs[..i + 1] == xs[..i] + [xs[i]] && xs[i..] == [xs[i]] + xs[i + 1..]
  {
  }
}
