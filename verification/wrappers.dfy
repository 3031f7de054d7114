/** The optional value and the listing of a set, shared by every module. */
module Wrappers {

  datatype Option<+T> = None | Some(value: T) {
    function GetOr(default: T): T {
      if Some? then value else default
    }
  }

  /** `xs` enumerates `keys`, each once, in some order. */
  ghost predicate Listing<T(!new)>(xs: seq<T>, keys: set<T>) {
    && (forall x :: x in xs <==> x in keys)
    && (forall i, j :: 0 <= i < j < |xs| ==> xs[i] != xs[j])
  }

  lemma ListingTail<T(!new)>(xs: seq<T>, keys: set<T>)
    requires Listing(xs, keys) && xs != []
    ensures xs[0] in keys && Listing(xs[1..], keys - {xs[0]})
  {
    var x, rest := xs[0], xs[1..];
    assert xs == [x] + rest;
    forall y
      ensures y in rest <==> y in keys - {x}
    {
      if y in rest {
        var k :| 0 <= k < |rest| && rest[k] == y;
        assert xs[0] != xs[k + 1];
      }
    }
  }

  /** A finite set can be listed. */
  ghost function SomeOrder<T(!new)>(keys: set<T>): (xs: seq<T>)
    ensures Listing(xs, keys)
  {
    if keys == {} then []
    else
      var x :| x in keys;
      SomeOrder(keys - {x}) + [x]
  }

  lemma NoMembers(s: set<int>)
    requires forall b :: b !in s
    ensures s == {}
  {
    var none: set<int> := {};
    assert forall b :: b in s <==> b in none;
  }

  lemma NonEmpty(s: set<int>)
    requires s != {}
    ensures exists b :: b in s
  {
    if forall b :: b !in s {
      NoMembers(s);
    }
  }
}
