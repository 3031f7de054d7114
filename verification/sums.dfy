/** Sums over finite sets of keys and over sequences of optional cells: the accounting vocabulary
    of the stock invariants. */
module Sums {
  import opened Wrappers

  ghost function Sum<K(!new)>(keys: set<K>, f: K -> int): int {
    if keys == {} then 0
    else
      var k :| k in keys;
      f(k) + Sum(keys - {k}, f)
  }

  /** The choice made inside `Sum` does not matter: any key can be taken out first. */
  lemma {:induction false} SumPick<K(!new)>(keys: set<K>, f: K -> int, k: K)
    requires k in keys
    ensures Sum(keys, f) == f(k) + Sum(keys - {k}, f)
    decreases keys
  {
    var first :| first in keys && Sum(keys, f) == f(first) + Sum(keys - {first}, f);
    if first != k {
      SumPick(keys - {first}, f, k);
      SumPick(keys - {k}, f, first);
      assert keys - {first} - {k} == keys - {k} - {first};
    }
  }

  lemma {:induction false} SumSame<K(!new)>(keys: set<K>, f: K -> int, g: K -> int)
    requires forall k :: k in keys ==> f(k) == g(k)
    ensures Sum(keys, f) == Sum(keys, g)
    decreases keys
  {
    if keys != {} {
      var k :| k in keys;
      SumPick(keys, f, k);
      SumPick(keys, g, k);
      SumSame(keys - {k}, f, g);
    }
  }

  /** Changing the summand of one key, present before or not, moves the sum by exactly that change. */
  lemma {:induction false} SumUpdate<K(!new)>(keys: set<K>, f: K -> int, keys': set<K>, g: K -> int, k: K)
    requires keys' == keys + {k}
    requires forall j :: j in keys && j != k ==> f(j) == g(j)
    ensures Sum(keys', g) == Sum(keys, f) + g(k) - (if k in keys then f(k) else 0)
  {
    SumPick(keys', g, k);
    SumSame(keys - {k}, f, g);
    assert keys' - {k} == keys - {k};
    if k in keys {
      SumPick(keys, f, k);
    } else {
      assert keys - {k} == keys;
    }
  }

  lemma {:induction false} SumNonNegative<K(!new)>(keys: set<K>, f: K -> int)
    requires forall k :: k in keys ==> f(k) >= 0
    ensures Sum(keys, f) >= 0
    ensures forall k :: k in keys ==> f(k) <= Sum(keys, f)
    decreases keys
  {
    if keys != {} {
      var k :| k in keys;
      SumPick(keys, f, k);
      SumNonNegative(keys - {k}, f);
    }
  }

  lemma {:induction false} SumZero<K(!new)>(keys: set<K>, f: K -> int)
    requires forall k :: k in keys ==> f(k) == 0
    ensures Sum(keys, f) == 0
    decreases keys
  {
    if keys != {} {
      var k :| k in keys;
      SumPick(keys, f, k);
      SumZero(keys - {k}, f);
    }
  }

  lemma {:induction false} SumMonotone<K(!new)>(keys: set<K>, f: K -> int, g: K -> int)
    requires forall k :: k in keys ==> f(k) <= g(k)
    ensures Sum(keys, f) <= Sum(keys, g)
    decreases keys
  {
    if keys != {} {
      var k :| k in keys;
      SumPick(keys, f, k);
      SumPick(keys, g, k);
      SumMonotone(keys - {k}, f, g);
    }
  }

  function Cell(cell: Option<int>): int {
    cell.GetOr(0)
  }

  /** Sum of a row of shard cells, a missing key counting as zero. */
  function Total(row: seq<Option<int>>): int {
    if row == [] then 0 else Cell(row[0]) + Total(row[1..])
  }

  lemma {:induction false} TotalUpdate(row: seq<Option<int>>, i: nat, cell: Option<int>)
    requires i < |row|
    ensures Total(row[i := cell]) == Total(row) - Cell(row[i]) + Cell(cell)
  {
    if i == 0 {
      assert row[i := cell][1..] == row[1..];
    } else {
      assert row[i := cell][1..] == row[1..][i - 1 := cell];
      TotalUpdate(row[1..], i - 1, cell);
    }
  }

  lemma {:induction false} TotalConcat(a: seq<Option<int>>, b: seq<Option<int>>)
    ensures Total(a + b) == Total(a) + Total(b)
  {
    if a == [] {
      assert a + b == b;
    } else {
      assert (a + b)[1..] == a[1..] + b;
      TotalConcat(a[1..], b);
    }
  }

  lemma {:induction false} TotalBounds(row: seq<Option<int>>)
    requires forall i :: 0 <= i < |row| ==> Cell(row[i]) >= 0
    ensures Total(row) >= 0
    ensures forall i :: 0 <= i < |row| ==> Cell(row[i]) <= Total(row)
  {
    if row != [] {
      TotalBounds(row[1..]);
      forall i | 0 <= i < |row|
        ensures Cell(row[i]) <= Total(row)
      {
        if i > 0 {
          assert row[i] == row[1..][i - 1];
        }
      }
    }
  }

  lemma {:induction false} TotalZero(row: seq<Option<int>>)
    requires forall i :: 0 <= i < |row| ==> Cell(row[i]) == 0
    ensures Total(row) == 0
  {
    if row != [] {
      assert forall i :: 0 <= i < |row[1..]| ==> row[1..][i] == row[i + 1];
      TotalZero(row[1..]);
    }
  }
}
