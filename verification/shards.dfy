/** Shard arithmetic: splitting a total, and the circular scans that reserve from and drain a row of shards. */
module Shards {
  import opened Wrappers
  import opened Sums

  type OrderId = string
  type ProductId = int

  function NormalizeShardCount(configured: int): (n: nat)
    ensures n > 0 && (configured > 0 ==> n == configured)
  {
    if configured <= 0 then 1 else configured
  }

  /** Shard at which the scans of an order start; the checksum itself is a parameter. */
  function StartIndex(crc32: OrderId -> nat, orderId: OrderId, shardCount: nat): (i: nat)
    requires shardCount > 0
    ensures i < shardCount
  {
    if shardCount <= 1 then 0 else crc32(orderId) % shardCount
  }

  function Clamp(x: int): nat {
    if x < 0 then 0 else x
  }

  function Values(values: seq<int>): seq<Option<int>> {
    seq(|values|, i requires 0 <= i < |values| => Some(values[i]))
  }

  function Split(total: int, configured: int): seq<int> {
    var n := NormalizeShardCount(configured);
    var t := Clamp(total);
    seq(n, i => t / n + if i == 0 then t % n else 0)
  }

  method SplitStockAcrossShards(total: int, configured: int) returns (values: array<int>)
    ensures fresh(values)
    ensures values[..] == Split(total, configured)
  {
    var shardCount := NormalizeShardCount(configured);
    var t := total;
    if t < 0 {
      t := 0;
    }
    values := new int[shardCount];
    var per, remain := t / shardCount, t % shardCount;
    var i := 0;
    while i < values.Length
      invariant 0 <= i <= values.Length
      invariant forall k :: 0 <= k < i ==> values[k] == Split(total, configured)[k]
    {
      values[i] := per;
      if i == 0 {
        values[i] := values[i] + remain;
      }
      i := i + 1;
    }
  }

  lemma {:induction false} TotalConstant(row: seq<Option<int>>, c: int)
    requires forall i :: 0 <= i < |row| ==> Cell(row[i]) == c
    ensures Total(row) == |row| * c
  {
    if row != [] {
      assert forall i :: 0 <= i < |row[1..]| ==> row[1..][i] == row[i + 1];
      TotalConstant(row[1..], c);
      assert |row| * c == (|row| - 1) * c + c;
    }
  }

  /** Splitting loses nothing: the shards sum back to the total, are non-negative, and differ only in the first, which
      gets less than one more for each shard. */
  lemma SplitSumsBack(total: int, configured: int)
    ensures |Split(total, configured)| == NormalizeShardCount(configured)
    ensures Total(Values(Split(total, configured))) == Clamp(total)
    ensures forall i :: 0 <= i < |Split(total, configured)| ==> Split(total, configured)[i] >= 0
    ensures forall i, j :: 0 < i < j < |Split(total, configured)| ==>
            Split(total, configured)[i] == Split(total, configured)[j]
    ensures forall j :: 0 < j < |Split(total, configured)| ==>
            0 <= Split(total, configured)[0] - Split(total, configured)[j] < |Split(total, configured)|
  {
    var n, t := NormalizeShardCount(configured), Clamp(total);
    var row := Values(Split(total, configured));
    var even := row[0 := Some(t / n)];
    TotalUpdate(row, 0, Some(t / n));
    TotalConstant(even, t / n);
    assert n * (t / n) + t % n == t;
  }

  /** Position `i` of the scan that starts at shard `start`. */
  function At(start: nat, i: nat, n: nat): (idx: nat)
    requires n > 0
    ensures idx < n
  {
    (start + i) % n
  }

  lemma WrapAround(x: nat, n: nat)
    requires 0 < n <= x < 2 * n
    ensures x % n == x - n
  {
  }

  lemma NoWrap(x: nat, n: nat)
    requires x < n
    ensures x % n == x
  {
  }

  /** The scan visits every shard. */
  lemma ScanVisits(start: nat, n: nat, shard: nat) returns (i: nat)
    requires start < n && shard < n
    ensures i < n && At(start, i, n) == shard
  {
    if shard >= start {
      i := shard - start;
      assert start + i == shard;
      NoWrap(shard, n);
    } else {
      i := shard + n - start;
      WrapAround(start + i, n);
    }
  }

  predicate Fits(cell: Option<int>, amount: int) {
    cell.Some? && cell.value >= amount
  }

  function FirstFit(row: seq<Option<int>>, start: nat, amount: int, i: nat): (r: Option<nat>)
    requires i <= |row|
    ensures r.Some? ==> r.value < |row|
    decreases |row| - i
  {
    if i == |row| then None
    else if Fits(row[At(start, i, |row|)], amount) then Some(At(start, i, |row|))
    else FirstFit(row, start, amount, i + 1)
  }

  /** From position `i` on, the scan takes the first shard that fits, and fails only when none does. */
  lemma {:induction false} FirstFitFrom(row: seq<Option<int>>, start: nat, amount: int, i: nat)
    requires start < |row| && i <= |row|
    ensures match FirstFit(row, start, amount, i)
            case Some(idx) =>
              exists k :: i <= k < |row| && idx == At(start, k, |row|) && Fits(row[idx], amount)
                       && forall j :: i <= j < k ==> !Fits(row[At(start, j, |row|)], amount)
            case None => forall j :: i <= j < |row| ==> !Fits(row[At(start, j, |row|)], amount)
    decreases |row| - i
  {
    if i < |row| {
      FirstFitFrom(row, start, amount, i + 1);
      if Fits(row[At(start, i, |row|)], amount) {
        assert FirstFit(row, start, amount, i) == Some(At(start, i, |row|));
      } else if FirstFit(row, start, amount, i).Some? {
        var idx := FirstFit(row, start, amount, i).value;
        var k :| i + 1 <= k < |row| && idx == At(start, k, |row|) && Fits(row[idx], amount)
                 && forall j :: i + 1 <= j < k ==> !Fits(row[At(start, j, |row|)], amount);
        assert forall j :: i <= j < k ==> !Fits(row[At(start, j, |row|)], amount);
      }
    }
  }

  /** The reserve scan refuses exactly when no single shard holds the whole amount. */
  lemma FirstFitComplete(row: seq<Option<int>>, start: nat, amount: int)
    requires start < |row|
    ensures FirstFit(row, start, amount, 0).None? <==> forall j :: 0 <= j < |row| ==> !Fits(row[j], amount)
    ensures FirstFit(row, start, amount, 0).Some? ==> Fits(row[FirstFit(row, start, amount, 0).value], amount)
  {
    FirstFitFrom(row, start, amount, 0);
    if FirstFit(row, start, amount, 0).None? {
      forall j | 0 <= j < |row|
        ensures !Fits(row[j], amount)
      {
        var i := ScanVisits(start, |row|, j);
      }
    }
  }

  datatype Drained = Drained(row: seq<Option<int>>, remain: int)

  /** The circular loop of a negative adjust, from position `i` with `remain` still to take. */
  function Drain(row: seq<Option<int>>, start: nat, remain: int, i: nat): (d: Drained)
    requires i <= |row|
    ensures |d.row| == |row|
    decreases |row| - i
  {
    if i == |row| then Drained(row, remain)
    else
      var idx := At(start, i, |row|);
      var stock := Cell(row[idx]);
      if stock > 0 then
        var take := if stock > remain then remain else stock;
        var row' := row[idx := Some(stock - take)];
        if remain - take == 0 then Drained(row', 0) else Drain(row', start, remain - take, i + 1)
      else Drain(row, start, remain, i + 1)
  }

  /** The row loses exactly what was taken. */
  lemma {:induction false} DrainTotal(row: seq<Option<int>>, start: nat, remain: int, i: nat)
    requires start < |row| && i <= |row| && remain > 0
    ensures var d := Drain(row, start, remain, i);
            0 <= d.remain <= remain && Total(row) - Total(d.row) == remain - d.remain
    decreases |row| - i
  {
    if i < |row| {
      var idx := At(start, i, |row|);
      var stock := Cell(row[idx]);
      if stock > 0 {
        var take := if stock > remain then remain else stock;
        TotalUpdate(row, idx, Some(stock - take));
        if remain - take != 0 {
          DrainTotal(row[idx := Some(stock - take)], start, remain - take, i + 1);
        }
      } else {
        DrainTotal(row, start, remain, i + 1);
      }
    }
  }

  /** No shard grows or goes below zero. */
  lemma {:induction false} DrainBounds(row: seq<Option<int>>, start: nat, remain: int, i: nat, j: nat)
    requires start < |row| && i <= |row| && remain > 0 && j < |row| && Cell(row[j]) >= 0
    ensures 0 <= Cell(Drain(row, start, remain, i).row[j]) <= Cell(row[j])
    decreases |row| - i
  {
    if i < |row| {
      var idx := At(start, i, |row|);
      var stock := Cell(row[idx]);
      if stock > remain {
      } else if stock > 0 {
        if remain - stock != 0 {
          DrainBounds(row[idx := Some(0)], start, remain - stock, i + 1, j);
        }
      } else {
        DrainBounds(row, start, remain, i + 1, j);
      }
    }
  }

  /** Something is left to take only when every shard visited is empty. */
  lemma {:induction false} DrainEmpties(row: seq<Option<int>>, start: nat, remain: int, i: nat)
    requires start < |row| && i <= |row| && remain > 0
    requires forall j :: 0 <= j < |row| ==> Cell(row[j]) >= 0
    requires forall j :: 0 <= j < i ==> Cell(row[At(start, j, |row|)]) == 0
    ensures var d := Drain(row, start, remain, i);
            d.remain > 0 ==> forall j :: 0 <= j < |row| ==> Cell(d.row[At(start, j, |row|)]) == 0
    decreases |row| - i
  {
    if i < |row| {
      var idx := At(start, i, |row|);
      var stock := Cell(row[idx]);
      if stock > remain {
      } else if stock > 0 {
        if remain - stock != 0 {
          DrainEmpties(row[idx := Some(0)], start, remain - stock, i + 1);
        }
      } else {
        DrainEmpties(row, start, remain, i + 1);
      }
    }
  }

  /** Draining is exact: with non-negative shards that hold the amount, the circular loop takes exactly the
      amount, so the script's fall-through failure after the loop is never reached. */
  lemma DrainExact(row: seq<Option<int>>, start: nat, amount: int)
    requires start < |row| && 0 < amount <= Total(row)
    requires forall j :: 0 <= j < |row| ==> Cell(row[j]) >= 0
    ensures var d := Drain(row, start, amount, 0);
            && d.remain == 0
            && Total(d.row) == Total(row) - amount
            && (forall j :: 0 <= j < |row| ==> 0 <= Cell(d.row[j]) <= Cell(row[j]))
  {
    DrainTotal(row, start, amount, 0);
    DrainEmpties(row, start, amount, 0);
    forall j | 0 <= j < |row| {
      DrainBounds(row, start, amount, 0, j);
    }
    var d := Drain(row, start, amount, 0);
    if d.remain > 0 {
      forall j | 0 <= j < |row|
        ensures Cell(d.row[j]) == 0
      {
        var i := ScanVisits(start, |row|, j);
      }
      TotalZero(d.row);
      assert false;
    }
  }

  /** Position `k` splits the scan from `i`: shards before it ended up empty, shards after it were not touched. */
  ghost predicate SplitsAt(before: seq<Option<int>>, after: seq<Option<int>>, start: nat, i: nat, k: nat)
    requires |before| == |after|
  {
    && i <= k <= |before|
    && (forall j {:trigger At(start, j, |before|)} :: i <= j < k ==> Cell(after[At(start, j, |before|)]) <= 0)
    && (forall j {:trigger At(start, j, |before|)} :: k < j < |before| ==>
         after[At(start, j, |before|)] == before[At(start, j, |before|)])
  }

  /** The drain is greedy in scan order: a shard that still holds stock is followed only by untouched shards. */
  lemma {:induction false} DrainGreedy(row: seq<Option<int>>, start: nat, remain: int, i: nat)
    requires start < |row| && i <= |row| && remain > 0
    ensures exists k :: SplitsAt(row, Drain(row, start, remain, i).row, start, i, k)
    decreases |row| - i
  {
    var d := Drain(row, start, remain, i);
    if i == |row| {
      assert SplitsAt(row, d.row, start, i, i);
    } else {
      var idx := At(start, i, |row|);
      var stock := Cell(row[idx]);
      forall j | i < j < |row|
        ensures At(start, j, |row|) != idx
      {
        ScanDistinct(start, i, j, |row|);
      }
      if stock >= remain {
        assert SplitsAt(row, d.row, start, i, i);
      } else {
        var row' := if stock > 0 then row[idx := Some(0)] else row;
        var rest := if stock > 0 then remain - stock else remain;
        DrainGreedy(row', start, rest, i + 1);
        DrainKeepsEarlier(row', start, rest, i + 1, i);
        var k :| SplitsAt(row', d.row, start, i + 1, k);
        assert SplitsAt(row, d.row, start, i, k);
      }
    }
  }

  lemma AtIs(start: nat, i: nat, n: nat)
    requires start < n && i < n
    ensures At(start, i, n) == if start + i < n then start + i else start + i - n
  {
    var x := start + i;
    if x < n {
      NoWrap(x, n);
    } else {
      WrapAround(x, n);
    }
  }

  lemma ScanDistinct(start: nat, i: nat, j: nat, n: nat)
    requires start < n && i < j < n
    ensures At(start, i, n) != At(start, j, n)
  {
    AtIs(start, i, n);
    AtIs(start, j, n);
  }

  lemma {:induction false} DrainKeepsEarlier(row: seq<Option<int>>, start: nat, remain: int, i: nat, j: nat)
    requires start < |row| && j < i <= |row|
    ensures Drain(row, start, remain, i).row[At(start, j, |row|)] == row[At(start, j, |row|)]
    decreases |row| - i
  {
    if i < |row| {
      ScanDistinct(start, j, i, |row|);
      var idx := At(start, i, |row|);
      var stock := Cell(row[idx]);
      var take := if stock > remain then remain else stock;
      var row' := if stock > 0 then row[idx := Some(stock - take)] else row;
      if !(stock > 0 && remain - take == 0) {
        DrainKeepsEarlier(row', start, if stock > 0 then remain - take else remain, i + 1, j);
      }
    }
  }
}
