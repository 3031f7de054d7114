/** The Redis side of the inventory: every Lua script as one atomic function on the key space, and the store that
    runs it step by step. */
module RedisScripts {
  import opened Wrappers
  import opened Sums
  import opened Shards

  datatype Status = Reserved | Confirmed | Released

  /** The reservation hash of an order; `deducted` is its `mysql_deducted` field. */
  datatype Reservation = Reservation(status: Status, productId: ProductId, quantity: int, shardIndex: int,
      deducted: bool)

  /** Key `(p, i)` of `stock` is the Redis key `stock:p:i`. The sorted sets map a member to its score. */
  datatype Redis = Redis(
    stock: map<(ProductId, int), int>,
    counter: map<ProductId, int>,
    reservations: map<OrderId, Reservation>,
    expiry: map<OrderId, int>,
    processing: map<OrderId, int>,
    retries: map<OrderId, int>,
    dead: map<OrderId, int>)

  /** What the scripts that return a reservation hand back; all zero when the hash is missing. */
  datatype Identity = Identity(productId: ProductId, quantity: int, shardIndex: int)

  const EXPIRY_SECONDS := 86400
  const EMPTY := Redis(map[], map[], map[], map[], map[], map[], map[])

  function Row(stock: map<(ProductId, int), int>, p: ProductId, n: nat): (row: seq<Option<int>>)
    ensures |row| == n
  {
    seq(n, i => if (p, i) in stock then Some(stock[(p, i)]) else None)
  }

  function Available(r: Redis, p: ProductId, n: nat): int {
    Total(Row(r.stock, p, n))
  }

  function Counter(r: Redis, p: ProductId): int {
    if p in r.counter then r.counter[p] else 0
  }

  function Get(stock: map<(ProductId, int), int>, p: ProductId, i: int): int {
    if (p, i) in stock then stock[(p, i)] else 0
  }

  predicate HasStock(r: Redis, p: ProductId, n: nat) {
    exists i :: 0 <= i < n && Row(r.stock, p, n)[i].Some?
  }

  function Without<V>(zset: map<OrderId, V>, o: OrderId): map<OrderId, V> {
    zset - {o}
  }

  /** Subtracting from the reserved counter never takes it below zero. */
  function Lowered(r: Redis, p: ProductId, q: int): map<ProductId, int> {
    r.counter[p := Clamp(Counter(r, p) - q)]
  }

  // ------------------------------------------------------------------------------------------------------------
  // The scripts as functions
  // ------------------------------------------------------------------------------------------------------------

  function ReserveScript(r: Redis, n: nat, start: nat, o: OrderId, p: ProductId, q: int, now: int): (Redis, int)
  {
    if o in r.reservations then
      if r.reservations[o].productId != p || r.reservations[o].quantity != q then (r, -3) else (r, 1)
    else match FirstFit(Row(r.stock, p, n), start, q, 0)
      case Some(idx) =>
        (r.(stock := r.stock[(p, idx) := Get(r.stock, p, idx) - q],
            counter := r.counter[p := Counter(r, p) + q],
            reservations := r.reservations[o := Reservation(Reserved, p, q, idx + 1, false)],
            expiry := r.expiry[o := now + EXPIRY_SECONDS]), 1)
      case None => (r, if HasStock(r, p, n) then -2 else -1)
  }

  function ConfirmScript(r: Redis, o: OrderId, finalDeduct: bool): (Redis, int) {
    if o !in r.reservations || r.reservations[o].status == Released then (r, 1)
    else
      var v := r.reservations[o];
      var changed := v.status == Reserved;
      var r' := r.(reservations := r.reservations[o := v.(status := Confirmed)],
                   counter := if changed && v.quantity > 0 then Lowered(r, v.productId, v.quantity) else r.counter,
                   expiry := Without(r.expiry, o));
      (r', if finalDeduct && !v.deducted then 2 else if changed then 3 else 1)
  }

  /** Flags the deduction on the hash of the order. Confirm runs it only after its script found that hash. */
  function MarkDeductedScript(r: Redis, o: OrderId): Redis {
    if o in r.reservations then r.(reservations := r.reservations[o := r.reservations[o].(deducted := true)]) else r
  }

  function GetReservationScript(r: Redis, o: OrderId): Identity {
    if o in r.reservations
    then Identity(r.reservations[o].productId, r.reservations[o].quantity, r.reservations[o].shardIndex)
    else Identity(0, 0, 0)
  }

  function HydrateScript(r: Redis, o: OrderId, v: Reservation): Redis {
    if o in r.reservations then r else r.(reservations := r.reservations[o := v.(deducted := false)])
  }

  /** `p` is the product whose keys the caller passed. */
  function ReleaseScript(r: Redis, n: nat, o: OrderId, p: ProductId): Redis {
    if o !in r.reservations || r.reservations[o].status == Released then r
    else
      var v := r.reservations[o];
      r.(stock := if 1 <= v.shardIndex <= n && v.quantity > 0
                  then r.stock[(p, v.shardIndex - 1) := Get(r.stock, p, v.shardIndex - 1) + v.quantity] else r.stock,
         counter := if v.status == Reserved && v.quantity > 0 then Lowered(r, p, v.quantity) else r.counter,
         reservations := r.reservations[o := v.(status := Released)],
         expiry := Without(r.expiry, o))
  }

  datatype DrainedStock = DrainedStock(stock: map<(ProductId, int), int>, remain: int)

  function DrainStock(stock: map<(ProductId, int), int>, p: ProductId, n: nat, start: nat, remain: int,
      i: nat): DrainedStock
    requires i <= n
    decreases n - i
  {
    if i == n then DrainedStock(stock, remain)
    else
      var idx := At(start, i, n);
      var v := Get(stock, p, idx);
      if v > 0 then
        var take := if v > remain then remain else v;
        var stock' := stock[(p, idx) := v - take];
        if remain - take == 0 then DrainedStock(stock', 0) else DrainStock(stock', p, n, start, remain - take, i + 1)
      else DrainStock(stock, p, n, start, remain, i + 1)
  }

  /** `start` is the 1-based start index. The code is 1, or -2 for insufficient stock. */
  function AdjustScript(r: Redis, n: nat, p: ProductId, delta: int, start: nat): (Redis, int)
    requires 1 <= start <= n
  {
    if delta > 0 then (r.(stock := r.stock[(p, start - 1) := Get(r.stock, p, start - 1) + delta]), 1)
    else if Available(r, p, n) < -delta then (r, -2)
    else
      var d := DrainStock(r.stock, p, n, start - 1, -delta, 0);
      (r.(stock := d.stock), if d.remain == 0 && !Idle(r, p, n, delta) then 1 else -2)
  }

  /** A zero adjust of a product without any positive shard: the loop ends without ever reaching its exit. */
  predicate Idle(r: Redis, p: ProductId, n: nat, delta: int) {
    delta == 0 && forall i :: 0 <= i < n ==> Cell(Row(r.stock, p, n)[i]) <= 0
  }

  function SeedStockScript(r: Redis, p: ProductId, values: seq<int>): Redis {
    r.(stock := SetShards(r.stock, p, values, 0))
  }

  function SetShards(stock: map<(ProductId, int), int>, p: ProductId, values: seq<int>, i: nat)
      : map<(ProductId, int), int>
    requires i <= |values|
    decreases |values| - i
  {
    if i == |values| then stock else SetShards(stock[(p, i) := values[i]], p, values, i + 1)
  }

  function ResetReservedScript(r: Redis, p: ProductId, reserved: int): Redis {
    r.(counter := r.counter[p := reserved])
  }

  // ------------------------------------------------------------------------------------------------------------
  // What the scripts do to the shard sums
  // ------------------------------------------------------------------------------------------------------------

  lemma RowSet(stock: map<(ProductId, int), int>, p: ProductId, n: nat, idx: nat, v: int)
    requires idx < n
    ensures Row(stock[(p, idx) := v], p, n) == Row(stock, p, n)[idx := Some(v)]
    ensures Total(Row(stock[(p, idx) := v], p, n)) == Total(Row(stock, p, n)) - Get(stock, p, idx) + v
    ensures forall p' :: p' != p ==> Row(stock[(p, idx) := v], p', n) == Row(stock, p', n)
  {
    assert Row(stock[(p, idx) := v], p, n) == Row(stock, p, n)[idx := Some(v)];
    TotalUpdate(Row(stock, p, n), idx, Some(v));
  }

  lemma {:induction false} DrainStockRow(stock: map<(ProductId, int), int>, p: ProductId, n: nat, start: nat,
                                         remain: int, i: nat)
    requires i <= n
    ensures var d, e := DrainStock(stock, p, n, start, remain, i), Drain(Row(stock, p, n), start, remain, i);
            Row(d.stock, p, n) == e.row && d.remain == e.remain
    decreases n - i
  {
    if i < n {
      var idx := At(start, i, n);
      var v := Get(stock, p, idx);
      if v > 0 {
        var take := if v > remain then remain else v;
        RowSet(stock, p, n, idx, v - take);
        if remain - take != 0 {
          DrainStockRow(stock[(p, idx) := v - take], p, n, start, remain - take, i + 1);
        }
      } else {
        DrainStockRow(stock, p, n, start, remain, i + 1);
      }
    }
  }

  lemma {:induction false} DrainStockKeys(stock: map<(ProductId, int), int>, p: ProductId, n: nat, start: nat,
                                          remain: int, i: nat)
    requires i <= n
    ensures var d := DrainStock(stock, p, n, start, remain, i);
            && (forall k :: k in stock ==> k in d.stock)
            && (forall k :: k in d.stock && (k.0 != p || !(0 <= k.1 < n)) ==> k in stock && d.stock[k] == stock[k])
    decreases n - i
  {
    if i < n {
      var idx := At(start, i, n);
      var v := Get(stock, p, idx);
      var take := if v > remain then remain else v;
      if v > 0 && remain - take != 0 {
        DrainStockKeys(stock[(p, idx) := v - take], p, n, start, remain - take, i + 1);
      } else if v <= 0 {
        DrainStockKeys(stock, p, n, start, remain, i + 1);
      }
    }
  }

  /** Draining the keys of a product is draining its row, and touches nothing else. */
  lemma DrainStockIsDrain(stock: map<(ProductId, int), int>, p: ProductId, n: nat, start: nat, remain: int, i: nat)
    requires i <= n
    ensures var d, e := DrainStock(stock, p, n, start, remain, i), Drain(Row(stock, p, n), start, remain, i);
            && Row(d.stock, p, n) == e.row
            && d.remain == e.remain
            && (forall p' :: p' != p ==> Row(d.stock, p', n) == Row(stock, p', n))
            && (forall k :: k in stock ==> k in d.stock)
            && (forall k :: k in d.stock && (k.0 != p || !(0 <= k.1 < n)) ==> k in stock && d.stock[k] == stock[k])
  {
    DrainStockRow(stock, p, n, start, remain, i);
    DrainStockKeys(stock, p, n, start, remain, i);
  }

  /** With nothing to take, the loop changes no cell. */
  lemma {:induction false} DrainNothing(row: seq<Option<int>>, start: nat, i: nat)
    requires start < |row| && i <= |row|
    requires forall j :: 0 <= j < |row| ==> row[j].Some? || Cell(row[j]) == 0
    ensures Drain(row, start, 0, i) == Drained(row, 0)
    decreases |row| - i
  {
    if i < |row| {
      var idx := At(start, i, |row|);
      if Cell(row[idx]) > 0 {
        assert row[idx := Some(Cell(row[idx]) - 0)] == row;
      } else {
        DrainNothing(row, start, i + 1);
      }
    }
  }

  predicate ShardsNonNegative(r: Redis) {
    forall k :: k in r.stock ==> r.stock[k] >= 0
  }

  lemma RowNonNegative(r: Redis, p: ProductId, n: nat)
    requires ShardsNonNegative(r)
    ensures forall j :: 0 <= j < n ==> Cell(Row(r.stock, p, n)[j]) >= 0
    ensures Available(r, p, n) >= 0
  {
    TotalBounds(Row(r.stock, p, n));
  }

  lemma AdjustUp(r: Redis, n: nat, p: ProductId, delta: int, start: nat)
    requires 1 <= start <= n && ShardsNonNegative(r) && delta > 0
    ensures var (r', code) := AdjustScript(r, n, p, delta, start);
            && code == 1
            && Available(r', p, n) == Available(r, p, n) + delta
            && (forall p' :: p' != p ==> Available(r', p', n) == Available(r, p', n))
            && ShardsNonNegative(r')
  {
    RowSet(r.stock, p, n, start - 1, Get(r.stock, p, start - 1) + delta);
  }

  lemma DrainKeepsNonNegative(r: Redis, n: nat, p: ProductId, start: nat, remain: int)
    requires start < n && ShardsNonNegative(r)
    requires forall j :: 0 <= j < n ==> Cell(Drain(Row(r.stock, p, n), start, remain, 0).row[j]) >= 0
    ensures ShardsNonNegative(r.(stock := DrainStock(r.stock, p, n, start, remain, 0).stock))
  {
    DrainStockIsDrain(r.stock, p, n, start, remain, 0);
    var d := DrainStock(r.stock, p, n, start, remain, 0);
    forall k | k in d.stock
      ensures d.stock[k] >= 0
    {
      if k.0 == p && 0 <= k.1 < n {
        assert Row(d.stock, p, n)[k.1] == Some(d.stock[k]);
      }
    }
  }

  /** What the loop of a non-positive adjust takes, and what it leaves to take. */
  lemma DrainTakes(r: Redis, n: nat, p: ProductId, amount: int, start: nat)
    requires start < n && ShardsNonNegative(r) && 0 <= amount <= Available(r, p, n)
    ensures var d := DrainStock(r.stock, p, n, start, amount, 0);
            && d.remain == 0
            && Total(Row(d.stock, p, n)) == Available(r, p, n) - amount
            && ShardsNonNegative(r.(stock := d.stock))
            && (amount == 0 ==> Row(d.stock, p, n) == Row(r.stock, p, n))
  {
    var row := Row(r.stock, p, n);
    RowNonNegative(r, p, n);
    DrainStockRow(r.stock, p, n, start, amount, 0);
    if amount > 0 {
      DrainExact(row, start, amount);
    } else {
      DrainNothing(row, start, 0);
    }
    DrainKeepsNonNegative(r, n, p, start, amount);
  }

  lemma AdjustDown(r: Redis, n: nat, p: ProductId, delta: int, start: nat)
    requires 1 <= start <= n && ShardsNonNegative(r) && delta <= 0 && Available(r, p, n) + delta >= 0
    ensures var (r', code) := AdjustScript(r, n, p, delta, start);
            && code == (if Idle(r, p, n, delta) then -2 else 1)
            && Available(r', p, n) == Available(r, p, n) + delta
            && (forall p' :: p' != p ==> Available(r', p', n) == Available(r, p', n))
            && ShardsNonNegative(r')
            && (delta == 0 ==> forall p' :: Row(r'.stock, p', n) == Row(r.stock, p', n))
  {
    DrainTakes(r, n, p, -delta, start - 1);
    DrainStockIsDrain(r.stock, p, n, start - 1, -delta, 0);
  }

  /** An adjust moves the shard sum by exactly `delta` and keeps every shard non-negative, or changes nothing.
      It is refused exactly when the shards hold less than the amount, or when there is nothing to do at all. */
  lemma AdjustEffect(r: Redis, n: nat, p: ProductId, delta: int, start: nat)
    requires 1 <= start <= n && ShardsNonNegative(r)
    ensures var (r', code) := AdjustScript(r, n, p, delta, start);
            && (code == 1 || code == -2)
            && (code == 1 <==> Available(r, p, n) + delta >= 0 && !Idle(r, p, n, delta))
            && Available(r', p, n) == Available(r, p, n) + (if code == 1 then delta else 0)
            && (forall p' :: p' != p ==> Available(r', p', n) == Available(r, p', n))
            && ShardsNonNegative(r')
            && r' == r.(stock := r'.stock)
            && (code == -2 ==> forall p' :: Row(r'.stock, p', n) == Row(r.stock, p', n))
  {
    RowNonNegative(r, p, n);
    if delta > 0 {
      AdjustUp(r, n, p, delta, start);
    } else if Available(r, p, n) + delta >= 0 {
      AdjustDown(r, n, p, delta, start);
    }
  }

  lemma {:induction false} SetShardsKeys(stock: map<(ProductId, int), int>, p: ProductId, values: seq<int>, i: nat)
    requires i <= |values|
    ensures var s := SetShards(stock, p, values, i);
            forall k :: (k in s <==> k in stock || (k.0 == p && i <= k.1 < |values|))
                     && (k in s ==> s[k] == if k.0 == p && i <= k.1 < |values| then values[k.1] else stock[k])
    decreases |values| - i
  {
    if i < |values| {
      SetShardsKeys(stock[(p, i) := values[i]], p, values, i + 1);
    }
  }

  lemma SeedRow(r: Redis, p: ProductId, values: seq<int>)
    ensures Row(SeedStockScript(r, p, values).stock, p, |values|) == Values(values)
    ensures forall p', n: nat :: p' != p ==> Row(SeedStockScript(r, p, values).stock, p', n) == Row(r.stock, p', n)
  {
    SetShardsKeys(r.stock, p, values, 0);
  }

  // ------------------------------------------------------------------------------------------------------------
  // The store, updated in place
  // ------------------------------------------------------------------------------------------------------------

  class RedisStore {
    var stock: map<(ProductId, int), int>
    var counter: map<ProductId, int>
    var reservations: map<OrderId, Reservation>
    var expiry: map<OrderId, int>
    var processing: map<OrderId, int>
    var retries: map<OrderId, int>
    var dead: map<OrderId, int>

    constructor ()
      ensures Value() == EMPTY
    {
      stock, counter, reservations, expiry := map[], map[], map[], map[];
      processing, retries, dead := map[], map[], map[];
    }

    function Value(): Redis
      reads this
    {
      Redis(stock, counter, reservations, expiry, processing, retries, dead)
    }

    method ReserveStock(n: nat, start: nat, o: OrderId, p: ProductId, q: int, now: int) returns (code: int)
      requires start < n
      modifies this
      ensures (Value(), code) == ReserveScript(old(Value()), n, start, o, p, q, now)
    {
      if o in reservations {
        if reservations[o].productId != p || reservations[o].quantity != q {
          return -3;
        }
        return 1;
      }
      ghost var row := Row(stock, p, n);
      var hasStockKey := false;
      var i := 0;
      while i < n
        invariant 0 <= i <= n
        invariant Value() == old(Value())
        invariant FirstFit(row, start, q, i) == FirstFit(row, start, q, 0)
        invariant hasStockKey <==> exists k :: 0 <= k < i && row[At(start, k, n)].Some?
      {
        var idx := (start + i) % n;
        assert idx == At(start, i, n);
        if (p, idx) in stock {
          hasStockKey := true;
          assert row[At(start, i, n)].Some?;
          if stock[(p, idx)] >= q {
            stock := stock[(p, idx) := stock[(p, idx)] - q];
            counter := counter[p := (if p in counter then counter[p] else 0) + q];
            reservations := reservations[o := Reservation(Reserved, p, q, idx + 1, false)];
            expiry := expiry[o := now + EXPIRY_SECONDS];
            return 1;
          }
        }
        i := i + 1;
      }
      if HasStock(Value(), p, n) {
        ghost var j :| 0 <= j < n && row[j].Some?;
        ghost var k := ScanVisits(start, n, j);
      }
      if !hasStockKey {
        return -1;
      }
      return -2;
    }

    method ConfirmDeduct(o: OrderId, finalDeduct: bool) returns (code: int)
      modifies this
      ensures (Value(), code) == ConfirmScript(old(Value()), o, finalDeduct)
    {
      if o !in reservations || reservations[o].status == Released {
        return 1;
      }
      var v := reservations[o];
      var changed := false;
      if v.status == Reserved {
        changed := true;
        reservations := reservations[o := v.(status := Confirmed)];
        if v.quantity > 0 {
          LowerCounter(v.productId, v.quantity);
        }
      }
      assert reservations == old(reservations)[o := v.(status := Confirmed)];
      expiry := Without(expiry, o);
      if finalDeduct && !v.deducted {
        return 2;
      }
      return if changed then 3 else 1;
    }

    method LowerCounter(p: ProductId, q: int)
      modifies this`counter
      ensures counter == Lowered(old(Value()), p, q)
    {
      var nextValue := (if p in counter then counter[p] else 0) - q;
      if nextValue < 0 {
        nextValue := 0;
      }
      counter := counter[p := nextValue];
    }

    method MarkDeducted(o: OrderId)
      modifies this
      ensures Value() == MarkDeductedScript(old(Value()), o)
    {
      if o in reservations {
        reservations := reservations[o := reservations[o].(deducted := true)];
      }
    }

    method GetReservation(o: OrderId) returns (id: Identity)
      ensures id == GetReservationScript(Value(), o)
    {
      if o !in reservations {
        return Identity(0, 0, 0);
      }
      var v := reservations[o];
      return Identity(v.productId, v.quantity, v.shardIndex);
    }

    method Hydrate(o: OrderId, v: Reservation)
      modifies this
      ensures Value() == HydrateScript(old(Value()), o, v)
    {
      if o !in reservations {
        reservations := reservations[o := v.(deducted := false)];
      }
    }

    method ReleaseStock(n: nat, o: OrderId, p: ProductId)
      modifies this
      ensures Value() == ReleaseScript(old(Value()), n, o, p)
    {
      if o !in reservations || reservations[o].status == Released {
        return;
      }
      var v := reservations[o];
      if 1 <= v.shardIndex <= n && v.quantity > 0 {
        stock := stock[(p, v.shardIndex - 1) := Get(stock, p, v.shardIndex - 1) + v.quantity];
      }
      if v.status == Reserved && v.quantity > 0 {
        LowerCounter(p, v.quantity);
      }
      reservations := reservations[o := v.(status := Released)];
      expiry := Without(expiry, o);
    }

    method AdjustAvailable(n: nat, p: ProductId, delta: int, start: nat) returns (code: int)
      requires 1 <= start <= n
      modifies this
      ensures (Value(), code) == AdjustScript(old(Value()), n, p, delta, start)
    {
      if delta > 0 {
        stock := stock[(p, start - 1) := Get(stock, p, start - 1) + delta];
        return 1;
      }
      var amount := -delta;
      var total := SumStock(n, p);
      if total.1 < amount {
        return -2;
      }
      var remain := amount;
      ghost var goal := DrainStock(stock, p, n, start - 1, amount, 0);
      ghost var row := Row(stock, p, n);
      var i := 0;
      while i < n
        invariant 0 <= i <= n
        invariant Value() == old(Value()).(stock := stock)
        invariant DrainStock(stock, p, n, start - 1, remain, i) == goal
        invariant 0 <= remain <= amount
        invariant remain == 0 ==> delta == 0 && stock == old(stock)
        invariant remain == 0 ==> forall k {:trigger At(start - 1, k, n)} :: 0 <= k < i ==>
                  Cell(row[At(start - 1, k, n)]) <= 0
      {
        var idx := (start - 1 + i) % n;
        assert idx == At(start - 1, i, n);
        var v := Get(stock, p, idx);
        if v > 0 {
          var take := v;
          if take > remain {
            take := remain;
          }
          stock := stock[(p, idx) := v - take];
          remain := remain - take;
          if remain == 0 {
            assert delta == 0 ==> Cell(row[idx]) > 0;
            return 1;
          }
        }
        i := i + 1;
      }
      if delta == 0 {
        forall j | 0 <= j < n
          ensures Cell(row[j]) <= 0
        {
          var k := ScanVisits(start - 1, n, j);
        }
      }
      return -2;
    }

    /** Whether any shard key exists, and the sum of those that do. */
    method SumStock(n: nat, p: ProductId) returns (sum: (bool, int))
      ensures sum == (HasStock(Value(), p, n), Available(Value(), p, n))
    {
      ghost var row := Row(stock, p, n);
      var exists_, total := false, 0;
      var i := 0;
      while i < n
        invariant 0 <= i <= n
        invariant total == Total(row[..i])
        invariant exists_ <==> exists k :: 0 <= k < i && row[k].Some?
      {
        TotalConcat(row[..i], [row[i]]);
        assert row[..i + 1] == row[..i] + [row[i]];
        if (p, i) in stock {
          exists_ := true;
          assert row[i].Some?;
          total := total + stock[(p, i)];
        }
        i := i + 1;
      }
      assert row[..n] == row;
      sum := (exists_, total);
    }

    method SeedStock(p: ProductId, values: seq<int>)
      modifies this
      ensures Value() == SeedStockScript(old(Value()), p, values)
    {
      var i := 0;
      while i < |values|
        invariant 0 <= i <= |values|
        invariant SetShards(stock, p, values, i) == SetShards(old(stock), p, values, 0)
        invariant Value() == old(Value()).(stock := stock)
      {
        stock := stock[(p, i) := values[i]];
        i := i + 1;
      }
    }

    method ResetReserved(p: ProductId, reserved: int)
      modifies this
      ensures Value() == ResetReservedScript(old(Value()), p, reserved)
    {
      counter := counter[p := reserved];
    }
  }
}
