/** Restart recovery: rebuilding Redis from the MySQL buckets, the log and the ledger. */
module RuntimeRecovery {
  import opened Wrappers
  import opened Sums
  import opened Shards
  import opened RedisScripts
  import opened StockPersistence
  import opened StockCommands
  import opened Accounts

  type Grid = map<ProductId, seq<int>>

  /** A ledger row as recovery sees it. */
  datatype Item = Item(o: OrderId, p: ProductId, q: int, shardIndex: int, status: Status, expiresAt: int)

  datatype Loaded = Skip | Bad | Load(item: Item)

  datatype Report = Report(products: nat, reserved: nat, confirmed: nat)

  // ------------------------------------------------------------------------------------------------------------
  // Loading
  // ------------------------------------------------------------------------------------------------------------

  predicate GoodBuckets(m: Buckets, n: nat) {
    forall b :: b in m ==> 0 <= b < n && m[b] >= 0
  }

  function Dense(m: Buckets, n: nat): (row: seq<int>)
    ensures |row| == n
  {
    seq(n, b => if b in m then m[b] else 0)
  }

  function LoadBuckets(d: Db, n: nat): Option<Grid> {
    if forall p :: p in d.buckets ==> GoodBuckets(d.buckets[p], n)
    then Some(map p | p in d.buckets && d.buckets[p] != map[] :: Dense(d.buckets[p], n))
    else None
  }

  /** Reverted orders are skipped; a deduct log decides that the order is confirmed, and in which bucket. */
  function LoadRow(cfg: Config, d: Db, o: OrderId): Loaded {
    if o !in d.ledger || d.ledger[o].status == Released || o in d.reverts then Skip
    else
      var row := d.ledger[o];
      if o in d.deducts then
        if 0 <= d.deducts[o] < cfg.shardCount
        then Load(Item(o, row.productId, row.quantity, d.deducts[o] + 1, Confirmed, row.expiresAt)) else Bad
      else if row.status == Confirmed && cfg.finalDeduct then Bad
      else Load(Item(o, row.productId, row.quantity, row.shardIndex, row.status, row.expiresAt))
  }

  /** `rows` is the order in which the query delivers the ledger. */
  function LoadItems(cfg: Config, d: Db, rows: seq<OrderId>): Option<seq<Item>>
    decreases |rows|
  {
    if rows == [] then Some([])
    else match (LoadRow(cfg, d, rows[0]), LoadItems(cfg, d, rows[1..]))
      case (Bad, _) => None
      case (_, None) => None
      case (Skip, Some(items)) => Some(items)
      case (Load(item), Some(items)) => Some([item] + items)
  }

  // ------------------------------------------------------------------------------------------------------------
  // The subtraction loop
  // ------------------------------------------------------------------------------------------------------------

  datatype Books = Books(grid: Grid, reserved: Totals)

  predicate Acceptable(grid: Grid, item: Item) {
    item.p in grid &&
    (item.status == Reserved ==>
       && item.q > 0 && 0 <= item.shardIndex - 1 < |grid[item.p]|
       && grid[item.p][item.shardIndex - 1] >= item.q)
  }

  function Charge(b: Books, item: Item): Books
    requires Acceptable(b.grid, item)
  {
    if item.status != Reserved then b
    else
      var row, i := b.grid[item.p], item.shardIndex - 1;
      Books(b.grid[item.p := row[i := row[i] - item.q]], Plus(b.reserved, item.p, item.q))
  }

  function Subtract(b: Books, items: seq<Item>): Option<Books>
    decreases |items|
  {
    if items == [] then Some(b)
    else if !Acceptable(b.grid, items[0]) then None
    else Subtract(Charge(b, items[0]), items[1..])
  }

  /** Reserved quantity the items ask of bucket `i` of product `p`. */
  function Demand(items: seq<Item>, p: ProductId, i: int): int
    decreases |items|
  {
    if items == [] then 0
    else (if items[0].status == Reserved && items[0].p == p && items[0].shardIndex - 1 == i then items[0].q else 0)
         + Demand(items[1..], p, i)
  }

  function ProductDemand(items: seq<Item>, p: ProductId): int
    decreases |items|
  {
    if items == [] then 0
    else (if items[0].status == Reserved && items[0].p == p then items[0].q else 0) + ProductDemand(items[1..], p)
  }

  /** Every item names a known product, and every reserved one a positive quantity and a valid bucket. */
  predicate WellFormed(grid: Grid, items: seq<Item>) {
    forall k :: 0 <= k < |items| ==>
      items[k].p in grid && (items[k].status == Reserved ==>
          items[k].q > 0 && 0 <= items[k].shardIndex - 1 < |grid[items[k].p]|)
  }

  predicate FitsAt(grid: Grid, items: seq<Item>, p: ProductId, i: int) {
    p in grid && 0 <= i < |grid[p]| ==> Demand(items, p, i) <= grid[p][i]
  }

  ghost predicate AllFit(grid: Grid, items: seq<Item>) {
    forall p, i :: FitsAt(grid, items, p, i)
  }

  predicate GridNonNegative(grid: Grid) {
    forall p, i :: p in grid && 0 <= i < |grid[p]| ==> grid[p][i] >= 0
  }

  lemma {:induction false} DemandNonNegative(grid: Grid, items: seq<Item>, p: ProductId, i: int)
    requires WellFormed(grid, items)
    ensures Demand(items, p, i) >= 0
    decreases |items|
  {
    if items != [] {
      WellFormedTail(grid, grid, items);
      DemandNonNegative(grid, items[1..], p, i);
    }
  }

  lemma WellFormedTail(grid: Grid, grid': Grid, items: seq<Item>)
    requires items != [] && WellFormed(grid, items)
    requires forall p :: p in grid ==> p in grid' && |grid'[p]| == |grid[p]|
    ensures WellFormed(grid', items[1..])
  {
    assert forall k :: 0 <= k < |items[1..]| ==> items[1..][k] == items[k + 1];
  }

  /** The grid the loop leaves: every bucket less what was asked of it. */
  ghost predicate Charged(grid: Grid, grid': Grid, items: seq<Item>) {
    && grid'.Keys == grid.Keys
    && forall p :: p in grid ==>
         |grid'[p]| == |grid[p]| && forall i :: 0 <= i < |grid[p]| ==> grid'[p][i] == grid[p][i] - Demand(items, p, i)
  }

  lemma ChargeOne(b: Books, items: seq<Item>, grid': Grid)
    requires items != [] && Acceptable(b.grid, items[0])
    requires Charged(Charge(b, items[0]).grid, grid', items[1..])
    ensures Charged(b.grid, grid', items)
  {
    var g := Charge(b, items[0]).grid;
    forall p | p in b.grid
      ensures |grid'[p]| == |b.grid[p]|
      ensures forall i :: 0 <= i < |b.grid[p]| ==> grid'[p][i] == b.grid[p][i] - Demand(items, p, i)
    {
      assert p in g && |g[p]| == |b.grid[p]|;
    }
  }

  lemma FitsTail(b: Books, items: seq<Item>)
    requires items != [] && Acceptable(b.grid, items[0])
    ensures AllFit(b.grid, items) <==> AllFit(Charge(b, items[0]).grid, items[1..])
  {
    var g := Charge(b, items[0]).grid;
    forall p, i
      ensures FitsAt(b.grid, items, p, i) == FitsAt(g, items[1..], p, i)
    {
    }
  }

  /** The subtraction loop succeeds exactly when every item is well formed and the reserved quantities asked of each
      bucket together fit in it; its result is then given bucket by bucket. */
  lemma {:induction false} SubtractCharacterised(b: Books, items: seq<Item>)
    requires GridNonNegative(b.grid)
    ensures Subtract(b, items).Some? <==> WellFormed(b.grid, items) && AllFit(b.grid, items)
    ensures Subtract(b, items).Some? ==>
              && Charged(b.grid, Subtract(b, items).value.grid, items)
              && GridNonNegative(Subtract(b, items).value.grid)
              && forall p :: Of(Subtract(b, items).value.reserved, p) == Of(b.reserved, p) + ProductDemand(items, p)
    decreases |items|
  {
    if items == [] {
    } else if Acceptable(b.grid, items[0]) {
      var b1 := Charge(b, items[0]);
      SubtractCharacterised(b1, items[1..]);
      FitsTail(b, items);
      HeadWellFormed(b.grid, b1.grid, items);
      if Subtract(b, items).Some? {
        ChargeOne(b, items, Subtract(b, items).value.grid);
      }
    } else {
      NotAcceptable(b.grid, items);
    }
  }

  lemma HeadWellFormed(grid: Grid, grid': Grid, items: seq<Item>)
    requires items != [] && Acceptable(grid, items[0]) && grid'.Keys == grid.Keys
    requires forall p :: p in grid ==> |grid'[p]| == |grid[p]|
    ensures WellFormed(grid, items) <==> WellFormed(grid', items[1..])
  {
    if WellFormed(grid', items[1..]) {
      forall k | 0 <= k < |items|
        ensures items[k].p in grid
        ensures (items[k].status == Reserved ==> items[k].q > 0 && 0 <= items[k].shardIndex - 1 < |grid[items[k].p]|)
      {
        if k > 0 {
          assert items[k] == items[1..][k - 1];
        }
      }
    }
    if WellFormed(grid, items) {
      WellFormedTail(grid, grid', items);
    }
  }

  lemma NotAcceptable(grid: Grid, items: seq<Item>)
    requires items != [] && !Acceptable(grid, items[0]) && GridNonNegative(grid)
    ensures !(WellFormed(grid, items) && AllFit(grid, items))
  {
    if WellFormed(grid, items) {
      var x := items[0];
      WellFormedTail(grid, grid, items);
      DemandNonNegative(grid, items[1..], x.p, x.shardIndex - 1);
      assert !FitsAt(grid, items, x.p, x.shardIndex - 1);
    }
  }

  // ------------------------------------------------------------------------------------------------------------
  // Row order does not matter
  // ------------------------------------------------------------------------------------------------------------

  lemma {:induction false} DemandSplit(a: seq<Item>, b: seq<Item>, p: ProductId, i: int)
    ensures Demand(a + b, p, i) == Demand(a, p, i) + Demand(b, p, i)
    ensures ProductDemand(a + b, p) == ProductDemand(a, p) + ProductDemand(b, p)
    decreases |a|
  {
    if a == [] {
      assert a + b == b;
    } else {
      assert (a + b)[1..] == a[1..] + b;
      DemandSplit(a[1..], b, p, i);
    }
  }

  /** Demand of one item. */
  function Ask(x: Item, p: ProductId, i: int): int {
    if x.status == Reserved && x.p == p && x.shardIndex - 1 == i then x.q else 0
  }

  function ProductAsk(x: Item, p: ProductId): int {
    if x.status == Reserved && x.p == p then x.q else 0
  }

  lemma TakeOut(b: seq<Item>, k: nat, p: ProductId, i: int) returns (rest: seq<Item>)
    requires k < |b|
    ensures rest == b[..k] + b[k + 1..] && |rest| == |b| - 1
    ensures multiset(b) == multiset(rest) + multiset{b[k]}
    ensures Demand(b, p, i) == Demand(rest, p, i) + Ask(b[k], p, i)
    ensures ProductDemand(b, p) == ProductDemand(rest, p) + ProductAsk(b[k], p)
  {
    rest := b[..k] + b[k + 1..];
    assert b == b[..k] + ([b[k]] + b[k + 1..]);
    assert ([b[k]] + b[k + 1..])[1..] == b[k + 1..];
    DemandSplit(b[..k], [b[k]] + b[k + 1..], p, i);
    DemandSplit(b[..k], b[k + 1..], p, i);
  }

  /** Where the first item of one order stands in another. */
  lemma FirstIn(a: seq<Item>, b: seq<Item>) returns (k: nat)
    requires multiset(a) == multiset(b) && a != []
    ensures k < |b| && b[k] == a[0]
  {
    assert a[0] in multiset(a);
    k :| 0 <= k < |b| && b[k] == a[0];
  }

  lemma TailPermuted(a: seq<Item>, b: seq<Item>, rest: seq<Item>)
    requires a != [] && multiset(a) == multiset(b) && multiset(b) == multiset(rest) + multiset{a[0]}
    ensures multiset(a[1..]) == multiset(rest)
  {
    assert a == [a[0]] + a[1..];
    assert multiset(a) == multiset(a[1..]) + multiset{a[0]};
    assert multiset(a[1..]) == multiset(a) - multiset{a[0]};
    assert multiset(rest) == multiset(b) - multiset{a[0]};
  }

  lemma {:induction false} DemandPermuted(a: seq<Item>, b: seq<Item>, p: ProductId, i: int)
    requires multiset(a) == multiset(b)
    ensures Demand(a, p, i) == Demand(b, p, i)
    ensures ProductDemand(a, p) == ProductDemand(b, p)
    decreases |a|
  {
    assert |a| == |multiset(a)| == |multiset(b)| == |b|;
    if a != [] {
      var k := FirstIn(a, b);
      var rest := TakeOut(b, k, p, i);
      TailPermuted(a, b, rest);
      DemandPermuted(a[1..], rest, p, i);
    }
  }

  lemma WellFormedPermuted(grid: Grid, a: seq<Item>, b: seq<Item>)
    requires multiset(a) == multiset(b) && WellFormed(grid, a)
    ensures WellFormed(grid, b)
  {
    forall k | 0 <= k < |b|
      ensures b[k].p in grid && (b[k].status == Reserved ==> b[k].q > 0 && 0 <= b[k].shardIndex - 1 < |grid[b[k].p]|)
    {
      assert b[k] in multiset(a);
      var j :| 0 <= j < |a| && a[j] == b[k];
    }
  }

  /** Delivering the rows in another order changes neither whether the loop succeeds nor what it leaves. */
  lemma OrderIrrelevant(b: Books, xs: seq<Item>, ys: seq<Item>)
    requires GridNonNegative(b.grid) && multiset(xs) == multiset(ys)
    ensures Subtract(b, xs).Some? <==> Subtract(b, ys).Some?
    ensures Subtract(b, xs).Some? ==>
              && Subtract(b, xs).value.grid == Subtract(b, ys).value.grid
              && forall p :: Of(Subtract(b, xs).value.reserved, p) == Of(Subtract(b, ys).value.reserved, p)
  {
    SubtractCharacterised(b, xs);
    SubtractCharacterised(b, ys);
    forall p, i
      ensures Demand(xs, p, i) == Demand(ys, p, i)
    {
      DemandPermuted(xs, ys, p, i);
    }
    forall p
      ensures ProductDemand(xs, p) == ProductDemand(ys, p)
    {
      DemandPermuted(xs, ys, p, 0);
    }
    if WellFormed(b.grid, xs) { WellFormedPermuted(b.grid, xs, ys); }
    if WellFormed(b.grid, ys) { WellFormedPermuted(b.grid, ys, xs); }
    assert forall p, i :: FitsAt(b.grid, xs, p, i) == FitsAt(b.grid, ys, p, i);
    if Subtract(b, xs).Some? {
      var gx, gy := Subtract(b, xs).value.grid, Subtract(b, ys).value.grid;
      forall p | p in b.grid
        ensures gx[p] == gy[p]
      {
        assert forall i :: 0 <= i < |b.grid[p]| ==> gx[p][i] == gy[p][i];
      }
    }
  }

  // ------------------------------------------------------------------------------------------------------------
  // Totals: what is left plus what is reserved is what the buckets held
  // ------------------------------------------------------------------------------------------------------------

  lemma {:induction false} ChargedTotal(b: Books, items: seq<Item>, p: ProductId)
    requires Subtract(b, items).Some? && p in b.grid
    ensures var g := Subtract(b, items).value.grid;
            p in g && |g[p]| == |b.grid[p]|
            && Total(Values(g[p])) + ProductDemand(items, p) == Total(Values(b.grid[p]))
    decreases |items|
  {
    if items != [] {
      var x, b1 := items[0], Charge(b, items[0]);
      if x.status == Reserved && x.p == p {
        var row, i := b.grid[p], x.shardIndex - 1;
        assert Values(b1.grid[p]) == Values(row)[i := Some(row[i] - x.q)];
        TotalUpdate(Values(row), i, Some(row[i] - x.q));
      }
      ChargedTotal(b1, items[1..], p);
    }
  }

  lemma {:induction false} DenseTotal(m: Buckets, n: nat)
    requires forall b :: b in m ==> 0 <= b < n
    ensures Total(Values(Dense(m, n))) == BucketSum(m)
    decreases n
  {
    if n == 0 {
      forall b
        ensures b !in m.Keys
      {
        assert b in m ==> 0 <= b < n;
      }
      NoMembers(m.Keys);
      SumZero(m.Keys, Lookup(m));
    } else {
      var m' := m - {n - 1};
      DenseTotal(m', n - 1);
      assert Values(Dense(m, n)) == Values(Dense(m', n - 1)) + [Some(Lookup(m)(n - 1))];
      TotalConcat(Values(Dense(m', n - 1)), [Some(Lookup(m)(n - 1))]);
      if n - 1 in m {
        SumUpdate(m'.Keys, Lookup(m'), m.Keys, Lookup(m), n - 1);
      } else {
        assert m' == m;
      }
    }
  }

  // ------------------------------------------------------------------------------------------------------------
  // Writing Redis
  // ------------------------------------------------------------------------------------------------------------

  function ResetIndexesScript(r: Redis): Redis {
    r.(expiry := map[], processing := map[])
  }

  function RestoreProductScript(r: Redis, p: ProductId, values: seq<int>, reserved: int): Redis {
    r.(stock := SetShards(r.stock, p, values, 0), counter := r.counter[p := reserved])
  }

  function RestoreReservationScript(r: Redis, x: Item): Redis {
    var hash := Reservation(x.status, x.p, x.q, x.shardIndex, x.status == Confirmed);
    var r' := r.(reservations := r.reservations[x.o := hash], processing := Without(r.processing, x.o));
    if x.status == Confirmed then r'.(expiry := Without(r.expiry, x.o), retries := Without(r.retries, x.o),
        dead := Without(r.dead, x.o))
    else if x.o !in r.dead then r'.(expiry := r.expiry[x.o := x.expiresAt])
    else r'
  }

  function RestoreProducts(r: Redis, b: Books, ps: seq<ProductId>): Redis
    decreases |ps|
  {
    if ps == [] then r
    else if ps[0] !in b.grid then RestoreProducts(r, b, ps[1..])
    else RestoreProducts(RestoreProductScript(r, ps[0], b.grid[ps[0]], Of(b.reserved, ps[0])), b, ps[1..])
  }

  function RestoreItems(r: Redis, items: seq<Item>): Redis
    decreases |items|
  {
    if items == [] then r else RestoreItems(RestoreReservationScript(r, items[0]), items[1..])
  }

  function CountStatus(items: seq<Item>, confirmed: bool): nat
    decreases |items|
  {
    if items == [] then 0
    else (if (items[0].status == Confirmed) == confirmed then 1 else 0) + CountStatus(items[1..], confirmed)
  }

  /** What recovery leaves in Redis, or None when it stops with an error before writing anything. */
  function Recover(cfg: Config, st: Stores, rows: seq<OrderId>, ps: seq<ProductId>): Option<(Stores, Report)> {
    match LoadBuckets(st.db, cfg.shardCount)
    case None => None
    case Some(grid) =>
      match if cfg.mode == Off then Some([]) else LoadItems(cfg, st.db, rows)
      case None => None
      case Some(items) =>
        match Subtract(Books(grid, map[]), items)
        case None => None
        case Some(b) =>
          Some((st.(redis := RestoreItems(RestoreProducts(ResetIndexesScript(st.redis), b, ps), items)),
                Report(|grid|, CountStatus(items, false), CountStatus(items, true))))
  }

  lemma {:induction false} SubtractKeys(b: Books, items: seq<Item>)
    ensures Subtract(b, items).Some? ==> Subtract(b, items).value.grid.Keys == b.grid.Keys
    decreases |items|
  {
    if items != [] && Acceptable(b.grid, items[0]) {
      SubtractKeys(Charge(b, items[0]), items[1..]);
    }
  }

  // ------------------------------------------------------------------------------------------------------------
  // Recovery, run over the stores
  // ------------------------------------------------------------------------------------------------------------

  method LoadRecoveryBuckets(db: MySqlStore, n: nat) returns (grid: Option<Grid>)
    ensures grid == LoadBuckets(db.Value(), n)
  {
    var buckets: Grid := map[];
    var products := db.buckets.Keys;
    while products != {}
      invariant products <= db.buckets.Keys
      invariant forall p :: p in db.buckets && p !in products ==> GoodBuckets(db.buckets[p], n)
      invariant forall p :: p in buckets <==> p in db.buckets && p !in products && db.buckets[p] != map[]
      invariant forall p :: p in buckets ==> buckets[p] == Dense(db.buckets[p], n)
      decreases |products|
    {
      NonEmpty(products);
      var p :| p in products;
      var row := LoadProductRow(db.buckets[p], n);
      if row.None? {
        return None;
      }
      if db.buckets[p] != map[] {
        buckets := buckets[p := row.value];
      }
      products := products - {p};
    }
    ghost var goal := LoadBuckets(db.Value(), n);
    assert goal.Some?;
    assert forall p :: p !in products;
    assert forall p :: p in buckets <==> p in goal.value;
    assert forall p :: p in buckets ==> buckets[p] == goal.value[p];
    assert buckets == goal.value;
    return Some(buckets);
  }

  /** The rows of one product, in any order, into a slice that starts out zero. */
  method LoadProductRow(m: Buckets, n: nat) returns (row: Option<seq<int>>)
    ensures row == if GoodBuckets(m, n) then Some(Dense(m, n)) else None
  {
    var values := new int[n](_ => 0);
    var rest := m.Keys;
    while rest != {}
      invariant rest <= m.Keys
      invariant forall b :: b in m && b !in rest ==> 0 <= b < n && m[b] >= 0
      invariant forall b :: 0 <= b < n ==> values[b] == if b in m && b !in rest then m[b] else 0
      decreases |rest|
    {
      NonEmpty(rest);
      var b :| b in rest;
      if b < 0 || b >= n || m[b] < 0 {
        return None;
      }
      values[b] := m[b];
      rest := rest - {b};
    }
    assert values[..] == Dense(m, n);
    return Some(values[..]);
  }

  lemma {:induction false} LoadItemsAppend(cfg: Config, d: Db, rows: seq<OrderId>, o: OrderId)
    ensures LoadItems(cfg, d, rows + [o]) ==
            match (LoadItems(cfg, d, rows), LoadRow(cfg, d, o))
            case (None, _) => None
            case (_, Bad) => None
            case (Some(items), Skip) => Some(items)
            case (Some(items), Load(x)) => Some(items + [x])
    decreases |rows|
  {
    if rows == [] {
      assert rows + [o] == [o] && [o][1..] == [];
      if LoadRow(cfg, d, o).Load? {
        assert [LoadRow(cfg, d, o).item] + [] == [] + [LoadRow(cfg, d, o).item];
      }
    } else {
      assert (rows + [o])[0] == rows[0] && (rows + [o])[1..] == rows[1..] + [o];
      LoadItemsAppend(cfg, d, rows[1..], o);
      if LoadRow(cfg, d, rows[0]).Load? && LoadItems(cfg, d, rows[1..]).Some? && LoadRow(cfg, d, o).Load? {
        var x, items, y := LoadRow(cfg, d, rows[0]).item, LoadItems(cfg, d, rows[1..]).value, LoadRow(cfg, d, o).item;
        assert [x] + (items + [y]) == ([x] + items) + [y];
      }
    }
  }

  method LoadRecoveryReservations(cfg: Config, db: MySqlStore) returns (loaded: Option<seq<Item>>,
                                  ghost rows: seq<OrderId>)
    ensures loaded.Some? ==> Listing(rows, db.ledger.Keys)
    ensures loaded == if cfg.mode == Off then Some([]) else LoadItems(cfg, db.Value(), rows)
  {
    var items: seq<Item> := [];
    var rest := db.ledger.Keys;
    rows := [];
    while rest != {}
      invariant rest <= db.ledger.Keys
      invariant forall o :: o in rows <==> o in db.ledger.Keys - rest
      invariant forall i, j :: 0 <= i < j < |rows| ==> rows[i] != rows[j]
      invariant cfg.mode != Off ==> LoadItems(cfg, db.Value(), rows) == Some(items)
      decreases |rest|
    {
      var o :| o in rest;
      LoadItemsAppend(cfg, db.Value(), rows, o);
      assert o !in rows;
      rows := rows + [o];
      rest := rest - {o};
      match LoadRow(cfg, db.Value(), o) {
        case Skip =>
        case Bad =>
          if cfg.mode != Off {
            return None, rows;
          }
        case Load(item) =>
          items := items + [item];
      }
    }
    return if cfg.mode == Off then Some([]) else Some(items), rows;
  }

  method SubtractReserved(grid: Grid, items: seq<Item>) returns (b: Option<Books>)
    ensures b == Subtract(Books(grid, map[]), items)
  {
    var productBuckets, reservedByProduct: Totals := grid, map[];
    var i := 0;
    while i < |items|
      invariant 0 <= i <= |items|
      invariant Subtract(Books(productBuckets, reservedByProduct), items[i..]) == Subtract(Books(grid, map[]), items)
    {
      var item := items[i];
      assert items[i..][0] == item && items[i..][1..] == items[i + 1..];
      if item.p !in productBuckets {
        return None;
      }
      if item.status == Reserved {
        var row, bucketIdx := productBuckets[item.p], item.shardIndex - 1;
        if item.q <= 0 || bucketIdx < 0 || bucketIdx >= |row| {
          return None;
        }
        if row[bucketIdx] < item.q {
          return None;
        }
        productBuckets := productBuckets[item.p := row[bucketIdx := row[bucketIdx] - item.q]];
        reservedByProduct := reservedByProduct[item.p := (if item.p in reservedByProduct
            then reservedByProduct[item.p] else 0) + item.q];
      }
      i := i + 1;
    }
    return Some(Books(productBuckets, reservedByProduct));
  }

  method RestoreReservation(r: RedisStore, x: Item)
    modifies r
    ensures r.Value() == RestoreReservationScript(old(r.Value()), x)
  {
    r.reservations := r.reservations[x.o := Reservation(x.status, x.p, x.q, x.shardIndex, x.status == Confirmed)];
    r.processing := Without(r.processing, x.o);
    if x.status == Confirmed {
      r.expiry := Without(r.expiry, x.o);
      r.retries := Without(r.retries, x.o);
      r.dead := Without(r.dead, x.o);
    } else if x.o !in r.dead {
      r.expiry := r.expiry[x.o := x.expiresAt];
    }
  }

  method RestoreProductStock(r: RedisStore, p: ProductId, values: seq<int>, reserved: int)
    modifies r
    ensures r.Value() == RestoreProductScript(old(r.Value()), p, values, reserved)
  {
    r.SeedStock(p, values);
    r.ResetReserved(p, reserved);
  }

  lemma {:induction false} RestoreProductsAppend(r: Redis, b: Books, ps: seq<ProductId>, p: ProductId)
    requires p in b.grid && forall x :: x in ps ==> x in b.grid
    ensures RestoreProducts(r, b, ps + [p])
            == RestoreProductScript(RestoreProducts(r, b, ps), p, b.grid[p], Of(b.reserved, p))
    decreases |ps|
  {
    if ps == [] {
      assert ps + [p] == [p];
    } else {
      assert (ps + [p])[0] == ps[0] && (ps + [p])[1..] == ps[1..] + [p];
      RestoreProductsAppend(RestoreProductScript(r, ps[0], b.grid[ps[0]], Of(b.reserved, ps[0])), b, ps[1..], p);
    }
  }

  /** The products in any order, as long as the scripts work: `working` of them at most. */
  method RestoreAllProducts(r: RedisStore, b: Books, working: nat) returns (done: nat, ghost ps: seq<ProductId>)
    modifies r
    ensures done == |ps| == if working < |b.grid| then working else |b.grid|
    ensures if working < |b.grid| then forall p :: p in ps ==> p in b.grid else Listing(ps, b.grid.Keys)
    ensures r.Value() == RestoreProducts(old(r.Value()), b, ps)
  {
    var rest := b.grid.Keys;
    done, ps := 0, [];
    while rest != {} && done < working
      invariant rest <= b.grid.Keys && done == |ps| <= working && |rest| + done == |b.grid|
      invariant forall p :: p in ps <==> p in b.grid.Keys - rest
      invariant forall i, j :: 0 <= i < j < |ps| ==> ps[i] != ps[j]
      invariant r.Value() == RestoreProducts(old(r.Value()), b, ps)
      decreases |rest|
    {
      NonEmpty(rest);
      var p :| p in rest;
      RestoreProductsAppend(old(r.Value()), b, ps, p);
      RestoreProductStock(r, p, b.grid[p], if p in b.reserved then b.reserved[p] else 0);
      assert p !in ps;
      ps := ps + [p];
      rest := rest - {p};
      done := done + 1;
    }
  }

  lemma {:induction false} RestoreItemsAppend(r: Redis, items: seq<Item>, x: Item)
    ensures RestoreItems(r, items + [x]) == RestoreReservationScript(RestoreItems(r, items), x)
    decreases |items|
  {
    if items == [] {
      assert items + [x] == [x];
    } else {
      assert (items + [x])[0] == items[0] && (items + [x])[1..] == items[1..] + [x];
      RestoreItemsAppend(RestoreReservationScript(r, items[0]), items[1..], x);
    }
  }

  lemma {:induction false} CountAppend(items: seq<Item>, x: Item, confirmed: bool)
    ensures CountStatus(items + [x], confirmed)
            == CountStatus(items, confirmed) + if (x.status == Confirmed) == confirmed then 1 else 0
    decreases |items|
  {
    if items == [] {
      assert items + [x] == [x];
    } else {
      assert (items + [x])[0] == items[0] && (items + [x])[1..] == items[1..] + [x];
      CountAppend(items[1..], x, confirmed);
    }
  }

  method RestoreAllReservations(r: RedisStore, items: seq<Item>, working: nat)
    returns (done: nat, reserved: nat, confirmed: nat)
    modifies r
    ensures done == if working < |items| then working else |items|
    ensures r.Value() == RestoreItems(old(r.Value()), items[..done])
    ensures reserved == CountStatus(items[..done], false) && confirmed == CountStatus(items[..done], true)
  {
    done, reserved, confirmed := 0, 0, 0;
    while done < |items| && done < working
      invariant 0 <= done <= |items| && done <= working
      invariant r.Value() == RestoreItems(old(r.Value()), items[..done])
      invariant reserved == CountStatus(items[..done], false) && confirmed == CountStatus(items[..done], true)
    {
      var x := items[done];
      assert items[..done + 1] == items[..done] + [x];
      RestoreItemsAppend(old(r.Value()), items[..done], x);
      CountAppend(items[..done], x, false);
      CountAppend(items[..done], x, true);
      RestoreReservation(r, x);
      if x.status == Confirmed {
        confirmed := confirmed + 1;
      } else {
        reserved := reserved + 1;
      }
      done := done + 1;
    }
  }

  /** What a recovery is going to write, or None when it refuses. */
  function Plan(cfg: Config, d: Db, rows: seq<OrderId>): Option<(Books, seq<Item>)> {
    match LoadBuckets(d, cfg.shardCount)
    case None => None
    case Some(grid) =>
      match if cfg.mode == Off then Some([]) else LoadItems(cfg, d, rows)
      case None => None
      case Some(items) =>
        match Subtract(Books(grid, map[]), items)
        case None => None
        case Some(b) => Some((b, items))
  }

  /** What a recovery has written when it got through the products `ps` and the first `j` items. */
  function Halfway(r: Redis, b: Books, ps: seq<ProductId>, items: seq<Item>, j: nat): Redis
    requires j <= |items|
  {
    RestoreItems(RestoreProducts(ResetIndexesScript(r), b, ps), items[..j])
  }

  /** The scripts of a recovery: one to reset the indexes, then one per product and one per item. */
  function Scripts(b: Books, items: seq<Item>): nat {
    1 + |b.grid| + |items|
  }

  lemma PlanIsRecover(cfg: Config, st: Stores, rows: seq<OrderId>, ps: seq<ProductId>)
    ensures Plan(cfg, st.db, rows).Some? <==> Recover(cfg, st, rows, ps).Some?
    ensures Plan(cfg, st.db, rows).Some? ==>
              var (b, items) := Plan(cfg, st.db, rows).value;
              && b.grid.Keys == LoadBuckets(st.db, cfg.shardCount).value.Keys
              && Recover(cfg, st, rows, ps).value
                 == (st.(redis := Halfway(st.redis, b, ps, items, |items|)),
                     Report(|b.grid|, CountStatus(items, false), CountStatus(items, true)))
  {
    if Plan(cfg, st.db, rows).Some? {
      var (b, items) := Plan(cfg, st.db, rows).value;
      var grid := LoadBuckets(st.db, cfg.shardCount).value;
      SubtractKeys(Books(grid, map[]), items);
      assert items[..|items|] == items && |b.grid| == |b.grid.Keys| == |grid.Keys| == |grid|;
    }
  }

  /** What a recovery over `r0` leaves when Redis reported an error after `k` scripts took effect. */
  ghost predicate StoppedAfter(r0: Redis, r: Redis, b: Books, items: seq<Item>, ps: seq<ProductId>, k: nat)
    requires k <= Scripts(b, items)
  {
    if k == 0 then r == r0
    else
      var i := if k - 1 < |b.grid| then k - 1 else |b.grid|;
      |ps| == i && (forall p :: p in ps ==> p in b.grid) && r == Halfway(r0, b, ps, items, k - 1 - i)
  }

  method ResetIndexes(r: RedisStore)
    modifies r
    ensures r.Value() == ResetIndexesScript(old(r.Value()))
  {
    r.expiry, r.processing := map[], map[];
  }

  /** The products, then the reservations, as long as the scripts work. */
  method RestoreStock(r: RedisStore, b: Books, items: seq<Item>, working: nat)
    returns (products: nat, done: nat, reserved: nat, confirmed: nat, ghost ps: seq<ProductId>)
    modifies r
    ensures products == |ps| == if working < |b.grid| then working else |b.grid|
    ensures if working < |b.grid| then forall p :: p in ps ==> p in b.grid else Listing(ps, b.grid.Keys)
    ensures done == if working - products < |items| then working - products else |items|
    ensures r.Value() == RestoreItems(RestoreProducts(old(r.Value()), b, ps), items[..done])
    ensures reserved == CountStatus(items[..done], false) && confirmed == CountStatus(items[..done], true)
  {
    products, ps := RestoreAllProducts(r, b, working);
    done, reserved, confirmed := RestoreAllReservations(r, items, working - products);
  }

  /** How the writes of a recovery end: stopped, or complete with the report. */
  ghost predicate Ends(r0: Redis, r: Redis, b: Books, items: seq<Item>, ps: seq<ProductId>, stop: Option<nat>,
                       report: Option<Report>) {
    if stop.Some? && stop.value <= Scripts(b, items)
    then report.None? && StoppedAfter(r0, r, b, items, ps, stop.value)
    else && report == Some(Report(|b.grid|, CountStatus(items, false), CountStatus(items, true)))
         && Listing(ps, b.grid.Keys) && r == Halfway(r0, b, ps, items, |items|)
  }

  lemma EndsStopped(r0: Redis, r: Redis, b: Books, items: seq<Item>, ps: seq<ProductId>, k: nat, done: nat)
    requires 0 < k <= Scripts(b, items) && |ps| == (if k - 1 < |b.grid| then k - 1 else |b.grid|)
    requires (forall p :: p in ps ==> p in b.grid) && done == k - 1 - |ps| <= |items|
    requires r == Halfway(r0, b, ps, items, done)
    ensures Ends(r0, r, b, items, ps, Some(k), None)
  {
  }

  /** The writes of a recovery. */
  method RestoreAll(r: RedisStore, b: Books, items: seq<Item>, stop: Option<nat>)
    returns (report: Option<Report>, ghost ps: seq<ProductId>)
    modifies r
    ensures Ends(old(r.Value()), r.Value(), b, items, ps, stop, report)
  {
    ps := [];
    if stop == Some(0) {
      return None, ps;
    }
    ResetIndexes(r);
    var working := if stop.Some? then stop.value - 1 else Scripts(b, items);
    var products, done, reserved, confirmed, listed := RestoreStock(r, b, items, working);
    ps := listed;
    if working < Scripts(b, items) {
      EndsStopped(old(r.Value()), r.Value(), b, items, ps, working + 1, done);
      return None, ps;
    }
    assert items[..|items|] == items;
    return Some(Report(products, reserved, confirmed)), ps;
  }

  /** `stop` is the number of scripts that take effect before Redis reports an error, if it does. The recovery then
      returns the error and leaves what it wrote; otherwise it goes through, or refuses before it writes anything. */
  method RecoverRuntime(repo: Repository, stop: Option<nat>)
    returns (report: Option<Report>, ghost rows: seq<OrderId>, ghost ps: seq<ProductId>)
    modifies repo.redis
    ensures repo.db.Value() == old(repo.db.Value())
    ensures Plan(repo.cfg, repo.db.Value(), rows).Some? ==> Listing(rows, repo.db.ledger.Keys)
    ensures match Plan(repo.cfg, repo.db.Value(), rows)
            case None => report.None? && repo.redis.Value() == old(repo.redis.Value())
            case Some((b, items)) =>
              && Ends(old(repo.redis.Value()), repo.redis.Value(), b, items, ps, stop, report)
              && (report.Some? ==> Recover(repo.cfg, old(repo.Value()), rows, ps) == Some((repo.Value(), report.value)))
  {
    rows, ps := [], [];
    var grid := LoadRecoveryBuckets(repo.db, repo.cfg.shardCount);
    if grid.None? {
      return None, rows, ps;
    }
    var loaded, listing := LoadRecoveryReservations(repo.cfg, repo.db);
    rows := listing;
    if loaded.None? {
      return None, rows, ps;
    }
    var b := SubtractReserved(grid.value, loaded.value);
    if b.None? {
      return None, rows, ps;
    }
    report, ps := RestoreAll(repo.redis, b.value, loaded.value, stop);
    PlanIsRecover(repo.cfg, old(repo.Value()), rows, ps);
  }
}
