/** What a successful recovery leaves of a single shard and of a single order, what it reports, and that a release right
    after it returns stock to the same place in both stores. */
module RecoveryLaws {
  import opened Wrappers
  import opened Shards
  import opened RedisScripts
  import opened StockPersistence
  import opened StockCommands
  import opened RuntimeRecovery
  import opened Rebuild
  import opened Restart
  import opened Quiescence
  import opened Cells
  import Calls

  /** A recovery that goes through: with a ledger, over any Redis, with the orders in which rows and products are
      delivered. */
  ghost predicate GoesThrough(cfg: Config, st: Stores, rows: seq<OrderId>, ps: seq<ProductId>) {
    && ValidConfig(cfg) && cfg.mode != Off
    && Listing(rows, st.db.ledger.Keys) && (forall p :: p in ps <==> Sold(st.db, p))
    && Recover(cfg, st, rows, ps).Some?
  }

  /** Every shard of a product gets what its bucket holds less what the ledger has reserved in it. */
  lemma RecoveredShard(cfg: Config, st: Stores, rows: seq<OrderId>, ps: seq<ProductId>, p: ProductId, i: nat)
    requires GoesThrough(cfg, st, rows, ps) && Sold(st.db, p) && i < cfg.shardCount
    ensures Row(Recover(cfg, st, rows, ps).value.0.redis.stock, p, cfg.shardCount)[i]
            == Some(InBucket(st.db, p, i) - TableDemand(cfg, st.db, p, i))
  {
    var items, b := ChargedBooks(cfg, st, rows, ps, p, i);
    WrittenCell(cfg, st.redis, b, ps, items, p, i);
  }

  /** The books that a recovery writes. */
  lemma ChargedBooks(cfg: Config, st: Stores, rows: seq<OrderId>, ps: seq<ProductId>, p: ProductId, i: nat)
    returns (items: seq<Item>, b: Books)
    requires GoesThrough(cfg, st, rows, ps) && Sold(st.db, p) && i < cfg.shardCount
    ensures p in ps && forall x :: x in ps ==> x in b.grid && |b.grid[x]| == cfg.shardCount
    ensures b.grid[p][i] == InBucket(st.db, p, i) - TableDemand(cfg, st.db, p, i)
    ensures Recover(cfg, st, rows, ps).value.0.redis
            == RestoreItems(RestoreProducts(ResetIndexesScript(st.redis), b, ps), items)
  {
    var grid, items', b' := Recovering(cfg, st, rows, ps);
    items, b := items', b';
    ChargedCell(cfg, st.db, grid, items, b, p, i);
    DemandIsTable(cfg, st.db, rows, items, p, i);
  }

  lemma DemandIsTable(cfg: Config, d: Db, rows: seq<OrderId>, items: seq<Item>, p: ProductId, i: nat)
    requires LoadItems(cfg, d, rows) == Some(items) && Listing(rows, d.ledger.Keys)
    ensures Demand(items, p, i) == TableDemand(cfg, d, p, i)
  {
    DemandIsSumAt(cfg, d, rows, items, p, i, d.ledger.Keys);
  }

  lemma Recovering(cfg: Config, st: Stores, rows: seq<OrderId>, ps: seq<ProductId>)
    returns (grid: Grid, items: seq<Item>, b: Books)
    requires GoesThrough(cfg, st, rows, ps)
    ensures LoadBuckets(st.db, cfg.shardCount) == Some(grid) && LoadItems(cfg, st.db, rows) == Some(items)
    ensures Subtract(Books(grid, map[]), items) == Some(b) && forall p :: p in ps <==> p in b.grid
    ensures Recover(cfg, st, rows, ps).value.0.redis
            == RestoreItems(RestoreProducts(ResetIndexesScript(st.redis), b, ps), items)
  {
    assert Stores(st.redis, st.db) == st;
    grid, items, b := RecoverSteps(cfg, st.redis, st.db, rows, ps);
  }

  lemma ChargedCell(cfg: Config, d: Db, grid: Grid, items: seq<Item>, b: Books, p: ProductId, i: nat)
    requires LoadBuckets(d, cfg.shardCount) == Some(grid) && Subtract(Books(grid, map[]), items) == Some(b)
    requires Sold(d, p) && i < cfg.shardCount
    ensures p in b.grid && forall x :: x in b.grid ==> |b.grid[x]| == cfg.shardCount
    ensures b.grid[p][i] == InBucket(d, p, i) - Demand(items, p, i)
  {
    GridIs(cfg, d, grid);
    GridShape(cfg, d, grid, items, b);
    SubtractCharacterised(Books(grid, map[]), items);
  }

  lemma WrittenCell(cfg: Config, r: Redis, b: Books, ps: seq<ProductId>, items: seq<Item>, p: ProductId, i: nat)
    requires p in ps && i < cfg.shardCount && forall x :: x in ps ==> x in b.grid && |b.grid[x]| == cfg.shardCount
    ensures Row(RestoreItems(RestoreProducts(ResetIndexesScript(r), b, ps), items).stock, p, cfg.shardCount)[i]
            == Some(b.grid[p][i])
  {
    RestoredProduct(ResetIndexesScript(r), b, ps, cfg.shardCount, p);
    RestoredStock(RestoreProducts(ResetIndexesScript(r), b, ps), items);
  }

  /** An order whose row is live and that is not reverted gets its hash back. With a deduction in the log it is
      confirmed, and its shard is the one of the bucket that the log names; without one it has the status and the shard
      of its row, confirmed only where nothing is deducted at all, and a reserved one is due when the row says unless it
      is a dead letter. */
  lemma RecoveredHash(cfg: Config, st: Stores, rows: seq<OrderId>, ps: seq<ProductId>, o: OrderId)
    requires GoesThrough(cfg, st, rows, ps)
    requires o in st.db.ledger && st.db.ledger[o].status != Released && o !in st.db.reverts
    ensures var r, row := Recover(cfg, st, rows, ps).value.0.redis, st.db.ledger[o];
            && o in r.reservations
            && (if o in st.db.deducts then
                  && r.reservations[o]
                     == Reservation(Confirmed, row.productId, row.quantity, st.db.deducts[o] + 1, true)
                  && 0 <= st.db.deducts[o] < cfg.shardCount && o !in r.expiry
                else
                  && r.reservations[o] == Reservation(row.status, row.productId, row.quantity, row.shardIndex,
                                                      row.status == Confirmed)
                  && (row.status == Confirmed ==> !cfg.finalDeduct && o !in r.expiry)
                  && (row.status == Reserved && o !in st.redis.dead ==>
                        o in r.expiry && r.expiry[o] == row.expiresAt))
  {
    var items := RecoveryOverwrites(cfg, st.db, st.redis, rows, ps, o, 0);
    NoneBad(cfg, st.db, rows, o);
  }

  /** Every other order keeps the hash it has in Redis, if any. */
  lemma RecoveryKeepsOthers(cfg: Config, st: Stores, rows: seq<OrderId>, ps: seq<ProductId>, o: OrderId)
    requires GoesThrough(cfg, st, rows, ps)
    requires o !in st.db.ledger || st.db.ledger[o].status == Released || o in st.db.reverts
    ensures var r := Recover(cfg, st, rows, ps).value.0.redis;
            && (o in r.reservations <==> o in st.redis.reservations)
            && (o in st.redis.reservations ==> r.reservations[o] == st.redis.reservations[o])
            && o !in r.expiry && o !in r.processing
  {
    var items := RecoveryOverwrites(cfg, st.db, st.redis, rows, ps, o, 0);
  }

  /** A deducted order released right after a recovery gives its stock back to the same place in both stores: the bucket
      in the log and the shard of the same index. */
  lemma ReleaseAfterRecovery(cfg: Config, st: Stores, rows: seq<OrderId>, ps: seq<ProductId>, o: OrderId, now: int)
    requires GoesThrough(cfg, st, rows, ps) && cfg.finalDeduct
    requires o in st.db.ledger && st.db.ledger[o].status != Released && o !in st.db.reverts && o in st.db.deducts
    requires st.db.ledger[o].productId > 0 && st.db.ledger[o].quantity > 0
    ensures var row, st1 := st.db.ledger[o], Recover(cfg, st, rows, ps).value.0;
            var (st2, out) := Run(cfg, st1, ReadingRelease(o), now);
            var p, n := row.productId, cfg.shardCount;
            && out == Ok
            && OneCell(Row(st1.redis.stock, p, n), Row(st2.redis.stock, p, n), st.db.deducts[o], row.quantity)
            && OneBucket(st.db, st2.db, p, st.db.deducts[o], row.quantity)
  {
    RecoveredHash(cfg, st, rows, ps, o);
    var st1 := Recover(cfg, st, rows, ps).value.0;
    Calls.ReleaseCall(cfg, st1, o, now);
  }

  /** Without a ledger recovery knows only the buckets: it goes through exactly when they are in range and not negative,
      puts what they hold on the shards and zero on the counters, and leaves the hashes. */
  lemma WithoutLedger(cfg: Config, st: Stores, rows: seq<OrderId>, ps: seq<ProductId>, p: ProductId, i: nat)
    requires ValidConfig(cfg) && cfg.mode == Off && (forall x :: x in ps <==> Sold(st.db, x))
    requires Sold(st.db, p) && i < cfg.shardCount
    ensures Recover(cfg, st, rows, ps).Some? <==> forall x, b :: x in st.db.buckets && b in st.db.buckets[x] ==>
              0 <= b < cfg.shardCount && st.db.buckets[x][b] >= 0
    ensures Recover(cfg, st, rows, ps).Some? ==>
              var r := Recover(cfg, st, rows, ps).value.0.redis;
              && Row(r.stock, p, cfg.shardCount)[i] == Some(InBucket(st.db, p, i)) && Counter(r, p) == 0
              && r.reservations == st.redis.reservations
  {
    var n := cfg.shardCount;
    GoodEverywhere(st.db, n);
    if Recover(cfg, st, rows, ps).Some? {
      var grid := LoadBuckets(st.db, n).value;
      var b := Books(grid, map[]);
      assert Subtract(b, []) == Some(b);
      GridIs(cfg, st.db, grid);
      RestoredProduct(ResetIndexesScript(st.redis), b, ps, n, p);
      ProductsKeepRest(ResetIndexesScript(st.redis), b, ps);
    }
  }

  lemma GoodEverywhere(d: Db, n: nat)
    ensures LoadBuckets(d, n).Some? <==>
            forall x, b :: x in d.buckets && b in d.buckets[x] ==> 0 <= b < n && d.buckets[x][b] >= 0
  {
    if LoadBuckets(d, n).Some? {
      forall x, b | x in d.buckets && b in d.buckets[x]
        ensures 0 <= b < n && d.buckets[x][b] >= 0
      {
        assert GoodBuckets(d.buckets[x], n);
      }
    } else {
      var x :| x in d.buckets && !GoodBuckets(d.buckets[x], n);
      var b :| b in d.buckets[x] && !(0 <= b < n && d.buckets[x][b] >= 0);
    }
  }

  predicate Counted(cfg: Config, d: Db, o: OrderId, confirmed: bool) {
    LoadRow(cfg, d, o).Load? && (LoadRow(cfg, d, o).item.status == Confirmed) == confirmed
  }

  /** The orders that the tables load, reserved or confirmed. */
  function LoadedOrders(cfg: Config, d: Db, keys: set<OrderId>, confirmed: bool): set<OrderId> {
    set o | o in keys && Counted(cfg, d, o, confirmed)
  }

  lemma OneMore(cfg: Config, d: Db, keys: set<OrderId>, o: OrderId, confirmed: bool)
    requires o in keys
    ensures |LoadedOrders(cfg, d, keys, confirmed)|
            == |LoadedOrders(cfg, d, keys - {o}, confirmed)| + (if Counted(cfg, d, o, confirmed) then 1 else 0)
  {
    var rest := LoadedOrders(cfg, d, keys - {o}, confirmed);
    assert LoadedOrders(cfg, d, keys, confirmed) == if Counted(cfg, d, o, confirmed) then rest + {o} else rest;
  }

  lemma CountsHead(cfg: Config, d: Db, rows: seq<OrderId>, items: seq<Item>, confirmed: bool) returns (tail: seq<Item>)
    requires LoadItems(cfg, d, rows) == Some(items) && rows != []
    ensures LoadItems(cfg, d, rows[1..]) == Some(tail)
    ensures CountStatus(items, confirmed)
            == CountStatus(tail, confirmed) + (if Counted(cfg, d, rows[0], confirmed) then 1 else 0)
  {
    tail := LoadItems(cfg, d, rows[1..]).value;
    if LoadRow(cfg, d, rows[0]).Load? {
      assert items == [LoadRow(cfg, d, rows[0]).item] + tail && items[1..] == tail;
    }
  }

  lemma {:induction false} CountsLoaded(cfg: Config, d: Db, rows: seq<OrderId>, items: seq<Item>, keys: set<OrderId>,
                                        confirmed: bool)
    requires LoadItems(cfg, d, rows) == Some(items) && Listing(rows, keys)
    ensures CountStatus(items, confirmed) == |LoadedOrders(cfg, d, keys, confirmed)|
    decreases |rows|
  {
    if rows == [] {
      assert LoadedOrders(cfg, d, keys, confirmed) == {};
    } else {
      var tail := CountsHead(cfg, d, rows, items, confirmed);
      ListingTail(rows, keys);
      CountsLoaded(cfg, d, rows[1..], tail, keys - {rows[0]}, confirmed);
      OneMore(cfg, d, keys, rows[0], confirmed);
    }
  }

  /** The ledger has the order as live: neither released nor reverted. */
  predicate LiveRow(d: Db, o: OrderId) {
    o in d.ledger && d.ledger[o].status != Released && o !in d.reverts
  }

  /** It is confirmed, by the log or, where nothing is deducted, by its row. */
  predicate ConfirmedRow(d: Db, o: OrderId) {
    LiveRow(d, o) && (o in d.deducts || d.ledger[o].status == Confirmed)
  }

  lemma LoadsLive(cfg: Config, d: Db, o: OrderId)
    requires !LoadRow(cfg, d, o).Bad?
    ensures Counted(cfg, d, o, true) <==> ConfirmedRow(d, o)
    ensures Counted(cfg, d, o, false) <==> LiveRow(d, o) && !ConfirmedRow(d, o)
  {
  }

  /** The report counts the products with buckets and the orders brought back, reserved and confirmed. */
  lemma ReportIsTrue(cfg: Config, st: Stores, rows: seq<OrderId>, ps: seq<ProductId>)
    requires GoesThrough(cfg, st, rows, ps)
    ensures var report := Recover(cfg, st, rows, ps).value.1;
            && report.products == |set p | p in st.db.buckets && Sold(st.db, p)|
            && report.confirmed == |set o | o in st.db.ledger && ConfirmedRow(st.db, o)|
            && report.reserved == |set o | o in st.db.ledger && LiveRow(st.db, o) && !ConfirmedRow(st.db, o)|
  {
    var d := st.db;
    var grid, items, b := RecoverSteps(cfg, st.redis, d, rows, ps);
    CountsLoaded(cfg, d, rows, items, d.ledger.Keys, true);
    CountsLoaded(cfg, d, rows, items, d.ledger.Keys, false);
    LoadedAreLive(cfg, d, rows);
    assert grid.Keys == set p | p in d.buckets && Sold(d, p);
    assert |grid| == |grid.Keys|;
  }

  lemma LoadedAreLive(cfg: Config, d: Db, rows: seq<OrderId>)
    requires Listing(rows, d.ledger.Keys) && LoadItems(cfg, d, rows).Some?
    ensures LoadedOrders(cfg, d, d.ledger.Keys, true) == set o | o in d.ledger && ConfirmedRow(d, o)
    ensures LoadedOrders(cfg, d, d.ledger.Keys, false) == set o | o in d.ledger && LiveRow(d, o) && !ConfirmedRow(d, o)
  {
    forall o | o in d.ledger
      ensures Counted(cfg, d, o, true) <==> ConfirmedRow(d, o)
      ensures Counted(cfg, d, o, false) <==> LiveRow(d, o) && !ConfirmedRow(d, o)
    {
      NoneBad(cfg, d, rows, o);
      LoadsLive(cfg, d, o);
    }
  }
}
