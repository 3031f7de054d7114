/** The rebuild theorem: exactly when Redis, wiped and recovered from MySQL, is order by order and product by product
    the Redis that was lost, and what recovery does over a Redis that was not. */
module Rebuild {
  import opened Wrappers
  import opened Sums
  import opened Shards
  import opened RedisScripts
  import opened StockPersistence
  import opened StockCommands
  import opened Accounts
  import opened Engine
  import opened NoOverlap
  import opened Quiescence
  import opened RuntimeRecovery

  // ------------------------------------------------------------------------------------------------------------
  // Products
  // ------------------------------------------------------------------------------------------------------------

  lemma {:induction false} RestoredProduct(r: Redis, b: Books, ps: seq<ProductId>, n: nat, p: ProductId)
    requires forall x :: x in ps ==> x in b.grid && |b.grid[x]| == n
    ensures var r' := RestoreProducts(r, b, ps);
            && Row(r'.stock, p, n) == (if p in ps then Values(b.grid[p]) else Row(r.stock, p, n))
            && Counter(r', p) == (if p in ps then Of(b.reserved, p) else Counter(r, p))
            && r' == r.(stock := r'.stock, counter := r'.counter)
    decreases |ps|
  {
    if ps != [] {
      var r1 := RestoreProductScript(r, ps[0], b.grid[ps[0]], Of(b.reserved, ps[0]));
      SetShardsKeys(r.stock, ps[0], b.grid[ps[0]], 0);
      assert Row(r1.stock, ps[0], n) == Values(b.grid[ps[0]]);
      if p != ps[0] {
        assert Row(r1.stock, p, n) == Row(r.stock, p, n);
      }
      RestoredProduct(r1, b, ps[1..], n, p);
    }
  }

  // ------------------------------------------------------------------------------------------------------------
  // Orders
  // ------------------------------------------------------------------------------------------------------------

  function HashOf(x: Item): Reservation {
    Reservation(x.status, x.p, x.q, x.shardIndex, x.status == Confirmed)
  }

  lemma RestoresHash(r: Redis, x: Item)
    ensures var r' := RestoreReservationScript(r, x);
            r'.reservations == r.reservations[x.o := HashOf(x)] && r'.stock == r.stock && r'.counter == r.counter
  {
  }

  lemma {:induction false} RestoredStock(r: Redis, items: seq<Item>)
    ensures RestoreItems(r, items).stock == r.stock && RestoreItems(r, items).counter == r.counter
    decreases |items|
  {
    if items != [] {
      RestoresHash(r, items[0]);
      RestoredStock(RestoreReservationScript(r, items[0]), items[1..]);
    }
  }

  /** Recovery writes the hash of exactly the loaded orders. */
  ghost predicate RestoredAt(cfg: Config, d: Db, rows: seq<OrderId>, before: map<OrderId, Reservation>,
                             after: map<OrderId, Reservation>, o: OrderId) {
    if o in rows && LoadRow(cfg, d, o).Load? then o in after && after[o] == HashOf(LoadRow(cfg, d, o).item)
    else (o in after <==> o in before) && (o in before ==> after[o] == before[o])
  }

  lemma {:induction false} RestoredOrder(cfg: Config, d: Db, rows: seq<OrderId>, items: seq<Item>, r: Redis, o: OrderId)
    requires LoadItems(cfg, d, rows) == Some(items)
    ensures RestoredAt(cfg, d, rows, r.reservations, RestoreItems(r, items).reservations, o)
    decreases |rows|
  {
    if rows != [] {
      var loaded := LoadRow(cfg, d, rows[0]);
      var tail := LoadItems(cfg, d, rows[1..]).value;
      assert o in rows <==> o == rows[0] || o in rows[1..];
      if loaded.Load? {
        assert items == [loaded.item] + tail && items[1..] == tail;
        RestoresHash(r, loaded.item);
        RestoredOrder(cfg, d, rows[1..], tail, RestoreReservationScript(r, loaded.item), o);
      } else {
        RestoredOrder(cfg, d, rows[1..], tail, r, o);
      }
    }
  }

  lemma {:induction false} NoneBad(cfg: Config, d: Db, rows: seq<OrderId>, o: OrderId)
    requires LoadItems(cfg, d, rows).Some? && o in rows
    ensures !LoadRow(cfg, d, o).Bad?
    decreases |rows|
  {
    if o != rows[0] {
      NoneBad(cfg, d, rows[1..], o);
    }
  }

  // ------------------------------------------------------------------------------------------------------------
  // Reserved totals
  // ------------------------------------------------------------------------------------------------------------

  function LoadedReserved(cfg: Config, d: Db, p: ProductId): OrderId -> int {
    o => if LoadRow(cfg, d, o).Load? then ProductAsk(LoadRow(cfg, d, o).item, p) else 0
  }

  /** What the tables call reserved of a product. */
  ghost function TableReserved(cfg: Config, d: Db, p: ProductId): int {
    Sum(d.ledger.Keys, LoadedReserved(cfg, d, p))
  }

  lemma {:induction false} DemandIsSum(cfg: Config, d: Db, rows: seq<OrderId>, items: seq<Item>, p: ProductId,
                                       keys: set<OrderId>)
    requires LoadItems(cfg, d, rows) == Some(items) && Listing(rows, keys)
    ensures ProductDemand(items, p) == Sum(keys, LoadedReserved(cfg, d, p))
    decreases |rows|
  {
    if rows == [] {
      assert keys == {};
    } else {
      var o, loaded := rows[0], LoadRow(cfg, d, rows[0]);
      var tail := LoadItems(cfg, d, rows[1..]).value;
      ListingTail(rows, keys);
      DemandIsSum(cfg, d, rows[1..], tail, p, keys - {o});
      SumPick(keys, LoadedReserved(cfg, d, p), o);
      if loaded.Load? {
        assert items == [loaded.item] + tail && items[1..] == tail;
      }
    }
  }

  lemma {:induction false} SumExtend<K(!new)>(keys: set<K>, keys': set<K>, f: K -> int)
    requires keys <= keys' && forall k :: k in keys' - keys ==> f(k) == 0
    ensures Sum(keys, f) == Sum(keys', f)
    decreases keys'
  {
    if k :| k in keys' && k !in keys {
      SumPick(keys', f, k);
      SumExtend(keys, keys' - {k}, f);
    } else {
      assert keys == keys';
    }
  }

  /** The records of one order in the tables tell what Redis has of it, so that recovery can write that again. */
  predicate Agrees(st: Stores, o: OrderId) {
    if o !in st.redis.reservations then o !in st.db.ledger
    else match st.redis.reservations[o].status
      case Reserved => InLedger(st, o, {Reserved})
      case Confirmed => InLedger(st, o, {Reserved, Confirmed}) && Deducted(st, o)
      case Released => !InLedger(st, o, {Reserved, Confirmed}) || o in st.db.reverts
  }

  /** An order that Redis and the tables agree on is one that recovery loads as Redis has it. */
  lemma AgreesIsLoaded(cfg: Config, st: Stores, o: OrderId)
    requires Strict(cfg) && ShapeAt(cfg, st, o) && !LoadRow(cfg, st.db, o).Bad?
    ensures var loaded := LoadRow(cfg, st.db, o);
            && (loaded.Load? ==> Has(st, o, loaded.item.p, loaded.item.q) && loaded.item.o == o)
            && (Agrees(st, o) <==>
                  && (loaded.Load? <==> Live(st.redis, o))
                  && (loaded.Load? ==> loaded.item.status == st.redis.reservations[o].status))
  {
  }

  lemma ReservedAgree(cfg: Config, st: Stores, rows: seq<OrderId>, items: seq<Item>, p: ProductId)
    requires Strict(cfg) && Shape(cfg, st) && forall o :: Agrees(st, o)
    requires LoadItems(cfg, st.db, rows) == Some(items) && Listing(rows, st.db.ledger.Keys)
    ensures ProductDemand(items, p) == LiveReserved(st, p)
  {
    var f := LoadedReserved(cfg, st.db, p);
    DemandIsSum(cfg, st.db, rows, items, p, st.db.ledger.Keys);
    forall o
      ensures o in st.db.ledger ==> f(o) == ReservedOf(st, p)(o) && o in Orders(st)
      ensures o !in st.db.ledger ==> ReservedOf(st, p)(o) == 0
    {
      assert Agrees(st, o);
      ShapeGivesAt(cfg, st, o);
      if o in st.db.ledger {
        NoneBad(cfg, st.db, rows, o);
      }
      AgreesIsLoaded(cfg, st, o);
    }
    SumSame(st.db.ledger.Keys, f, ReservedOf(st, p));
    SumExtend(st.db.ledger.Keys, Orders(st), ReservedOf(st, p));
  }

  // ------------------------------------------------------------------------------------------------------------
  // The theorem
  // ------------------------------------------------------------------------------------------------------------

  predicate Live(r: Redis, o: OrderId) {
    o in r.reservations && r.reservations[o].status != Released
  }

  predicate SameLive(r: Redis, r': Redis, o: OrderId) {
    && (Live(r, o) <==> Live(r', o))
    && (Live(r, o) ==>
          && r'.reservations[o].status == r.reservations[o].status
          && r'.reservations[o].productId == r.reservations[o].productId
          && r'.reservations[o].quantity == r.reservations[o].quantity)
  }

  predicate Sold(d: Db, p: ProductId) {
    p in d.buckets && d.buckets[p] != map[]
  }

  /** A Redis that holds nothing but what recovery from these tables writes: it was wiped, and recovery may have been
      at it before. */
  ghost predicate Partial(cfg: Config, d: Db, r: Redis) {
    && (forall k :: k in r.stock ==> Sold(d, k.0) && r.stock[k] >= 0)
    && (forall p :: p in r.counter ==> Sold(d, p))
    && (forall o :: o in r.reservations ==> LoadRow(cfg, d, o).Load?)
    && (forall o :: InSomeSet(r, o) ==> o in r.reservations)
    && r.dead == map[] && r.retries == map[]
  }

  /** A successful recovery: `rows` and `ps` are the orders in which ledger rows and products are delivered. */
  ghost predicate Recovers(cfg: Config, d: Db, r0: Redis, rows: seq<OrderId>, ps: seq<ProductId>)
    requires ValidConfig(cfg)
  {
    && Listing(rows, d.ledger.Keys) && (forall p :: p in ps <==> Sold(d, p)) && Partial(cfg, d, r0)
    && Recover(cfg, Stores(r0, d), rows, ps).Some?
  }

  /** What a successful recovery went through. */
  lemma RecoverSteps(cfg: Config, r0: Redis, d: Db, rows: seq<OrderId>, ps: seq<ProductId>)
    returns (grid: Grid, items: seq<Item>, b: Books)
    requires cfg.mode != Off && (forall p :: p in ps <==> Sold(d, p)) && Recover(cfg, Stores(r0, d), rows, ps).Some?
    ensures LoadBuckets(d, cfg.shardCount) == Some(grid) && LoadItems(cfg, d, rows) == Some(items)
    ensures Subtract(Books(grid, map[]), items) == Some(b) && b.grid.Keys == grid.Keys
    ensures forall p :: p in ps <==> p in b.grid
    ensures Recover(cfg, Stores(r0, d), rows, ps).value.0
            == Stores(RestoreItems(RestoreProducts(ResetIndexesScript(r0), b, ps), items), d)
  {
    grid := LoadBuckets(d, cfg.shardCount).value;
    items := LoadItems(cfg, d, rows).value;
    b := Subtract(Books(grid, map[]), items).value;
    SubtractKeys(Books(grid, map[]), items);
  }

  /** What recovery writes for a product, in terms of the tables alone. */
  lemma RecoveredProduct(cfg: Config, r0: Redis, d: Db, rows: seq<OrderId>, ps: seq<ProductId>, p: ProductId)
    returns (items: seq<Item>)
    requires Strict(cfg) && Partial(cfg, d, r0) && (forall x :: x in ps <==> Sold(d, x))
    requires Recover(cfg, Stores(r0, d), rows, ps).Some?
    ensures LoadItems(cfg, d, rows) == Some(items)
    ensures var r := Recover(cfg, Stores(r0, d), rows, ps).value.0.redis;
            if p in ps
            then Available(r, p, cfg.shardCount) == BucketTotal(d, p) - ProductDemand(items, p)
                 && Counter(r, p) == ProductDemand(items, p)
            else Available(r, p, cfg.shardCount) == 0 && Counter(r, p) == 0
  {
    var n := cfg.shardCount;
    var grid, items', b := RecoverSteps(cfg, r0, d, rows, ps);
    items := items';
    RestoredStock(RestoreProducts(ResetIndexesScript(r0), b, ps), items);
    GridShape(cfg, d, grid, items, b);
    RestoredProduct(ResetIndexesScript(r0), b, ps, n, p);
    if p in ps {
      RecoveredTotals(cfg, d, grid, items, b, p);
    } else {
      TotalZero(Row(r0.stock, p, n));
    }
  }

  lemma GridShape(cfg: Config, d: Db, grid: Grid, items: seq<Item>, b: Books)
    requires LoadBuckets(d, cfg.shardCount) == Some(grid) && Subtract(Books(grid, map[]), items) == Some(b)
    ensures forall p :: p in b.grid ==> |b.grid[p]| == cfg.shardCount
  {
    assert GridNonNegative(grid);
    SubtractCharacterised(Books(grid, map[]), items);
  }

  lemma RecoveredTotals(cfg: Config, d: Db, grid: Grid, items: seq<Item>, b: Books, p: ProductId)
    requires LoadBuckets(d, cfg.shardCount) == Some(grid) && Subtract(Books(grid, map[]), items) == Some(b) && p in grid
    ensures p in b.grid && Total(Values(b.grid[p])) == BucketTotal(d, p) - ProductDemand(items, p)
    ensures Of(b.reserved, p) == ProductDemand(items, p)
  {
    assert GridNonNegative(grid);
    SubtractCharacterised(Books(grid, map[]), items);
    ChargedTotal(Books(grid, map[]), items, p);
    assert GoodBuckets(d.buckets[p], cfg.shardCount);
    DenseTotal(d.buckets[p], cfg.shardCount);
  }

  lemma NoBuckets(d: Db, p: ProductId)
    requires !Sold(d, p)
    ensures BucketTotal(d, p) == 0
  {
    assert BucketsOf(d, p) == map[];
    SumZero(BucketsOf(d, p).Keys, Lookup(BucketsOf(d, p)));
  }

  /** What recovery writes for an order, in terms of the tables alone. */
  lemma RecoveredOrder(cfg: Config, d: Db, r0: Redis, rows: seq<OrderId>, ps: seq<ProductId>, o: OrderId)
    requires Strict(cfg) && Recovers(cfg, d, r0, rows, ps)
    ensures var r, loaded := Recover(cfg, Stores(r0, d), rows, ps).value.0.redis, LoadRow(cfg, d, o);
            && !loaded.Bad? && (o in r.reservations <==> loaded.Load?)
            && (loaded.Load? ==> r.reservations[o] == HashOf(loaded.item))
  {
    var grid, items, b := RecoverSteps(cfg, r0, d, rows, ps);
    ProductsKeepRest(ResetIndexesScript(r0), b, ps);
    RestoredOrder(cfg, d, rows, items, RestoreProducts(ResetIndexesScript(r0), b, ps), o);
    if o in rows {
      NoneBad(cfg, d, rows, o);
    }
  }

  lemma SameLiveIff(cfg: Config, st: Stores, r: Redis, o: OrderId)
    requires Strict(cfg) && ShapeAt(cfg, st, o)
    requires var loaded := LoadRow(cfg, st.db, o);
             && !loaded.Bad? && (o in r.reservations <==> loaded.Load?)
             && (loaded.Load? ==> r.reservations[o] == HashOf(loaded.item))
    ensures SameLive(st.redis, r, o) <==> Agrees(st, o)
  {
    AgreesIsLoaded(cfg, st, o);
  }

  lemma {:induction false} NoDemand(grid: Grid, items: seq<Item>, p: ProductId)
    requires WellFormed(grid, items) && p !in grid
    ensures ProductDemand(items, p) == 0
    decreases |items|
  {
    if items != [] {
      WellFormedTail(grid, grid, items);
      NoDemand(grid, items[1..], p);
    }
  }

  lemma UnsoldAsksNothing(cfg: Config, d: Db, r0: Redis, rows: seq<OrderId>, ps: seq<ProductId>, p: ProductId)
    requires Strict(cfg) && Recovers(cfg, d, r0, rows, ps) && p !in ps
    ensures BucketTotal(d, p) == 0
    ensures LoadItems(cfg, d, rows).Some? && ProductDemand(LoadItems(cfg, d, rows).value, p) == 0
  {
    var grid, items, b := RecoverSteps(cfg, r0, d, rows, ps);
    assert GridNonNegative(grid);
    SubtractCharacterised(Books(grid, map[]), items);
    NoDemand(grid, items, p);
    NoBuckets(d, p);
  }

  /** Product by product, when the tables tell every order: the counter comes back as it was, and the shard sum exactly
      when MySQL exceeded Redis by nothing. */
  lemma ProductIff(cfg: Config, st: Stores, supply: Totals, drift: Totals, r0: Redis, rows: seq<OrderId>,
                   ps: seq<ProductId>, p: ProductId)
    requires Strict(cfg) && StoreInv(cfg, st, supply, drift) && Recovers(cfg, st.db, r0, rows, ps)
    requires forall o :: Agrees(st, o)
    ensures var r := Recover(cfg, Stores(r0, st.db), rows, ps).value.0.redis;
            && Counter(r, p) == Counter(st.redis, p)
            && (Available(r, p, cfg.shardCount) == Available(st.redis, p, cfg.shardCount) <==>
                Gap(st, p) + Of(drift, p) == 0)
  {
    var items := RecoveredProduct(cfg, r0, st.db, rows, ps, p);
    ReservedAgree(cfg, st, rows, items, p);
    assert Conserved(cfg, st, supply, p) && Balanced(cfg, st, drift, p);
    if p !in ps {
      UnsoldAsksNothing(cfg, st.db, r0, rows, ps, p);
    }
  }

  /** Redis as it was: every shard sum, every reserved counter, and the live reservations. */
  ghost predicate Restores(cfg: Config, lost: Redis, r: Redis) {
    && (forall p :: Available(r, p, cfg.shardCount) == Available(lost, p, cfg.shardCount))
    && (forall p :: Counter(r, p) == Counter(lost, p))
    && (forall o :: SameLive(lost, r, o))
  }

  /** The tables tell every order, and MySQL exceeds Redis by nothing. */
  ghost predicate InSync(st: Stores, drift: Totals) {
    (forall o :: Agrees(st, o)) && forall p :: Gap(st, p) + Of(drift, p) == 0
  }

  lemma RestoresIff(cfg: Config, st: Stores, supply: Totals, drift: Totals, r0: Redis, rows: seq<OrderId>,
                    ps: seq<ProductId>)
    requires Strict(cfg) && StoreInv(cfg, st, supply, drift) && Recovers(cfg, st.db, r0, rows, ps)
    ensures Restores(cfg, st.redis, Recover(cfg, Stores(r0, st.db), rows, ps).value.0.redis) <==> InSync(st, drift)
  {
    var r := Recover(cfg, Stores(r0, st.db), rows, ps).value.0.redis;
    forall o
      ensures SameLive(st.redis, r, o) <==> Agrees(st, o)
    {
      RecoveredOrder(cfg, st.db, r0, rows, ps, o);
      ShapeGivesAt(cfg, st, o);
      SameLiveIff(cfg, st, r, o);
    }
    if forall o :: Agrees(st, o) {
      forall p {
        ProductIff(cfg, st, supply, drift, r0, rows, ps, p);
      }
    } else {
      var o :| !Agrees(st, o);
      assert !SameLive(st.redis, r, o);
    }
  }

  /** The rebuild theorem. After any interleaving of commands and reapers, with failures and deaths anywhere, wiping
      Redis and recovering it, if recovery succeeds, restores shard sums, reserved counters and exactly the live
      reservations with their status, product and quantity, if and only if the tables tell every order and no product's
      MySQL total exceeds Redis or falls behind it. `r0` is the Redis that recovery starts on: empty, or left by earlier
      recoveries that stopped in the middle of their writes. */
  lemma RebuildTheorem(cfg: Config, w: World, es: seq<Event>, r0: Redis, rows: seq<OrderId>, ps: seq<ProductId>)
    requires Strict(cfg) && Initial(cfg, w) && Recovers(cfg, RunAll(cfg, w, es).st.db, r0, rows, ps)
    ensures var w' := RunAll(cfg, w, es);
            Restores(cfg, w'.st.redis, Recover(cfg, Stores(r0, w'.st.db), rows, ps).value.0.redis)
            <==> InSync(w'.st, w'.drift)
  {
    InitialInv(cfg, w);
    RunKeeps(cfg, w, es);
    var w' := RunAll(cfg, w, es);
    RestoresIff(cfg, w'.st, w'.supply, w'.drift, r0, rows, ps);
  }

  lemma AgreedIsDone(cfg: Config, st: Stores, o: OrderId)
    requires Sound(cfg, st, o) && Agrees(st, o)
    ensures NothingHalfDone(st, o)
  {
  }

  /** Without overlap on an order, the tables need only tell every order, and every adjust have reached both stores. */
  lemma RebuildWithoutOverlap(cfg: Config, w: World, es: seq<Event>, r0: Redis, rows: seq<OrderId>, ps: seq<ProductId>)
    requires Strict(cfg) && Initial(cfg, w) && Recovers(cfg, RunApart(cfg, w, es).st.db, r0, rows, ps)
    ensures var w' := RunApart(cfg, w, es);
            Restores(cfg, w'.st.redis, Recover(cfg, Stores(r0, w'.st.db), rows, ps).value.0.redis)
            <==> (forall o :: Agrees(w'.st, o)) && forall p :: Of(w'.drift, p) == 0
  {
    InitialInv(cfg, w);
    RunApartKeeps(cfg, w, es);
    RunApartSound(cfg, w, es);
    var w' := RunApart(cfg, w, es);
    RestoresIff(cfg, w'.st, w'.supply, w'.drift, r0, rows, ps);
    SoundSyncIff(cfg, w'.st, w'.drift);
  }

  lemma SoundSyncIff(cfg: Config, st: Stores, drift: Totals)
    requires forall o :: Sound(cfg, st, o)
    ensures InSync(st, drift) <==> (forall o :: Agrees(st, o)) && forall p :: Of(drift, p) == 0
  {
    if forall o :: Agrees(st, o) {
      AgreedHasNoGap(cfg, st);
    }
  }

  lemma AgreedHasNoGap(cfg: Config, st: Stores)
    requires forall o :: Sound(cfg, st, o) && Agrees(st, o)
    ensures forall p :: Gap(st, p) == 0
  {
    forall o
      ensures NothingHalfDone(st, o)
    {
      AgreedIsDone(cfg, st, o);
    }
    forall p {
      NoGap(st, p);
    }
  }

  lemma RestIsInSync(cfg: Config, w: World)
    requires Strict(cfg) && SerialInv(cfg, w) && Quiescent(w) && forall p :: Of(w.drift, p) == 0
    ensures InSync(w.st, w.drift)
  {
    forall o
      ensures Agrees(w.st, o) && NothingHalfDone(w.st, o)
    {
      QuiescentIsSettled(cfg, w, o);
    }
    forall p {
      NoGap(w.st, p);
    }
  }

  /** Where what stopped is retried or released, every moment at which nothing is in flight or left to retry is one that
      recovery restores, if every adjust reached both stores. */
  lemma RebuildAtRest(cfg: Config, w: World, es: seq<Event>, r0: Redis, rows: seq<OrderId>, ps: seq<ProductId>)
    requires Strict(cfg) && Initial(cfg, w) && Quiescent(RunSerial(cfg, w, es))
    requires forall p :: Of(RunSerial(cfg, w, es).drift, p) == 0
    requires Recovers(cfg, RunSerial(cfg, w, es).st.db, r0, rows, ps)
    ensures var w' := RunSerial(cfg, w, es);
            Restores(cfg, w'.st.redis, Recover(cfg, Stores(r0, w'.st.db), rows, ps).value.0.redis)
  {
    InitialSerial(cfg, w);
    RunSerialKeeps(cfg, w, es);
    var w' := RunSerial(cfg, w, es);
    RestIsInSync(cfg, w');
    RestoresIff(cfg, w'.st, w'.supply, w'.drift, r0, rows, ps);
  }

  // ------------------------------------------------------------------------------------------------------------
  // Recovery over a Redis that survived
  // ------------------------------------------------------------------------------------------------------------

  /** Which index sets and retry counts an order is in afterwards: the expiry set starts over from the tables, nothing
      is being processed, and dead letters and retry counts stay, except those of confirmed orders. */
  ghost predicate ReindexedAt(cfg: Config, d: Db, r0: Redis, r: Redis, o: OrderId) {
    var loaded := LoadRow(cfg, d, o);
    var confirmed := loaded.Load? && loaded.item.status == Confirmed;
    && o !in r.processing
    && (o in r.expiry <==> loaded.Load? && !confirmed && o !in r0.dead)
    && (o in r.expiry ==> r.expiry[o] == loaded.item.expiresAt)
    && (o in r.dead <==> o in r0.dead && !confirmed) && (o in r.dead ==> r.dead[o] == r0.dead[o])
    && (o in r.retries <==> o in r0.retries && !confirmed) && (o in r.retries ==> r.retries[o] == r0.retries[o])
  }

  ghost predicate SameIndexes(r: Redis, r': Redis, o: OrderId) {
    && (o in r'.processing <==> o in r.processing)
    && (o in r'.expiry <==> o in r.expiry) && (o in r.expiry ==> r'.expiry[o] == r.expiry[o])
    && (o in r'.dead <==> o in r.dead) && (o in r.dead ==> r'.dead[o] == r.dead[o])
    && (o in r'.retries <==> o in r.retries) && (o in r.retries ==> r'.retries[o] == r.retries[o])
  }

  lemma RestoresOwnIndexes(cfg: Config, d: Db, r: Redis, x: Item)
    requires LoadRow(cfg, d, x.o) == Load(x) && x.o !in r.expiry
    ensures ReindexedAt(cfg, d, r, RestoreReservationScript(r, x), x.o)
  {
  }

  lemma RestoresOneOrder(r: Redis, x: Item, o: OrderId)
    requires o != x.o
    ensures SameIndexes(r, RestoreReservationScript(r, x), o)
  {
  }

  lemma {:induction false} RestoredIndexes(cfg: Config, d: Db, rows: seq<OrderId>, items: seq<Item>, r: Redis,
                                           keys: set<OrderId>, o: OrderId)
    requires LoadItems(cfg, d, rows) == Some(items) && Listing(rows, keys)
    requires o in keys ==> o !in r.expiry && o !in r.processing
    ensures var r' := RestoreItems(r, items);
            if o in keys then ReindexedAt(cfg, d, r, r', o) else SameIndexes(r, r', o)
    decreases |rows|
  {
    if rows != [] {
      var loaded := LoadRow(cfg, d, rows[0]);
      var tail := LoadItems(cfg, d, rows[1..]).value;
      ListingTail(rows, keys);
      if loaded.Load? {
        assert items == [loaded.item] + tail && items[1..] == tail;
        if o == rows[0] {
          RestoresOwnIndexes(cfg, d, r, loaded.item);
        } else {
          RestoresOneOrder(r, loaded.item, o);
        }
        RestoredIndexes(cfg, d, rows[1..], tail, RestoreReservationScript(r, loaded.item), keys - {rows[0]}, o);
      } else {
        RestoredIndexes(cfg, d, rows[1..], tail, r, keys - {rows[0]}, o);
      }
    }
  }

  lemma {:induction false} ProductsKeepRest(r: Redis, b: Books, ps: seq<ProductId>)
    ensures var r' := RestoreProducts(r, b, ps); r' == r.(stock := r'.stock, counter := r'.counter)
    decreases |ps|
  {
    if ps != [] {
      ProductsKeepRest(if ps[0] in b.grid
          then RestoreProductScript(r, ps[0], b.grid[ps[0]], Of(b.reserved, ps[0])) else r, b, ps[1..]);
    }
  }

  /** Recovery over any Redis, as at every start of the service. Of each order it writes the hash that the tables call
      for and otherwise leaves the one there is; the indexes are as `ReindexedAt` says. Of each product with buckets it
      overwrites shards and counter by what the tables alone give, and leaves the others. */
  lemma RecoveryOverwrites(cfg: Config, d: Db, r0: Redis, rows: seq<OrderId>, ps: seq<ProductId>, o: OrderId,
                           p: ProductId)
    returns (items: seq<Item>)
    requires cfg.mode != Off && Listing(rows, d.ledger.Keys) && (forall x :: x in ps <==> Sold(d, x))
    requires Recover(cfg, Stores(r0, d), rows, ps).Some?
    ensures LoadItems(cfg, d, rows) == Some(items)
    ensures var r := Recover(cfg, Stores(r0, d), rows, ps).value.0.redis;
            && RestoredAt(cfg, d, rows, r0.reservations, r.reservations, o) && ReindexedAt(cfg, d, r0, r, o)
            && (if p in ps
                then Available(r, p, cfg.shardCount) == BucketTotal(d, p) - ProductDemand(items, p)
                     && Counter(r, p) == ProductDemand(items, p)
                else Row(r.stock, p, cfg.shardCount) == Row(r0.stock, p, cfg.shardCount)
                     && Counter(r, p) == Counter(r0, p))
  {
    var grid, items', b := RecoverSteps(cfg, r0, d, rows, ps);
    items := items';
    var r1 := RestoreProducts(ResetIndexesScript(r0), b, ps);
    ProductsKeepRest(ResetIndexesScript(r0), b, ps);
    RestoredOrder(cfg, d, rows, items, r1, o);
    RestoredIndexes(cfg, d, rows, items, r1, d.ledger.Keys, o);
    RestoredStock(r1, items);
    GridShape(cfg, d, grid, items, b);
    RestoredProduct(ResetIndexesScript(r0), b, ps, cfg.shardCount, p);
    if p in ps {
      RecoveredTotals(cfg, d, grid, items, b, p);
    }
  }

  /** What the tables load of an order is what Redis has of it; they may have nothing. */
  predicate LoadsTrue(cfg: Config, st: Stores, o: OrderId) {
    var loaded := LoadRow(cfg, st.db, o);
    loaded.Load? ==> o in st.redis.reservations && loaded.item.status == st.redis.reservations[o].status
  }

  lemma SurvivesIff(cfg: Config, st: Stores, rows: seq<OrderId>, r: Redis, o: OrderId)
    requires Strict(cfg) && ShapeAt(cfg, st, o) && Listing(rows, st.db.ledger.Keys) && !LoadRow(cfg, st.db, o).Bad?
    requires RestoredAt(cfg, st.db, rows, st.redis.reservations, r.reservations, o)
    ensures SameLive(st.redis, r, o) <==> LoadsTrue(cfg, st, o)
  {
    AgreesIsLoaded(cfg, st, o);
  }

  /** The tables call reserved of a product what Redis has reserved, and the stores agree on it. */
  ghost predicate TotalsTrue(cfg: Config, st: Stores, drift: Totals, p: ProductId) {
    Sold(st.db, p) ==> TableReserved(cfg, st.db, p) == LiveReserved(st, p) && Gap(st, p) + Of(drift, p) == 0
  }

  ghost predicate SameTotals(cfg: Config, lost: Redis, r: Redis, p: ProductId) {
    Available(r, p, cfg.shardCount) == Available(lost, p, cfg.shardCount) && Counter(r, p) == Counter(lost, p)
  }

  lemma RestoresByParts(cfg: Config, lost: Redis, r: Redis)
    ensures Restores(cfg, lost, r) <==> (forall o :: SameLive(lost, r, o)) && forall p :: SameTotals(cfg, lost, r, p)
  {
    if forall p :: SameTotals(cfg, lost, r, p) {
      forall p
        ensures Available(r, p, cfg.shardCount) == Available(lost, p, cfg.shardCount)
        ensures Counter(r, p) == Counter(lost, p)
      {
        assert SameTotals(cfg, lost, r, p);
      }
    }
  }

  lemma SurvivesByParts(cfg: Config, st: Stores, supply: Totals, drift: Totals, rows: seq<OrderId>, ps: seq<ProductId>)
    requires Strict(cfg) && StoreInv(cfg, st, supply, drift) && Listing(rows, st.db.ledger.Keys)
    requires (forall p :: p in ps <==> Sold(st.db, p)) && Recover(cfg, st, rows, ps).Some?
    ensures Restores(cfg, st.redis, Recover(cfg, st, rows, ps).value.0.redis) <==>
            (forall o :: LoadsTrue(cfg, st, o)) && forall p :: TotalsTrue(cfg, st, drift, p)
  {
    var r := Recover(cfg, st, rows, ps).value.0.redis;
    forall o
      ensures SameLive(st.redis, r, o) <==> LoadsTrue(cfg, st, o)
    {
      SurvivingOrder(cfg, st, rows, ps, o);
    }
    forall p
      ensures SameTotals(cfg, st.redis, r, p) <==> TotalsTrue(cfg, st, drift, p)
    {
      SurvivingProduct(cfg, st, supply, drift, rows, ps, p);
    }
    RestoresByParts(cfg, st.redis, r);
  }

  /** Started over a Redis that nothing happened to, recovery leaves it as it was, as far as sums, counters and live
      reservations go, exactly when whatever the tables load is what Redis has, and each product with buckets has what
      the tables call reserved as its counter and no gap between the stores. */
  lemma SurvivorIff(cfg: Config, w: World, es: seq<Event>, rows: seq<OrderId>, ps: seq<ProductId>)
    requires Strict(cfg) && Initial(cfg, w)
    requires var st := RunAll(cfg, w, es).st;
             && Listing(rows, st.db.ledger.Keys) && (forall p :: p in ps <==> Sold(st.db, p))
             && Recover(cfg, st, rows, ps).Some?
    ensures var w' := RunAll(cfg, w, es);
            Restores(cfg, w'.st.redis, Recover(cfg, w'.st, rows, ps).value.0.redis) <==>
            (forall o :: LoadsTrue(cfg, w'.st, o)) && forall p :: TotalsTrue(cfg, w'.st, w'.drift, p)
  {
    InitialInv(cfg, w);
    RunKeeps(cfg, w, es);
    var w' := RunAll(cfg, w, es);
    SurvivesByParts(cfg, w'.st, w'.supply, w'.drift, rows, ps);
  }

  lemma SurvivingOrder(cfg: Config, st: Stores, rows: seq<OrderId>, ps: seq<ProductId>, o: OrderId)
    requires Strict(cfg) && Shape(cfg, st) && Listing(rows, st.db.ledger.Keys)
    requires (forall p :: p in ps <==> Sold(st.db, p)) && Recover(cfg, st, rows, ps).Some?
    ensures SameLive(st.redis, Recover(cfg, st, rows, ps).value.0.redis, o) <==> LoadsTrue(cfg, st, o)
  {
    var items := RecoveryOverwrites(cfg, st.db, st.redis, rows, ps, o, 0);
    ShapeGivesAt(cfg, st, o);
    if o in rows {
      NoneBad(cfg, st.db, rows, o);
    }
    SurvivesIff(cfg, st, rows, Recover(cfg, st, rows, ps).value.0.redis, o);
  }

  lemma SurvivingProduct(cfg: Config, st: Stores, supply: Totals, drift: Totals, rows: seq<OrderId>, ps: seq<ProductId>,
                         p: ProductId)
    requires Strict(cfg) && StoreInv(cfg, st, supply, drift) && Listing(rows, st.db.ledger.Keys)
    requires (forall x :: x in ps <==> Sold(st.db, x)) && Recover(cfg, st, rows, ps).Some?
    ensures SameTotals(cfg, st.redis, Recover(cfg, st, rows, ps).value.0.redis, p) <==> TotalsTrue(cfg, st, drift, p)
  {
    var items := RecoveryOverwrites(cfg, st.db, st.redis, rows, ps, "", p);
    DemandIsSum(cfg, st.db, rows, items, p, st.db.ledger.Keys);
    assert Conserved(cfg, st, supply, p) && Balanced(cfg, st, drift, p);
    SurvivesInTotal(cfg, st, supply, drift, Recover(cfg, st, rows, ps).value.0.redis, p);
  }

  /** The part of it that is about sums. */
  lemma SurvivesInTotal(cfg: Config, st: Stores, supply: Totals, drift: Totals, r: Redis, p: ProductId)
    requires Conserved(cfg, st, supply, p) && Balanced(cfg, st, drift, p)
    requires if Sold(st.db, p)
             then Available(r, p, cfg.shardCount) == BucketTotal(st.db, p) - TableReserved(cfg, st.db, p)
                  && Counter(r, p) == TableReserved(cfg, st.db, p)
             else SameTotals(cfg, st.redis, r, p)
    ensures SameTotals(cfg, st.redis, r, p) <==> TotalsTrue(cfg, st, drift, p)
  {
  }

  // ------------------------------------------------------------------------------------------------------------
  // Recovery that stops in the middle of its writes
  // ------------------------------------------------------------------------------------------------------------

  lemma EmptyIsPartial(cfg: Config, d: Db)
    ensures Partial(cfg, d, EMPTY)
  {
  }

  lemma ProductStaysPartial(cfg: Config, d: Db, r: Redis, p: ProductId, values: seq<int>, reserved: int)
    requires Partial(cfg, d, r) && Sold(d, p) && forall i :: 0 <= i < |values| ==> values[i] >= 0
    ensures Partial(cfg, d, RestoreProductScript(r, p, values, reserved))
  {
    SetShardsKeys(r.stock, p, values, 0);
  }

  lemma {:induction false} ProductsStayPartial(cfg: Config, d: Db, r: Redis, b: Books, ps: seq<ProductId>)
    requires Partial(cfg, d, r) && GridNonNegative(b.grid) && forall p :: p in b.grid ==> Sold(d, p)
    ensures Partial(cfg, d, RestoreProducts(r, b, ps))
    decreases |ps|
  {
    if ps != [] {
      if ps[0] in b.grid {
        var p := ps[0];
        assert forall i :: 0 <= i < |b.grid[p]| ==> b.grid[p][i] >= 0;
        ProductStaysPartial(cfg, d, r, p, b.grid[p], Of(b.reserved, p));
        ProductsStayPartial(cfg, d, RestoreProductScript(r, p, b.grid[p], Of(b.reserved, p)), b, ps[1..]);
      } else {
        ProductsStayPartial(cfg, d, r, b, ps[1..]);
      }
    }
  }

  lemma {:induction false} ItemsStayPartial(cfg: Config, d: Db, r: Redis, items: seq<Item>)
    requires Partial(cfg, d, r) && forall k :: 0 <= k < |items| ==> LoadRow(cfg, d, items[k].o).Load?
    ensures Partial(cfg, d, RestoreItems(r, items))
    decreases |items|
  {
    if items != [] {
      assert LoadRow(cfg, d, items[0].o).Load?;
      ItemStaysPartial(cfg, d, r, items[0]);
      assert forall k :: 0 <= k < |items[1..]| ==> items[1..][k] == items[k + 1];
      ItemsStayPartial(cfg, d, RestoreReservationScript(r, items[0]), items[1..]);
    }
  }

  lemma ItemStaysPartial(cfg: Config, d: Db, r: Redis, x: Item)
    requires Partial(cfg, d, r) && LoadRow(cfg, d, x.o).Load?
    ensures Partial(cfg, d, RestoreReservationScript(r, x))
  {
  }

  lemma {:induction false} LoadedItems(cfg: Config, d: Db, rows: seq<OrderId>, k: nat)
    requires LoadItems(cfg, d, rows).Some? && k < |LoadItems(cfg, d, rows).value|
    ensures LoadRow(cfg, d, LoadItems(cfg, d, rows).value[k].o) == Load(LoadItems(cfg, d, rows).value[k])
    decreases |rows|
  {
    if LoadRow(cfg, d, rows[0]).Load? {
      if k > 0 {
        LoadedItems(cfg, d, rows[1..], k - 1);
      }
    } else {
      LoadedItems(cfg, d, rows[1..], k);
    }
  }

  lemma PlannedGrid(cfg: Config, d: Db, rows: seq<OrderId>, b: Books, items: seq<Item>)
    requires Strict(cfg) && Plan(cfg, d, rows) == Some((b, items))
    ensures GridNonNegative(b.grid) && forall p :: p in b.grid ==> Sold(d, p)
  {
    var grid := LoadBuckets(d, cfg.shardCount).value;
    assert GridNonNegative(grid);
    SubtractKeys(Books(grid, map[]), items);
    SubtractCharacterised(Books(grid, map[]), items);
  }

  lemma HalfwayIsPartial(cfg: Config, r0: Redis, d: Db, rows: seq<OrderId>, ps: seq<ProductId>, b: Books,
                         items: seq<Item>, j: nat)
    requires Strict(cfg) && Partial(cfg, d, r0) && Plan(cfg, d, rows) == Some((b, items)) && j <= |items|
    ensures Partial(cfg, d, Halfway(r0, b, ps, items, j))
  {
    PlannedGrid(cfg, d, rows, b, items);
    ProductsStayPartial(cfg, d, ResetIndexesScript(r0), b, ps);
    forall k | 0 <= k < j
      ensures LoadRow(cfg, d, items[..j][k].o).Load?
    {
      LoadedItems(cfg, d, rows, k);
    }
    ItemsStayPartial(cfg, d, RestoreProducts(ResetIndexesScript(r0), b, ps), items[..j]);
  }

  /** A recovery that Redis stopped after any number of scripts leaves a Redis from which recovery can start over. */
  lemma StoppedIsPartial(cfg: Config, r0: Redis, d: Db, rows: seq<OrderId>, ps: seq<ProductId>, b: Books,
                         items: seq<Item>, r: Redis, k: nat)
    requires Strict(cfg) && Partial(cfg, d, r0) && Plan(cfg, d, rows) == Some((b, items))
    requires k <= Scripts(b, items) && StoppedAfter(r0, r, b, items, ps, k)
    ensures Partial(cfg, d, r)
  {
    if k > 0 {
      var j := k - 1 - |ps|;
      assert r == Halfway(r0, b, ps, items, j);
      HalfwayIsPartial(cfg, r0, d, rows, ps, b, items, j);
    }
  }
}
