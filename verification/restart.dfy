/** Restarts: exactly when recovery succeeds, and how runs go on after it. */
module Restart {
  import opened Wrappers
  import opened Sums
  import opened Shards
  import opened RedisScripts
  import opened StockPersistence
  import opened StockCommands
  import opened ReservationReaper
  import opened Accounts
  import opened Engine
  import opened NoOverlap
  import opened Quiescence
  import opened RuntimeRecovery
  import opened Rebuild
  import Retry

  // ------------------------------------------------------------------------------------------------------------
  // Every logged deduction names a bucket of its product, every ledger row the shard of its hash
  // ------------------------------------------------------------------------------------------------------------

  predicate BookedAt(st: Stores, o: OrderId) {
    && (o in st.db.deducts ==>
          o in st.redis.reservations && st.db.deducts[o] in BucketsOf(st.db, st.redis.reservations[o].productId))
    && (o in st.db.ledger ==>
          o in st.redis.reservations && st.db.ledger[o].shardIndex == st.redis.reservations[o].shardIndex)
  }

  ghost predicate Booked(st: Stores) {
    forall o :: BookedAt(st, o)
  }

  /** Buckets are never removed, and old log rows never rewritten. */
  ghost predicate BucketsGrow(d: Db, d': Db) {
    && (forall p :: BucketsOf(d, p).Keys <= BucketsOf(d', p).Keys)
    && (forall o :: o in d.deducts ==> o in d'.deducts && d'.deducts[o] == d.deducts[o])
  }

  lemma DeductStays(st: Stores, st': Stores, o: OrderId)
    requires BookedAt(st, o) && Evolves(st, st') && BucketsGrow(st.db, st'.db) && o in st.db.deducts
    ensures o in st'.redis.reservations
    ensures st'.db.deducts[o] in BucketsOf(st'.db, st'.redis.reservations[o].productId)
  {
    assert Known(st, o);
    var p := st.redis.reservations[o].productId;
    assert BucketsOf(st.db, p).Keys <= BucketsOf(st'.db, p).Keys;
  }

  lemma RowStays(st: Stores, st': Stores, o: OrderId)
    requires BookedAt(st, o) && Evolves(st, st') && o in st.db.ledger && o in st'.db.ledger
    requires st'.db.ledger[o].shardIndex == st.db.ledger[o].shardIndex
    ensures o in st'.redis.reservations && st'.db.ledger[o].shardIndex == st'.redis.reservations[o].shardIndex
  {
    assert Known(st, o);
  }

  /** A new ledger row carries the shard of the hash; old ones keep theirs. */
  lemma StepRows(cfg: Config, st: Stores, c: Cmd, now: int)
    requires ValidConfig(cfg) && CmdOk(st, c)
    ensures var st' := StepCmd(cfg, st, c, now).0;
            forall o :: o in st'.db.ledger ==>
              if o in st.db.ledger then st'.db.ledger[o].shardIndex == st.db.ledger[o].shardIndex
              else o in st'.redis.reservations && st'.db.ledger[o].shardIndex == st'.redis.reservations[o].shardIndex
  {
  }

  lemma DeductBooks(cfg: Config, st: Stores, c: Cmd, now: int)
    requires ValidConfig(cfg) && c.Deducting? && CmdOk(st, c)
    ensures var st' := StepCmd(cfg, st, c, now).0;
            && BucketsGrow(st.db, st'.db) && st'.redis == st.redis
            && (c.o in st'.db.deducts && c.o !in st.db.deducts ==>
                  c.o in st.redis.reservations
                  && st'.db.deducts[c.o] in BucketsOf(st'.db, st.redis.reservations[c.o].productId))
            && forall o :: o != c.o && o in st'.db.deducts ==> o in st.db.deducts
  {
  }

  lemma OthersGrow(cfg: Config, st: Stores, c: Cmd, now: int)
    requires ValidConfig(cfg) && !c.Deducting?
    ensures var d' := StepCmd(cfg, st, c, now).0.db; BucketsGrow(st.db, d') && d'.deducts == st.db.deducts
  {
  }

  lemma StepBooked(cfg: Config, st: Stores, c: Cmd, now: int)
    requires ValidConfig(cfg) && CmdOk(st, c) && Booked(st)
    ensures Booked(StepCmd(cfg, st, c, now).0)
  {
    var st' := StepCmd(cfg, st, c, now).0;
    StepEvolves(cfg, st, c, now);
    if c.Deducting? {
      DeductBooks(cfg, st, c, now);
    } else {
      OthersGrow(cfg, st, c, now);
    }
    StepRows(cfg, st, c, now);
    forall o
      ensures BookedAt(st', o)
    {
      assert BookedAt(st, o);
      if o in st.db.deducts {
        DeductStays(st, st', o);
      }
      if o in st.db.ledger && o in st'.db.ledger {
        RowStays(st, st', o);
      }
    }
  }

  lemma SameBooked(st: Stores, st': Stores)
    requires Booked(st) && st'.db == st.db && st'.redis.reservations == st.redis.reservations
    ensures Booked(st')
  {
    forall o
      ensures BookedAt(st', o)
    {
      assert BookedAt(st, o);
    }
  }

  lemma FinishBooked(cfg: Config, w: World, id: nat, now: int)
    requires ValidConfig(cfg) && Booked(w.st) && id in w.procs && w.procs[id].Finishing?
    ensures Booked(Applied(cfg, w, id, true, now).st)
  {
    SameBooked(w.st, Applied(cfg, w, id, true, now).st);
  }

  lemma AppliedBooked(cfg: Config, w: World, id: nat, applied: bool, now: int)
    requires ValidConfig(cfg) && WorldInv(cfg, w) && Booked(w.st) && id in w.procs
    ensures Booked(Applied(cfg, w, id, applied, now).st)
  {
    var proc := w.procs[id];
    assert ProcOk(w.st, proc);
    if applied {
      if proc.Finishing? {
        FinishBooked(cfg, w, id, now);
      } else {
        StepBooked(cfg, w.st, proc.cmd, now);
        AppliedIs(cfg, w, id, now);
      }
    }
  }

  lemma AppliedIs(cfg: Config, w: World, id: nat, now: int)
    requires ValidConfig(cfg) && id in w.procs && !w.procs[id].Finishing?
    ensures Applied(cfg, w, id, true, now).st == StepCmd(cfg, w.st, w.procs[id].cmd, now).0
  {
  }

  lemma ApplyBooked(cfg: Config, w: World, e: Event)
    requires ValidConfig(cfg) && WorldInv(cfg, w) && Booked(w.st)
    ensures Booked(Apply(cfg, w, e).st)
  {
    if Enabled(w, e) {
      match e {
        case Start(_, _) =>
        case StartReaper(_, claimed, _, now) =>
          MoveClaimedSets(Requeue(w.st.redis, now), claimed, now);
          SameBooked(w.st, Apply(cfg, w, e).st);
        case Step(id, now) =>
          AppliedBooked(cfg, w, id, true, now);
          StepProcBooks(cfg, w, id, now);
        case Fail(id, applied, now) =>
          AppliedBooked(cfg, w, id, applied, now);
          FailProcShape(cfg, w, id, applied, now);
        case Kill(id, applied, now) => AppliedBooked(cfg, w, id, applied, now);
      }
    }
  }

  lemma {:induction false} RunBooked(cfg: Config, w: World, es: seq<Event>)
    requires ValidConfig(cfg) && WorldInv(cfg, w) && Booked(w.st)
    ensures WorldInv(cfg, RunAll(cfg, w, es)) && Booked(RunAll(cfg, w, es).st)
    decreases |es|
  {
    if es != [] {
      ApplyBooked(cfg, w, es[0]);
      ApplyKeeps(cfg, w, es[0]);
      RunBooked(cfg, Apply(cfg, w, es[0]), es[1..]);
    }
  }

  lemma ReachedBooked(cfg: Config, w: World, es: seq<Event>)
    requires ValidConfig(cfg) && Initial(cfg, w)
    ensures WorldInv(cfg, RunAll(cfg, w, es)) && Booked(RunAll(cfg, w, es).st)
  {
    InitialInv(cfg, w);
    RunBooked(cfg, w, es);
  }

  // ------------------------------------------------------------------------------------------------------------
  // Exactly when recovery succeeds
  // ------------------------------------------------------------------------------------------------------------

  /** What order `o` holds reserved in shard `i` of product `p`. */
  function LiveAt(st: Stores, p: ProductId, i: int): OrderId -> int {
    o => if o in st.redis.reservations && st.redis.reservations[o].status == Reserved
            && st.redis.reservations[o].productId == p && st.redis.reservations[o].shardIndex - 1 == i
         then st.redis.reservations[o].quantity else 0
  }

  ghost function LiveDemand(st: Stores, p: ProductId, i: int): int {
    Sum(Orders(st), LiveAt(st, p, i))
  }

  function LoadedAt(cfg: Config, d: Db, p: ProductId, i: int): OrderId -> int {
    o => if LoadRow(cfg, d, o).Load? then Ask(LoadRow(cfg, d, o).item, p, i) else 0
  }

  lemma {:induction false} DemandIsSumAt(cfg: Config, d: Db, rows: seq<OrderId>, items: seq<Item>, p: ProductId, i: int,
                                         keys: set<OrderId>)
    requires LoadItems(cfg, d, rows) == Some(items) && Listing(rows, keys)
    ensures Demand(items, p, i) == Sum(keys, LoadedAt(cfg, d, p, i))
    decreases |rows|
  {
    if rows == [] {
      assert keys == {};
    } else {
      var o, loaded := rows[0], LoadRow(cfg, d, rows[0]);
      var tail := LoadItems(cfg, d, rows[1..]).value;
      ListingTail(rows, keys);
      DemandIsSumAt(cfg, d, rows[1..], tail, p, i, keys - {o});
      SumPick(keys, LoadedAt(cfg, d, p, i), o);
      if loaded.Load? {
        assert items == [loaded.item] + tail && items[1..] == tail;
      }
    }
  }

  /** What the tables ask of bucket `i` of product `p` for reserved orders. */
  ghost function TableDemand(cfg: Config, d: Db, p: ProductId, i: int): int {
    Sum(d.ledger.Keys, LoadedAt(cfg, d, p, i))
  }

  ghost predicate BucketsInRange(cfg: Config, d: Db) {
    forall p, b :: b in BucketsOf(d, p) ==> 0 <= b < cfg.shardCount
  }

  /** No row is confirmed without a deduction in the log. */
  ghost predicate Evidenced(d: Db) {
    forall o :: o in d.ledger && d.ledger[o].status == Confirmed ==> o in d.deducts
  }

  /** The reserved quantity that the tables ask of each bucket fits in it. */
  ghost predicate DemandFits(cfg: Config, d: Db) {
    forall p, i :: 0 <= i < cfg.shardCount ==> TableDemand(cfg, d, p, i) <= InBucket(d, p, i)
  }

  /** What a single reserved order asks does not exceed what all ask. */
  lemma AskCounts(cfg: Config, st: Stores, o: OrderId)
    requires Strict(cfg) && Shape(cfg, st) && LoadRow(cfg, st.db, o).Load?
    requires LoadRow(cfg, st.db, o).item.status == Reserved
    ensures var x := LoadRow(cfg, st.db, o).item; 0 < x.q <= TableDemand(cfg, st.db, x.p, x.shardIndex - 1)
  {
    var x := LoadRow(cfg, st.db, o).item;
    var f := LoadedAt(cfg, st.db, x.p, x.shardIndex - 1);
    SumPick(st.db.ledger.Keys, f, o);
    forall k | k in st.db.ledger.Keys - {o}
      ensures f(k) >= 0
    {
      ShapeGivesAt(cfg, st, k);
    }
    SumNonNegative(st.db.ledger.Keys - {o}, f);
  }

  /** Every order that the tables load has its product's buckets, and a shard in range. */
  lemma LoadedIsSold(cfg: Config, st: Stores, o: OrderId)
    requires Strict(cfg) && Shape(cfg, st) && BookedAt(st, o) && DemandFits(cfg, st.db) && LoadRow(cfg, st.db, o).Load?
    ensures var x := LoadRow(cfg, st.db, o).item;
            && Sold(st.db, x.p)
            && (x.status == Reserved ==> x.q > 0 && 0 <= x.shardIndex - 1 < cfg.shardCount)
  {
    var x := LoadRow(cfg, st.db, o).item;
    ShapeGivesAt(cfg, st, o);
    if x.status == Reserved {
      AskCounts(cfg, st, o);
      assert TableDemand(cfg, st.db, x.p, x.shardIndex - 1) <= InBucket(st.db, x.p, x.shardIndex - 1);
    }
  }

  lemma NoDemandUnsold(cfg: Config, d: Db, rows: seq<OrderId>, grid: Grid, items: seq<Item>, p: ProductId, i: int)
    requires WellFormed(grid, items) && p !in grid
    requires LoadItems(cfg, d, rows) == Some(items) && Listing(rows, d.ledger.Keys)
    ensures TableDemand(cfg, d, p, i) == 0
  {
    DemandIsSumAt(cfg, d, rows, items, p, i, d.ledger.Keys);
    NoDemandAt(grid, items, p, i);
  }

  lemma {:induction false} NoDemandAt(grid: Grid, items: seq<Item>, p: ProductId, i: int)
    requires WellFormed(grid, items) && p !in grid
    ensures Demand(items, p, i) == 0
    decreases |items|
  {
    if items != [] {
      WellFormedTail(grid, grid, items);
      NoDemandAt(grid, items[1..], p, i);
    }
  }

  lemma {:induction false} LoadsAll(cfg: Config, d: Db, rows: seq<OrderId>)
    requires forall o :: o in rows ==> !LoadRow(cfg, d, o).Bad?
    ensures LoadItems(cfg, d, rows).Some?
    decreases |rows|
  {
    if rows != [] {
      assert forall o :: o in rows[1..] ==> o in rows;
      LoadsAll(cfg, d, rows[1..]);
    }
  }

  lemma NeverBad(cfg: Config, st: Stores, o: OrderId)
    requires Strict(cfg) && Shape(cfg, st) && BookedAt(st, o) && BucketsInRange(cfg, st.db) && Evidenced(st.db)
    ensures !LoadRow(cfg, st.db, o).Bad?
  {
    if o in st.db.deducts {
      assert st.db.deducts[o] in BucketsOf(st.db, st.redis.reservations[o].productId);
    }
  }

  lemma ItemsWellFormed(cfg: Config, st: Stores, rows: seq<OrderId>, grid: Grid, items: seq<Item>)
    requires Strict(cfg) && Shape(cfg, st) && Booked(st) && DemandFits(cfg, st.db)
    requires LoadBuckets(st.db, cfg.shardCount) == Some(grid) && LoadItems(cfg, st.db, rows) == Some(items)
    ensures WellFormed(grid, items)
  {
    forall k | 0 <= k < |items|
      ensures items[k].p in grid
      ensures items[k].status == Reserved ==> items[k].q > 0 && 0 <= items[k].shardIndex - 1 < |grid[items[k].p]|
    {
      LoadedItems(cfg, st.db, rows, k);
      assert BookedAt(st, items[k].o);
      LoadedIsSold(cfg, st, items[k].o);
    }
  }

  lemma GridIs(cfg: Config, d: Db, grid: Grid)
    requires LoadBuckets(d, cfg.shardCount) == Some(grid)
    ensures BucketsInRange(cfg, d) && GridNonNegative(grid) && (forall p :: p in grid <==> Sold(d, p))
    ensures forall p :: p in grid ==> |grid[p]| == cfg.shardCount && forall i :: 0 <= i < cfg.shardCount ==>
            grid[p][i] == InBucket(d, p, i)
  {
    forall p, b | b in BucketsOf(d, p)
      ensures 0 <= b < cfg.shardCount
    {
      assert GoodBuckets(d.buckets[p], cfg.shardCount);
    }
  }

  /** A confirmed row that is not reverted is one that recovery demands a deduction for; a reverted one has it. */
  lemma LoadedMeansEvidenced(cfg: Config, st: Stores, rows: seq<OrderId>)
    requires Strict(cfg) && Shape(cfg, st) && Listing(rows, st.db.ledger.Keys) && LoadItems(cfg, st.db, rows).Some?
    ensures Evidenced(st.db)
  {
    forall o | o in st.db.ledger && st.db.ledger[o].status == Confirmed
      ensures o in st.db.deducts
    {
      NoneBad(cfg, st.db, rows, o);
    }
  }

  lemma SuccessMeansFits(cfg: Config, st: Stores, r0: Redis, rows: seq<OrderId>, ps: seq<ProductId>)
    requires Strict(cfg) && Shape(cfg, st) && Listing(rows, st.db.ledger.Keys)
    requires Recover(cfg, Stores(r0, st.db), rows, ps).Some?
    ensures BucketsInRange(cfg, st.db) && Evidenced(st.db) && DemandFits(cfg, st.db)
  {
    var grid := LoadBuckets(st.db, cfg.shardCount).value;
    var items := LoadItems(cfg, st.db, rows).value;
    GridIs(cfg, st.db, grid);
    LoadedMeansEvidenced(cfg, st, rows);
    SubtractCharacterised(Books(grid, map[]), items);
    forall p, i | 0 <= i < cfg.shardCount
      ensures TableDemand(cfg, st.db, p, i) <= InBucket(st.db, p, i)
    {
      if p in grid {
        DemandIsSumAt(cfg, st.db, rows, items, p, i, st.db.ledger.Keys);
        assert FitsAt(grid, items, p, i);
      } else {
        NoDemandUnsold(cfg, st.db, rows, grid, items, p, i);
      }
    }
  }

  lemma FitsMeansSuccess(cfg: Config, st: Stores, r0: Redis, rows: seq<OrderId>, ps: seq<ProductId>)
    requires Strict(cfg) && Shape(cfg, st) && Booked(st) && Listing(rows, st.db.ledger.Keys)
    requires BucketsInRange(cfg, st.db) && Evidenced(st.db) && DemandFits(cfg, st.db)
    ensures Recover(cfg, Stores(r0, st.db), rows, ps).Some?
  {
    forall p | p in st.db.buckets
      ensures GoodBuckets(st.db.buckets[p], cfg.shardCount)
    {
      assert forall b :: b in BucketsOf(st.db, p) ==> 0 <= b < cfg.shardCount;
    }
    var grid := LoadBuckets(st.db, cfg.shardCount).value;
    forall o | o in rows
      ensures !LoadRow(cfg, st.db, o).Bad?
    {
      assert BookedAt(st, o);
      NeverBad(cfg, st, o);
    }
    LoadsAll(cfg, st.db, rows);
    var items := LoadItems(cfg, st.db, rows).value;
    GridIs(cfg, st.db, grid);
    ItemsWellFormed(cfg, st, rows, grid, items);
    SubtractCharacterised(Books(grid, map[]), items);
    forall p, i
      ensures FitsAt(grid, items, p, i)
    {
      if p in grid && 0 <= i < |grid[p]| {
        DemandIsSumAt(cfg, st.db, rows, items, p, i, st.db.ledger.Keys);
        assert TableDemand(cfg, st.db, p, i) <= InBucket(st.db, p, i);
      }
    }
  }

  /** After any interleaving, recovery succeeds exactly when every bucket index is below the shard count, no row is
      confirmed without a deduction, and, bucket by bucket, the reserved quantity that the tables ask of it fits.
      Deductions come out of whatever bucket holds them whole, so the last need not be so; and a confirm that follows a
      release which stopped before the ledger makes the second fail. */
  lemma RecoverySucceedsIff(cfg: Config, w: World, es: seq<Event>, r0: Redis, rows: seq<OrderId>, ps: seq<ProductId>)
    requires Strict(cfg) && Initial(cfg, w) && Listing(rows, RunAll(cfg, w, es).st.db.ledger.Keys)
    ensures var d := RunAll(cfg, w, es).st.db;
            Recover(cfg, Stores(r0, d), rows, ps).Some? <==>
            BucketsInRange(cfg, d) && Evidenced(d) && DemandFits(cfg, d)
  {
    ReachedBooked(cfg, w, es);
    var st := RunAll(cfg, w, es).st;
    if Recover(cfg, Stores(r0, st.db), rows, ps).Some? {
      SuccessMeansFits(cfg, st, r0, rows, ps);
    }
    if BucketsInRange(cfg, st.db) && Evidenced(st.db) && DemandFits(cfg, st.db) {
      FitsMeansSuccess(cfg, st, r0, rows, ps);
    }
  }

  lemma LoadedShard(cfg: Config, st: Stores, p: ProductId, i: int, o: OrderId)
    requires Strict(cfg) && ShapeAt(cfg, st, o) && BookedAt(st, o) && Agrees(st, o) && !LoadRow(cfg, st.db, o).Bad?
    ensures LoadedAt(cfg, st.db, p, i)(o) == LiveAt(st, p, i)(o)
    ensures o !in st.redis.reservations ==> o !in st.db.ledger
    ensures o !in st.db.ledger ==> LiveAt(st, p, i)(o) == 0
  {
    AgreesIsLoaded(cfg, st, o);
  }

  /** Where the tables tell every order, what they ask of a bucket is what live orders hold reserved in its shard. */
  lemma DemandIsLive(cfg: Config, st: Stores, p: ProductId, i: int)
    requires Strict(cfg) && Shape(cfg, st) && Booked(st) && BucketsInRange(cfg, st.db)
    requires forall o :: Agrees(st, o)
    ensures TableDemand(cfg, st.db, p, i) == LiveDemand(st, p, i)
  {
    forall o
      ensures LoadedAt(cfg, st.db, p, i)(o) == LiveAt(st, p, i)(o)
      ensures o in st.db.ledger ==> o in Orders(st)
      ensures o !in st.db.ledger ==> LiveAt(st, p, i)(o) == 0
    {
      assert Agrees(st, o) && BookedAt(st, o);
      ShapeGivesAt(cfg, st, o);
      AgreedNotBad(cfg, st, o);
      LoadedShard(cfg, st, p, i, o);
    }
    SumSame(st.db.ledger.Keys, LoadedAt(cfg, st.db, p, i), LiveAt(st, p, i));
    SumExtend(st.db.ledger.Keys, Orders(st), LiveAt(st, p, i));
  }

  lemma AgreedNotBad(cfg: Config, st: Stores, o: OrderId)
    requires Strict(cfg) && ShapeAt(cfg, st, o) && BookedAt(st, o) && BucketsInRange(cfg, st.db) && Agrees(st, o)
    ensures !LoadRow(cfg, st.db, o).Bad?
  {
    if o in st.db.deducts {
      assert st.db.deducts[o] in BucketsOf(st.db, st.redis.reservations[o].productId);
    }
  }

  // ------------------------------------------------------------------------------------------------------------
  // The invariant after a restart
  // ------------------------------------------------------------------------------------------------------------

  /** The tables without the records of some orders. */
  function Less(d: Db, gone: set<OrderId>): Db {
    d.(ledger := d.ledger - gone, deducts := d.deducts - gone, reverts := d.reverts - gone)
  }

  /** The orders that a restart forgets: in the tables, but not in Redis. */
  function Gone(r: Redis, d: Db): set<OrderId> {
    (d.ledger.Keys + d.deducts.Keys + d.reverts) - r.reservations.Keys
  }

  function Restarted(r: Redis, d: Db): Stores {
    Stores(r, Less(d, Gone(r, d)))
  }

  /** What is known of the Redis that a successful recovery leaves, in terms of the tables. */
  ghost predicate Recovered(cfg: Config, st: Stores, r: Redis) {
    && Partial(cfg, st.db, r)
    && (forall o :: o in r.reservations <==> LoadRow(cfg, st.db, o).Load?)
    && (forall o :: o in r.reservations ==> r.reservations[o] == HashOf(LoadRow(cfg, st.db, o).item))
    && (forall o :: o in r.reservations && r.reservations[o].status == Reserved ==> o in r.expiry)
    && (forall o :: o in r.reservations ==> InGrid(cfg, st.db, r.reservations[o]))
    && (forall p :: Counter(r, p) == TableReserved(cfg, st.db, p))
    && (forall p :: Available(r, p, cfg.shardCount) + Counter(r, p) == BucketTotal(st.db, p))
  }

  predicate InGrid(cfg: Config, d: Db, v: Reservation) {
    Sold(d, v.productId) && 1 <= v.shardIndex <= cfg.shardCount
  }

  lemma RecoveredPartial(cfg: Config, st: Stores, r0: Redis, rows: seq<OrderId>, ps: seq<ProductId>)
    requires Strict(cfg) && Recovers(cfg, st.db, r0, rows, ps)
    ensures Partial(cfg, st.db, Recover(cfg, Stores(r0, st.db), rows, ps).value.0.redis)
  {
    var grid, items, b := RecoverSteps(cfg, r0, st.db, rows, ps);
    HalfwayIsPartial(cfg, r0, st.db, rows, ps, b, items, |items|);
    assert items[..|items|] == items;
  }

  lemma {:induction false} LoadIsItem(cfg: Config, d: Db, rows: seq<OrderId>, items: seq<Item>, o: OrderId)
    returns (k: nat)
    requires LoadItems(cfg, d, rows) == Some(items) && o in rows && LoadRow(cfg, d, o).Load?
    ensures k < |items| && items[k] == LoadRow(cfg, d, o).item
    decreases |rows|
  {
    var loaded := LoadRow(cfg, d, rows[0]);
    var tail := LoadItems(cfg, d, rows[1..]).value;
    if rows[0] == o {
      k := 0;
    } else {
      var j := LoadIsItem(cfg, d, rows[1..], tail, o);
      k := if loaded.Load? then j + 1 else j;
    }
  }

  /** Recovery only goes through with known products and shard indexes in range. */
  lemma LoadedInGrid(cfg: Config, st: Stores, r0: Redis, rows: seq<OrderId>, ps: seq<ProductId>, o: OrderId)
    requires Strict(cfg) && Recovers(cfg, st.db, r0, rows, ps) && LoadRow(cfg, st.db, o).Load?
    ensures InGrid(cfg, st.db, HashOf(LoadRow(cfg, st.db, o).item))
  {
    var grid, items, b := RecoverSteps(cfg, r0, st.db, rows, ps);
    assert GridNonNegative(grid);
    SubtractCharacterised(Books(grid, map[]), items);
    var k := LoadIsItem(cfg, st.db, rows, items, o);
    assert items[k].p in grid;
  }

  lemma RecoveredTotal(cfg: Config, st: Stores, r0: Redis, rows: seq<OrderId>, ps: seq<ProductId>, p: ProductId)
    requires Strict(cfg) && Recovers(cfg, st.db, r0, rows, ps)
    ensures var r := Recover(cfg, Stores(r0, st.db), rows, ps).value.0.redis;
            && Counter(r, p) == TableReserved(cfg, st.db, p)
            && Available(r, p, cfg.shardCount) + Counter(r, p) == BucketTotal(st.db, p)
  {
    var items := RecoveredProduct(cfg, r0, st.db, rows, ps, p);
    DemandIsSum(cfg, st.db, rows, items, p, st.db.ledger.Keys);
    if p !in ps {
      UnsoldAsksNothing(cfg, st.db, r0, rows, ps, p);
    }
  }

  lemma RecoveryGives(cfg: Config, st: Stores, r0: Redis, rows: seq<OrderId>, ps: seq<ProductId>)
    requires Strict(cfg) && Recovers(cfg, st.db, r0, rows, ps)
    ensures Recovered(cfg, st, Recover(cfg, Stores(r0, st.db), rows, ps).value.0.redis)
  {
    var r := Recover(cfg, Stores(r0, st.db), rows, ps).value.0.redis;
    RecoveredPartial(cfg, st, r0, rows, ps);
    forall o
      ensures o in r.reservations <==> LoadRow(cfg, st.db, o).Load?
      ensures o in r.reservations ==> r.reservations[o] == HashOf(LoadRow(cfg, st.db, o).item)
      ensures o in r.reservations && r.reservations[o].status == Reserved ==> o in r.expiry
      ensures o in r.reservations ==> InGrid(cfg, st.db, r.reservations[o])
    {
      RecoveredOrder(cfg, st.db, r0, rows, ps, o);
      if o in r.reservations {
        LoadedInGrid(cfg, st, r0, rows, ps, o);
        var items := RecoveryOverwrites(cfg, st.db, r0, rows, ps, o, 0);
      }
    }
    forall p
      ensures Counter(r, p) == TableReserved(cfg, st.db, p)
      ensures Available(r, p, cfg.shardCount) + Counter(r, p) == BucketTotal(st.db, p)
    {
      RecoveredTotal(cfg, st, r0, rows, ps, p);
    }
  }

  /** The records of one order after the restart: what the tables load agrees, the rest is gone from both sides. */
  lemma RestartedOrder(cfg: Config, st: Stores, r: Redis, o: OrderId)
    requires Strict(cfg) && ShapeAt(cfg, st, o) && Recovered(cfg, st, r)
    ensures var st' := Restarted(r, st.db);
            Agrees(st', o) && NothingHalfDone(st', o) && ShapeAt(cfg, st', o)
  {
    assert o in r.reservations <==> LoadRow(cfg, st.db, o).Load?;
    assert o in r.reservations ==> InGrid(cfg, st.db, r.reservations[o]);
  }

  lemma RestartedReserved(cfg: Config, st: Stores, r: Redis, p: ProductId, o: OrderId)
    requires Recovered(cfg, st, r)
    ensures var st' := Restarted(r, st.db);
            && ReservedOf(st', p)(o) == LoadedReserved(cfg, st.db, p)(o)
            && (o in Orders(st') ==> o in st.db.ledger) && (o !in Orders(st') ==> LoadedReserved(cfg, st.db, p)(o) == 0)
  {
    assert o in r.reservations <==> LoadRow(cfg, st.db, o).Load?;
  }

  lemma RestartedShape(cfg: Config, st: Stores, r: Redis)
    requires Strict(cfg) && Shape(cfg, st) && Recovered(cfg, st, r)
    ensures Shape(cfg, Restarted(r, st.db)) && Tracked(r)
  {
    var st' := Restarted(r, st.db);
    forall o
      ensures ShapeAt(cfg, st', o)
    {
      ShapeGivesAt(cfg, st, o);
      RestartedOrder(cfg, st, r, o);
    }
    ShapeFromAt(cfg, st');
  }

  lemma ShapeFromAt(cfg: Config, st: Stores)
    requires ShardsNonNegative(st.redis) && BucketsNonNegative(st.db) && forall o :: ShapeAt(cfg, st, o)
    ensures Shape(cfg, st)
  {
    forall o
      ensures o in st.redis.reservations ==> ValidReservation(cfg, st.redis.reservations[o])
      ensures o in st.db.ledger ==> Has(st, o, st.db.ledger[o].productId, st.db.ledger[o].quantity)
      ensures o in st.db.deducts ==> o in st.redis.reservations && st.redis.reservations[o].status != Reserved
      ensures o in st.db.reverts ==> o in st.db.deducts
    {
      assert ShapeAt(cfg, st, o);
    }
  }

  lemma RestartedCounter(cfg: Config, st: Stores, r: Redis, p: ProductId)
    requires Strict(cfg) && Shape(cfg, st) && Recovered(cfg, st, r)
    ensures LiveReserved(Restarted(r, st.db), p) == TableReserved(cfg, st.db, p)
  {
    var st' := Restarted(r, st.db);
    var f := LoadedReserved(cfg, st.db, p);
    forall o
      ensures ReservedOf(st', p)(o) == f(o) && (o in Orders(st') ==> o in st.db.ledger)
      ensures o !in Orders(st') ==> f(o) == 0
    {
      RestartedReserved(cfg, st, r, p, o);
    }
    SumSame(Orders(st'), f, ReservedOf(st', p));
    SumExtend(Orders(st'), st.db.ledger.Keys, f);
  }

  /** The supply that runs go on with after a restart: what Redis now has, free and held. */
  ghost function SupplyOf(cfg: Config, st: Stores): Totals {
    map p | p in st.db.buckets :: Available(st.redis, p, cfg.shardCount) + Held(st, p)
  }

  lemma UnsoldIsEmpty(cfg: Config, st: Stores, r: Redis, p: ProductId)
    requires Strict(cfg) && Shape(cfg, st) && Recovered(cfg, st, r) && !Sold(st.db, p)
    ensures Available(r, p, cfg.shardCount) == 0 && Held(Restarted(r, st.db), p) == 0
  {
    UnsoldHoldsNothing(cfg, st, r, p);
    NoBuckets(st.db, p);
    RestartedShape(cfg, st, r);
    RestartedCounter(cfg, st, r, p);
    RowNonNegative(r, p, cfg.shardCount);
    HeldCoversReserved(cfg, Restarted(r, st.db), p);
  }

  lemma UnsoldHoldsNothing(cfg: Config, st: Stores, r: Redis, p: ProductId)
    requires Recovered(cfg, st, r) && !Sold(st.db, p)
    ensures Held(Restarted(r, st.db), p) == 0
  {
    var st' := Restarted(r, st.db);
    forall o | o in Orders(st')
      ensures HeldOf(st', p)(o) == 0
    {
      assert InGrid(cfg, st.db, r.reservations[o]);
    }
    SumZero(Orders(st'), HeldOf(st', p));
  }

  lemma SupplyIs(cfg: Config, st: Stores, r: Redis, p: ProductId)
    requires Strict(cfg) && Shape(cfg, st) && Recovered(cfg, st, r)
    ensures var st' := Restarted(r, st.db);
            Of(SupplyOf(cfg, st'), p) == Available(r, p, cfg.shardCount) + Held(st', p)
  {
    if p !in st.db.buckets {
      UnsoldIsEmpty(cfg, st, r, p);
    }
  }

  /** Whatever state Redis was lost in, after a successful recovery the stores, less the records of the orders it
      forgot, keep the invariant of runs and are in sync, with MySQL's totals as what there is to sell. */
  lemma RestartedInSync(cfg: Config, st: Stores, r: Redis)
    requires Strict(cfg) && Shape(cfg, st) && Recovered(cfg, st, r)
    ensures var st' := Restarted(r, st.db);
            && StoreInv(cfg, st', SupplyOf(cfg, st'), map[]) && InSync(st', map[])
            && forall p :: Available(r, p, cfg.shardCount) + Counter(r, p) == BucketTotal(st'.db, p)
  {
    var st' := Restarted(r, st.db);
    RestartedShape(cfg, st, r);
    forall o
      ensures Agrees(st', o) && NothingHalfDone(st', o)
    {
      ShapeGivesAt(cfg, st, o);
      RestartedOrder(cfg, st, r, o);
    }
    forall p
      ensures Conserved(cfg, st', SupplyOf(cfg, st'), p) && Balanced(cfg, st', map[], p) && Gap(st', p) == 0
      ensures Available(r, p, cfg.shardCount) + Counter(r, p) == BucketTotal(st'.db, p)
    {
      SupplyIs(cfg, st, r, p);
      RestartedCounter(cfg, st, r, p);
      NoGap(st', p);
      assert BucketsOf(st'.db, p) == BucketsOf(st.db, p);
    }
  }

  lemma HeldStays(cfg: Config, st: Stores, r: Redis, p: ProductId)
    requires Strict(cfg) && Shape(cfg, st) && (forall o :: SameLive(st.redis, r, o)) && Recovered(cfg, st, r)
    ensures Held(Restarted(r, st.db), p) == Held(st, p)
  {
    var st' := Restarted(r, st.db);
    forall o
      ensures HeldAt(st', p, o) == HeldAt(st, p, o) && (o in Orders(st') ==> o in Orders(st))
    {
      LoadedIsLive(cfg, st, r, o);
      SameHeld(st, st', p, o);
    }
    SumSame(Orders(st'), HeldOf(st, p), HeldOf(st', p));
    SumExtend(Orders(st'), Orders(st), HeldOf(st, p));
  }

  lemma SameHeld(st: Stores, st': Stores, p: ProductId, o: OrderId)
    requires SameLive(st.redis, st'.redis, o) && (o in Orders(st') ==> Live(st'.redis, o))
    ensures HeldAt(st', p, o) == HeldAt(st, p, o) && (o in Orders(st') ==> o in Orders(st))
  {
  }

  lemma LoadedIsLive(cfg: Config, st: Stores, r: Redis, o: OrderId)
    requires Strict(cfg) && Shape(cfg, st) && Recovered(cfg, st, r)
    ensures o in r.reservations ==> Live(r, o)
  {
  }

  /** If the stores were in sync, the supply is what it was. */
  lemma SupplyStays(cfg: Config, st: Stores, supply: Totals, drift: Totals, r0: Redis, rows: seq<OrderId>,
                    ps: seq<ProductId>, p: ProductId)
    requires Strict(cfg) && StoreInv(cfg, st, supply, drift) && InSync(st, drift)
    requires Recovers(cfg, st.db, r0, rows, ps)
    ensures var r := Recover(cfg, Stores(r0, st.db), rows, ps).value.0.redis;
            Of(SupplyOf(cfg, Restarted(r, st.db)), p) == Of(supply, p)
  {
    var r := Recover(cfg, Stores(r0, st.db), rows, ps).value.0.redis;
    RecoveryGives(cfg, st, r0, rows, ps);
    RestoresIff(cfg, st, supply, drift, r0, rows, ps);
    SupplyIs(cfg, st, r, p);
    HeldStays(cfg, st, r, p);
    assert Conserved(cfg, st, supply, p);
  }

  // ------------------------------------------------------------------------------------------------------------
  // Runs that go on after a restart
  // ------------------------------------------------------------------------------------------------------------

  function Lean(st: Stores, gone: set<OrderId>): Stores {
    st.(db := Less(st.db, gone))
  }

  function LeanWorld(w: World, gone: set<OrderId>): World {
    w.(st := Lean(w.st, gone))
  }

  predicate CmdAvoids(c: Cmd, gone: set<OrderId>) {
    c.OnOrder() ==> c.o !in gone
  }

  predicate ProcAvoids(proc: Proc, gone: set<OrderId>) {
    match proc
    case Direct(c) => CmdAvoids(c, gone)
    case Reaping(c, rest) => CmdAvoids(c, gone) && forall o :: o in rest ==> o !in gone
    case Finishing(o, _, rest) => o !in gone && forall o' :: o' in rest ==> o' !in gone
  }

  /** Nobody has to do with the orders that are gone. */
  ghost predicate Avoids(w: World, gone: set<OrderId>) {
    && (forall id :: id in w.procs ==> ProcAvoids(w.procs[id], gone))
    && (forall o :: o in w.st.redis.reservations ==> o !in gone)
  }

  /** No caller comes back to an order that is gone. */
  predicate EventAvoids(e: Event, gone: set<OrderId>) {
    e.Start? ==> CmdAvoids(e.cmd, gone)
  }

  lemma UpdateLess<V>(m: map<OrderId, V>, gone: set<OrderId>, o: OrderId, v: V)
    requires o !in gone
    ensures (m - gone)[o := v] == m[o := v] - gone
  {
  }

  lemma InsertFrame(mode: LedgerMode, d: Db, o: OrderId, row: LedgerRow, gone: set<OrderId>)
    requires o !in gone
    ensures var (d', out) := InsertLedger(mode, d, o, row);
            InsertLedger(mode, Less(d, gone), o, row) == (Less(d', gone), out)
  {
    UpdateLess(d.ledger, gone, o, row);
  }

  lemma TransitionFrame(mode: LedgerMode, d: Db, o: OrderId, target: Status, allowed: set<Status>, gone: set<OrderId>)
    requires o !in gone
    ensures TransitionLedger(mode, Less(d, gone), o, target, allowed)
            == Less(TransitionLedger(mode, d, o, target, allowed), gone)
  {
    if o in d.ledger {
      UpdateLess(d.ledger, gone, o, d.ledger[o].(status := target));
    }
  }

  lemma DeductFrame(d: Db, o: OrderId, p: ProductId, q: int, preferred: int, gone: set<OrderId>)
    requires o !in gone
    ensures var (d', out) := DeductTx(d, o, p, q, preferred);
            DeductTx(Less(d, gone), o, p, q, preferred) == (Less(d', gone), out)
  {
    match PickBucket(BucketsOf(d, p), q, preferred) {
      case None =>
      case Some(b) => UpdateLess(d.deducts, gone, o, b);
    }
  }

  lemma RevertFrame(d: Db, o: OrderId, p: ProductId, q: int, gone: set<OrderId>)
    requires o !in gone
    ensures RevertTx(Less(d, gone), o, p, q) == Less(RevertTx(d, o, p, q), gone)
  {
    assert (d.reverts - gone) + {o} == (d.reverts + {o}) - gone;
  }

  lemma ReserveFrame(cfg: Config, st: Stores, c: Cmd, now: int, gone: set<OrderId>)
    requires ValidConfig(cfg) && CmdAvoids(c, gone)
    requires c.Reserving? || c.ReadingShard? || c.RecordingReservation? || c.CheckingStock? || c.AdjustingBucket?
             || c.AdjustingShards?
    ensures var (st', next) := StepCmd(cfg, st, c, now); StepCmd(cfg, Lean(st, gone), c, now) == (Lean(st', gone), next)
  {
    if c.RecordingReservation? {
      InsertFrame(cfg.mode, st.db, c.o, LedgerRow(c.p, c.q, c.shard, Reserved, now + EXPIRY_SECONDS), gone);
    }
  }

  lemma ConfirmFrame(cfg: Config, st: Stores, c: Cmd, now: int, gone: set<OrderId>)
    requires ValidConfig(cfg) && CmdAvoids(c, gone)
    requires c.ReadingConfirm? || c.Confirming? || c.Deducting? || c.Marking? || c.ConfirmingLedger?
    ensures var (st', next) := StepCmd(cfg, st, c, now); StepCmd(cfg, Lean(st, gone), c, now) == (Lean(st', gone), next)
  {
    if c.Deducting? {
      DeductFrame(st.db, c.o, c.p, c.q, StartIndex(cfg.crc32, c.o, cfg.shardCount), gone);
    } else if c.ConfirmingLedger? {
      TransitionFrame(cfg.mode, st.db, c.o, Confirmed, {Reserved}, gone);
    }
  }

  lemma ReleaseFrame(cfg: Config, st: Stores, c: Cmd, now: int, gone: set<OrderId>)
    requires ValidConfig(cfg) && CmdAvoids(c, gone)
    requires c.ReadingRelease? || c.LoadingLedger? || c.Hydrating? || c.Reverting? || c.Releasing? || c.ReleasingLedger?
    ensures var (st', next) := StepCmd(cfg, st, c, now); StepCmd(cfg, Lean(st, gone), c, now) == (Lean(st', gone), next)
  {
    if c.Reverting? {
      RevertFrame(st.db, c.o, c.p, c.q, gone);
    } else if c.ReleasingLedger? {
      TransitionFrame(cfg.mode, st.db, c.o, Released, {Reserved, Confirmed}, gone);
    }
  }

  /** A step on an order that is not gone neither sees nor touches the records of those that are. */
  lemma StepFrame(cfg: Config, st: Stores, c: Cmd, now: int, gone: set<OrderId>)
    requires ValidConfig(cfg) && CmdAvoids(c, gone)
    ensures var (st', next) := StepCmd(cfg, st, c, now); StepCmd(cfg, Lean(st, gone), c, now) == (Lean(st', gone), next)
  {
    if c.ReadingConfirm? || c.Confirming? || c.Deducting? || c.Marking? || c.ConfirmingLedger? {
      ConfirmFrame(cfg, st, c, now, gone);
    } else if c.ReadingRelease? || c.LoadingLedger? || c.Hydrating? || c.Reverting? || c.Releasing?
        || c.ReleasingLedger? {
      ReleaseFrame(cfg, st, c, now, gone);
    } else {
      ReserveFrame(cfg, st, c, now, gone);
    }
  }

  lemma StepAvoids(cfg: Config, st: Stores, c: Cmd, now: int, gone: set<OrderId>)
    requires ValidConfig(cfg) && CmdAvoids(c, gone) && forall o :: o in st.redis.reservations ==> o !in gone
    ensures var (st', next) := StepCmd(cfg, st, c, now);
            && (forall o :: o in st'.redis.reservations ==> o !in gone)
            && (next.Goto? ==> CmdAvoids(next.cmd, gone))
  {
    StepAddsOwn(cfg, st, c, now);
    StepStays(cfg, st, c, now);
  }

  lemma StepAddsOwn(cfg: Config, st: Stores, c: Cmd, now: int)
    requires ValidConfig(cfg)
    ensures forall o :: o in StepCmd(cfg, st, c, now).0.redis.reservations && o !in st.redis.reservations ==>
            c.OnOrder() && o == c.o
  {
    Locality(cfg, st, c, now);
    forall o | o in StepCmd(cfg, st, c, now).0.redis.reservations && o !in st.redis.reservations
      ensures c.OnOrder() && o == c.o
    {
      assert RecordsOf(StepCmd(cfg, st, c, now).0, o) != RecordsOf(st, o);
    }
  }

  lemma EffectFrame(cfg: Config, w: World, c: Cmd, now: int, gone: set<OrderId>)
    requires ValidConfig(cfg) && CmdAvoids(c, gone)
    ensures Effect(cfg, LeanWorld(w, gone), c, now) == LeanWorld(Effect(cfg, w, c, now), gone)
  {
    StepFrame(cfg, w.st, c, now, gone);
  }

  lemma AppliedFrame(cfg: Config, w: World, id: nat, applied: bool, now: int, gone: set<OrderId>)
    requires ValidConfig(cfg) && id in w.procs && Avoids(w, gone)
    ensures Applied(cfg, LeanWorld(w, gone), id, applied, now) == LeanWorld(Applied(cfg, w, id, applied, now), gone)
    ensures forall o :: o in Applied(cfg, w, id, applied, now).st.redis.reservations ==> o !in gone
  {
    assert ProcAvoids(w.procs[id], gone);
    if applied && !w.procs[id].Finishing? {
      EffectFrame(cfg, w, w.procs[id].cmd, now, gone);
      StepAvoids(cfg, w.st, w.procs[id].cmd, now, gone);
    }
  }

  lemma ContinueAvoids(procs: map<nat, Proc>, id: nat, rest: seq<OrderId>, gone: set<OrderId>)
    requires forall i :: i in procs ==> ProcAvoids(procs[i], gone)
    requires forall o :: o in rest ==> o !in gone
    ensures forall i :: i in Continue(procs, id, rest) ==> ProcAvoids(Continue(procs, id, rest)[i], gone)
  {
  }

  lemma StepProcFrame(cfg: Config, w: World, id: nat, now: int, gone: set<OrderId>)
    requires ValidConfig(cfg) && id in w.procs && Avoids(w, gone)
    ensures StepProc(cfg, LeanWorld(w, gone), id, now) == LeanWorld(StepProc(cfg, w, id, now), gone)
  {
    assert ProcAvoids(w.procs[id], gone);
    AppliedFrame(cfg, w, id, true, now, gone);
    if !w.procs[id].Finishing? {
      StepFrame(cfg, w.st, w.procs[id].cmd, now, gone);
    }
  }

  lemma StepProcAvoids(cfg: Config, w: World, id: nat, now: int, gone: set<OrderId>)
    requires ValidConfig(cfg) && id in w.procs && Avoids(w, gone)
    ensures Avoids(StepProc(cfg, w, id, now), gone)
  {
    assert ProcAvoids(w.procs[id], gone);
    AppliedFrame(cfg, w, id, true, now, gone);
    StepProcBooks(cfg, w, id, now);
    if w.procs[id].Finishing? {
      ContinueAvoids(w.procs, id, w.procs[id].rest, gone);
    } else {
      StepAvoids(cfg, w.st, w.procs[id].cmd, now, gone);
    }
  }

  lemma FailProcFrame(cfg: Config, w: World, id: nat, applied: bool, now: int, gone: set<OrderId>)
    requires ValidConfig(cfg) && id in w.procs && Avoids(w, gone)
    ensures FailProc(cfg, LeanWorld(w, gone), id, applied, now) == LeanWorld(FailProc(cfg, w, id, applied, now), gone)
    ensures Avoids(FailProc(cfg, w, id, applied, now), gone)
  {
    assert ProcAvoids(w.procs[id], gone);
    AppliedFrame(cfg, w, id, applied, now, gone);
    if w.procs[id].Finishing? {
      ContinueAvoids(w.procs, id, w.procs[id].rest, gone);
    }
  }

  lemma KillProcFrame(cfg: Config, w: World, id: nat, applied: bool, now: int, gone: set<OrderId>)
    requires ValidConfig(cfg) && id in w.procs && Avoids(w, gone)
    ensures KillProc(cfg, LeanWorld(w, gone), id, applied, now) == LeanWorld(KillProc(cfg, w, id, applied, now), gone)
    ensures Avoids(KillProc(cfg, w, id, applied, now), gone)
  {
    assert ProcAvoids(w.procs[id], gone);
    AppliedFrame(cfg, w, id, applied, now, gone);
  }

  lemma ClaimFrame(cfg: Config, w: World, e: Event, gone: set<OrderId>)
    requires ValidConfig(cfg) && WorldInv(cfg, LeanWorld(w, gone)) && Avoids(w, gone) && e.StartReaper? && Enabled(w, e)
    ensures Apply(cfg, LeanWorld(w, gone), e) == LeanWorld(Apply(cfg, w, e), gone) && Avoids(Apply(cfg, w, e), gone)
  {
    ClaimTracked(w.st.redis, e.claimed, e.limit, e.now);
    MoveClaimedSets(Requeue(w.st.redis, e.now), e.claimed, e.now);
    ContinueAvoids(w.procs, e.id, e.claimed, gone);
  }

  lemma ApplyFrame(cfg: Config, w: World, e: Event, gone: set<OrderId>)
    requires ValidConfig(cfg) && WorldInv(cfg, LeanWorld(w, gone)) && Avoids(w, gone) && EventAvoids(e, gone)
    ensures Apply(cfg, LeanWorld(w, gone), e) == LeanWorld(Apply(cfg, w, e), gone) && Avoids(Apply(cfg, w, e), gone)
  {
    assert Enabled(LeanWorld(w, gone), e) == Enabled(w, e);
    if Enabled(w, e) {
      match e {
        case Start(_, _) =>
        case StartReaper(_, _, _, _) => ClaimFrame(cfg, w, e, gone);
        case Step(id, now) =>
          StepProcFrame(cfg, w, id, now, gone);
          StepProcAvoids(cfg, w, id, now, gone);
        case Fail(id, applied, now) => FailProcFrame(cfg, w, id, applied, now, gone);
        case Kill(id, applied, now) => KillProcFrame(cfg, w, id, applied, now, gone);
      }
    }
  }

  lemma {:induction false} RunFrame(cfg: Config, w: World, es: seq<Event>, gone: set<OrderId>)
    requires ValidConfig(cfg) && WorldInv(cfg, LeanWorld(w, gone)) && Avoids(w, gone)
    requires forall e :: e in es ==> EventAvoids(e, gone)
    ensures LeanWorld(RunAll(cfg, w, es), gone) == RunAll(cfg, LeanWorld(w, gone), es)
    ensures WorldInv(cfg, LeanWorld(RunAll(cfg, w, es), gone)) && Avoids(RunAll(cfg, w, es), gone)
    decreases |es|
  {
    if es != [] {
      ApplyFrame(cfg, w, es[0], gone);
      ApplyKeeps(cfg, LeanWorld(w, gone), es[0]);
      RunFrame(cfg, Apply(cfg, w, es[0]), es[1..], gone);
    }
  }

  /** The world in which runs go on: the recovered Redis, no process, and the books of `SupplyOf`. */
  ghost function After(cfg: Config, d: Db, r: Redis): World {
    World(Stores(r, d), map[], SupplyOf(cfg, Restarted(r, d)), map[], map[])
  }

  /** Runs go on past a restart: whatever interleaving came before, after a successful recovery, in any interleaving of
      commands and reapers that does not come back to an order the restart forgot, Redis never oversells, no reservation
      is lost, and MySQL exceeds Redis by exactly the gap of the orders and the adjusts that Redis lacks. */
  lemma RunsGoOn(cfg: Config, w: World, es: seq<Event>, r0: Redis, rows: seq<OrderId>, ps: seq<ProductId>,
                 later: seq<Event>, p: ProductId)
    requires Strict(cfg) && Initial(cfg, w) && Recovers(cfg, RunAll(cfg, w, es).st.db, r0, rows, ps)
    requires var d := RunAll(cfg, w, es).st.db;
             forall e :: e in later ==> EventAvoids(e, Gone(Recover(cfg, Stores(r0, d), rows, ps).value.0.redis, d))
    ensures var d := RunAll(cfg, w, es).st.db;
            var w' := RunAll(cfg, After(cfg, d, Recover(cfg, Stores(r0, d), rows, ps).value.0.redis), later);
            && ShardsNonNegative(w'.st.redis) && Tracked(w'.st.redis)
            && Counter(w'.st.redis, p) == LiveReserved(w'.st, p)
            && Available(w'.st.redis, p, cfg.shardCount) + Held(w'.st, p) == Of(w'.supply, p)
            && Excess(cfg, w', p) == Gap(w'.st, p)
  {
    InitialInv(cfg, w);
    RunKeeps(cfg, w, es);
    var st := RunAll(cfg, w, es).st;
    var r := Recover(cfg, Stores(r0, st.db), rows, ps).value.0.redis;
    RecoveryGives(cfg, st, r0, rows, ps);
    GoesOn(cfg, st, r, later, p);
  }

  lemma GoesOn(cfg: Config, st: Stores, r: Redis, later: seq<Event>, p: ProductId)
    requires Strict(cfg) && Shape(cfg, st) && Recovered(cfg, st, r)
    requires forall e :: e in later ==> EventAvoids(e, Gone(r, st.db))
    ensures var w' := RunAll(cfg, After(cfg, st.db, r), later);
            && ShardsNonNegative(w'.st.redis) && Tracked(w'.st.redis)
            && Counter(w'.st.redis, p) == LiveReserved(w'.st, p)
            && Available(w'.st.redis, p, cfg.shardCount) + Held(w'.st, p) == Of(w'.supply, p)
            && Excess(cfg, w', p) == Gap(w'.st, p)
  {
    RestartedInSync(cfg, st, r);
    RunFrame(cfg, After(cfg, st.db, r), later, Gone(r, st.db));
    LeanMeans(cfg, RunAll(cfg, After(cfg, st.db, r), later), Gone(r, st.db), p);
  }

  lemma LeanMeans(cfg: Config, w: World, gone: set<OrderId>, p: ProductId)
    requires WorldInv(cfg, LeanWorld(w, gone)) && Avoids(w, gone)
    ensures ShardsNonNegative(w.st.redis) && Tracked(w.st.redis)
    ensures Counter(w.st.redis, p) == LiveReserved(w.st, p)
    ensures Available(w.st.redis, p, cfg.shardCount) + Held(w.st, p) == Of(w.supply, p)
    ensures Excess(cfg, w, p) == Gap(w.st, p)
  {
    var st, lean := w.st, Lean(w.st, gone);
    assert Conserved(cfg, lean, w.supply, p) && Balanced(cfg, lean, w.drift, p);
    SumSame(Orders(st), HeldOf(st, p), HeldOf(lean, p));
    SumSame(Orders(st), ReservedOf(st, p), ReservedOf(lean, p));
    SumSame(Orders(st), GapOf(st, p), GapOf(lean, p));
    assert BucketsOf(lean.db, p) == BucketsOf(st.db, p);
  }

  /** The tables have seen the last of a forgotten order: its row, if it has one, is released, or its deduction is in
      the log, reverted. */
  lemma ForgottenIsOver(cfg: Config, st: Stores, r0: Redis, rows: seq<OrderId>, ps: seq<ProductId>, o: OrderId)
    requires Strict(cfg) && Shape(cfg, st) && Recovers(cfg, st.db, r0, rows, ps)
    requires o in Gone(Recover(cfg, Stores(r0, st.db), rows, ps).value.0.redis, st.db)
    ensures o in st.db.ledger ==> st.db.ledger[o].status == Released || o in st.db.deducts
  {
    RecoveredOrder(cfg, st.db, r0, rows, ps, o);
    ShapeGivesAt(cfg, st, o);
  }

  /** Why runs must not come back to an order the restart forgot (`ForgottenIsOver`): of the orders that Redis does not
      know, a reserve that goes through leaves exactly those it did not forget as a reserved order should be. */
  lemma ReserveAfterRestart(cfg: Config, st: Stores, o: OrderId, p: ProductId, q: int, now: int)
    requires Strict(cfg) && p > 0 && q > 0 && o !in st.redis.reservations
    requires o in st.db.ledger ==> st.db.ledger[o].status == Released || o in st.db.deducts
    requires Retry.Scripted(cfg, st, o, p, q, now).1 == 1
    ensures var (st', out) := Run(cfg, st, Reserving(o, p, q), now);
            out == Ok && Settled(st', o) && ShapeAt(cfg, st', o) <==> o !in Gone(st.redis, st.db)
  {
    Retry.ReserveRuns(cfg, st, o, p, q, now);
  }

  /** What comes of it: an order that was deducted and reverted before is reserved and confirmed again with success, and
      without a deduction, since the log already has one. */
  lemma ForgottenOrderReused(cfg: Config, st: Stores, o: OrderId, p: ProductId, q: int, now: int)
    requires Strict(cfg) && p > 0 && q > 0 && o !in st.redis.reservations && o in st.db.deducts
    requires Retry.Scripted(cfg, st, o, p, q, now).1 == 1
    ensures var st1 := Run(cfg, st, Reserving(o, p, q), now).0;
            var (st2, out) := Run(cfg, st1, ReadingConfirm(o), now);
            && out == Ok && Has(st2, o, p, q) && st2.redis.reservations[o].status == Confirmed
            && st2.db.buckets == st.db.buckets
  {
    Retry.ReserveRuns(cfg, st, o, p, q, now);
    var st1 := Run(cfg, st, Reserving(o, p, q), now).0;
    assert Has(st1, o, p, q) && st1.redis.reservations[o].status == Reserved && !st1.redis.reservations[o].deducted;
    ConfirmsLogged(cfg, st1, o, p, q, now);
  }

  lemma ConfirmsLogged(cfg: Config, st: Stores, o: OrderId, p: ProductId, q: int, now: int)
    requires Strict(cfg) && p > 0 && q > 0 && Has(st, o, p, q) && st.redis.reservations[o].status == Reserved
    requires !st.redis.reservations[o].deducted && o in st.db.deducts
    ensures var (st', out) := Run(cfg, st, ReadingConfirm(o), now);
            && out == Ok && Has(st', o, p, q) && st'.redis.reservations[o].status == Confirmed
            && st'.db.buckets == st.db.buckets
  {
    Retry.StepOn(cfg, st, ReadingConfirm(o), now, 1);
    Retry.StepOn(cfg, st, Confirming(o, p, q), now, 1);
    var st2 := st.(redis := ConfirmScript(st.redis, o, cfg.finalDeduct).0);
    Retry.StepOn(cfg, st2, Deducting(o, p, q), now, 1);
    Retry.StepOn(cfg, st2, Marking(o, p), now, 1);
    var st3 := st2.(redis := MarkDeductedScript(st2.redis, o));
    Retry.StepOn(cfg, st3, ConfirmingLedger(o), now, 1);
  }
}
