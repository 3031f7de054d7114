/** A healthy state from which recovery fails: deductions come out of whatever bucket holds them, and may take what
    another order has reserved in the shard of the same index. */
module RecoveryUnderflow {
  import opened Wrappers
  import opened Sums
  import opened Shards
  import opened RedisScripts
  import opened StockPersistence
  import opened StockCommands
  import opened Accounts
  import opened Engine
  import opened NoOverlap
  import opened Quiescence
  import opened RuntimeRecovery
  import opened Restart
  import opened Solo
  import Retry

  /** Two shards; every order starts its scans at the first. */
  const TWO_SHARDS := Config(2, true, Enforce, o => 0)

  function BucketPair(first: int, second: int, deducts: map<OrderId, int>, ledger: map<OrderId, LedgerRow>): Db {
    Db({1}, map[1 := map[0 := first, 1 := second]], deducts, {}, ledger)
  }

  function ShardPair(first: int, second: int, counter: int, hashes: map<OrderId, Reservation>,
                     expiry: map<OrderId, int>): Redis {
    Redis(map[(1, 0) := first, (1, 1) := second], map[1 := counter], hashes, expiry, map[], map[], map[])
  }

  lemma TwoShardRow(first: int, second: int, counter: int, hashes: map<OrderId, Reservation>, expiry: map<OrderId, int>)
    ensures Row(ShardPair(first, second, counter, hashes, expiry).stock, 1, 2) == [Some(first), Some(second)]
  {
  }

  lemma SeedsTwo(q: nat)
    ensures Seeded(TWO_SHARDS, Stores(EMPTY, Db({1}, map[], map[], {}, map[])), 1, 2 * q, 2)
            == Stores(ShardPair(q, q, 0, map[], map[]), BucketPair(q, q, map[], map[]))
  {
    var values := Split(2 * q, 2);
    assert values == [q, q];
    var stock := map[(1, 0) := q as int];
    assert SetShards(EMPTY.stock, 1, values, 0) == SetShards(stock, 1, values, 1)
           == SetShards(stock[(1, 1) := q], 1, values, 2);
    assert stock[(1, 1) := q] == map[(1, 0) := q as int, (1, 1) := q];
    var d := Db({1}, map[], map[], {}, map[]);
    var d1 := WithBucket(d, 1, 0, q);
    assert SeedBuckets(d, 1, values, 0) == SeedBuckets(d1, 1, values, 1)
           == SeedBuckets(WithBucket(d1, 1, 1, q), 1, values, 2);
    SeedsTwoBuckets(q);
  }

  lemma SeedsTwoBuckets(q: nat)
    ensures var d := Db({1}, map[], map[], {}, map[]);
            WithBucket(WithBucket(d, 1, 0, q), 1, 1, q) == BucketPair(q, q, map[], map[])
  {
    var d := Db({1}, map[], map[], {}, map[]);
    var m: Buckets := map[];
    assert BucketsOf(d, 1) == m && m[0 := q] == map[0 := q as int];
    assert BucketsOf(WithBucket(d, 1, 0, q), 1) == map[0 := q as int];
    assert map[0 := q as int][1 := q] == map[0 := q as int, 1 := q];
  }

  function Hash(q: nat, status: Status, shard: int): Reservation {
    Reservation(status, 1, q, shard, status == Confirmed)
  }

  function LedgerOf(q: nat, status: Status, shard: int, now: int): LedgerRow {
    LedgerRow(1, q, shard, status, now + EXPIRY_SECONDS)
  }

  function OneReserved(a: OrderId, q: nat, now: int): Stores {
    Stores(ShardPair(0, q, q, map[a := Hash(q, Reserved, 1)], map[a := now + EXPIRY_SECONDS]),
           BucketPair(q, q, map[], map[a := LedgerOf(q, Reserved, 1, now)]))
  }

  function TwoReserved(a: OrderId, b: OrderId, q: nat, now: int): Stores {
    Stores(ShardPair(0, 0, 2 * q, map[a := Hash(q, Reserved, 1), b := Hash(q, Reserved, 2)],
                  map[a := now + EXPIRY_SECONDS, b := now + EXPIRY_SECONDS]),
           BucketPair(q, q, map[], map[a := LedgerOf(q, Reserved, 1, now), b := LedgerOf(q, Reserved, 2, now)]))
  }

  function OneConfirmed(a: OrderId, b: OrderId, q: nat, now: int): Stores {
    Stores(ShardPair(0, 0, q, map[a := Hash(q, Reserved, 1), b := Hash(q, Confirmed, 2)],
        map[a := now + EXPIRY_SECONDS]),
           BucketPair(0, q, map[b := 0], map[a := LedgerOf(q, Reserved, 1, now), b := LedgerOf(q, Confirmed, 2, now)]))
  }

  lemma ReservesFirst(a: OrderId, q: nat, now: int)
    requires q > 0
    ensures Run(TWO_SHARDS, Stores(ShardPair(q, q, 0, map[], map[]), BucketPair(q, q, map[], map[])),
            Reserving(a, 1, q), now)
            == (OneReserved(a, q, now), Ok)
  {
    var st := Stores(ShardPair(q, q, 0, map[], map[]), BucketPair(q, q, map[], map[]));
    TwoShardRow(q, q, 0, map[], map[]);
    assert FirstFit([Some(q as int), Some(q)], 0, q, 0) == Some(0);
    Retry.ReserveRuns(TWO_SHARDS, st, a, 1, q, now);
    var r := Retry.Scripted(TWO_SHARDS, st, a, 1, q, now).0;
    assert r.stock == map[(1, 0) := 0, (1, 1) := q as int] && r.counter == map[1 := q as int];
    assert r.reservations == map[a := Hash(q, Reserved, 1)] && r.expiry == map[a := now + EXPIRY_SECONDS];
  }

  lemma ReservesSecond(a: OrderId, b: OrderId, q: nat, now: int)
    requires q > 0 && a != b
    ensures Run(TWO_SHARDS, OneReserved(a, q, now), Reserving(b, 1, q), now) == (TwoReserved(a, b, q, now), Ok)
  {
    var st := OneReserved(a, q, now);
    TwoShardRow(0, q, q, st.redis.reservations, st.redis.expiry);
    var row := [Some(0 as int), Some(q)];
    assert At(0, 0, 2) == 0 && At(0, 1, 2) == 1;
    assert FirstFit(row, 0, q, 0) == FirstFit(row, 0, q, 1) == Some(1);
    Retry.ReserveRuns(TWO_SHARDS, st, b, 1, q, now);
    var r := Retry.Scripted(TWO_SHARDS, st, b, 1, q, now).0;
    assert r.stock == map[(1, 0) := 0, (1, 1) := 0] && r.counter == map[1 := 2 * q];
    assert r.reservations == TwoReserved(a, b, q, now).redis.reservations && r.expiry
           == TwoReserved(a, b, q, now).redis.expiry;
  }

  lemma DeductsElsewhere(b: OrderId, q: nat, ledger: map<OrderId, LedgerRow>)
    requires q > 0
    ensures DeductTx(BucketPair(q, q, map[], ledger), b, 1, q, 0) == (BucketPair(0, q, map[b := 0], ledger), Ok)
  {
    var d := BucketPair(q, q, map[], ledger);
    var m: Buckets := map[0 := q, 1 := q];
    assert BucketsOf(d, 1) == m && Holds(m, 0, q) && PickBucket(m, q, 0) == Some(0);
    assert m[0 := 0] == map[0 := 0, 1 := q as int];
    assert d.buckets[1 := m[0 := 0]] == BucketPair(0, q, map[b := 0], ledger).buckets;
    assert d.deducts[b := 0] == map[b := 0];
  }

  /** The confirm of the second order takes its quantity out of the bucket of the first. */
  lemma ConfirmsSecond(a: OrderId, b: OrderId, q: nat, now: int)
    requires q > 0 && a != b
    ensures Run(TWO_SHARDS, TwoReserved(a, b, q, now), ReadingConfirm(b), now) == (OneConfirmed(a, b, q, now), Ok)
  {
    DeductsElsewhere(b, q, TwoReserved(a, b, q, now).db.ledger);
    Retry.DeductingConfirm(TWO_SHARDS, TwoReserved(a, b, q, now), b, now);
    ConfirmedHashes(a, b, q, now);
  }

  lemma ConfirmedHashes(a: OrderId, b: OrderId, q: nat, now: int)
    requires q > 0 && a != b
    ensures var st := TwoReserved(a, b, q, now);
            && MarkDeductedScript(ConfirmScript(st.redis, b, true).0, b) == OneConfirmed(a, b, q, now).redis
            && TransitionLedger(Enforce, BucketPair(0, q, map[b := 0], st.db.ledger), b, Confirmed, {Reserved})
                 == OneConfirmed(a, b, q, now).db
  {
    var st := TwoReserved(a, b, q, now);
    var r := ConfirmScript(st.redis, b, true).0;
    assert r.counter == map[1 := q as int];
    assert r.expiry == map[a := now + EXPIRY_SECONDS];
    assert MarkDeductedScript(r, b).reservations == OneConfirmed(a, b, q, now).redis.reservations;
    ConfirmedRow(a, b, q, now);
  }

  lemma ConfirmedRow(a: OrderId, b: OrderId, q: nat, now: int)
    requires q > 0 && a != b
    ensures TransitionLedger(Enforce, BucketPair(0, q, map[b := 0], TwoReserved(a, b, q, now).db.ledger), b, Confirmed,
                             {Reserved}) == OneConfirmed(a, b, q, now).db
  {
  }

  lemma Healthy(a: OrderId, b: OrderId, q: nat, now: int, o: OrderId)
    requires q > 0 && a != b
    ensures Settled(OneConfirmed(a, b, q, now), o) && NothingHalfDone(OneConfirmed(a, b, q, now), o)
  {
    var st := OneConfirmed(a, b, q, now);
    if o != a && o != b {
      assert o !in st.redis.reservations && o !in st.db.ledger;
    }
  }

  lemma Refuses(a: OrderId, b: OrderId, q: nat, now: int, r0: Redis, rows: seq<OrderId>, ps: seq<ProductId>)
    requires q > 0 && a != b && Listing(rows, {a, b})
    ensures Recover(TWO_SHARDS, Stores(r0, OneConfirmed(a, b, q, now).db), rows, ps).None?
  {
    var d := OneConfirmed(a, b, q, now).db;
    if LoadBuckets(d, 2).Some? && LoadItems(TWO_SHARDS, d, rows).Some? {
      var grid, items := LoadBuckets(d, 2).value, LoadItems(TWO_SHARDS, d, rows).value;
      assert 0 in d.buckets[1] && d.buckets[1][0] == 0;
      GridIs(TWO_SHARDS, d, grid);
      FirstDemand(a, b, q, now, rows, items);
      assert !FitsAt(grid, items, 1, 0);
      SubtractCharacterised(Books(grid, map[]), items);
    }
  }

  /** Seed two shards, reserve one order on each, confirm the second. */
  function TwoOrders(a: OrderId, b: OrderId, q: nat, now: int): seq<Event> {
    Alone(0, Reserving(a, 1, q), now) + (Alone(0, Reserving(b, 1, q), now) + Alone(0, ReadingConfirm(b), now))
  }

  lemma TwoOrdersRun(a: OrderId, b: OrderId, q: nat, now: int)
    requires q > 0 && a != b
    ensures var w := SeededWorld(TWO_SHARDS, 1, 2 * q);
            var w' := RunAll(TWO_SHARDS, w, TwoOrders(a, b, q, now));
            && Initial(TWO_SHARDS, w)
            && w'.st == OneConfirmed(a, b, q, now) && w'.procs == map[] && w'.crashed == map[] && w'.drift == map[]
  {
    var w := SeededWorld(TWO_SHARDS, 1, 2 * q);
    SeededIsInitial(TWO_SHARDS, 1, 2 * q);
    SeedsTwo(q);
    ReservesFirst(a, q, now);
    ReservesSecond(a, b, q, now);
    ConfirmsSecond(a, b, q, now);
    var none: map<OrderId, Cmd> := map[];
    assert none - {a} == none && none - {b} == none;
    RunConcat(TWO_SHARDS, w, Alone(0, Reserving(a, 1, q), now),
              Alone(0, Reserving(b, 1, q), now) + Alone(0, ReadingConfirm(b), now));
    RunsAlone(TWO_SHARDS, w, 0, Reserving(a, 1, q), now);
    var w1 := w.(st := OneReserved(a, q, now));
    RunConcat(TWO_SHARDS, w1, Alone(0, Reserving(b, 1, q), now), Alone(0, ReadingConfirm(b), now));
    RunsAlone(TWO_SHARDS, w1, 0, Reserving(b, 1, q), now);
    RunsAlone(TWO_SHARDS, w.(st := TwoReserved(a, b, q, now)), 0, ReadingConfirm(b), now);
  }

  /** At the end of that run nothing is in flight or left to retry, every order is settled, nothing is half done and no
      adjust is missing, but the deduction came out of the first bucket, where the first order is reserved, and recovery
      refuses. */
  lemma HealthyButFails(a: OrderId, b: OrderId, q: nat, now: int, r0: Redis, rows: seq<OrderId>, ps: seq<ProductId>)
    requires q > 0 && a != b && Listing(rows, {a, b})
    ensures var w := SeededWorld(TWO_SHARDS, 1, 2 * q);
            var w' := RunAll(TWO_SHARDS, w, TwoOrders(a, b, q, now));
            && Initial(TWO_SHARDS, w) && Quiescent(w') && w'.drift == map[]
            && (forall o :: Settled(w'.st, o) && NothingHalfDone(w'.st, o))
            && w'.st.db.ledger.Keys == {a, b} && Recover(TWO_SHARDS, Stores(r0, w'.st.db), rows, ps).None?
  {
    TwoOrdersRun(a, b, q, now);
    forall o {
      Healthy(a, b, q, now, o);
    }
    Refuses(a, b, q, now, r0, rows, ps);
  }

  lemma FirstDemand(a: OrderId, b: OrderId, q: nat, now: int, rows: seq<OrderId>, items: seq<Item>)
    requires q > 0 && a != b && Listing(rows, {a, b})
    requires LoadItems(TWO_SHARDS, OneConfirmed(a, b, q, now).db, rows) == Some(items)
    ensures Demand(items, 1, 0) == q
  {
    var f := LoadedAt(TWO_SHARDS, OneConfirmed(a, b, q, now).db, 1, 0);
    DemandIsSumAt(TWO_SHARDS, OneConfirmed(a, b, q, now).db, rows, items, 1, 0, {a, b});
    SumPick({a, b}, f, a);
    assert {a, b} - {a} == {b};
    SumPick({b}, f, b);
    assert {b} - {b} == {};
  }
}
