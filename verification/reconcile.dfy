/** Reconciliation: it makes Redis say what the tables call for, a second call finds nothing to do, and on a steady
    system it finds nothing to do at all. */
module Reconcile {
  import opened Wrappers
  import opened Sums
  import opened Shards
  import opened RedisScripts
  import opened StockPersistence
  import opened StockCommands
  import opened Accounts
  import opened Engine
  import opened NoOverlap
  import opened Quiescence
  import opened Rebuild
  import Retry

  /** Writing a split state makes exactly that state readable. */
  lemma SeedIsRead(cfg: Config, st: Stores, p: ProductId, available: nat, reserved: int)
    requires ValidConfig(cfg)
    ensures StockOf(cfg, st.(redis := SeedRedisState(st.redis, p, available, reserved, cfg.shardCount)), p)
            == Some(Stock(available, reserved, available + reserved))
  {
    var n := cfg.shardCount;
    var values := Split(available, n);
    SplitSumsBack(available, n);
    SeedRow(st.redis, p, values);
    var r := SeedRedisState(st.redis, p, available, reserved, n);
    assert Row(r.stock, p, n) == Values(values);
    assert Row(r.stock, p, n)[0].Some?;
  }

  /** Once the reserved figure is what the mode calls for, the mode calls for it again. */
  lemma ReservedSettles(redisReserved: int, ledgerReserved: int, mode: LedgerMode)
    ensures var e := ExpectedReserved(redisReserved, ledgerReserved, mode);
            ExpectedReserved(e, ledgerReserved, mode) == e
  {
  }

  /** The reserved quantity that a reconcile of the product is going to settle on. */
  ghost function Calls(cfg: Config, st: Stores, p: ProductId): nat {
    ExpectedReserved(StockOf(cfg, st, p).GetOr(Stock(0, 0, 0)).reserved, ActiveTotal(cfg.mode, st.db, p), cfg.mode)
  }

  /** In every ledger mode: after a reconcile the stock read back has the reported available and reserved quantities,
      and the reported total exactly when the reserved quantity called for does not exceed MySQL's total; and a second
      reconcile reports and changes nothing. */
  lemma ReconcileIsIdempotent(cfg: Config, st: Stores, p: ProductId)
    requires ValidConfig(cfg) && BucketsOf(st.db, p) != map[]
    ensures var r, st' := ReconcileResult(cfg, st, p), ReconcileStores(cfg, st, p);
            && r.out == Ok
            && StockOf(cfg, st', p) == Some(Stock(r.after.available, r.after.reserved,
                 r.after.available + r.after.reserved))
            && (StockOf(cfg, st', p).value == r.after <==> Calls(cfg, st, p) <= BucketTotal(st.db, p))
            && !ReconcileResult(cfg, st', p).changed
            && ReconcileStores(cfg, st', p) == st'
  {
    var r, st' := ReconcileResult(cfg, st, p), ReconcileStores(cfg, st, p);
    ReservedSettles(r.before.reserved, ActiveTotal(cfg.mode, st.db, p), cfg.mode);
    if r.changed {
      SeedIsRead(cfg, st, p, r.after.available, r.after.reserved);
    }
  }

  /** What a reconcile settles on, mode by mode: without a ledger the reserved quantity stays; in shadow mode it is the
      larger of Redis's and the ledger's; with the ledger enforced it is the ledger's. What MySQL has beyond that
      becomes available, and nothing if it has less. */
  lemma ReconcileSettles(cfg: Config, st: Stores, p: ProductId)
    requires ValidConfig(cfg) && BucketsOf(st.db, p) != map[]
    ensures var read := StockOf(cfg, st, p);
            var counted, active := if read.Some? then read.value.reserved else 0, ActiveTotal(cfg.mode, st.db, p);
            var after := StockOf(cfg, ReconcileStores(cfg, st, p), p);
            && after.Some? && after.value.reserved >= 0 && after.value.available >= 0
            && (cfg.mode == Off && counted >= 0 ==> after.value.reserved == counted)
            && (cfg.mode == Enforce && active >= 0 ==> after.value.reserved == active)
            && (cfg.mode == Shadow ==> after.value.reserved >= counted && after.value.reserved >= active)
            && (cfg.mode == Shadow && (counted >= 0 || active >= 0) ==> after.value.reserved in {counted, active})
            && (after.value.reserved <= BucketTotal(st.db, p) ==>
                  after.value.available + after.value.reserved == BucketTotal(st.db, p))
            && (after.value.reserved > BucketTotal(st.db, p) ==> after.value.available == 0)
  {
    ReconcileIsIdempotent(cfg, st, p);
  }

  // ------------------------------------------------------------------------------------------------------------
  // A reached state in which the totals differ
  // ------------------------------------------------------------------------------------------------------------

  const ONE_SHARD := Config(1, true, Enforce, o => 0)

  /** Product 1 on one shard with `total` seeded. */
  function SeededAlone(total: nat): Stores {
    Stores(EMPTY.(stock := map[(1, 0) := total], counter := map[1 := 0]),
        Db({1}, map[1 := map[0 := total]], map[], {}, map[]))
  }

  function ReservedAlone(o: OrderId, total: nat, q: nat, now: int): Stores {
    Stores(Redis(map[(1, 0) := total - q], map[1 := q], map[o := Reservation(Reserved, 1, q, 1, false)],
                 map[o := now + EXPIRY_SECONDS], map[], map[], map[]),
           Db({1}, map[1 := map[0 := total]], map[], {}, map[o := LedgerRow(1, q, 1, Reserved, now + EXPIRY_SECONDS)]))
  }

  lemma OneShardRow(stock: map<(ProductId, int), int>, v: int)
    requires stock == map[(1, 0) := v]
    ensures Row(stock, 1, 1) == [Some(v)] && Total(Row(stock, 1, 1)) == v
  {
    assert Row(stock, 1, 1) == [Some(v)];
    assert [Some(v)][1..] == [];
    assert Total([Some(v)][1..]) == 0;
  }

  lemma SeedsAlone(total: nat)
    ensures Seeded(ONE_SHARD, Stores(EMPTY, Db({1}, map[], map[], {}, map[])), 1, total, 1) == SeededAlone(total)
  {
    var values := Split(total, 1);
    assert values == [total];
    assert SetShards(EMPTY.stock, 1, values, 0) == SetShards(map[(1, 0) := total], 1, values, 1)
           == map[(1, 0) := total];
    var d := Db({1}, map[], map[], {}, map[]);
    assert SeedBuckets(d, 1, values, 0) == SeedBuckets(WithBucket(d, 1, 0, total), 1, values, 1)
           == WithBucket(d, 1, 0, total);
  }

  lemma ReservesAlone(o: OrderId, total: nat, q: nat, now: int)
    requires 0 < q <= total
    ensures Run(ONE_SHARD, SeededAlone(total), Reserving(o, 1, q), now) == (ReservedAlone(o, total, q, now), Ok)
  {
    var st := SeededAlone(total);
    OneShardRow(st.redis.stock, total);
    assert FirstFit([Some(total as int)], 0, q, 0) == Some(0);
    Retry.ReserveRuns(ONE_SHARD, st, o, 1, q, now);
    var r := Retry.Scripted(ONE_SHARD, st, o, 1, q, now).0;
    assert r.stock == map[(1, 0) := total - q] && r.counter == map[1 := q];
    assert r.reservations == map[o := Reservation(Reserved, 1, q, 1, false)] && r.expiry
           == map[o := now + EXPIRY_SECONDS];
  }

  lemma BucketAlone(d: Db, total: nat, amount: int)
    requires 0 < amount <= total && d.buckets == map[1 := map[0 := total as int]] && d.products == {1}
    ensures AdjustTx(d, 1, -amount, 0) == (d.(buckets := map[1 := map[0 := total - amount]]), Ok)
  {
    assert BucketsOf(d, 1) == map[0 := total as int] && InBucket(d, 1, 0) == total;
    var b: Buckets := map[0 := total - amount];
    assert BucketsOf(d, 1)[0 := total - amount] == b;
    assert d.buckets[1 := b] == map[1 := b];
  }

  /** A negative adjust that MySQL takes and Redis refuses. */
  lemma AdjustsAlone(o: OrderId, total: nat, q: nat, amount: int, now: int)
    requires 0 < q <= total && total - q < amount <= total
    ensures var st := ReservedAlone(o, total, q, now);
            Run(ONE_SHARD, st, CheckingStock(1, -amount, 0), now)
            == (st.(db := st.db.(buckets := map[1 := map[0 := total - amount]])), Insufficient)
  {
    var st := ReservedAlone(o, total, q, now);
    var st' := st.(db := st.db.(buckets := map[1 := map[0 := total - amount]]));
    assert 0 in BucketsOf(st.db, 1);
    BucketAlone(st.db, total, amount);
    AdjustsTables(st, amount, now);
    RefusesAlone(st', amount, now);
  }

  lemma AdjustsTables(st: Stores, amount: int, now: int)
    requires BucketsOf(st.db, 1) != map[] && AdjustTx(st.db, 1, -amount, 0).1 == Ok
    ensures Run(ONE_SHARD, st, CheckingStock(1, -amount, 0), now)
            == Run(ONE_SHARD, st.(db := AdjustTx(st.db, 1, -amount, 0).0), AdjustingShards(1, -amount, 0), now)
  {
    Retry.StepOn(ONE_SHARD, st, CheckingStock(1, -amount, 0), now, 1);
    Retry.StepOn(ONE_SHARD, st, AdjustingBucket(1, -amount, 0), now, 1);
  }

  lemma RefusesAlone(st: Stores, amount: int, now: int)
    requires amount > 0 && (1, 0) in st.redis.stock && st.redis.stock == map[(1, 0) := st.redis.stock[(1, 0)]]
    requires st.redis.stock[(1, 0)] < amount
    ensures Run(ONE_SHARD, st, AdjustingShards(1, -amount, 0), now) == (st, Insufficient)
  {
    OneShardRow(st.redis.stock, st.redis.stock[(1, 0)]);
    Retry.StepOn(ONE_SHARD, st, AdjustingShards(1, -amount, 0), now, 1);
  }

  /** Seed, reserve, and adjust below the reserved quantity: the reconcile that follows reports MySQL's total, and the
      stock read back has the reserved quantity as its total. */
  lemma TotalsPart(o: OrderId, total: nat, q: nat, amount: int, now: int)
    requires 0 < q <= total && total - q < amount <= total
    ensures var seeded := Seeded(ONE_SHARD, Stores(EMPTY, Db({1}, map[], map[], {}, map[])), 1, total, 1);
            var reserved := Run(ONE_SHARD, seeded, Reserving(o, 1, q), now).0;
            var (st, out) := Run(ONE_SHARD, reserved, CheckingStock(1, -amount, 0), now);
            && out == Insufficient
            && ReconcileResult(ONE_SHARD, st, 1).after == Stock(0, q, total - amount)
            && StockOf(ONE_SHARD, ReconcileStores(ONE_SHARD, st, 1), 1) == Some(Stock(0, q, q))
            && total - amount < q
  {
    SeedsAlone(total);
    ReservesAlone(o, total, q, now);
    AdjustsAlone(o, total, q, amount, now);
    ReconcilesAlone(o, total, q, amount, now);
  }

  lemma ReconcilesAlone(o: OrderId, total: nat, q: nat, amount: int, now: int)
    requires 0 < q <= total && total - q < amount <= total
    ensures var before := ReservedAlone(o, total, q, now);
            var st := before.(db := before.db.(buckets := map[1 := map[0 := total - amount]]));
            && ReconcileResult(ONE_SHARD, st, 1).after == Stock(0, q, total - amount)
            && StockOf(ONE_SHARD, ReconcileStores(ONE_SHARD, st, 1), 1) == Some(Stock(0, q, q))
  {
    var before := ReservedAlone(o, total, q, now);
    var st := before.(db := before.db.(buckets := map[1 := map[0 := total - amount]]));
    OneShardRow(st.redis.stock, total - q);
    assert Row(st.redis.stock, 1, 1)[0].Some?;
    SumsAlone(st, o, q, total - amount);
    assert 0 in BucketsOf(st.db, 1);
    ReconcileIsIdempotent(ONE_SHARD, st, 1);
  }

  lemma SumsAlone(st: Stores, o: OrderId, q: nat, bucket: int)
    requires st.db.buckets == map[1 := map[0 := bucket]]
    requires st.db.ledger.Keys == {o} && st.db.ledger[o].productId == 1 && st.db.ledger[o].quantity == q
    requires st.db.ledger[o].status == Reserved
    ensures BucketTotal(st.db, 1) == bucket && ActiveTotal(Enforce, st.db, 1) == q
  {
    var m := map[0 := bucket];
    SumPick(m.Keys, Lookup(m), 0);
    assert m.Keys - {0} == {};
    SumPick({o}, ActiveQty(st.db, 1), o);
    assert {o} - {o} == {};
  }

  // ------------------------------------------------------------------------------------------------------------
  // When a reconcile finds nothing to do
  // ------------------------------------------------------------------------------------------------------------

  /** What MySQL's total of a product exceeds Redis by in a reachable state: the gap of its orders and the adjusts that
      Redis lacks. */
  ghost function Ahead(st: Stores, drift: Totals, p: ProductId): int {
    Gap(st, p) + Of(drift, p)
  }

  lemma NothingToDoIff(cfg: Config, st: Stores, supply: Totals, drift: Totals, p: ProductId)
    requires ValidConfig(cfg) && StoreInv(cfg, st, supply, drift) && HasStock(st.redis, p, cfg.shardCount)
    requires BucketsOf(st.db, p) != map[]
    ensures var available := Available(st.redis, p, cfg.shardCount);
            ReconcileStores(cfg, st, p) == st && !ReconcileResult(cfg, st, p).changed <==>
            && Calls(cfg, st, p) == LiveReserved(st, p)
            && (Ahead(st, drift, p) == 0 || (available == 0 && Ahead(st, drift, p) < 0))
  {
    assert Conserved(cfg, st, supply, p) && Balanced(cfg, st, drift, p);
    RowNonNegative(st.redis, p, cfg.shardCount);
    HeldCoversReserved(cfg, st, p);
  }

  /** After any interleaving and in every ledger mode, reconciling a product that both stores know changes nothing
      exactly when the reserved quantity called for is what Redis holds reserved, and MySQL's total is what Redis has
      or, with nothing left on the shards, less. */
  lemma ReconcileChangesNothingIff(cfg: Config, w: World, es: seq<Event>, p: ProductId)
    requires ValidConfig(cfg) && Initial(cfg, w)
    requires HasStock(RunAll(cfg, w, es).st.redis, p, cfg.shardCount)
    requires BucketsOf(RunAll(cfg, w, es).st.db, p) != map[]
    ensures var (st, drift) := (RunAll(cfg, w, es).st, RunAll(cfg, w, es).drift);
            ReconcileStores(cfg, st, p) == st && !ReconcileResult(cfg, st, p).changed <==>
            && Calls(cfg, st, p) == LiveReserved(st, p)
            && (Ahead(st, drift, p) == 0 || (Available(st.redis, p, cfg.shardCount) == 0 && Ahead(st, drift, p) < 0))
  {
    InitialInv(cfg, w);
    RunKeeps(cfg, w, es);
    var w' := RunAll(cfg, w, es);
    NothingToDoIff(cfg, w'.st, w'.supply, w'.drift, p);
  }

  /** The ledger's active total is what Redis holds reserved, where the ledger is enforced and has every reserved order
      and no other. */
  lemma ActiveIsLive(st: Stores, p: ProductId)
    requires forall o :: InLedger(st, o, {Reserved}) <==>
      o in st.redis.reservations && st.redis.reservations[o].status == Reserved
    requires forall o :: o in st.db.ledger ==> Has(st, o, st.db.ledger[o].productId, st.db.ledger[o].quantity)
    ensures ActiveTotal(Enforce, st.db, p) == LiveReserved(st, p)
  {
    forall o
      ensures o in st.db.ledger ==> ActiveQty(st.db, p)(o) == ReservedOf(st, p)(o)
      ensures o !in st.db.ledger ==> ReservedOf(st, p)(o) == 0
    {
      assert InLedger(st, o, {Reserved}) <==>
        o in st.redis.reservations && st.redis.reservations[o].status == Reserved;
    }
    SumSame(st.db.ledger.Keys, ActiveQty(st.db, p), ReservedOf(st, p));
    SumExtend(st.db.ledger.Keys, Orders(st), ReservedOf(st, p));
  }

  /** At any quiescent moment of a disciplined run whose adjusts all reached both stores, reconciling a product that
      Redis knows changes nothing. */
  lemma ReconcileAtRest(cfg: Config, w: World, es: seq<Event>, p: ProductId)
    requires Strict(cfg) && Initial(cfg, w) && Quiescent(RunSerial(cfg, w, es))
    requires forall p' :: Of(RunSerial(cfg, w, es).drift, p') == 0
    requires HasStock(RunSerial(cfg, w, es).st.redis, p, cfg.shardCount)
    ensures var st := RunSerial(cfg, w, es).st;
            !ReconcileResult(cfg, st, p).changed && ReconcileStores(cfg, st, p) == st
  {
    InitialSerial(cfg, w);
    RunSerialKeeps(cfg, w, es);
    RestReconciles(cfg, RunSerial(cfg, w, es), p);
  }

  lemma RestReconciles(cfg: Config, w: World, p: ProductId)
    requires Strict(cfg) && SerialInv(cfg, w) && Quiescent(w) && forall p' :: Of(w.drift, p') == 0
    requires HasStock(w.st.redis, p, cfg.shardCount)
    ensures !ReconcileResult(cfg, w.st, p).changed && ReconcileStores(cfg, w.st, p) == w.st
  {
    RestIsInSync(cfg, w);
    if BucketsOf(w.st.db, p) != map[] {
      RestCallsForLive(cfg, w, p);
      NothingToDoIff(cfg, w.st, w.supply, w.drift, p);
    }
  }

  lemma RestCallsForLive(cfg: Config, w: World, p: ProductId)
    requires Strict(cfg) && SerialInv(cfg, w) && Quiescent(w)
    ensures Calls(cfg, w.st, p) == LiveReserved(w.st, p)
  {
    forall o
      ensures InLedger(w.st, o, {Reserved}) <==>
        o in w.st.redis.reservations && w.st.redis.reservations[o].status == Reserved
    {
      QuiescentIsSettled(cfg, w, o);
    }
    ActiveIsLive(w.st, p);
    HeldCoversReserved(cfg, w.st, p);
  }

  // ------------------------------------------------------------------------------------------------------------
  // Seeding and reconciling between the events of a run
  // ------------------------------------------------------------------------------------------------------------

  /** Only what the stores say of the quantity of product `p` differs. */
  ghost predicate OnlyStock(st: Stores, st': Stores, n: nat, p: ProductId) {
    && st'.redis == st.redis.(stock := st'.redis.stock, counter := st'.redis.counter)
    && st'.db == st.db.(buckets := st'.db.buckets)
    && ShardsNonNegative(st'.redis) && BucketsNonNegative(st'.db)
    && forall x :: x != p ==>
         && Available(st'.redis, x, n) == Available(st.redis, x, n) && Counter(st'.redis, x) == Counter(st.redis, x)
         && BucketsOf(st'.db, x) == BucketsOf(st.db, x)
  }

  /** The books after the quantity of a product was rewritten. */
  ghost function Rebooked(cfg: Config, w: World, st': Stores, p: ProductId): World {
    var available := Available(st'.redis, p, cfg.shardCount);
    w.(st := st', supply := w.supply[p := available + Held(st', p)],
       drift := w.drift[p := BucketTotal(st'.db, p) - available - Counter(st'.redis, p) - Gap(st', p)])
  }

  lemma SameOrdersSums(st: Stores, st': Stores, p: ProductId)
    requires st'.redis.reservations == st.redis.reservations
    requires st'.db.deducts == st.db.deducts && st'.db.reverts == st.db.reverts
    ensures Held(st', p) == Held(st, p) && LiveReserved(st', p) == LiveReserved(st, p) && Gap(st', p) == Gap(st, p)
  {
    SumSame(Orders(st'), HeldOf(st, p), HeldOf(st', p));
    SumSame(Orders(st'), ReservedOf(st, p), ReservedOf(st', p));
    SumSame(Orders(st'), GapOf(st, p), GapOf(st', p));
  }

  lemma RewrittenShape(cfg: Config, st: Stores, st': Stores, p: ProductId)
    requires Shape(cfg, st) && Tracked(st.redis) && OnlyStock(st, st', cfg.shardCount, p)
    ensures Shape(cfg, st') && Tracked(st'.redis)
  {
  }

  lemma RewriteKeepsIff(cfg: Config, w: World, st': Stores, p: ProductId)
    requires ValidConfig(cfg) && WorldInv(cfg, w) && OnlyStock(w.st, st', cfg.shardCount, p)
    ensures WorldInv(cfg, Rebooked(cfg, w, st', p)) <==> Counter(st'.redis, p) == LiveReserved(w.st, p)
  {
    forall x
      ensures Held(st', x) == Held(w.st, x) && LiveReserved(st', x) == LiveReserved(w.st, x)
      ensures Gap(st', x) == Gap(w.st, x)
    {
      SameOrdersSums(w.st, st', x);
    }
    RewrittenAccounts(cfg, w, st', p);
    RewrittenShape(cfg, w.st, st', p);
    SameOrdersEvolve(w.st, st');
    OthersStillOk(w, Rebooked(cfg, w, st', p));
  }

  lemma OthersStillOk(w: World, w': World)
    requires Evolves(w.st, w'.st) && w'.procs == w.procs && forall i :: i in w.procs ==> ProcOk(w.st, w.procs[i])
    ensures forall i :: i in w'.procs ==> ProcOk(w'.st, w'.procs[i])
  {
    forall i | i in w'.procs
      ensures ProcOk(w'.st, w'.procs[i])
    {
      StillOk(w.st, w'.st, w.procs[i]);
    }
  }

  lemma RewrittenAccounts(cfg: Config, w: World, st': Stores, p: ProductId)
    requires ValidConfig(cfg) && WorldInv(cfg, w) && OnlyStock(w.st, st', cfg.shardCount, p)
    requires forall x :: Held(st', x) == Held(w.st, x) && LiveReserved(st', x) == LiveReserved(w.st, x)
    requires forall x :: Gap(st', x) == Gap(w.st, x)
    ensures var w' := Rebooked(cfg, w, st', p);
            Accounted(cfg, st', w'.supply, w'.drift) <==> Counter(st'.redis, p) == LiveReserved(w.st, p)
  {
    var w' := Rebooked(cfg, w, st', p);
    forall x
      ensures Balanced(cfg, st', w'.drift, x)
      ensures Conserved(cfg, st', w'.supply, x) <==> (x == p ==> Counter(st'.redis, p) == LiveReserved(w.st, p))
    {
      RewrittenProduct(cfg, w, st', p, x);
    }
    assert Conserved(cfg, st', w'.supply, p) <==> Counter(st'.redis, p) == LiveReserved(w.st, p);
  }

  lemma RewrittenProduct(cfg: Config, w: World, st': Stores, p: ProductId, x: ProductId)
    requires ValidConfig(cfg) && WorldInv(cfg, w) && OnlyStock(w.st, st', cfg.shardCount, p)
    requires Held(st', x) == Held(w.st, x) && LiveReserved(st', x) == LiveReserved(w.st, x)
    requires Gap(st', x) == Gap(w.st, x)
    ensures var w' := Rebooked(cfg, w, st', p);
            && Balanced(cfg, st', w'.drift, x)
            && (Conserved(cfg, st', w'.supply, x) <==> (x == p ==> Counter(st'.redis, p) == LiveReserved(w.st, p)))
  {
    if x != p {
      assert Conserved(cfg, w.st, w.supply, x) && Balanced(cfg, w.st, w.drift, x);
      OtherProduct(cfg, w.st, st', Rebooked(cfg, w, st', p), w.supply, w.drift, p, x);
    }
  }

  lemma OtherProduct(cfg: Config, st: Stores, st': Stores, w': World, supply: Totals, drift: Totals, p: ProductId,
                     x: ProductId)
    requires OnlyStock(st, st', cfg.shardCount, p) && x != p
    requires Conserved(cfg, st, supply, x) && Balanced(cfg, st, drift, x)
    requires Of(w'.supply, x) == Of(supply, x) && Of(w'.drift, x) == Of(drift, x)
    requires Held(st', x) == Held(st, x) && LiveReserved(st', x) == LiveReserved(st, x) && Gap(st', x) == Gap(st, x)
    ensures Conserved(cfg, st', w'.supply, x) && Balanced(cfg, st', w'.drift, x)
  {
  }

  lemma {:induction false} ReseedBuckets(d: Db, p: ProductId, values: seq<int>, i: nat)
    requires BucketsNonNegative(d) && i <= |values| && forall k :: 0 <= k < |values| ==> values[k] >= 0
    ensures var d' := SeedBuckets(d, p, values, i);
            && BucketsNonNegative(d') && d' == d.(buckets := d'.buckets)
            && forall x :: x != p ==> BucketsOf(d', x) == BucketsOf(d, x)
    decreases |values| - i
  {
    if i < |values| {
      ReseedBuckets(WithBucket(d, p, i, values[i]), p, values, i + 1);
    }
  }

  /** Seeding a product at any point of any interleaving keeps the invariant, with new books for it, exactly when no
      order has the product reserved: seeding zeroes the reserved counter. Every law of runs then goes on holding. */
  lemma SeedKeepsIff(cfg: Config, w: World, p: ProductId, total: nat)
    requires ValidConfig(cfg) && WorldInv(cfg, w)
    ensures WorldInv(cfg, Rebooked(cfg, w, Seeded(cfg, w.st, p, total, cfg.shardCount), p))
            <==> LiveReserved(w.st, p) == 0
  {
    var st' := Seeded(cfg, w.st, p, total, cfg.shardCount);
    var values := Split(total, cfg.shardCount);
    SeedingShards(cfg, w, p, total);
    SplitSumsBack(total, cfg.shardCount);
    ReseedBuckets(w.st.db, p, values, 0);
    RewriteKeepsIff(cfg, w, st', p);
  }

  lemma ReseedShards(cfg: Config, st: Stores, p: ProductId, available: nat, reserved: int)
    requires ValidConfig(cfg) && ShardsNonNegative(st.redis)
    ensures var r, n := SeedRedisState(st.redis, p, available, reserved, cfg.shardCount), cfg.shardCount;
            && ShardsNonNegative(r) && Counter(r, p) == reserved
            && r == st.redis.(stock := r.stock, counter := r.counter)
            && (forall x :: x != p ==>
                  Available(r, x, n) == Available(st.redis, x, n) && Counter(r, x) == Counter(st.redis, x))
  {
    var values := Split(available, cfg.shardCount);
    SplitSumsBack(available, cfg.shardCount);
    SeedRow(st.redis, p, values);
    SetShardsKeys(st.redis.stock, p, values, 0);
  }

  /** Reconciling a product at any point of any interleaving keeps the invariant exactly when it changes nothing, or
      calls for the quantity that Redis holds reserved. */
  lemma ReconcileKeepsIff(cfg: Config, w: World, p: ProductId)
    requires ValidConfig(cfg) && WorldInv(cfg, w)
    ensures WorldInv(cfg, Rebooked(cfg, w, ReconcileStores(cfg, w.st, p), p))
            <==> !ReconcileResult(cfg, w.st, p).changed || Calls(cfg, w.st, p) == LiveReserved(w.st, p)
  {
    var r := ReconcileResult(cfg, w.st, p);
    if r.changed {
      ReseedShards(cfg, w.st, p, r.after.available, r.after.reserved);
    } else {
      assert Conserved(cfg, w.st, w.supply, p);
    }
    RewriteKeepsIff(cfg, w, ReconcileStores(cfg, w.st, p), p);
  }
}
