/** What one uninterrupted call of the repository does to the two stores, shard by shard, bucket by bucket and row by
    row, and which answer it gives when. */
module Calls {
  import opened Wrappers
  import opened Sums
  import opened Shards
  import opened RedisScripts
  import opened StockPersistence
  import opened StockCommands
  import opened Cells
  import Retry

  // ------------------------------------------------------------------------------------------------------------
  // Reserve
  // ------------------------------------------------------------------------------------------------------------

  /** The ledger has a row of another product or quantity for the order. */
  predicate RowDiffers(d: Db, o: OrderId, p: ProductId, q: int) {
    o in d.ledger && (d.ledger[o].productId != p || d.ledger[o].quantity != q)
  }

  /** What a reserve that got through Redis does to the ledger: nothing to an old row, and a new one says what the hash
      says and expires when the hash does. */
  ghost predicate Ledgered(mode: LedgerMode, d: Db, st: Stores, o: OrderId) {
    && st.db == d.(ledger := st.db.ledger)
    && (forall x :: x != o ==>
          (x in st.db.ledger <==> x in d.ledger) && (x in d.ledger ==> st.db.ledger[x] == d.ledger[x]))
    && (mode == Off || o in d.ledger ==> st.db == d)
    && (mode != Off && o !in d.ledger && o in st.redis.reservations && o in st.redis.expiry ==>
          var v := st.redis.reservations[o];
          o in st.db.ledger
          && st.db.ledger[o] == LedgerRow(v.productId, v.quantity, v.shardIndex, Reserved, st.redis.expiry[o]))
  }

  /** A new order is refused when no shard holds the quantity, telling a product without any shard from one with too
      little; otherwise one shard gives it. The answer is then a conflict exactly when an enforced ledger knows the
      order with another product or quantity. */
  lemma ReserveNew(cfg: Config, st: Stores, o: OrderId, p: ProductId, q: int, now: int)
    requires ValidConfig(cfg) && o !in st.redis.reservations
    ensures var (st', out) := Run(cfg, st, Reserving(o, p, q), now);
            var n, row := cfg.shardCount, Row(st.redis.stock, p, cfg.shardCount);
            if exists i :: 0 <= i < n && Fits(row[i], q) then
              && o in st'.redis.reservations && o in st'.redis.expiry
              && st'.redis.reservations[o].productId == p && st'.redis.reservations[o].quantity == q
              && st'.redis.reservations[o].status == Reserved
              && FirstFitting(row, StartIndex(cfg.crc32, o, n), q, st'.redis.reservations[o].shardIndex - 1)
              && OneCell(row, Row(st'.redis.stock, p, n), st'.redis.reservations[o].shardIndex - 1, -q)
              && Counter(st'.redis, p) == Counter(st.redis, p) + q && SameRows(st.redis, st'.redis, n, p)
              && Ledgered(cfg.mode, st.db, st', o)
              && out == if cfg.mode == Enforce && RowDiffers(st.db, o, p, q) then Conflict else Ok
            else st' == st && out == if exists i :: 0 <= i < n && row[i].Some? then Insufficient else NotFound
  {
    var n := cfg.shardCount;
    var start := StartIndex(cfg.crc32, o, n);
    Retry.ReserveRuns(cfg, st, o, p, q, now);
    ReserveTakesOneShard(st.redis, n, start, o, p, q, now);
    var (r, code) := ReserveScript(st.redis, n, start, o, p, q, now);
    if code == 1 {
      ReserveStartsClock(st.redis, n, start, o, p, q, now);
      assert Fits(Row(st.redis.stock, p, n)[r.reservations[o].shardIndex - 1], q);
      LedgerGets(cfg.mode, st.db, r, o, p, q, now);
    }
  }

  lemma LedgerGets(mode: LedgerMode, d: Db, r: Redis, o: OrderId, p: ProductId, q: int, now: int)
    requires o in r.reservations && r.reservations[o].productId == p && r.reservations[o].quantity == q
    requires o in r.expiry && r.expiry[o] == now + EXPIRY_SECONDS
    ensures var (d', out) := InsertLedger(mode, d, o, Retry.ReserveRow(r, o, p, q, now));
            && Ledgered(mode, d, Stores(r, d'), o)
            && out == if mode == Enforce && RowDiffers(d, o, p, q) then Conflict else Ok
  {
  }

  /** A known order is not reserved twice: another product or quantity is a conflict and changes nothing. */
  lemma ReserveKnownCall(cfg: Config, st: Stores, o: OrderId, p: ProductId, q: int, now: int)
    requires ValidConfig(cfg) && o in st.redis.reservations
    ensures var (st', out) := Run(cfg, st, Reserving(o, p, q), now);
            var same := st.redis.reservations[o].productId == p && st.redis.reservations[o].quantity == q;
            && st'.redis == st.redis
            && out == (if !same || (cfg.mode == Enforce && RowDiffers(st.db, o, p, q)) then Conflict else Ok)
            && (!same ==> st' == st)
  {
    ReserveKnown(st.redis, cfg.shardCount, StartIndex(cfg.crc32, o, cfg.shardCount), o, p, q, now);
    Retry.ReserveRuns(cfg, st, o, p, q, now);
  }

  // ------------------------------------------------------------------------------------------------------------
  // Confirm
  // ------------------------------------------------------------------------------------------------------------

  /** Only the row of the order moves, from one of the statuses to the target. */
  ghost predicate RowMoves(mode: LedgerMode, d: Db, d': Db, o: OrderId, from: set<Status>, to: Status) {
    && d'.ledger.Keys == d.ledger.Keys
    && forall x :: x in d.ledger ==>
         d'.ledger[x] == if x == o && mode != Off && d.ledger[x].status in from then d.ledger[x].(status := to)
                         else d.ledger[x]
  }

  lemma TransitionMoves(mode: LedgerMode, d: Db, o: OrderId, to: Status, from: set<Status>)
    ensures var d' := TransitionLedger(mode, d, o, to, from);
            RowMoves(mode, d, d', o, from, to) && d' == d.(ledger := d'.ledger)
  {
  }

  predicate Bookable(st: Stores, o: OrderId) {
    && o in st.redis.reservations && st.redis.reservations[o].productId > 0 && st.redis.reservations[o].quantity > 0
    && (st.redis.reservations[o].status == Reserved ==>
          Counter(st.redis, st.redis.reservations[o].productId) >= st.redis.reservations[o].quantity)
  }

  /** Redis after a confirm: the quantity is off the counter, the order off the clock; `done` says whether the call also
      flagged a deduction. */
  ghost predicate RedisConfirms(r: Redis, r': Redis, o: OrderId, v: Reservation, done: bool) {
    && r'.reservations == r.reservations[o := v.(status := Confirmed, deducted := done)]
    && r'.stock == r.stock && r'.expiry == r.expiry - {o}
    && Counter(r', v.productId) == Counter(r, v.productId) - v.quantity
    && forall x :: x != v.productId ==> Counter(r', x) == Counter(r, x)
  }

  /** The tables after a confirm. With final deduct one bucket that holds the quantity gives it, and the log names that
      bucket, unless it named one before; where no bucket does, the answer says so, telling a product without buckets
      from one with too little, and nothing changes. The ledger row follows when the call succeeds. */
  ghost predicate TablesConfirm(cfg: Config, d: Db, d': Db, o: OrderId, p: ProductId, q: int, out: Outcome) {
    var deducts := cfg.finalDeduct && o !in d.deducts;
    && d'.reverts == d.reverts
    && (out == Ok <==> (deducts ==> exists b :: Holds(BucketsOf(d, p), b, q)))
    && (out != Ok ==> d' == d && out == if BucketsOf(d, p) == map[] then NotFound else Insufficient)
    && (out == Ok ==> RowMoves(cfg.mode, d, d', o, {Reserved}, Confirmed))
    && (out == Ok && deducts ==>
          && o in d'.deducts && d'.deducts == d.deducts[o := d'.deducts[o]]
          && Holds(BucketsOf(d, p), d'.deducts[o], q) && OneBucket(d, d', p, d'.deducts[o], -q))
    && (!deducts ==> d'.buckets == d.buckets && d'.deducts == d.deducts)
  }

  lemma ConfirmRuns(cfg: Config, st: Stores, o: OrderId, now: int)
    requires ValidConfig(cfg) && Bookable(st, o) && st.redis.reservations[o].status == Reserved
    requires !st.redis.reservations[o].deducted
    ensures var v, r := st.redis.reservations[o], ConfirmScript(st.redis, o, cfg.finalDeduct).0;
            var (d, out) := if cfg.finalDeduct
                            then DeductTx(st.db, o, v.productId, v.quantity, StartIndex(cfg.crc32, o, cfg.shardCount))
                            else (st.db, Ok);
            Run(cfg, st, ReadingConfirm(o), now) ==
            if out == Ok then (Stores(if cfg.finalDeduct then MarkDeductedScript(r, o) else r,
                                      TransitionLedger(cfg.mode, d, o, Confirmed, {Reserved})), Ok)
            else (Stores(r, d), out)
  {
    var v := st.redis.reservations[o];
    var st1 := st.(redis := ConfirmScript(st.redis, o, cfg.finalDeduct).0);
    Retry.StepOn(cfg, st, ReadingConfirm(o), now, 1);
    Retry.StepOn(cfg, st, Confirming(o, v.productId, v.quantity), now, 1);
    if cfg.finalDeduct {
      DeductsThenMarks(cfg, st1, o, v.productId, v.quantity, now);
    } else {
      Retry.StepOn(cfg, st1, ConfirmingLedger(o), now, 1);
    }
  }

  lemma RedisConfirmed(r: Redis, n: nat, o: OrderId, finalDeduct: bool, done: bool)
    requires o in r.reservations && r.reservations[o].status == Reserved && r.reservations[o].quantity > 0
    requires Counter(r, r.reservations[o].productId) >= r.reservations[o].quantity && !r.reservations[o].deducted
    ensures var r1 := ConfirmScript(r, o, finalDeduct).0;
            RedisConfirms(r, if done then MarkDeductedScript(r1, o) else r1, o, r.reservations[o], done)
  {
    ConfirmTakesOffCounter(r, n, o, finalDeduct);
  }

  lemma TablesConfirmed(cfg: Config, d: Db, o: OrderId, p: ProductId, q: int, preferred: int)
    ensures var (d1, out) := if cfg.finalDeduct then DeductTx(d, o, p, q, preferred) else (d, Ok);
            TablesConfirm(cfg, d, if out == Ok then TransitionLedger(cfg.mode, d1, o, Confirmed, {Reserved}) else d1,
                          o, p, q, out)
  {
    var d1 := if cfg.finalDeduct then DeductTx(d, o, p, q, preferred).0 else d;
    TransitionMoves(cfg.mode, d1, o, Confirmed, {Reserved});
    if o !in d.deducts {
      DeductTakesOneBucket(d, o, p, q, preferred);
    }
  }

  /** What confirming a reserved order does, and answers. Redis is confirmed also when no bucket can give the
      quantity. */
  lemma ConfirmCall(cfg: Config, st: Stores, o: OrderId, now: int)
    requires ValidConfig(cfg) && Bookable(st, o) && st.redis.reservations[o].status == Reserved
    requires !st.redis.reservations[o].deducted
    ensures var (st', out) := Run(cfg, st, ReadingConfirm(o), now);
            var v := st.redis.reservations[o];
            && RedisConfirms(st.redis, st'.redis, o, v, cfg.finalDeduct && out == Ok)
            && TablesConfirm(cfg, st.db, st'.db, o, v.productId, v.quantity, out)
  {
    var v, out := st.redis.reservations[o], Run(cfg, st, ReadingConfirm(o), now).1;
    ConfirmRuns(cfg, st, o, now);
    RedisConfirmed(st.redis, cfg.shardCount, o, cfg.finalDeduct, cfg.finalDeduct && out == Ok);
    TablesConfirmed(cfg, st.db, o, v.productId, v.quantity, StartIndex(cfg.crc32, o, cfg.shardCount));
  }

  lemma DeductsThenMarks(cfg: Config, st: Stores, o: OrderId, p: ProductId, q: int, now: int)
    requires ValidConfig(cfg)
    ensures var (d, out) := DeductTx(st.db, o, p, q, StartIndex(cfg.crc32, o, cfg.shardCount));
            Run(cfg, st, Deducting(o, p, q), now) ==
            if out == Ok then (Stores(MarkDeductedScript(st.redis, o),
                                      TransitionLedger(cfg.mode, d, o, Confirmed, {Reserved})), Ok)
            else (st.(db := d), out)
  {
    var (d, out) := DeductTx(st.db, o, p, q, StartIndex(cfg.crc32, o, cfg.shardCount));
    Retry.StepOn(cfg, st, Deducting(o, p, q), now, 1);
    if out == Ok {
      Retry.StepOn(cfg, st.(db := d), Marking(o, p), now, 1);
      Retry.StepOn(cfg, Stores(MarkDeductedScript(st.redis, o), d), ConfirmingLedger(o), now, 1);
    }
  }

  /** Confirming an order that Redis does not know succeeds and does nothing. */
  lemma ConfirmUnknown(cfg: Config, st: Stores, o: OrderId, now: int)
    requires ValidConfig(cfg) && o !in st.redis.reservations
    ensures Run(cfg, st, ReadingConfirm(o), now) == (st, Ok)
  {
    Retry.StepOn(cfg, st, ReadingConfirm(o), now, 1);
    Retry.StepOn(cfg, st, Confirming(o, 0, 0), now, 1);
  }

  // ------------------------------------------------------------------------------------------------------------
  // Release
  // ------------------------------------------------------------------------------------------------------------

  /** The tables after a release: what the log has as deducted and not reverted goes back into the bucket it names, and
      the ledger row is released. */
  ghost predicate TablesRelease(cfg: Config, d: Db, d': Db, o: OrderId, p: ProductId, q: int) {
    && d'.deducts == d.deducts && RowMoves(cfg.mode, d, d', o, {Reserved, Confirmed}, Released)
    && if cfg.finalDeduct && o in d.deducts && o !in d.reverts
       then OneBucket(d, d', p, d.deducts[o], q) && d'.reverts == d.reverts + {o}
       else d'.buckets == d.buckets && d'.reverts == d.reverts
  }

  lemma TablesReleased(cfg: Config, d: Db, o: OrderId, p: ProductId, q: int)
    ensures var d1 := if cfg.finalDeduct then RevertTx(d, o, p, q) else d;
            TablesRelease(cfg, d, TransitionLedger(cfg.mode, d1, o, Released, {Reserved, Confirmed}), o, p, q)
  {
    var d1 := if cfg.finalDeduct then RevertTx(d, o, p, q) else d;
    TransitionMoves(cfg.mode, d1, o, Released, {Reserved, Confirmed});
    if o in d.deducts && o !in d.reverts {
      RevertPutsBack(d, o, p, q);
    } else {
      RevertOnce(d, o, p, q);
    }
  }

  lemma ReleasesFrom(cfg: Config, st: Stores, o: OrderId, p: ProductId, q: int, now: int)
    requires ValidConfig(cfg)
    ensures var d1 := if cfg.finalDeduct then RevertTx(st.db, o, p, q) else st.db;
            Run(cfg, st, AfterReleaseRead(cfg, o, p, q).cmd, now)
            == (Stores(ReleaseScript(st.redis, cfg.shardCount, o, p),
                       TransitionLedger(cfg.mode, d1, o, Released, {Reserved, Confirmed})), Ok)
  {
    var st1 := if cfg.finalDeduct then st.(db := RevertTx(st.db, o, p, q)) else st;
    if cfg.finalDeduct {
      Retry.StepOn(cfg, st, Reverting(o, p, q), now, 1);
    }
    Retry.StepOn(cfg, st1, Releasing(o, p), now, 1);
    Retry.StepOn(cfg, st1.(redis := ReleaseScript(st1.redis, cfg.shardCount, o, p)), ReleasingLedger(o), now, 1);
  }

  /** Redis after a release: the quantity is back on the shard that the hash names, off the counter if it was reserved,
      and the order is out of the expiry set. */
  ghost predicate RedisReleases(r: Redis, r': Redis, n: nat, o: OrderId, v: Reservation) {
    && r'.reservations == r.reservations[o := v.(status := Released)] && r'.expiry == r.expiry - {o}
    && OneCell(Row(r.stock, v.productId, n), Row(r'.stock, v.productId, n), v.shardIndex - 1, v.quantity)
    && Counter(r', v.productId)
       == (if v.status == Reserved then Clamp(Counter(r, v.productId) - v.quantity) else Counter(r, v.productId))
    && SameRows(r, r', n, v.productId)
  }

  /** Releasing a live order succeeds, and brings its quantity back to both stores. */
  lemma ReleaseCall(cfg: Config, st: Stores, o: OrderId, now: int)
    requires ValidConfig(cfg) && Bookable(st, o) && st.redis.reservations[o].status != Released
    requires 1 <= st.redis.reservations[o].shardIndex <= cfg.shardCount
    ensures var (st', out) := Run(cfg, st, ReadingRelease(o), now);
            var v := st.redis.reservations[o];
            && out == Ok && RedisReleases(st.redis, st'.redis, cfg.shardCount, o, v)
            && TablesRelease(cfg, st.db, st'.db, o, v.productId, v.quantity)
  {
    var v := st.redis.reservations[o];
    ReleaseRuns(cfg, st, o, now);
    RedisReleased(st.redis, cfg.shardCount, o);
    TablesReleased(cfg, st.db, o, v.productId, v.quantity);
  }

  lemma ReleaseRuns(cfg: Config, st: Stores, o: OrderId, now: int)
    requires ValidConfig(cfg) && Bookable(st, o)
    ensures var v := st.redis.reservations[o];
            var d1 := if cfg.finalDeduct then RevertTx(st.db, o, v.productId, v.quantity) else st.db;
            Run(cfg, st, ReadingRelease(o), now)
            == (Stores(ReleaseScript(st.redis, cfg.shardCount, o, v.productId),
                       TransitionLedger(cfg.mode, d1, o, Released, {Reserved, Confirmed})), Ok)
  {
    var v := st.redis.reservations[o];
    Retry.StepOn(cfg, st, ReadingRelease(o), now, 1);
    ReleasesFrom(cfg, st, o, v.productId, v.quantity, now);
  }

  lemma RedisReleased(r: Redis, n: nat, o: OrderId)
    requires o in r.reservations && r.reservations[o].status != Released && r.reservations[o].quantity > 0
    requires 1 <= r.reservations[o].shardIndex <= n
    requires r.reservations[o].status == Reserved ==>
      Counter(r, r.reservations[o].productId) >= r.reservations[o].quantity
    ensures RedisReleases(r, ReleaseScript(r, n, o, r.reservations[o].productId), n, o, r.reservations[o])
  {
    ReleasePutsBack(r, n, o);
  }

  /** The hash that the ledger row of an unknown order calls for. */
  function HashOfRow(row: LedgerRow): Reservation {
    Reservation(row.status, row.productId, row.quantity, row.shardIndex, false)
  }

  lemma HydratedReleases(r: Redis, n: nat, o: OrderId, row: LedgerRow)
    requires o !in r.reservations && row.quantity > 0 && 1 <= row.shardIndex <= n && row.status != Released
    ensures RedisReleases(r, ReleaseScript(HydrateScript(r, o, HashOfRow(row)), n, o, row.productId), n, o,
                          HashOfRow(row))
  {
    var p, i := row.productId, row.shardIndex - 1;
    RowSet(r.stock, p, n, i, Get(r.stock, p, i) + row.quantity);
  }

  /** Releasing an order that Redis does not know does what the ledger calls for: a live row is released as if Redis had
      had it, back to the shard of the row. */
  lemma ReleaseUnknown(cfg: Config, st: Stores, o: OrderId, now: int)
    requires ValidConfig(cfg) && o !in st.redis.reservations
    requires cfg.mode != Off && o in st.db.ledger && st.db.ledger[o].status != Released
    requires st.db.ledger[o].productId > 0 && st.db.ledger[o].quantity > 0
    requires 1 <= st.db.ledger[o].shardIndex <= cfg.shardCount
    ensures var (st', out) := Run(cfg, st, ReadingRelease(o), now);
            var row := st.db.ledger[o];
            && out == Ok && RedisReleases(st.redis, st'.redis, cfg.shardCount, o, HashOfRow(row))
            && TablesRelease(cfg, st.db, st'.db, o, row.productId, row.quantity)
  {
    var row := st.db.ledger[o];
    Retry.StepOn(cfg, st, ReadingRelease(o), now, 1);
    Retry.StepOn(cfg, st, LoadingLedger(o), now, 1);
    Retry.StepOn(cfg, st, Hydrating(o, row), now, 1);
    ReleasesFrom(cfg, st.(redis := HydrateScript(st.redis, o, HashOfRow(row))), o, row.productId, row.quantity, now);
    HydratedReleases(st.redis, cfg.shardCount, o, row);
    TablesReleased(cfg, st.db, o, row.productId, row.quantity);
  }

  /** With no live row the call succeeds and does nothing. */
  lemma ReleaseNothing(cfg: Config, st: Stores, o: OrderId, now: int)
    requires ValidConfig(cfg) && o !in st.redis.reservations
    requires cfg.mode == Off || o !in st.db.ledger || st.db.ledger[o].status == Released
    ensures Run(cfg, st, ReadingRelease(o), now) == (st, Ok)
  {
    Retry.StepOn(cfg, st, ReadingRelease(o), now, 1);
    Retry.StepOn(cfg, st, LoadingLedger(o), now, 1);
  }

  // ------------------------------------------------------------------------------------------------------------
  // Adjust and read
  // ------------------------------------------------------------------------------------------------------------

  lemma AdjustRuns(cfg: Config, st: Stores, p: ProductId, delta: int, bucket: int, now: int)
    requires ValidConfig(cfg)
    ensures var known := HasStock(st.redis, p, cfg.shardCount) || BucketsOf(st.db, p) != map[];
            var (db, out) := AdjustTx(st.db, p, delta, bucket);
            var (redis, code) := AdjustScript(st.redis, cfg.shardCount, p, delta, AdjustStart(cfg, bucket));
            Run(cfg, st, CheckingStock(p, delta, bucket), now)
            == if !known then (st, NotFound) else if out != Ok then (st.(db := db), out)
               else (Stores(redis, db), CodeOutcome(code))
  {
    Retry.StepOn(cfg, st, CheckingStock(p, delta, bucket), now, 1);
    Retry.StepOn(cfg, st, AdjustingBucket(p, delta, bucket), now, 1);
    Retry.StepOn(cfg, st.(db := AdjustTx(st.db, p, delta, bucket).0), AdjustingShards(p, delta, bucket), now, 1);
  }

  /** An adjust of a product that neither store knows is refused. Otherwise MySQL decides first, by its bucket alone; if
      it takes the adjust and Redis then has too little, the call answers so, and MySQL keeps it. */
  lemma AdjustCall(cfg: Config, st: Stores, p: ProductId, delta: int, bucket: int, now: int)
    requires ValidConfig(cfg) && delta != 0 && ShardsNonNegative(st.redis)
    ensures var (st', out) := Run(cfg, st, CheckingStock(p, delta, bucket), now);
            var n := cfg.shardCount;
            var known := HasStock(st.redis, p, n) || BucketsOf(st.db, p) != map[];
            var taken := p in st.db.products
                         && (delta > 0 || (bucket in BucketsOf(st.db, p) && BucketsOf(st.db, p)[bucket] + delta >= 0));
            && (out == Ok <==> known && taken && Available(st.redis, p, n) + delta >= 0)
            && (!known ==> out == NotFound)
            && (known && taken ==> OneBucket(st.db, st'.db, p, bucket, delta)) && (!known || !taken ==> st' == st)
            && (known && taken && out != Ok ==> out == Insufficient && SameRows(st.redis, st'.redis, n, p)
                                                && Row(st'.redis.stock, p, n) == Row(st.redis.stock, p, n))
            && (out == Ok ==> SameRows(st.redis, st'.redis, n, p))
            && (out == Ok && delta > 0 ==>
                  OneCell(Row(st.redis.stock, p, n), Row(st'.redis.stock, p, n),
                          if 0 <= bucket < n then bucket else 0, delta))
            && (out == Ok && delta < 0 ==>
                  DrainedFrom(Row(st.redis.stock, p, n), Row(st'.redis.stock, p, n),
                              if 0 <= bucket < n then bucket else 0))
  {
    var start := AdjustStart(cfg, bucket);
    AdjustRuns(cfg, st, p, delta, bucket, now);
    AdjustMovesOneBucket(st.db, p, delta, bucket);
    AdjustEffect(st.redis, cfg.shardCount, p, delta, start);
    RowNonNegative(st.redis, p, cfg.shardCount);
    if delta > 0 {
      AdjustCredits(st.redis, cfg.shardCount, p, delta, start);
    } else if Available(st.redis, p, cfg.shardCount) + delta >= 0 {
      AdjustDrains(st.redis, cfg.shardCount, p, delta, start);
    }
  }

  /** A product is read from Redis as long as it has any shard there, from the buckets with nothing reserved when it has
      none, and is unknown when it has no bucket either. */
  lemma StockIsRead(cfg: Config, st: Stores, p: ProductId, total: nat)
    requires ValidConfig(cfg)
    ensures StockOf(cfg, Seeded(cfg, st, p, total, 0), p) == Some(Stock(total, 0, total))
    ensures BucketsOf(st.db, p) != map[] ==>
              StockOf(cfg, st.(redis := EMPTY), p) == Some(Stock(BucketTotal(st.db, p), 0, BucketTotal(st.db, p)))
    ensures BucketsOf(st.db, p) == map[] ==> StockOf(cfg, st.(redis := EMPTY), p) == None
  {
    var values := Split(total, cfg.shardCount);
    SplitSumsBack(total, cfg.shardCount);
    SeedRow(st.redis, p, values);
    assert Row(Seeded(cfg, st, p, total, 0).redis.stock, p, cfg.shardCount)[0].Some?;
    assert forall i :: 0 <= i < cfg.shardCount ==> Row(EMPTY.stock, p, cfg.shardCount)[i].None?;
  }

  /** A seed for some number of shards puts the same quantities on those shards and in as many buckets, together the
      total; the counter is zero, and no order and no other product changes. */
  lemma SeedSplits(cfg: Config, st: Stores, p: ProductId, total: nat, shardCount: nat)
    requires ValidConfig(cfg) && shardCount > 0
    ensures var st' := Seeded(cfg, st, p, total, shardCount);
            && Available(st'.redis, p, shardCount) == total && Counter(st'.redis, p) == 0
            && (forall i :: 0 <= i < shardCount ==>
                  Row(st'.redis.stock, p, shardCount)[i] == Some(InBucket(st'.db, p, i)))
            && SameRows(st.redis, st'.redis, shardCount, p) && st'.redis.reservations == st.redis.reservations
            && st'.db == st.db.(buckets := st'.db.buckets)
            && (forall b :: !(0 <= b < shardCount) ==> InBucket(st'.db, p, b) == InBucket(st.db, p, b))
            && forall x :: x != p ==> BucketsOf(st'.db, x) == BucketsOf(st.db, x)
  {
    var values := Split(total, shardCount);
    SplitSumsBack(total, shardCount);
    SeedRow(st.redis, p, values);
    SeedsBuckets(st.db, p, values, 0);
  }

  lemma {:induction false} SeedsBuckets(d: Db, p: ProductId, values: seq<int>, i: nat)
    requires i <= |values|
    ensures var d' := SeedBuckets(d, p, values, i);
            && (forall b :: InBucket(d', p, b) == if i <= b < |values| then values[b] else InBucket(d, p, b))
            && (forall x :: x != p ==> BucketsOf(d', x) == BucketsOf(d, x)) && d' == d.(buckets := d'.buckets)
    decreases |values| - i
  {
    if i < |values| {
      SeedsBuckets(WithBucket(d, p, i, values[i]), p, values, i + 1);
    }
  }

  // ------------------------------------------------------------------------------------------------------------
  // The life of an order
  // ------------------------------------------------------------------------------------------------------------

  /** A new order that is reserved, confirmed and released, all with success, leaves every shard, every counter and
      every bucket as it was. */
  lemma LifeIsUndone(cfg: Config, st: Stores, o: OrderId, p: ProductId, q: int, now: int)
    requires ValidConfig(cfg) && p > 0 && q > 0 && Counter(st.redis, p) >= 0
    requires o !in st.redis.reservations && o !in st.db.deducts && o !in st.db.reverts
    requires Run(cfg, st, Reserving(o, p, q), now).1 == Ok
    requires Run(cfg, Run(cfg, st, Reserving(o, p, q), now).0, ReadingConfirm(o), now).1 == Ok
    ensures var st1 := Run(cfg, st, Reserving(o, p, q), now).0;
            var st2 := Run(cfg, st1, ReadingConfirm(o), now).0;
            var (st3, out) := Run(cfg, st2, ReadingRelease(o), now);
            && out == Ok
            && (forall x :: Row(st3.redis.stock, x, cfg.shardCount) == Row(st.redis.stock, x, cfg.shardCount))
            && (forall x :: Counter(st3.redis, x) == Counter(st.redis, x))
            && (forall x :: BucketsOf(st3.db, x) == BucketsOf(st.db, x))
  {
    var st1 := Run(cfg, st, Reserving(o, p, q), now).0;
    var i := AcceptedReserve(cfg, st, o, p, q, now);
    ConfirmedReturns(cfg, st1, o, now);
    var st3 := Run(cfg, Run(cfg, st1, ReadingConfirm(o), now).0, ReadingRelease(o), now).0;
    ShardsReturn(st.redis, st1.redis, st1.redis, st3.redis, cfg.shardCount, p, i, q);
    CountersReturn(st.redis, st1.redis, st3.redis, cfg.shardCount, p, q);
  }

  lemma AcceptedReserve(cfg: Config, st: Stores, o: OrderId, p: ProductId, q: int, now: int) returns (i: int)
    requires ValidConfig(cfg) && p > 0 && q > 0 && Counter(st.redis, p) >= 0 && o !in st.redis.reservations
    requires Run(cfg, st, Reserving(o, p, q), now).1 == Ok
    ensures var st', n := Run(cfg, st, Reserving(o, p, q), now).0, cfg.shardCount;
            && 0 <= i < n && o in st'.redis.reservations
            && st'.redis.reservations[o] == Reservation(Reserved, p, q, i + 1, false)
            && OneCell(Row(st.redis.stock, p, n), Row(st'.redis.stock, p, n), i, -q)
            && Fits(Row(st.redis.stock, p, n)[i], q)
            && Counter(st'.redis, p) == Counter(st.redis, p) + q && SameRows(st.redis, st'.redis, n, p)
            && st'.db.buckets == st.db.buckets && st'.db.deducts == st.db.deducts && st'.db.reverts == st.db.reverts
  {
    ReserveNew(cfg, st, o, p, q, now);
    Retry.ReserveRuns(cfg, st, o, p, q, now);
    ReserveTakesOneShard(st.redis, cfg.shardCount, StartIndex(cfg.crc32, o, cfg.shardCount), o, p, q, now);
    i := Run(cfg, st, Reserving(o, p, q), now).0.redis.reservations[o].shardIndex - 1;
  }

  lemma CountersReturn(r0: Redis, r1: Redis, r3: Redis, n: nat, p: ProductId, q: int)
    requires Counter(r1, p) == Counter(r0, p) + q && Counter(r3, p) == Counter(r1, p) - q
    requires SameRows(r0, r1, n, p) && SameRows(r1, r3, n, p)
    ensures forall x :: Counter(r3, x) == Counter(r0, x)
  {
  }

  /** A reserved order, confirmed and released. */
  lemma ConfirmedReturns(cfg: Config, st: Stores, o: OrderId, now: int)
    requires ValidConfig(cfg) && Bookable(st, o) && st.redis.reservations[o].status == Reserved
    requires !st.redis.reservations[o].deducted && 1 <= st.redis.reservations[o].shardIndex <= cfg.shardCount
    requires o !in st.db.deducts && o !in st.db.reverts && Run(cfg, st, ReadingConfirm(o), now).1 == Ok
    ensures var v, n := st.redis.reservations[o], cfg.shardCount;
            var (st2, out) := Run(cfg, Run(cfg, st, ReadingConfirm(o), now).0, ReadingRelease(o), now);
            && out == Ok && Counter(st2.redis, v.productId) == Counter(st.redis, v.productId) - v.quantity
            && OneCell(Row(st.redis.stock, v.productId, n), Row(st2.redis.stock, v.productId, n), v.shardIndex - 1,
                       v.quantity)
            && SameRows(st.redis, st2.redis, n, v.productId)
            && forall x :: BucketsOf(st2.db, x) == BucketsOf(st.db, x)
  {
    ConfirmCall(cfg, st, o, now);
    var st1 := Run(cfg, st, ReadingConfirm(o), now).0;
    ReleaseCall(cfg, st1, o, now);
    var v, st2 := st.redis.reservations[o], Run(cfg, st1, ReadingRelease(o), now).0;
    TablesReturn(cfg, st.db, st1.db, st2.db, o, v.productId, v.quantity);
  }

  lemma TablesReturn(cfg: Config, d: Db, d1: Db, d2: Db, o: OrderId, p: ProductId, q: int)
    requires TablesConfirm(cfg, d, d1, o, p, q, Ok) && TablesRelease(cfg, d1, d2, o, p, q)
    requires o !in d.deducts && o !in d.reverts
    ensures forall x :: BucketsOf(d2, x) == BucketsOf(d, x)
  {
    if cfg.finalDeduct {
      BucketsReturn(d, d1, d2, p, d1.deducts[o], q);
    }
  }

  lemma ShardsReturn(r0: Redis, r1: Redis, r2: Redis, r3: Redis, n: nat, p: ProductId, i: int, q: int)
    requires OneCell(Row(r0.stock, p, n), Row(r1.stock, p, n), i, -q) && Fits(Row(r0.stock, p, n)[i], q)
    requires SameRows(r0, r1, n, p) && r2.stock == r1.stock && SameRows(r2, r3, n, p)
    requires OneCell(Row(r2.stock, p, n), Row(r3.stock, p, n), i, q) && Row(r3.stock, p, n)[i].Some?
    ensures forall x :: Row(r3.stock, x, n) == Row(r0.stock, x, n)
  {
    SameCells(Row(r0.stock, p, n), Row(r1.stock, p, n), Row(r3.stock, p, n), i, q);
    forall x
      ensures Row(r3.stock, x, n) == Row(r0.stock, x, n)
    {
    }
  }

  lemma BucketsReturn(d0: Db, d1: Db, d2: Db, p: ProductId, b: int, q: int)
    requires OneBucket(d0, d1, p, b, -q) && OneBucket(d1, d2, p, b, q) && b in BucketsOf(d0, p)
    ensures forall x :: BucketsOf(d2, x) == BucketsOf(d0, x)
  {
    assert BucketsOf(d2, p).Keys == BucketsOf(d0, p).Keys;
    forall c | c in BucketsOf(d0, p)
      ensures BucketsOf(d2, p)[c] == BucketsOf(d0, p)[c]
    {
      assert InBucket(d2, p, c) == InBucket(d0, p, c);
    }
    assert BucketsOf(d2, p) == BucketsOf(d0, p);
  }
}
