/** The inventory commands as sequences of atomic steps over both stores, first as a step machine that can stop
    anywhere, then as the methods of the repository. */
module StockCommands {
  import opened Wrappers
  import opened Sums
  import opened Shards
  import opened RedisScripts
  import opened StockPersistence

  datatype Config = Config(shardCount: nat, finalDeduct: bool, mode: LedgerMode, crc32: OrderId -> nat)

  ghost predicate ValidConfig(cfg: Config) {
    cfg.shardCount > 0
  }

  datatype Stores = Stores(redis: Redis, db: Db)

  datatype Stock = Stock(available: int, reserved: int, total: int)

  /** A command at the step it will run next. */
  datatype Cmd =
    | Reserving(o: OrderId, p: ProductId, q: int)
    | ReadingShard(o: OrderId, p: ProductId, q: int)
    | RecordingReservation(o: OrderId, p: ProductId, q: int, shard: int)
    | ReadingConfirm(o: OrderId)
    | Confirming(o: OrderId, p: ProductId, q: int)
    | Deducting(o: OrderId, p: ProductId, q: int)
    | Marking(o: OrderId, p: ProductId)
    | ConfirmingLedger(o: OrderId)
    | ReadingRelease(o: OrderId)
    | LoadingLedger(o: OrderId)
    | Hydrating(o: OrderId, row: LedgerRow)
    | Reverting(o: OrderId, p: ProductId, q: int)
    | Releasing(o: OrderId, p: ProductId)
    | ReleasingLedger(o: OrderId)
    | CheckingStock(p: ProductId, delta: int, bucket: int)
    | AdjustingBucket(p: ProductId, delta: int, bucket: int)
    | AdjustingShards(p: ProductId, delta: int, bucket: int)
  {
    predicate OnOrder() {
      !CheckingStock? && !AdjustingBucket? && !AdjustingShards?
    }
  }

  datatype Next = Goto(cmd: Cmd) | Return(out: Outcome)

  function Rank(c: Cmd): nat {
    match c
    case Reserving(_, _, _) => 3
    case ReadingShard(_, _, _) => 2
    case RecordingReservation(_, _, _, _) => 1
    case ReadingConfirm(_) => 5
    case Confirming(_, _, _) => 4
    case Deducting(_, _, _) => 3
    case Marking(_, _) => 2
    case ConfirmingLedger(_) => 1
    case ReadingRelease(_) => 6
    case LoadingLedger(_) => 5
    case Hydrating(_, _) => 4
    case Reverting(_, _, _) => 3
    case Releasing(_, _) => 2
    case ReleasingLedger(_) => 1
    case CheckingStock(_, _, _) => 3
    case AdjustingBucket(_, _, _) => 2
    case AdjustingShards(_, _, _) => 1
  }

  /** 1-based start shard of an adjust, out-of-range buckets falling back to the first shard. */
  function AdjustStart(cfg: Config, bucket: int): (start: nat)
    requires ValidConfig(cfg)
    ensures 1 <= start <= cfg.shardCount
  {
    if bucket + 1 <= 0 || bucket + 1 > cfg.shardCount then 1 else bucket + 1
  }

  function AfterReleaseRead(cfg: Config, o: OrderId, p: ProductId, q: int): Next {
    Goto(if cfg.finalDeduct then Reverting(o, p, q) else Releasing(o, p))
  }

  /** Code returned by the reserve and adjust scripts as a command outcome. */
  function CodeOutcome(code: int): Outcome {
    match code
    case 1 => Ok
    case -1 => NotFound
    case -2 => Insufficient
    case -3 => Conflict
    case _ => Unexpected
  }

  /** One atomic step: the new stores, and where the command goes or what it returns. */
  function StepCmd(cfg: Config, st: Stores, c: Cmd, now: int): (r: (Stores, Next))
    requires ValidConfig(cfg)
    ensures r.1.Goto? ==> Rank(r.1.cmd) < Rank(c)
  {
    var n := cfg.shardCount;
    match c
    case Reserving(o, p, q) =>
      var (redis, code) := ReserveScript(st.redis, n, StartIndex(cfg.crc32, o, n), o, p, q, now);
      (st.(redis := redis), if code == 1 then Goto(ReadingShard(o, p, q)) else Return(CodeOutcome(code)))
    case ReadingShard(o, p, q) =>
      (st, Goto(RecordingReservation(o, p, q, GetReservationScript(st.redis, o).shardIndex)))
    case RecordingReservation(o, p, q, shard) =>
      var (db, out) := InsertLedger(cfg.mode, st.db, o, LedgerRow(p, q, shard, Reserved, now + EXPIRY_SECONDS));
      (st.(db := db), Return(out))
    case ReadingConfirm(o) =>
      var id := GetReservationScript(st.redis, o);
      (st, Goto(Confirming(o, id.productId, id.quantity)))
    case Confirming(o, p, q) =>
      var (redis, code) := ConfirmScript(st.redis, o, cfg.finalDeduct);
      (st.(redis := redis),
       if code == 2 then if p <= 0 || q <= 0 then Return(Ok) else Goto(Deducting(o, p, q))
       else if p > 0 then Goto(ConfirmingLedger(o)) else Return(Ok))
    case Deducting(o, p, q) =>
      var (db, out) := DeductTx(st.db, o, p, q, StartIndex(cfg.crc32, o, n));
      (st.(db := db), if out == Ok then Goto(Marking(o, p)) else Return(out))
    case Marking(o, p) =>
      (st.(redis := MarkDeductedScript(st.redis, o)), Goto(ConfirmingLedger(o)))
    case ConfirmingLedger(o) =>
      (st.(db := TransitionLedger(cfg.mode, st.db, o, Confirmed, {Reserved})), Return(Ok))
    case ReadingRelease(o) =>
      var id := GetReservationScript(st.redis, o);
      (st, if id.productId <= 0 || id.quantity <= 0 then Goto(LoadingLedger(o))
           else AfterReleaseRead(cfg, o, id.productId, id.quantity))
    case LoadingLedger(o) =>
      (st, match LoadLedger(cfg.mode, st.db, o)
           case None => Return(Ok)
           case Some(row) =>
             if row.productId <= 0 || row.quantity <= 0 || row.status == Released
                 then Return(Ok) else Goto(Hydrating(o, row)))
    case Hydrating(o, row) =>
      (st.(redis := HydrateScript(st.redis, o,
          Reservation(row.status, row.productId, row.quantity, row.shardIndex, false))),
       AfterReleaseRead(cfg, o, row.productId, row.quantity))
    case Reverting(o, p, q) => (st.(db := RevertTx(st.db, o, p, q)), Goto(Releasing(o, p)))
    case Releasing(o, p) => (st.(redis := ReleaseScript(st.redis, n, o, p)), Goto(ReleasingLedger(o)))
    case ReleasingLedger(o) =>
      (st.(db := TransitionLedger(cfg.mode, st.db, o, Released, {Reserved, Confirmed})), Return(Ok))
    case CheckingStock(p, delta, bucket) =>
      (st, if HasStock(st.redis, p, n) || BucketsOf(st.db, p) != map[]
          then Goto(AdjustingBucket(p, delta, bucket)) else Return(NotFound))
    case AdjustingBucket(p, delta, bucket) =>
      var (db, out) := AdjustTx(st.db, p, delta, bucket);
      (st.(db := db), if out == Ok then Goto(AdjustingShards(p, delta, bucket)) else Return(out))
    case AdjustingShards(p, delta, bucket) =>
      var (redis, code) := AdjustScript(st.redis, n, p, delta, AdjustStart(cfg, bucket));
      (st.(redis := redis), Return(CodeOutcome(code)))
  }

  /** The command run on to its return with nothing in between. */
  function Run(cfg: Config, st: Stores, c: Cmd, now: int): (Stores, Outcome)
    requires ValidConfig(cfg)
    decreases Rank(c)
  {
    var (st', next) := StepCmd(cfg, st, c, now);
    match next
    case Goto(c') => Run(cfg, st', c', now)
    case Return(out) => (st', out)
  }

  /** The command stopped after at most `k` steps. */
  function RunSteps(cfg: Config, st: Stores, c: Cmd, now: int, k: nat): Stores
    requires ValidConfig(cfg)
    decreases k
  {
    if k == 0 then st
    else
      var (st', next) := StepCmd(cfg, st, c, now);
      match next
      case Goto(c') => RunSteps(cfg, st', c', now, k - 1)
      case Return(_) => st'
  }

  // ------------------------------------------------------------------------------------------------------------
  // Reads, seeding and reconciliation
  // ------------------------------------------------------------------------------------------------------------

  /** The stock a caller sees: Redis when any shard key exists, otherwise the MySQL buckets. */
  ghost function StockOf(cfg: Config, st: Stores, p: ProductId): Option<Stock> {
    if HasStock(st.redis, p, cfg.shardCount) then
      var a, c := Available(st.redis, p, cfg.shardCount), Counter(st.redis, p);
      Some(Stock(a, c, a + c))
    else if BucketsOf(st.db, p) != map[] then Some(Stock(BucketTotal(st.db, p), 0, BucketTotal(st.db, p)))
    else None
  }

  function SeedRedisState(r: Redis, p: ProductId, available: int, reserved: int, shardCount: int): Redis {
    ResetReservedScript(SeedStockScript(r, p, Split(available, shardCount)), p, reserved)
  }

  function Seeded(cfg: Config, st: Stores, p: ProductId, total: int, shardCount: int): Stores {
    var n := if shardCount <= 0 then cfg.shardCount else shardCount;
    Stores(SeedRedisState(st.redis, p, total, 0, n), SeedBuckets(st.db, p, Split(total, n), 0))
  }

  datatype Reconciled = Reconciled(before: Stock, after: Stock, changed: bool, out: Outcome)

  ghost function ReconcileResult(cfg: Config, st: Stores, p: ProductId): Reconciled {
    var before := StockOf(cfg, st, p).GetOr(Stock(0, 0, 0));
    if BucketsOf(st.db, p) == map[] then Reconciled(before, before, false, NotFound)
    else
      var total, active := BucketTotal(st.db, p), ActiveTotal(cfg.mode, st.db, p);
      var after := Stock(ExpectedAvailable(total, before.reserved, active, cfg.mode),
                         ExpectedReserved(before.reserved, active, cfg.mode), total);
      Reconciled(before, after, before.available != after.available || before.reserved != after.reserved, Ok)
  }

  ghost function ReconcileStores(cfg: Config, st: Stores, p: ProductId): Stores {
    var r := ReconcileResult(cfg, st, p);
    if r.changed then st.(redis := SeedRedisState(st.redis, p, r.after.available, r.after.reserved, cfg.shardCount))
        else st
  }

  // ------------------------------------------------------------------------------------------------------------
  // The repository
  // ------------------------------------------------------------------------------------------------------------

  class Repository {
    const cfg: Config
    const redis: RedisStore
    const db: MySqlStore

    constructor (cfg: Config, redis: RedisStore, db: MySqlStore)
      requires ValidConfig(cfg)
      ensures this.cfg == cfg && this.redis == redis && this.db == db
    {
      this.cfg, this.redis, this.db := cfg, redis, db;
    }

    function Value(): Stores
      reads redis, db
    {
      Stores(redis.Value(), db.Value())
    }

    method ReserveStock(o: OrderId, p: ProductId, q: int, now: int) returns (out: Outcome)
      requires ValidConfig(cfg)
      modifies redis, db
      ensures (Value(), out) == Run(cfg, old(Value()), Reserving(o, p, q), now)
    {
      ghost var goal := Run(cfg, Value(), Reserving(o, p, q), now);
      var code := redis.ReserveStock(cfg.shardCount, StartIndex(cfg.crc32, o, cfg.shardCount), o, p, q, now);
      if code == 1 {
        assert goal == Run(cfg, Value(), ReadingShard(o, p, q), now);
        var id := redis.GetReservation(o);
        assert goal == Run(cfg, Value(), RecordingReservation(o, p, q, id.shardIndex), now);
        out := db.InsertReservation(cfg.mode, o, LedgerRow(p, q, id.shardIndex, Reserved, now + EXPIRY_SECONDS));
        return out;
      }
      return CodeOutcome(code);
    }

    method ConfirmDeduct(o: OrderId, now: int) returns (out: Outcome)
      requires ValidConfig(cfg)
      modifies redis, db
      ensures (Value(), out) == Run(cfg, old(Value()), ReadingConfirm(o), now)
    {
      var id := redis.GetReservation(o);
      ghost var goal := Run(cfg, Value(), ReadingConfirm(o), now);
      assert goal == Run(cfg, Value(), Confirming(o, id.productId, id.quantity), now);
      var code := redis.ConfirmDeduct(o, cfg.finalDeduct);
      if code == 2 {
        if id.productId <= 0 || id.quantity <= 0 {
          return Ok;
        }
        assert goal == Run(cfg, Value(), Deducting(o, id.productId, id.quantity), now);
        out := db.ConfirmDeduct(o, id.productId, id.quantity, StartIndex(cfg.crc32, o, cfg.shardCount));
        if out != Ok {
          return out;
        }
        assert goal == Run(cfg, Value(), Marking(o, id.productId), now);
        redis.MarkDeducted(o);
      }
      if id.productId > 0 {
        assert goal == Run(cfg, Value(), ConfirmingLedger(o), now);
        db.TransitionReservation(cfg.mode, o, Confirmed, {Reserved});
      }
      return Ok;
    }

    method ReleaseStock(o: OrderId, now: int) returns (out: Outcome)
      requires ValidConfig(cfg)
      modifies redis, db
      ensures (Value(), out) == Run(cfg, old(Value()), ReadingRelease(o), now)
    {
      ghost var goal := Run(cfg, Value(), ReadingRelease(o), now);
      var id := redis.GetReservation(o);
      var p, q := id.productId, id.quantity;
      if p <= 0 || q <= 0 {
        assert goal == Run(cfg, Value(), LoadingLedger(o), now);
        var loaded := LoadLedger(cfg.mode, db.Value(), o);
        if loaded.None? || loaded.value.productId <= 0 || loaded.value.quantity <= 0 || loaded.value.status
            == Released {
          return Ok;
        }
        var row := loaded.value;
        assert goal == Run(cfg, Value(), Hydrating(o, row), now);
        redis.Hydrate(o, Reservation(row.status, row.productId, row.quantity, row.shardIndex, false));
        p, q := row.productId, row.quantity;
      }
      assert goal == Run(cfg, Value(), AfterReleaseRead(cfg, o, p, q).cmd, now);
      out := ReleaseKnown(o, p, q, now);
    }

    method ReleaseKnown(o: OrderId, p: ProductId, q: int, now: int) returns (out: Outcome)
      requires ValidConfig(cfg)
      modifies redis, db
      ensures (Value(), out) == Run(cfg, old(Value()), AfterReleaseRead(cfg, o, p, q).cmd, now)
    {
      ghost var goal := Run(cfg, Value(), AfterReleaseRead(cfg, o, p, q).cmd, now);
      if cfg.finalDeduct {
        db.ReleaseDeduct(o, p, q);
      }
      assert goal == Run(cfg, Value(), Releasing(o, p), now);
      redis.ReleaseStock(cfg.shardCount, o, p);
      assert goal == Run(cfg, Value(), ReleasingLedger(o), now);
      db.TransitionReservation(cfg.mode, o, Released, {Reserved, Confirmed});
      return Ok;
    }

    method AdjustStock(p: ProductId, delta: int, bucket: int, now: int) returns (out: Outcome)
      requires ValidConfig(cfg)
      modifies redis, db
      ensures (Value(), out) == Run(cfg, old(Value()), CheckingStock(p, delta, bucket), now)
    {
      ghost var goal := Run(cfg, Value(), CheckingStock(p, delta, bucket), now);
      var before := GetStock(p);
      if before.None? {
        return NotFound;
      }
      assert goal == Run(cfg, Value(), AdjustingBucket(p, delta, bucket), now);
      out := db.AdjustStock(p, delta, bucket);
      if out != Ok {
        return out;
      }
      assert goal == Run(cfg, Value(), AdjustingShards(p, delta, bucket), now);
      out := AdjustRedis(p, delta, bucket, now);
    }

    method AdjustRedis(p: ProductId, delta: int, bucket: int, now: int) returns (out: Outcome)
      requires ValidConfig(cfg)
      modifies redis
      ensures (Value(), out) == Run(cfg, old(Value()), AdjustingShards(p, delta, bucket), now)
    {
      var startIndex := bucket + 1;
      if startIndex <= 0 || startIndex > cfg.shardCount {
        startIndex := 1;
      }
      var code := redis.AdjustAvailable(cfg.shardCount, p, delta, startIndex);
      return CodeOutcome(code);
    }

    method GetStock(p: ProductId) returns (stock: Option<Stock>)
      ensures stock == StockOf(cfg, Value(), p)
    {
      var sum := redis.SumStock(cfg.shardCount, p);
      if sum.0 {
        var reserved := Counter(redis.Value(), p);
        return Some(Stock(sum.1, reserved, sum.1 + reserved));
      }
      var total, ok := db.Total(p);
      if !ok {
        return None;
      }
      return Some(Stock(total, 0, total));
    }

    method SeedStock(p: ProductId, total: int, shardCount: int)
      requires ValidConfig(cfg)
      modifies redis, db
      ensures Value() == Seeded(cfg, old(Value()), p, total, shardCount)
    {
      var n := shardCount;
      if n <= 0 {
        n := cfg.shardCount;
      }
      var values := SplitStockAcrossShards(total, n);
      db.SeedStock(p, values[..]);
      SeedRedis(p, total, 0, n);
    }

    method SeedRedis(p: ProductId, available: int, reserved: int, shardCount: int)
      modifies redis
      ensures redis.Value() == SeedRedisState(old(redis.Value()), p, available, reserved, shardCount)
    {
      var values := SplitStockAcrossShards(available, shardCount);
      redis.SeedStock(p, values[..]);
      redis.ResetReserved(p, reserved);
    }

    method ReconcileStock(p: ProductId) returns (r: Reconciled)
      modifies redis
      ensures r == ReconcileResult(cfg, old(Value()), p)
      ensures Value() == ReconcileStores(cfg, old(Value()), p)
    {
      var read := GetStock(p);
      var before := read.GetOr(Stock(0, 0, 0));
      var total, ok := db.Total(p);
      if !ok {
        return Reconciled(before, before, false, NotFound);
      }
      var active := db.ActiveReservationTotal(cfg.mode, p);
      var after := Stock(ExpectedAvailable(total, before.reserved, active, cfg.mode),
                         ExpectedReserved(before.reserved, active, cfg.mode), total);
      var changed := before.available != after.available || before.reserved != after.reserved;
      if changed {
        SeedRedis(p, after.available, after.reserved, cfg.shardCount);
      }
      return Reconciled(before, after, changed, Ok);
    }
  }
}
