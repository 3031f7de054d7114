/** Runs that end where recovery does not bring back what was lost, or refuses: a release that overtakes a confirm, a
    confirm that misread its order, and a confirm of an order whose release stopped before the ledger. */
module Unrestored {
  import opened Wrappers
  import opened Sums
  import opened Shards
  import opened RedisScripts
  import opened StockPersistence
  import opened StockCommands
  import opened Accounts
  import opened Engine
  import opened NoOverlap
  import opened Quiescence
  import opened RuntimeRecovery
  import opened Rebuild
  import opened Restart
  import opened Reconcile
  import opened Solo
  import Retry

  /** A reserved order that has reached the ledger and whose quantity MySQL can deduct. */
  predicate Bookable(cfg: Config, st: Stores, o: OrderId, p: ProductId, q: int)
    requires ValidConfig(cfg)
  {
    && p > 0 && q > 0 && Has(st, o, p, q) && st.redis.reservations[o].status == Reserved
    && !st.redis.reservations[o].deducted && InLedger(st, o, {Reserved}) && o !in st.db.deducts && o !in st.db.reverts
    && DeductTx(st.db, o, p, q, StartIndex(cfg.crc32, o, cfg.shardCount)).1 == Ok
  }

  // ------------------------------------------------------------------------------------------------------------
  // A release between the script and the deduction of a confirm
  // ------------------------------------------------------------------------------------------------------------

  function Overtaken(i: nat, j: nat, o: OrderId, now: int): seq<Event> {
    [Start(i, ReadingConfirm(o)), Step(i, now), Step(i, now)] + (Alone(j, ReadingRelease(o), now) + Steps(i, now, 3))
  }

  lemma ConfirmBegins(cfg: Config, w: World, i: nat, o: OrderId, p: ProductId, q: int, now: int)
    requires Strict(cfg) && Bookable(cfg, w.st, o, p, q) && i !in w.procs
    ensures RunAll(cfg, w, [Start(i, ReadingConfirm(o)), Step(i, now), Step(i, now)])
            == Midway(w, w.st.(redis := ConfirmScript(w.st.redis, o, true).0), i, Deducting(o, p, q))
  {
    RunThree(cfg, w, Start(i, ReadingConfirm(o)), Step(i, now), Step(i, now));
    StartsMidway(cfg, w, i, ReadingConfirm(o));
    StepsMidway(cfg, w, w.st, i, ReadingConfirm(o), now);
    StepsMidway(cfg, w, w.st, i, Confirming(o, p, q), now);
  }

  /** A release of an order that is confirmed and not yet deducted. */
  lemma ReleasesUndeducted(cfg: Config, st: Stores, o: OrderId, p: ProductId, q: int, now: int)
    requires Strict(cfg) && p > 0 && q > 0 && Has(st, o, p, q) && o !in st.db.deducts
    ensures Run(cfg, st, ReadingRelease(o), now)
            == (Stores(ReleaseScript(st.redis, cfg.shardCount, o, p),
                       TransitionLedger(cfg.mode, st.db, o, Released, {Reserved, Confirmed})), Ok)
  {
    Retry.StepOn(cfg, st, ReadingRelease(o), now, 1);
    Retry.StepOn(cfg, st, Reverting(o, p, q), now, 1);
    Retry.StepOn(cfg, st, Releasing(o, p), now, 1);
    var st' := st.(redis := ReleaseScript(st.redis, cfg.shardCount, o, p));
    Retry.StepOn(cfg, st', ReleasingLedger(o), now, 1);
  }

  /** The rest of a confirm from its deduction on. */
  lemma DeductsAfter(cfg: Config, st: Stores, o: OrderId, p: ProductId, q: int, now: int)
    requires Strict(cfg) && DeductTx(st.db, o, p, q, StartIndex(cfg.crc32, o, cfg.shardCount)).1 == Ok
    ensures var d := DeductTx(st.db, o, p, q, StartIndex(cfg.crc32, o, cfg.shardCount)).0;
            Run(cfg, st, Deducting(o, p, q), now)
            == (Stores(MarkDeductedScript(st.redis, o), TransitionLedger(cfg.mode, d, o, Confirmed, {Reserved})), Ok)
  {
    var d := DeductTx(st.db, o, p, q, StartIndex(cfg.crc32, o, cfg.shardCount)).0;
    Retry.StepOn(cfg, st, Deducting(o, p, q), now, 1);
    Retry.StepOn(cfg, st.(db := d), Marking(o, p), now, 1);
    Retry.StepOn(cfg, Stores(MarkDeductedScript(st.redis, o), d), ConfirmingLedger(o), now, 1);
  }

  /** The stores when the release has overtaken the confirm and both have returned. */
  function OvertakenStores(cfg: Config, st: Stores, o: OrderId, p: ProductId, q: int): Stores
    requires ValidConfig(cfg)
  {
    var r := ReleaseScript(ConfirmScript(st.redis, o, true).0, cfg.shardCount, o, p);
    var d := TransitionLedger(cfg.mode, st.db, o, Released, {Reserved, Confirmed});
    Stores(MarkDeductedScript(r, o), DeductTx(d, o, p, q, StartIndex(cfg.crc32, o, cfg.shardCount)).0)
  }

  /** The release runs whole while the confirm waits at its deduction. */
  lemma ReleaseRunsBetween(cfg: Config, w: World, st: Stores, i: nat, j: nat, o: OrderId, p: ProductId, q: int,
                           now: int)
    requires Strict(cfg) && p > 0 && q > 0 && Has(st, o, p, q) && o !in st.db.deducts
    requires i !in w.procs && j !in w.procs && i != j
    ensures RunAll(cfg, Midway(w, st, i, Deducting(o, p, q)), Alone(j, ReadingRelease(o), now))
            == Midway(w.(crashed := w.crashed - {o}),
                      Stores(ReleaseScript(st.redis, cfg.shardCount, o, p),
                             TransitionLedger(cfg.mode, st.db, o, Released, {Reserved, Confirmed})),
                      i, Deducting(o, p, q))
  {
    ReleasesUndeducted(cfg, st, o, p, q, now);
    RunsAlone(cfg, Midway(w, st, i, Deducting(o, p, q)), j, ReadingRelease(o), now);
  }

  lemma SameDeduct(cfg: Config, d: Db, o: OrderId, p: ProductId, q: int, preferred: int)
    ensures DeductTx(TransitionLedger(cfg.mode, d, o, Released, {Reserved, Confirmed}), o, p, q, preferred).1
            == DeductTx(d, o, p, q, preferred).1
  {
  }

  lemma ConfirmEnds(cfg: Config, w: World, st: Stores, i: nat, o: OrderId, p: ProductId, q: int, now: int)
    requires Strict(cfg) && i !in w.procs && o !in w.crashed
    requires DeductTx(st.db, o, p, q, StartIndex(cfg.crc32, o, cfg.shardCount)).1 == Ok
    requires o !in st.db.ledger || st.db.ledger[o].status == Released
    ensures RunAll(cfg, Midway(w, st, i, Deducting(o, p, q)), Steps(i, now, 3))
            == w.(st := Stores(MarkDeductedScript(st.redis, o),
                               DeductTx(st.db, o, p, q, StartIndex(cfg.crc32, o, cfg.shardCount)).0))
  {
    DeductsAfter(cfg, st, o, p, q, now);
    StepsThrough(cfg, w, st, i, Deducting(o, p, q), now, 3);
    assert w.crashed - {o} == w.crashed;
  }

  lemma OvertakenRuns(cfg: Config, w: World, i: nat, j: nat, o: OrderId, p: ProductId, q: int, now: int)
    requires Strict(cfg) && Bookable(cfg, w.st, o, p, q) && i !in w.procs && j !in w.procs && i != j
    ensures RunAll(cfg, w, Overtaken(i, j, o, now))
            == w.(st := OvertakenStores(cfg, w.st, o, p, q), crashed := w.crashed - {o})
  {
    var st1 := w.st.(redis := ConfirmScript(w.st.redis, o, true).0);
    var w1, w2 := Midway(w, st1, i, Deducting(o, p, q)), w.(crashed := w.crashed - {o});
    var st2 := Stores(ReleaseScript(st1.redis, cfg.shardCount, o, p),
                      TransitionLedger(cfg.mode, w.st.db, o, Released, {Reserved, Confirmed}));
    ConfirmBegins(cfg, w, i, o, p, q, now);
    RunConcat(cfg, w, [Start(i, ReadingConfirm(o)), Step(i, now), Step(i, now)],
              Alone(j, ReadingRelease(o), now) + Steps(i, now, 3));
    RunConcat(cfg, w1, Alone(j, ReadingRelease(o), now), Steps(i, now, 3));
    ReleaseRunsBetween(cfg, w, st1, i, j, o, p, q, now);
    SameDeduct(cfg, w.st.db, o, p, q, StartIndex(cfg.crc32, o, cfg.shardCount));
    ConfirmEnds(cfg, w2, st2, i, o, p, q, now);
  }

  /** From any world with a bookable order: a caller's release runs whole between the script and the deduction of a
      confirm. Both return success, nothing is left to retry, and the order is released in Redis and in the ledger, but
      deducted and not reverted: MySQL lacks its quantity. */
  lemma ReleaseOvertakesConfirm(cfg: Config, w: World, i: nat, j: nat, o: OrderId, p: ProductId, q: int, now: int)
    requires Strict(cfg) && Bookable(cfg, w.st, o, p, q) && i !in w.procs && j !in w.procs && i != j
    ensures var w' := RunAll(cfg, w, Overtaken(i, j, o, now));
            && w'.procs == w.procs && w'.crashed == w.crashed - {o} && w'.drift == w.drift
            && Past(w'.st, o, Released) && InLedger(w'.st, o, {Released}) && Deducted(w'.st, o)
            && Agrees(w'.st, o) && GapAt(w'.st, p, o) == -q
  {
    OvertakenRuns(cfg, w, i, j, o, p, q, now);
  }

  /** A world of one shard in which one order of product 1 is reserved. */
  ghost function OneOrder(o: OrderId, total: nat, q: nat, now: int): World {
    RunAll(ONE_SHARD, SeededWorld(ONE_SHARD, 1, total), Alone(0, Reserving(o, 1, q), now))
  }

  lemma OneOrderIs(o: OrderId, total: nat, q: nat, now: int)
    requires 0 < q <= total
    ensures var w := OneOrder(o, total, q, now);
            && w.st == ReservedAlone(o, total, q, now) && w.procs == map[] && w.drift == map[] && w.crashed == map[]
            && Bookable(ONE_SHARD, w.st, o, 1, q)
  {
    var w := SeededWorld(ONE_SHARD, 1, total);
    SeedsAlone(total);
    ReservesAlone(o, total, q, now);
    RunsAlone(ONE_SHARD, w, 0, Reserving(o, 1, q), now);
    var none: map<OrderId, Cmd> := map[];
    assert none - {o} == none;
    var m := BucketsOf(ReservedAlone(o, total, q, now).db, 1);
    assert m == map[0 := total as int] && Holds(m, 0, q);
  }

  /** Tables of one product in one bucket and one order that recovery skips, or loads as reserved and finds room for. */
  lemma RecoversOne(d: Db, o: OrderId, v: nat)
    requires d.buckets == map[1 := map[0 := v]] && d.ledger.Keys == {o} && d.reverts == {}
    requires d.ledger[o].status == Released ||
             (d.ledger[o].status == Reserved && o !in d.deducts && d.ledger[o].productId == 1
              && 0 < d.ledger[o].quantity <= v && d.ledger[o].shardIndex == 1)
    ensures Recovers(ONE_SHARD, d, EMPTY, [o], [1])
  {
    EmptyIsPartial(ONE_SHARD, d);
    assert 1 in d.buckets && 0 in d.buckets[1] && GoodBuckets(d.buckets[1], 1);
    var grid := LoadBuckets(d, 1).value;
    assert grid[1] == [v];
    assert [o][1..] == [];
    assert LoadItems(ONE_SHARD, d, []) == Some([]);
    var items := LoadItems(ONE_SHARD, d, [o]).value;
    if LoadRow(ONE_SHARD, d, o).Load? {
      assert items == [LoadRow(ONE_SHARD, d, o).item] && items[1..] == [];
      assert Acceptable(grid, items[0]);
      assert Subtract(Books(grid, map[]), items) == Subtract(Charge(Books(grid, map[]), items[0]), []);
    } else {
      assert items == [];
    }
  }

  lemma OvertakenTables(o: OrderId, total: nat, q: nat, now: int)
    requires 0 < q <= total
    ensures var d := OvertakenStores(ONE_SHARD, ReservedAlone(o, total, q, now), o, 1, q).db;
            && d.buckets == map[1 := map[0 := total - q]] && d.ledger.Keys == {o} && d.reverts == {}
            && d.ledger[o].status == Released
  {
    var m := BucketsOf(ReservedAlone(o, total, q, now).db, 1);
    assert m == map[0 := total as int] && Holds(m, 0, q);
    assert m[0 := total - q] == map[0 := total - q];
    assert ReservedAlone(o, total, q, now).db.buckets[1 := m[0 := total - q]] == map[1 := map[0 := total - q]];
  }

  lemma OvertakenGap(st: Stores, o: OrderId, q: int)
    requires Orders(st) == {o} && GapAt(st, 1, o) == -q
    ensures Gap(st, 1) == -q
  {
    SumPick(Orders(st), GapOf(st, 1), o);
    assert Orders(st) - {o} == {};
  }

  lemma OvertakenReached(o: OrderId, total: nat, q: nat, now: int)
    requires 0 < q <= total
    ensures var w := SeededWorld(ONE_SHARD, 1, total);
            var w' := RunAll(ONE_SHARD, w, Alone(0, Reserving(o, 1, q), now) + Overtaken(0, 1, o, now));
            && Initial(ONE_SHARD, w) && w'.procs == map[] && w'.crashed == map[] && w'.drift == map[]
            && w'.st == OvertakenStores(ONE_SHARD, ReservedAlone(o, total, q, now), o, 1, q)
  {
    SeededIsInitial(ONE_SHARD, 1, total);
    OneOrderIs(o, total, q, now);
    RunConcat(ONE_SHARD, SeededWorld(ONE_SHARD, 1, total), Alone(0, Reserving(o, 1, q), now), Overtaken(0, 1, o, now));
    OvertakenRuns(ONE_SHARD, OneOrder(o, total, q, now), 0, 1, o, 1, q, now);
    var none: map<OrderId, Cmd> := map[];
    assert none - {o} == none;
  }

  lemma OvertakenOrder(o: OrderId, total: nat, q: nat, now: int)
    requires 0 < q <= total
    ensures var st := OvertakenStores(ONE_SHARD, ReservedAlone(o, total, q, now), o, 1, q);
            Orders(st) == {o} && GapAt(st, 1, o) == 0 - q
  {
    OneOrderIs(o, total, q, now);
  }

  /** One order, one shard: after such a run, with nothing in flight or left to retry, recovery from an empty Redis
      succeeds and does not restore what was lost. */
  lemma OvertakenIsNotRestored(o: OrderId, total: nat, q: nat, now: int)
    requires 0 < q <= total
    ensures var w := SeededWorld(ONE_SHARD, 1, total);
            var w' := RunAll(ONE_SHARD, w, Alone(0, Reserving(o, 1, q), now) + Overtaken(0, 1, o, now));
            && Initial(ONE_SHARD, w) && w'.procs == map[] && w'.crashed == map[] && w'.drift == map[]
            && Recovers(ONE_SHARD, w'.st.db, EMPTY, [o], [1])
            && !Restores(ONE_SHARD, w'.st.redis, Recover(ONE_SHARD, Stores(EMPTY, w'.st.db), [o], [1]).value.0.redis)
  {
    var es := Alone(0, Reserving(o, 1, q), now) + Overtaken(0, 1, o, now);
    OvertakenReached(o, total, q, now);
    OvertakenTables(o, total, q, now);
    OvertakenOrder(o, total, q, now);
    var st := OvertakenStores(ONE_SHARD, ReservedAlone(o, total, q, now), o, 1, q);
    RecoversOne(st.db, o, total - q);
    OvertakenGap(st, o, q);
    RebuildTheorem(ONE_SHARD, SeededWorld(ONE_SHARD, 1, total), es, EMPTY, [o], [1]);
    assert Gap(st, 1) + Of(map[], 1) == 0 - q;
  }

  // ------------------------------------------------------------------------------------------------------------
  // A confirm that misread its order
  // ------------------------------------------------------------------------------------------------------------

  function Misread(i: nat, o: OrderId, now: int): seq<Event> {
    [Start(i, ReadingConfirm(o)), Fail(i, false, now), Step(i, now)]
  }

  /** From any world with a bookable order: a confirm whose first read fails returns success, and leaves Redis confirmed
      and the tables as they were. */
  lemma MisreadRuns(cfg: Config, w: World, i: nat, o: OrderId, p: ProductId, q: int, now: int)
    requires Strict(cfg) && Bookable(cfg, w.st, o, p, q) && i !in w.procs
    ensures RunAll(cfg, w, Misread(i, o, now))
            == w.(st := w.st.(redis := ConfirmScript(w.st.redis, o, true).0), crashed := w.crashed - {o})
  {
    RunThree(cfg, w, Start(i, ReadingConfirm(o)), Fail(i, false, now), Step(i, now));
    StartsMidway(cfg, w, i, ReadingConfirm(o));
    MisreadsMidway(cfg, w, w.st, i, o, now);
    StepsMidway(cfg, w, w.st, i, Confirming(o, 0, 0), now);
  }

  /** One order, one shard: after such a run recovery from an empty Redis succeeds, and the order that was confirmed is
      reserved again. */
  lemma MisreadIsUnconfirmed(o: OrderId, total: nat, q: nat, now: int)
    requires 0 < q <= total
    ensures var w := SeededWorld(ONE_SHARD, 1, total);
            var w' := RunAll(ONE_SHARD, w, Alone(0, Reserving(o, 1, q), now) + Misread(0, o, now));
            && Initial(ONE_SHARD, w) && w'.procs == map[] && w'.crashed == map[] && w'.drift == map[]
            && Past(w'.st, o, Confirmed) && !Agrees(w'.st, o) && Recovers(ONE_SHARD, w'.st.db, EMPTY, [o], [1])
            && var r := Recover(ONE_SHARD, Stores(EMPTY, w'.st.db), [o], [1]).value.0.redis;
               o in r.reservations && r.reservations[o].status == Reserved
  {
    var w, w1 := SeededWorld(ONE_SHARD, 1, total), OneOrder(o, total, q, now);
    SeededIsInitial(ONE_SHARD, 1, total);
    OneOrderIs(o, total, q, now);
    RunConcat(ONE_SHARD, w, Alone(0, Reserving(o, 1, q), now), Misread(0, o, now));
    MisreadRuns(ONE_SHARD, w1, 0, o, 1, q, now);
    RecoversOne(w1.st.db, o, total);
    RecoveredOrder(ONE_SHARD, w1.st.db, EMPTY, [o], [1], o);
  }

  // ------------------------------------------------------------------------------------------------------------
  // A confirm after a release that stopped before the ledger
  // ------------------------------------------------------------------------------------------------------------

  function HalfReleased(i: nat, o: OrderId, now: int): seq<Event> {
    [Start(i, ReadingRelease(o)), Step(i, now), Step(i, now)] + [Kill(i, true, now)]
  }

  lemma HalfReleaseRuns(cfg: Config, w: World, i: nat, o: OrderId, p: ProductId, q: int, now: int)
    requires Strict(cfg) && Bookable(cfg, w.st, o, p, q) && i !in w.procs
    ensures RunAll(cfg, w, HalfReleased(i, o, now))
            == w.(st := w.st.(redis := ReleaseScript(w.st.redis, cfg.shardCount, o, p)),
                  crashed := w.crashed[o := ReadingRelease(o)])
  {
    RunConcat(cfg, w, [Start(i, ReadingRelease(o)), Step(i, now), Step(i, now)], [Kill(i, true, now)]);
    RunThree(cfg, w, Start(i, ReadingRelease(o)), Step(i, now), Step(i, now));
    StartsMidway(cfg, w, i, ReadingRelease(o));
    StepsMidway(cfg, w, w.st, i, ReadingRelease(o), now);
    StepsMidway(cfg, w, w.st, i, Reverting(o, p, q), now);
    RunOne(cfg, Midway(w, w.st, i, Releasing(o, p)), Kill(i, true, now));
    DiesMidway(cfg, w, w.st, i, Releasing(o, p), now);
  }

  /** A confirm of a released order that the ledger has as reserved. */
  lemma ConfirmsReleased(cfg: Config, st: Stores, o: OrderId, p: ProductId, q: int, now: int)
    requires Strict(cfg) && p > 0 && q > 0 && Has(st, o, p, q) && st.redis.reservations[o].status == Released
    ensures Run(cfg, st, ReadingConfirm(o), now)
            == (st.(db := TransitionLedger(cfg.mode, st.db, o, Confirmed, {Reserved})), Ok)
  {
    Retry.StepOn(cfg, st, ReadingConfirm(o), now, 1);
    Retry.StepOn(cfg, st, Confirming(o, p, q), now, 1);
    Retry.StepOn(cfg, st, ConfirmingLedger(o), now, 1);
  }

  lemma UndeductedIsRefused(cfg: Config, d: Db, o: OrderId, r0: Redis, rows: seq<OrderId>, ps: seq<ProductId>)
    requires Strict(cfg) && Listing(rows, d.ledger.Keys)
    requires o in d.ledger && d.ledger[o].status == Confirmed && o !in d.deducts && o !in d.reverts
    ensures Recover(cfg, Stores(r0, d), rows, ps).None?
  {
    if Recover(cfg, Stores(r0, d), rows, ps).Some? {
      NoneBad(cfg, d, rows, o);
    }
  }

  lemma ReleaseThenConfirm(cfg: Config, w: World, i: nat, o: OrderId, p: ProductId, q: int, now: int)
    requires Strict(cfg) && Bookable(cfg, w.st, o, p, q) && i !in w.procs
    ensures RunAll(cfg, w, HalfReleased(i, o, now) + Alone(i, ReadingConfirm(o), now))
            == w.(st := Stores(ReleaseScript(w.st.redis, cfg.shardCount, o, p),
                               TransitionLedger(cfg.mode, w.st.db, o, Confirmed, {Reserved})),
                  crashed := w.crashed - {o})
  {
    HalfReleaseRuns(cfg, w, i, o, p, q, now);
    var st1 := w.st.(redis := ReleaseScript(w.st.redis, cfg.shardCount, o, p));
    RunConcat(cfg, w, HalfReleased(i, o, now), Alone(i, ReadingConfirm(o), now));
    ConfirmsReleased(cfg, st1, o, p, q, now);
    RunsAlone(cfg, w.(st := st1, crashed := w.crashed[o := ReadingRelease(o)]), i, ReadingConfirm(o), now);
    assert w.crashed[o := ReadingRelease(o)] - {o} == w.crashed - {o};
  }

  /** From any world with a bookable order: its release stops after its script, and a confirm then returns success. The
      order is released in Redis and confirmed in the ledger, without a deduction, and recovery refuses. */
  lemma ConfirmAfterStoppedRelease(cfg: Config, w: World, i: nat, o: OrderId, p: ProductId, q: int, now: int, r0: Redis,
                                   rows: seq<OrderId>, ps: seq<ProductId>)
    requires Strict(cfg) && Bookable(cfg, w.st, o, p, q) && i !in w.procs
    requires Listing(rows, w.st.db.ledger.Keys)
    ensures var w' := RunAll(cfg, w, HalfReleased(i, o, now) + Alone(i, ReadingConfirm(o), now));
            && w'.procs == w.procs && w'.crashed == w.crashed - {o} && w'.drift == w.drift
            && Past(w'.st, o, Released) && InLedger(w'.st, o, {Confirmed}) && o !in w'.st.db.deducts
            && Listing(rows, w'.st.db.ledger.Keys) && Recover(cfg, Stores(r0, w'.st.db), rows, ps).None?
  {
    ReleaseThenConfirm(cfg, w, i, o, p, q, now);
    var d := TransitionLedger(cfg.mode, w.st.db, o, Confirmed, {Reserved});
    assert d.ledger.Keys == w.st.db.ledger.Keys;
    UndeductedIsRefused(cfg, d, o, r0, rows, ps);
  }

  /** And such a world is reached. */
  lemma StoppedReleaseReached(o: OrderId, total: nat, q: nat, now: int, r0: Redis, ps: seq<ProductId>)
    requires 0 < q <= total
    ensures var w := SeededWorld(ONE_SHARD, 1, total);
            var es := HalfReleased(0, o, now) + Alone(0, ReadingConfirm(o), now);
            var w' := RunAll(ONE_SHARD, w, Alone(0, Reserving(o, 1, q), now) + es);
            && Initial(ONE_SHARD, w) && w'.procs == map[] && w'.crashed == map[]
            && Recover(ONE_SHARD, Stores(r0, w'.st.db), [o], ps).None?
  {
    var es := HalfReleased(0, o, now) + Alone(0, ReadingConfirm(o), now);
    SeededIsInitial(ONE_SHARD, 1, total);
    OneOrderIs(o, total, q, now);
    RunConcat(ONE_SHARD, SeededWorld(ONE_SHARD, 1, total), Alone(0, Reserving(o, 1, q), now), es);
    ConfirmAfterStoppedRelease(ONE_SHARD, OneOrder(o, total, q, now), 0, o, 1, q, now, r0, [o], ps);
    var none: map<OrderId, Cmd> := map[];
    assert none - {o} == none;
  }
}
