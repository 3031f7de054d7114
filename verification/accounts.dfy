/** The accounting of the two stores: what each order holds, what separates MySQL from Redis, and how every atomic
    step moves it. */
module Accounts {
  import opened Wrappers
  import opened Sums
  import opened Shards
  import opened RedisScripts
  import opened StockPersistence
  import opened StockCommands
  import opened ReservationReaper

  type Totals = map<ProductId, int>

  function Of(t: Totals, p: ProductId): int {
    if p in t then t[p] else 0
  }

  function Plus(t: Totals, p: ProductId, x: int): Totals {
    t[p := Of(t, p) + x]
  }

  // ------------------------------------------------------------------------------------------------------------
  // Per-order accounts
  // ------------------------------------------------------------------------------------------------------------

  /** Quantity of product `p` that a reservation has in reserved status. */
  function ReservedPart(v: Reservation, p: ProductId): int {
    if v.productId == p && v.status == Reserved then v.quantity else 0
  }

  /** Quantity of product `p` that a reservation keeps out of the shards: reserved or confirmed. */
  function HeldPart(v: Reservation, p: ProductId): int {
    if v.productId == p && v.status != Released then v.quantity else 0
  }

  /** By how much a reservation makes the MySQL total of `p` exceed Redis: confirmed there but not, or no longer,
      deducted here counts up; released there but still deducted here counts down. */
  function GapPart(v: Reservation, p: ProductId, deducted: bool, reverted: bool): int {
    if v.productId != p then 0
    else if v.status == Confirmed && (!deducted || reverted) then v.quantity
    else if v.status == Released && deducted && !reverted then -v.quantity
    else 0
  }

  function ReservedAt(st: Stores, p: ProductId, o: OrderId): int {
    if o in st.redis.reservations then ReservedPart(st.redis.reservations[o], p) else 0
  }

  function HeldAt(st: Stores, p: ProductId, o: OrderId): int {
    if o in st.redis.reservations then HeldPart(st.redis.reservations[o], p) else 0
  }

  function GapAt(st: Stores, p: ProductId, o: OrderId): int {
    if o in st.redis.reservations
        then GapPart(st.redis.reservations[o], p, o in st.db.deducts, o in st.db.reverts) else 0
  }

  function ReservedOf(st: Stores, p: ProductId): OrderId -> int {
    o => ReservedAt(st, p, o)
  }

  function HeldOf(st: Stores, p: ProductId): OrderId -> int {
    o => HeldAt(st, p, o)
  }

  function GapOf(st: Stores, p: ProductId): OrderId -> int {
    o => GapAt(st, p, o)
  }

  function Orders(st: Stores): set<OrderId> {
    st.redis.reservations.Keys
  }

  ghost function Held(st: Stores, p: ProductId): int {
    Sum(Orders(st), HeldOf(st, p))
  }

  ghost function LiveReserved(st: Stores, p: ProductId): int {
    Sum(Orders(st), ReservedOf(st, p))
  }

  ghost function Gap(st: Stores, p: ProductId): int {
    Sum(Orders(st), GapOf(st, p))
  }

  // ------------------------------------------------------------------------------------------------------------
  // The store invariant
  // ------------------------------------------------------------------------------------------------------------

  predicate ValidReservation(cfg: Config, v: Reservation) {
    v.productId > 0 && v.quantity > 0 && 1 <= v.shardIndex <= cfg.shardCount
  }

  predicate Has(st: Stores, o: OrderId, p: ProductId, q: int) {
    o in st.redis.reservations && st.redis.reservations[o].productId == p && st.redis.reservations[o].quantity == q
  }

  /** Conservation in Redis: the shards and the held quantities make up the supply; the counter is exact. */
  ghost predicate Conserved(cfg: Config, st: Stores, supply: Totals, p: ProductId) {
    && Available(st.redis, p, cfg.shardCount) + Held(st, p) == Of(supply, p)
    && Counter(st.redis, p) == LiveReserved(st, p)
  }

  /** Conservation across the stores: MySQL exceeds Redis by exactly the gap of the orders and the adjusts that
      reached only MySQL. */
  ghost predicate Balanced(cfg: Config, st: Stores, drift: Totals, p: ProductId) {
    BucketTotal(st.db, p) - (Available(st.redis, p, cfg.shardCount) + Counter(st.redis, p)) == Gap(st, p) + Of(drift, p)
  }

  ghost predicate Shape(cfg: Config, st: Stores) {
    && ShardsNonNegative(st.redis) && BucketsNonNegative(st.db)
    && (forall o :: o in st.redis.reservations ==> ValidReservation(cfg, st.redis.reservations[o]))
    && (forall o :: o in st.db.ledger ==> Has(st, o, st.db.ledger[o].productId, st.db.ledger[o].quantity))
    && (forall o :: o in st.db.deducts ==> o in st.redis.reservations && st.redis.reservations[o].status != Reserved)
    && (forall o :: o in st.db.reverts ==> o in st.db.deducts)
  }

  predicate InSomeSet(r: Redis, o: OrderId) {
    o in r.expiry || o in r.processing || o in r.dead
  }

  /** Every reserved order is waiting to expire, being processed, or dead-lettered; the sets hold known orders only. */
  ghost predicate Tracked(r: Redis) {
    && (forall o :: o in r.reservations && r.reservations[o].status == Reserved ==> InSomeSet(r, o))
    && (forall o :: InSomeSet(r, o) ==> o in r.reservations)
  }

  ghost predicate Accounted(cfg: Config, st: Stores, supply: Totals, drift: Totals) {
    && (forall p :: Conserved(cfg, st, supply, p))
    && (forall p :: Balanced(cfg, st, drift, p))
  }

  ghost predicate StoreInv(cfg: Config, st: Stores, supply: Totals, drift: Totals) {
    && Shape(cfg, st)
    && Tracked(st.redis)
    && Accounted(cfg, st, supply, drift)
  }

  // ------------------------------------------------------------------------------------------------------------
  // One order changes: how the sums move
  // ------------------------------------------------------------------------------------------------------------

  ghost predicate OnlyOrder(st: Stores, st': Stores, o: OrderId) {
    && Orders(st') == Orders(st) + {o}
    && (forall o' :: o' in Orders(st) && o' != o ==> st'.redis.reservations[o'] == st.redis.reservations[o'])
    && (forall o' :: o' in Orders(st) && o' != o ==> (o' in st'.db.deducts <==> o' in st.db.deducts))
    && (forall o' :: o' in Orders(st) && o' != o ==> (o' in st'.db.reverts <==> o' in st.db.reverts))
  }

  lemma HeldMoves(st: Stores, st': Stores, o: OrderId, p: ProductId)
    requires OnlyOrder(st, st', o)
    ensures Held(st', p) == Held(st, p) + HeldAt(st', p, o) - HeldAt(st, p, o)
  {
    SumUpdate(Orders(st), HeldOf(st, p), Orders(st'), HeldOf(st', p), o);
  }

  lemma ReservedMoves(st: Stores, st': Stores, o: OrderId, p: ProductId)
    requires OnlyOrder(st, st', o)
    ensures LiveReserved(st', p) == LiveReserved(st, p) + ReservedAt(st', p, o) - ReservedAt(st, p, o)
  {
    SumUpdate(Orders(st), ReservedOf(st, p), Orders(st'), ReservedOf(st', p), o);
  }

  lemma GapMoves(st: Stores, st': Stores, o: OrderId, p: ProductId)
    requires OnlyOrder(st, st', o)
    ensures Gap(st', p) == Gap(st, p) + GapAt(st', p, o) - GapAt(st, p, o)
  {
    SumUpdate(Orders(st), GapOf(st, p), Orders(st'), GapOf(st', p), o);
  }

  /** How far the two stores move for product `p` between two states. */
  datatype Moves = Moves(shards: int, counter: int, buckets: int)

  ghost function Moved(cfg: Config, st: Stores, st': Stores, p: ProductId): Moves {
    Moves(Available(st'.redis, p, cfg.shardCount) - Available(st.redis, p, cfg.shardCount),
          Counter(st'.redis, p) - Counter(st.redis, p),
          BucketTotal(st'.db, p) - BucketTotal(st.db, p))
  }

  /** The move of product `p` is the one the change of order `o` calls for. */
  ghost predicate Matches(cfg: Config, st: Stores, st': Stores, o: OrderId, p: ProductId) {
    var m := Moved(cfg, st, st', p);
    && m.shards == HeldAt(st, p, o) - HeldAt(st', p, o)
    && m.counter == ReservedAt(st', p, o) - ReservedAt(st, p, o)
    && m.buckets - m.shards - m.counter == GapAt(st', p, o) - GapAt(st, p, o)
  }

  lemma OrderMoves(cfg: Config, st: Stores, st': Stores, supply: Totals, drift: Totals, o: OrderId)
    requires Accounted(cfg, st, supply, drift) && OnlyOrder(st, st', o)
    requires forall p :: Matches(cfg, st, st', o, p)
    ensures Accounted(cfg, st', supply, drift)
  {
    forall p
      ensures Conserved(cfg, st', supply, p) && Balanced(cfg, st', drift, p)
    {
      assert Conserved(cfg, st, supply, p) && Balanced(cfg, st, drift, p) && Matches(cfg, st, st', o, p);
      HeldMoves(st, st', o, p);
      ReservedMoves(st, st', o, p);
      GapMoves(st, st', o, p);
    }
  }

  /** A change that leaves every order alone. */
  ghost predicate SameOrders(st: Stores, st': Stores) {
    && st'.redis.reservations == st.redis.reservations
    && st'.db.deducts == st.db.deducts && st'.db.reverts == st.db.reverts
  }

  lemma NoOrderMoves(cfg: Config, st: Stores, st': Stores, supply: Totals, drift: Totals, supply': Totals,
                     drift': Totals)
    requires Accounted(cfg, st, supply, drift) && SameOrders(st, st')
    requires forall p :: Moved(cfg, st, st', p) ==
                         Moves(Of(supply', p) - Of(supply, p), 0,
                             Of(supply', p) - Of(supply, p) + Of(drift', p) - Of(drift, p))
    ensures Accounted(cfg, st', supply', drift')
  {
    forall p
      ensures Conserved(cfg, st', supply', p) && Balanced(cfg, st', drift', p)
    {
      assert Conserved(cfg, st, supply, p) && Balanced(cfg, st, drift, p);
      assert Moved(cfg, st, st', p).counter == 0;
      SumSame(Orders(st), HeldOf(st, p), HeldOf(st', p));
      SumSame(Orders(st), ReservedOf(st, p), ReservedOf(st', p));
      SumSame(Orders(st), GapOf(st, p), GapOf(st', p));
    }
  }

  /** The reserved counter covers each reserved order, so lowering it never has to clamp. */
  lemma CounterCovers(cfg: Config, st: Stores, supply: Totals, o: OrderId)
    requires Shape(cfg, st) && o in st.redis.reservations && st.redis.reservations[o].status == Reserved
    requires Conserved(cfg, st, supply, st.redis.reservations[o].productId)
    ensures Counter(st.redis, st.redis.reservations[o].productId) >= st.redis.reservations[o].quantity
  {
    var p := st.redis.reservations[o].productId;
    SumNonNegative(Orders(st), ReservedOf(st, p));
    assert ReservedOf(st, p)(o) == st.redis.reservations[o].quantity;
  }

  // ------------------------------------------------------------------------------------------------------------
  // Every Redis script and every transaction keeps the accounts
  // ------------------------------------------------------------------------------------------------------------

  /** What a script or transaction on one order must do to keep the invariant. */
  ghost predicate OrderStep(cfg: Config, st: Stores, st': Stores, o: OrderId) {
    && Shape(cfg, st') && Tracked(st'.redis) && OnlyOrder(st, st', o)
    && forall p :: Matches(cfg, st, st', o, p)
  }

  lemma OrderStepKeeps(cfg: Config, st: Stores, st': Stores, supply: Totals, drift: Totals, o: OrderId)
    requires StoreInv(cfg, st, supply, drift) && OrderStep(cfg, st, st', o)
    ensures StoreInv(cfg, st', supply, drift)
  {
    OrderMoves(cfg, st, st', supply, drift, o);
  }

  function Reserve(cfg: Config, st: Stores, o: OrderId, p: ProductId, q: int, now: int): Stores
    requires ValidConfig(cfg)
  {
    st.(redis := ReserveScript(st.redis, cfg.shardCount, StartIndex(cfg.crc32, o, cfg.shardCount), o, p, q, now).0)
  }

  lemma ReserveShape(cfg: Config, st: Stores, o: OrderId, p: ProductId, q: int, now: int)
    requires ValidConfig(cfg) && Shape(cfg, st) && Tracked(st.redis) && p > 0 && q > 0 && o !in st.redis.reservations
    requires FirstFit(Row(st.redis.stock, p, cfg.shardCount), StartIndex(cfg.crc32, o, cfg.shardCount), q, 0).Some?
    ensures var st' := Reserve(cfg, st, o, p, q, now);
            Shape(cfg, st') && Tracked(st'.redis) && OnlyOrder(st, st', o)
  {
    var row, start := Row(st.redis.stock, p, cfg.shardCount), StartIndex(cfg.crc32, o, cfg.shardCount);
    FirstFitComplete(row, start, q);
    var idx := FirstFit(row, start, q, 0).value;
    assert row[idx] == Some(Get(st.redis.stock, p, idx));
  }

  lemma ReserveMatches(cfg: Config, st: Stores, o: OrderId, p: ProductId, q: int, now: int, p': ProductId)
    requires ValidConfig(cfg) && o !in st.redis.reservations
    requires FirstFit(Row(st.redis.stock, p, cfg.shardCount), StartIndex(cfg.crc32, o, cfg.shardCount), q, 0).Some?
    requires o !in st.db.deducts
    ensures Matches(cfg, st, Reserve(cfg, st, o, p, q, now), o, p')
  {
    var n := cfg.shardCount;
    var idx := FirstFit(Row(st.redis.stock, p, n), StartIndex(cfg.crc32, o, n), q, 0).value;
    RowSet(st.redis.stock, p, n, idx, Get(st.redis.stock, p, idx) - q);
  }

  lemma ReserveKeeps(cfg: Config, st: Stores, supply: Totals, drift: Totals, o: OrderId, p: ProductId, q: int, now: int)
    requires ValidConfig(cfg) && StoreInv(cfg, st, supply, drift) && p > 0 && q > 0
    ensures StoreInv(cfg, Reserve(cfg, st, o, p, q, now), supply, drift)
  {
    var n := cfg.shardCount;
    if o !in st.redis.reservations && FirstFit(Row(st.redis.stock, p, n), StartIndex(cfg.crc32, o, n), q, 0).Some? {
      ReserveShape(cfg, st, o, p, q, now);
      forall p' {
        ReserveMatches(cfg, st, o, p, q, now, p');
      }
      OrderStepKeeps(cfg, st, Reserve(cfg, st, o, p, q, now), supply, drift, o);
    }
  }

  function Confirm(cfg: Config, st: Stores, o: OrderId): Stores {
    st.(redis := ConfirmScript(st.redis, o, cfg.finalDeduct).0)
  }

  lemma ConfirmShape(cfg: Config, st: Stores, o: OrderId)
    requires Shape(cfg, st) && o in st.redis.reservations
    ensures Shape(cfg, Confirm(cfg, st, o))
    ensures Confirm(cfg, st, o).redis.reservations[o].status != Reserved
  {
  }

  lemma ConfirmTracked(cfg: Config, st: Stores, o: OrderId)
    requires Tracked(st.redis) && o in st.redis.reservations
    ensures Tracked(Confirm(cfg, st, o).redis)
  {
  }

  lemma ConfirmOnly(cfg: Config, st: Stores, o: OrderId)
    requires o in st.redis.reservations
    ensures OnlyOrder(st, Confirm(cfg, st, o), o)
  {
  }

  /** Everything the confirm script does to a known order. */
  lemma ConfirmEffect(r: Redis, o: OrderId, finalDeduct: bool)
    requires o in r.reservations
    ensures var r' := ConfirmScript(r, o, finalDeduct).0;
            var v := r.reservations[o];
            && r'.stock == r.stock && r'.processing == r.processing && r'.dead == r.dead && r'.retries == r.retries
            && r'.reservations == r.reservations[o := if v.status == Released then v else v.(status := Confirmed)]
            && r'.counter == (if v.status == Reserved && v.quantity > 0
                 then Lowered(r, v.productId, v.quantity) else r.counter)
            && r'.expiry == (if v.status == Released then r.expiry else Without(r.expiry, o))
  {
  }

  /** While the counter covers the order, the clamp does not fire. */
  predicate Covered(st: Stores, o: OrderId) {
    o in st.redis.reservations
    && (st.redis.reservations[o].status == Reserved ==>
          Counter(st.redis, st.redis.reservations[o].productId) >= st.redis.reservations[o].quantity)
  }

  lemma CoveredByInv(cfg: Config, st: Stores, supply: Totals, drift: Totals, o: OrderId)
    requires StoreInv(cfg, st, supply, drift) && o in st.redis.reservations
    ensures Covered(st, o)
  {
    if st.redis.reservations[o].status == Reserved {
      assert Conserved(cfg, st, supply, st.redis.reservations[o].productId);
      CounterCovers(cfg, st, supply, o);
    }
  }

  lemma ConfirmMatches(cfg: Config, st: Stores, o: OrderId, p: ProductId)
    requires Covered(st, o) && ValidReservation(cfg, st.redis.reservations[o])
    requires o in st.db.deducts ==> st.redis.reservations[o].status != Reserved
    requires o in st.db.reverts ==> o in st.db.deducts
    ensures Matches(cfg, st, Confirm(cfg, st, o), o, p)
  {
    var st', v := Confirm(cfg, st, o), st.redis.reservations[o];
    ConfirmEffect(st.redis, o, cfg.finalDeduct);
    assert Available(st'.redis, p, cfg.shardCount) == Available(st.redis, p, cfg.shardCount);
    assert st'.redis.reservations[o] == if v.status == Released then v else v.(status := Confirmed);
    assert Counter(st'.redis, p) == Counter(st.redis, p) - if v.status == Reserved && v.productId == p
           then v.quantity else 0;
  }

  lemma ConfirmKeeps(cfg: Config, st: Stores, supply: Totals, drift: Totals, o: OrderId)
    requires StoreInv(cfg, st, supply, drift)
    ensures StoreInv(cfg, Confirm(cfg, st, o), supply, drift)
  {
    if o in st.redis.reservations {
      CoveredByInv(cfg, st, supply, drift, o);
      ConfirmShape(cfg, st, o);
      ConfirmTracked(cfg, st, o);
      ConfirmOnly(cfg, st, o);
      forall p {
        ConfirmMatches(cfg, st, o, p);
      }
      OrderStepKeeps(cfg, st, Confirm(cfg, st, o), supply, drift, o);
    }
  }

  function Release(cfg: Config, st: Stores, o: OrderId, p: ProductId): Stores {
    st.(redis := ReleaseScript(st.redis, cfg.shardCount, o, p))
  }

  /** Everything the release script does to a known order that is still live. */
  lemma ReleaseEffect(cfg: Config, r: Redis, o: OrderId, p: ProductId)
    requires o in r.reservations && r.reservations[o].status != Released
    requires ValidReservation(cfg, r.reservations[o])
    ensures var r' := ReleaseScript(r, cfg.shardCount, o, p);
            var v := r.reservations[o];
            && r'.stock == r.stock[(p, v.shardIndex - 1) := Get(r.stock, p, v.shardIndex - 1) + v.quantity]
            && r'.processing == r.processing && r'.dead == r.dead && r'.retries == r.retries
            && r'.reservations == r.reservations[o := v.(status := Released)]
            && r'.counter == (if v.status == Reserved then Lowered(r, p, v.quantity) else r.counter)
            && r'.expiry == Without(r.expiry, o)
  {
  }

  lemma ReleaseShape(cfg: Config, st: Stores, o: OrderId, p: ProductId)
    requires Shape(cfg, st) && o in st.redis.reservations
    ensures Shape(cfg, Release(cfg, st, o, p))
    ensures Release(cfg, st, o, p).redis.reservations[o].status == Released
  {
    if st.redis.reservations[o].status != Released {
      ReleaseEffect(cfg, st.redis, o, p);
    }
  }

  lemma ReleaseTracked(cfg: Config, st: Stores, o: OrderId, p: ProductId)
    requires Tracked(st.redis) && o in st.redis.reservations
    ensures Tracked(Release(cfg, st, o, p).redis)
  {
  }

  lemma ReleaseOnly(cfg: Config, st: Stores, o: OrderId, p: ProductId)
    requires o in st.redis.reservations
    ensures OnlyOrder(st, Release(cfg, st, o, p), o)
  {
  }

  lemma ReleaseMatches(cfg: Config, st: Stores, o: OrderId, p: ProductId, p': ProductId)
    requires Covered(st, o) && ValidReservation(cfg, st.redis.reservations[o])
    requires st.redis.reservations[o].productId == p
    requires o in st.db.deducts ==> st.redis.reservations[o].status != Reserved
    requires o in st.db.reverts ==> o in st.db.deducts
    ensures Matches(cfg, st, Release(cfg, st, o, p), o, p')
  {
    var st', v := Release(cfg, st, o, p), st.redis.reservations[o];
    if v.status != Released {
      ReleaseEffect(cfg, st.redis, o, p);
      RowSet(st.redis.stock, p, cfg.shardCount, v.shardIndex - 1,
          Get(st.redis.stock, p, v.shardIndex - 1) + v.quantity);
      assert Available(st'.redis, p', cfg.shardCount) == Available(st.redis, p', cfg.shardCount) + if p' == p
             then v.quantity else 0;
      assert Counter(st'.redis, p') == Counter(st.redis, p') - if v.status == Reserved && p' == p
             then v.quantity else 0;
    }
  }

  lemma ReleaseKeeps(cfg: Config, st: Stores, supply: Totals, drift: Totals, o: OrderId, p: ProductId)
    requires ValidConfig(cfg) && StoreInv(cfg, st, supply, drift)
    requires o in st.redis.reservations && st.redis.reservations[o].productId == p
    ensures StoreInv(cfg, Release(cfg, st, o, p), supply, drift)
  {
    CoveredByInv(cfg, st, supply, drift, o);
    ReleaseShape(cfg, st, o, p);
    ReleaseTracked(cfg, st, o, p);
    ReleaseOnly(cfg, st, o, p);
    forall p' {
      ReleaseMatches(cfg, st, o, p, p');
    }
    OrderStepKeeps(cfg, st, Release(cfg, st, o, p), supply, drift, o);
  }

  function Mark(st: Stores, o: OrderId): Stores {
    st.(redis := MarkDeductedScript(st.redis, o))
  }

  lemma MarkShape(cfg: Config, st: Stores, o: OrderId)
    requires Shape(cfg, st) && Tracked(st.redis) && o in st.redis.reservations
    ensures Shape(cfg, Mark(st, o)) && Tracked(Mark(st, o).redis) && OnlyOrder(st, Mark(st, o), o)
  {
  }

  lemma MarkMatches(cfg: Config, st: Stores, o: OrderId, p: ProductId)
    requires o in st.redis.reservations
    ensures Matches(cfg, st, Mark(st, o), o, p)
  {
  }

  lemma MarkKeeps(cfg: Config, st: Stores, supply: Totals, drift: Totals, o: OrderId)
    requires StoreInv(cfg, st, supply, drift) && o in st.redis.reservations
    ensures StoreInv(cfg, Mark(st, o), supply, drift)
  {
    MarkShape(cfg, st, o);
    forall p {
      MarkMatches(cfg, st, o, p);
    }
    OrderStepKeeps(cfg, st, Mark(st, o), supply, drift, o);
  }

  function Deduct(cfg: Config, st: Stores, o: OrderId, p: ProductId, q: int): Stores
    requires ValidConfig(cfg)
  {
    st.(db := DeductTx(st.db, o, p, q, StartIndex(cfg.crc32, o, cfg.shardCount)).0)
  }

  lemma DeductShape(cfg: Config, st: Stores, o: OrderId, p: ProductId, q: int)
    requires ValidConfig(cfg) && Shape(cfg, st) && Has(st, o, p, q) && st.redis.reservations[o].status != Reserved
    ensures Shape(cfg, Deduct(cfg, st, o, p, q)) && OnlyOrder(st, Deduct(cfg, st, o, p, q), o)
  {
    DeductEffect(st.db, o, p, q, StartIndex(cfg.crc32, o, cfg.shardCount));
  }

  lemma NothingMatches(cfg: Config, st: Stores, o: OrderId, p: ProductId)
    ensures Matches(cfg, st, st, o, p)
  {
  }

  /** An order past its reservation that gets its deduction: the gap goes down by its quantity. */
  lemma DeductGap(st: Stores, st': Stores, o: OrderId, p: ProductId, q: int, p': ProductId)
    requires Has(st, o, p, q) && st.redis.reservations[o].status != Reserved && st'.redis == st.redis
    requires o !in st.db.deducts && o !in st.db.reverts && o in st'.db.deducts && o !in st'.db.reverts
    ensures GapAt(st', p', o) == GapAt(st, p', o) - (if p' == p then q else 0)
  {
  }

  lemma DeductMatches(cfg: Config, st: Stores, o: OrderId, p: ProductId, q: int, p': ProductId)
    requires ValidConfig(cfg) && BucketsNonNegative(st.db) && q > 0 && Has(st, o, p, q)
    requires st.redis.reservations[o].status != Reserved
    requires o in st.db.reverts ==> o in st.db.deducts
    ensures Matches(cfg, st, Deduct(cfg, st, o, p, q), o, p')
  {
    var preferred := StartIndex(cfg.crc32, o, cfg.shardCount);
    if o in st.db.deducts || DeductTx(st.db, o, p, q, preferred).1 != Ok {
      assert Deduct(cfg, st, o, p, q) == st;
      NothingMatches(cfg, st, o, p');
    } else {
      DeductEffect(st.db, o, p, q, preferred);
      DeductGap(st, Deduct(cfg, st, o, p, q), o, p, q, p');
    }
  }

  lemma DeductKeeps(cfg: Config, st: Stores, supply: Totals, drift: Totals, o: OrderId, p: ProductId, q: int)
    requires ValidConfig(cfg) && StoreInv(cfg, st, supply, drift)
    requires Has(st, o, p, q) && st.redis.reservations[o].status != Reserved
    ensures StoreInv(cfg, Deduct(cfg, st, o, p, q), supply, drift)
  {
    DeductShape(cfg, st, o, p, q);
    forall p' {
      DeductMatches(cfg, st, o, p, q, p');
    }
    OrderStepKeeps(cfg, st, Deduct(cfg, st, o, p, q), supply, drift, o);
  }

  function Revert(st: Stores, o: OrderId, p: ProductId, q: int): Stores {
    st.(db := RevertTx(st.db, o, p, q))
  }

  lemma RevertShape(cfg: Config, st: Stores, o: OrderId, p: ProductId, q: int)
    requires Shape(cfg, st) && Has(st, o, p, q)
    ensures Shape(cfg, Revert(st, o, p, q)) && OnlyOrder(st, Revert(st, o, p, q), o)
  {
    RevertEffect(st.db, o, p, q);
  }

  lemma RevertMatches(cfg: Config, st: Stores, o: OrderId, p: ProductId, q: int, p': ProductId)
    requires BucketsNonNegative(st.db) && q > 0 && Has(st, o, p, q)
    requires o in st.db.deducts ==> st.redis.reservations[o].status != Reserved
    ensures Matches(cfg, st, Revert(st, o, p, q), o, p')
  {
    RevertEffect(st.db, o, p, q);
  }

  lemma RevertKeeps(cfg: Config, st: Stores, supply: Totals, drift: Totals, o: OrderId, p: ProductId, q: int)
    requires StoreInv(cfg, st, supply, drift) && Has(st, o, p, q)
    ensures StoreInv(cfg, Revert(st, o, p, q), supply, drift)
  {
    RevertShape(cfg, st, o, p, q);
    forall p' {
      RevertMatches(cfg, st, o, p, q, p');
    }
    OrderStepKeeps(cfg, st, Revert(st, o, p, q), supply, drift, o);
  }

  /** A change of the ledger alone moves no account. */
  lemma LedgerKeeps(cfg: Config, st: Stores, supply: Totals, drift: Totals, db: Db)
    requires StoreInv(cfg, st, supply, drift)
    requires db == st.db.(ledger := db.ledger)
    requires forall o :: o in db.ledger ==> Has(st, o, db.ledger[o].productId, db.ledger[o].quantity)
    ensures StoreInv(cfg, st.(db := db), supply, drift)
  {
    NoOrderMoves(cfg, st, st.(db := db), supply, drift, supply, drift);
  }

  function AdjustBucket(st: Stores, p: ProductId, delta: int, bucket: int): Stores {
    st.(db := AdjustTx(st.db, p, delta, bucket).0)
  }

  lemma AdjustBucketMoves(cfg: Config, st: Stores, p: ProductId, delta: int, bucket: int, p': ProductId)
    requires BucketsNonNegative(st.db)
    ensures Moved(cfg, st, AdjustBucket(st, p, delta, bucket), p')
            == Moves(0, 0, if p' == p && AdjustTx(st.db, p, delta, bucket).1 == Ok then delta else 0)
  {
    AdjustTxEffect(st.db, p, delta, bucket);
  }

  lemma AdjustBucketKeeps(cfg: Config, st: Stores, supply: Totals, drift: Totals, p: ProductId, delta: int, bucket: int)
    requires StoreInv(cfg, st, supply, drift)
    ensures StoreInv(cfg, AdjustBucket(st, p, delta, bucket), supply,
                     if AdjustTx(st.db, p, delta, bucket).1 == Ok then Plus(drift, p, delta) else drift)
  {
    var st' := AdjustBucket(st, p, delta, bucket);
    var drift' := if AdjustTx(st.db, p, delta, bucket).1 == Ok then Plus(drift, p, delta) else drift;
    AdjustBucketShape(cfg, st, p, delta, bucket);
    forall p'
      ensures Moved(cfg, st, st', p') == Moves(0, 0, Of(drift', p') - Of(drift, p'))
    {
      AdjustBucketMoves(cfg, st, p, delta, bucket, p');
    }
    NoOrderMoves(cfg, st, st', supply, drift, supply, drift');
  }

  lemma AdjustBucketShape(cfg: Config, st: Stores, p: ProductId, delta: int, bucket: int)
    requires Shape(cfg, st)
    ensures Shape(cfg, AdjustBucket(st, p, delta, bucket)) && SameOrders(st, AdjustBucket(st, p, delta, bucket))
  {
    AdjustTxEffect(st.db, p, delta, bucket);
  }

  function AdjustShards(cfg: Config, st: Stores, p: ProductId, delta: int, bucket: int): Stores
    requires ValidConfig(cfg)
  {
    st.(redis := AdjustScript(st.redis, cfg.shardCount, p, delta, AdjustStart(cfg, bucket)).0)
  }

  lemma AdjustShardsShape(cfg: Config, st: Stores, p: ProductId, delta: int, bucket: int)
    requires ValidConfig(cfg) && Shape(cfg, st) && Tracked(st.redis)
    ensures var st' := AdjustShards(cfg, st, p, delta, bucket);
            Shape(cfg, st') && Tracked(st'.redis) && SameOrders(st, st')
  {
    AdjustEffect(st.redis, cfg.shardCount, p, delta, AdjustStart(cfg, bucket));
  }

  lemma AdjustShardsMoves(cfg: Config, st: Stores, p: ProductId, delta: int, bucket: int, p': ProductId)
    requires ValidConfig(cfg) && ShardsNonNegative(st.redis)
    ensures var code := AdjustScript(st.redis, cfg.shardCount, p, delta, AdjustStart(cfg, bucket)).1;
            Moved(cfg, st, AdjustShards(cfg, st, p, delta, bucket), p')
                == Moves(if p' == p && code == 1 then delta else 0, 0, 0)
  {
    AdjustEffect(st.redis, cfg.shardCount, p, delta, AdjustStart(cfg, bucket));
  }

  lemma AdjustShardsKeeps(cfg: Config, st: Stores, supply: Totals, drift: Totals, p: ProductId, delta: int, bucket: int)
    requires ValidConfig(cfg) && StoreInv(cfg, st, supply, drift)
    ensures var code := AdjustScript(st.redis, cfg.shardCount, p, delta, AdjustStart(cfg, bucket)).1;
            StoreInv(cfg, AdjustShards(cfg, st, p, delta, bucket),
                     if code == 1 then Plus(supply, p, delta) else supply, if code == 1
                         then Plus(drift, p, -delta) else drift)
  {
    var code := AdjustScript(st.redis, cfg.shardCount, p, delta, AdjustStart(cfg, bucket)).1;
    var st' := AdjustShards(cfg, st, p, delta, bucket);
    var supply' := if code == 1 then Plus(supply, p, delta) else supply;
    var drift' := if code == 1 then Plus(drift, p, -delta) else drift;
    AdjustShardsShape(cfg, st, p, delta, bucket);
    forall p'
      ensures Moved(cfg, st, st', p')
              == Moves(Of(supply', p') - Of(supply, p'), 0,
                  Of(supply', p') - Of(supply, p') + Of(drift', p') - Of(drift, p'))
    {
      AdjustShardsMoves(cfg, st, p, delta, bucket, p');
    }
    NoOrderMoves(cfg, st, st', supply, drift, supply', drift');
  }

  /** Moving orders between the reaper's sets moves no account. */
  lemma ReaperKeeps(cfg: Config, st: Stores, supply: Totals, drift: Totals, r: Redis)
    requires StoreInv(cfg, st, supply, drift) && Tracked(r)
    requires r == st.redis.(expiry := r.expiry, processing := r.processing, retries := r.retries, dead := r.dead)
    ensures StoreInv(cfg, st.(redis := r), supply, drift)
  {
    NoOrderMoves(cfg, st, st.(redis := r), supply, drift, supply, drift);
  }
}
