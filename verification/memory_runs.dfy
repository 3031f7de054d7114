/** Whole runs: a sequence of operations answered by Redis and by the memory repository side by side. */
module MemoryRuns {
  import opened Wrappers
  import opened Sums
  import opened Shards
  import opened RedisScripts
  import opened StockPersistence
  import opened StockCommands
  import opened Memory
  import A = Accounts

  /** `start` is the shard index the operation starts its scan from: 0-based for reserve, 1-based for adjust. */
  datatype Op =
    | DoSeed(p: ProductId, total: int)
    | DoAdjust(p: ProductId, delta: int, start: nat)
    | DoReserve(o: OrderId, p: ProductId, q: int, start: nat, now: int)
    | DoConfirm(o: OrderId)
    | DoRelease(o: OrderId)

  ghost function OnRedis(r: Redis, n: nat, finalDeduct: bool, op: Op): (Redis, Outcome)
    requires InRange(op, n)
  {
    match op
    case DoSeed(p, total) => (SeedRedisState(r, p, total, 0, n), Ok)
    case DoAdjust(p, delta, start) =>
      if !HasStock(r, p, n) then (r, NotFound)
      else (AdjustScript(r, n, p, delta, start).0, CodeOutcome(AdjustScript(r, n, p, delta, start).1))
    case DoReserve(o, p, q, start, now) =>
      (ReserveScript(r, n, start, o, p, q, now).0, CodeOutcome(ReserveScript(r, n, start, o, p, q, now).1))
    case DoConfirm(o) => (ConfirmScript(r, o, finalDeduct).0, Ok)
    case DoRelease(o) => (ReleaseScript(r, n, o, GetReservationScript(r, o).productId), Ok)
  }

  function InMemory(m: MemoryState, op: Op): (MemoryState, Outcome) {
    match op
    case DoSeed(p, total) => (Seed(m, p, total), Ok)
    case DoAdjust(p, delta, _) => Adjust(m, p, delta)
    case DoReserve(o, p, q, _, _) => Reserve(m, o, p, q)
    case DoConfirm(o) => (Confirm(m, o), Ok)
    case DoRelease(o) => (Release(m, o), Ok)
  }

  predicate InRange(op: Op, n: nat) {
    && n > 0
    && (op.DoAdjust? ==> 1 <= op.start <= n)
    && (op.DoReserve? ==> op.start < n && op.p > 0 && op.q > 0)
  }

  /** The operations on which Redis and memory are known to part: releasing a confirmed order, a zero adjust of an
      empty product; and seeding under live reservations, which resets a counter they rely on. */
  ghost predicate Parting(r: Redis, n: nat, op: Op) {
    match op
    case DoSeed(p, _) => exists o ::
        o in r.reservations && r.reservations[o].status == Reserved && r.reservations[o].productId == p
    case DoAdjust(p, delta, _) => Idle(r, p, n, delta)
    case DoRelease(o) => o in r.reservations && r.reservations[o].status == Confirmed
    case _ => false
  }

  ghost predicate Splintered(r: Redis, n: nat, op: Op) {
    op.DoReserve? && op.o !in r.reservations && Fragmented(r, n, op.p, op.q)
  }

  // ------------------------------------------------------------------------------------------------------------
  // Every operation keeps Redis sane
  // ------------------------------------------------------------------------------------------------------------

  ghost predicate AllExact(r: Redis) {
    forall p :: Exact(r, p)
  }

  lemma ExactMoves(r: Redis, r': Redis, o: OrderId)
    requires AllExact(r) && A.OnlyOrder(Alone(r), Alone(r'), o)
    requires forall p :: Counter(r', p) - Counter(r, p) == A.ReservedAt(Alone(r'), p, o) - A.ReservedAt(Alone(r), p, o)
    ensures AllExact(r')
  {
    forall p
      ensures Exact(r', p)
    {
      assert Exact(r, p);
      A.ReservedMoves(Alone(r), Alone(r'), o, p);
    }
  }

  lemma PlacedSane(r: Redis, n: nat, o: OrderId, p: ProductId, q: int, idx: nat, now: int)
    requires Sane(r, n) && p > 0 && q > 0 && o !in r.reservations && idx < n && Fits(Row(r.stock, p, n)[idx], q)
    ensures Sane(Placed(r, o, p, q, idx, now), n)
  {
    var r' := Placed(r, o, p, q, idx, now);
    assert Row(r.stock, p, n)[idx] == Some(Get(r.stock, p, idx));
    KeyView(r, r', n, p, idx, Get(r.stock, p, idx) - q);
    forall o' | o' in r'.reservations
      ensures SaneOrder(r', n, o')
    {
      assert o' != o ==> SaneOrder(r, n, o');
    }
    ExactMoves(r, r', o);
  }

  lemma ReserveSane(r: Redis, n: nat, start: nat, o: OrderId, p: ProductId, q: int, now: int)
    requires start < n && Sane(r, n) && p > 0 && q > 0
    ensures Sane(ReserveScript(r, n, start, o, p, q, now).0, n)
  {
    var row := Row(r.stock, p, n);
    FirstFitComplete(row, start, q);
    if o !in r.reservations && FirstFit(row, start, q, 0).Some? {
      var idx := FirstFit(row, start, q, 0).value;
      assert ReserveScript(r, n, start, o, p, q, now) == (Placed(r, o, p, q, idx, now), 1);
      PlacedSane(r, n, o, p, q, idx, now);
    }
  }

  lemma ConfirmSane(r: Redis, n: nat, o: OrderId, finalDeduct: bool)
    requires Sane(r, n)
    ensures Sane(ConfirmScript(r, o, finalDeduct).0, n)
  {
    if o in r.reservations {
      var r' := ConfirmScript(r, o, finalDeduct).0;
      A.ConfirmEffect(r, o, finalDeduct);
      if r.reservations[o].status == Reserved {
        Covers(r, n, o);
      }
      SameKeys(r, r', n);
      ConfirmSaneOrders(r, n, o, finalDeduct);
      assert SaneOrder(r, n, o);
      ExactMoves(r, r', o);
    }
  }

  lemma ConfirmSaneOrders(r: Redis, n: nat, o: OrderId, finalDeduct: bool)
    requires Sane(r, n)
    ensures var r' := ConfirmScript(r, o, finalDeduct).0; forall o' :: o' in r'.reservations ==> SaneOrder(r', n, o')
  {
    var r' := ConfirmScript(r, o, finalDeduct).0;
    forall o' | o' in r'.reservations
      ensures SaneOrder(r', n, o')
    {
      assert SaneOrder(r, n, o');
    }
  }

  lemma ReleaseSane(r: Redis, n: nat, o: OrderId)
    requires Sane(r, n) && o in r.reservations && r.reservations[o].status == Reserved
    ensures Sane(ReleaseScript(r, n, o, r.reservations[o].productId), n)
  {
    var v := r.reservations[o];
    var r' := ReleaseScript(r, n, o, v.productId);
    assert SaneOrder(r, n, o);
    Covers(r, n, o);
    KeyView(r, r', n, v.productId, v.shardIndex - 1, Get(r.stock, v.productId, v.shardIndex - 1) + v.quantity);
    forall o' | o' in r'.reservations
      ensures SaneOrder(r', n, o')
    {
      assert SaneOrder(r, n, o');
    }
    ExactMoves(r, r', o);
  }

  lemma SameLiveReserved(r: Redis, r': Redis, p: ProductId)
    requires r'.reservations == r.reservations
    ensures A.LiveReserved(Alone(r'), p) == A.LiveReserved(Alone(r), p)
  {
    SumSame(A.Orders(Alone(r)), A.ReservedOf(Alone(r), p), A.ReservedOf(Alone(r'), p));
  }

  lemma AdjustSane(r: Redis, n: nat, p: ProductId, delta: int, start: nat)
    requires 1 <= start <= n && Sane(r, n) && HasStock(r, p, n)
    ensures Sane(AdjustScript(r, n, p, delta, start).0, n)
  {
    var r' := AdjustScript(r, n, p, delta, start).0;
    AdjustEffect(r, n, p, delta, start);
    forall o | o in r'.reservations
      ensures SaneOrder(r', n, o)
    {
      assert SaneOrder(r, n, o);
      DrainKeepsKeys(r, n, p, delta, start, r.reservations[o].productId);
    }
    forall p'
      ensures Exact(r', p')
    {
      assert Exact(r, p');
      SameLiveReserved(r, r', p');
    }
  }

  lemma SeedKeys(r: Redis, n: nat, p: ProductId, total: int)
    requires n > 0 && ShardsNonNegative(r)
    ensures var r' := SeedRedisState(r, p, total, 0, n);
            ShardsNonNegative(r') && forall p' :: HasStock(r, p', n) ==> HasStock(r', p', n)
  {
    var r' := SeedRedisState(r, p, total, 0, n);
    SplitSumsBack(total, n);
    SetShardsKeys(r.stock, p, Split(total, n), 0);
    forall p' | HasStock(r, p', n)
      ensures HasStock(r', p', n)
    {
      var i :| 0 <= i < n && Row(r.stock, p', n)[i].Some?;
      assert Row(r'.stock, p', n)[i].Some?;
    }
  }

  lemma SeedSane(r: Redis, n: nat, p: ProductId, total: int)
    requires n > 0 && Sane(r, n) && !Parting(r, n, DoSeed(p, total))
    ensures Sane(SeedRedisState(r, p, total, 0, n), n)
  {
    var r' := SeedRedisState(r, p, total, 0, n);
    SeedKeys(r, n, p, total);
    forall o | o in r'.reservations
      ensures SaneOrder(r', n, o)
    {
      assert SaneOrder(r, n, o);
    }
    forall p'
      ensures Exact(r', p')
    {
      assert Exact(r, p');
      SameLiveReserved(r, r', p');
      if p' == p {
        SumZero(A.Orders(Alone(r)), A.ReservedOf(Alone(r), p));
      }
    }
  }

  // ------------------------------------------------------------------------------------------------------------
  // The simulation
  // ------------------------------------------------------------------------------------------------------------

  /** One operation on related states: the same answer, exactly unless a reserve is refused for want of one large
      enough shard; and related states again, memory standing still with Redis on such a refusal. */
  lemma OpRefines(r: Redis, n: nat, m: MemoryState, finalDeduct: bool, op: Op)
    requires InRange(op, n) && Sane(r, n) && Refines(r, n, m) && !Parting(r, n, op)
    ensures var (r', out) := OnRedis(r, n, finalDeduct, op);
            var (m', expected) := InMemory(m, op);
            && Sane(r', n)
            && (out == expected <==> !Splintered(r, n, op))
            && (if out == expected then Refines(r', n, m') else out == Insufficient && expected == Ok && r' == r)
  {
    match op {
      case DoSeed(p, total) =>
        SeedSane(r, n, p, total);
        SeedRefines(r, n, m, p, total);
      case DoAdjust(p, delta, start) =>
        assert MatchesStock(r, n, m, p);
        if HasStock(r, p, n) {
          AdjustSane(r, n, p, delta, start);
          AdjustRefines(r, n, m, p, delta, start);
        }
      case DoReserve(o, p, q, start, now) =>
        ReserveSane(r, n, start, o, p, q, now);
        ReserveRefines(r, n, m, start, o, p, q, now);
      case DoConfirm(o) =>
        ConfirmSane(r, n, o, finalDeduct);
        ConfirmRefines(r, n, m, o, finalDeduct);
      case DoRelease(o) =>
        if o in r.reservations && r.reservations[o].status == Reserved {
          ReleaseSane(r, n, o);
        }
        ReleaseRefines(r, n, m, o, GetReservationScript(r, o).productId);
    }
  }

  /** What Redis answers over a run, and where it ends. */
  ghost function RedisRun(r: Redis, n: nat, finalDeduct: bool, ops: seq<Op>): (Redis, seq<Outcome>)
    requires forall op :: op in ops ==> InRange(op, n)
    decreases |ops|
  {
    if ops == [] then (r, [])
    else
      var (r1, out) := OnRedis(r, n, finalDeduct, ops[0]);
      var (r', outs) := RedisRun(r1, n, finalDeduct, ops[1..]);
      (r', [out] + outs)
  }

  /** The memory repository over the same run: it gives every answer that Redis gives, except that a reserve refused
      for want of one large enough shard, and only such a one, is left out of it. */
  ghost predicate MemoryRun(r: Redis, n: nat, finalDeduct: bool, m: MemoryState, ops: seq<Op>, m': MemoryState)
    requires forall op :: op in ops ==> InRange(op, n)
    decreases |ops|
  {
    if ops == [] then m' == m
    else
      var ((r1, out), (m1, expected)) := (OnRedis(r, n, finalDeduct, ops[0]), InMemory(m, ops[0]));
      if Splintered(r, n, ops[0])
      then out == Insufficient && expected == Ok && MemoryRun(r1, n, finalDeduct, m, ops[1..], m')
      else out == expected && MemoryRun(r1, n, finalDeduct, m1, ops[1..], m')
  }

  ghost predicate NeverParting(r: Redis, n: nat, finalDeduct: bool, ops: seq<Op>)
    requires forall op :: op in ops ==> InRange(op, n)
    decreases |ops|
  {
    ops == [] || (!Parting(r, n, ops[0])
        && NeverParting(OnRedis(r, n, finalDeduct, ops[0]).0, n, finalDeduct, ops[1..]))
  }

  ghost function MemoryEnd(r: Redis, n: nat, finalDeduct: bool, m: MemoryState, ops: seq<Op>): MemoryState
    requires forall op :: op in ops ==> InRange(op, n)
    decreases |ops|
  {
    if ops == [] then m
    else MemoryEnd(OnRedis(r, n, finalDeduct, ops[0]).0, n, finalDeduct,
                   if Splintered(r, n, ops[0]) then m else InMemory(m, ops[0]).0, ops[1..])
  }

  /** Every run of the sharded repository is a run of the memory repository with the same answers, exactly up to
      reserves that no single shard can hold, and ends in a state that abstracts to the memory state. */
  lemma {:induction false} RunRefines(r: Redis, n: nat, m: MemoryState, finalDeduct: bool, ops: seq<Op>)
    requires (forall op :: op in ops ==> InRange(op, n)) && Sane(r, n) && Refines(r, n, m)
    requires NeverParting(r, n, finalDeduct, ops)
    ensures var r', m' := RedisRun(r, n, finalDeduct, ops).0, MemoryEnd(r, n, finalDeduct, m, ops);
            MemoryRun(r, n, finalDeduct, m, ops, m') && Refines(r', n, m') && Sane(r', n)
    decreases |ops|
  {
    if ops != [] {
      OpRefines(r, n, m, finalDeduct, ops[0]);
      var r1 := OnRedis(r, n, finalDeduct, ops[0]).0;
      RunRefines(r1, n, if Splintered(r, n, ops[0]) then m else InMemory(m, ops[0]).0, finalDeduct, ops[1..]);
    }
  }

  ghost function MemoryAnswers(m: MemoryState, ops: seq<Op>): (MemoryState, seq<Outcome>)
    decreases |ops|
  {
    if ops == [] then (m, [])
    else
      var (m1, out) := InMemory(m, ops[0]);
      var (m', outs) := MemoryAnswers(m1, ops[1..]);
      (m', [out] + outs)
  }

  /** With one shard nothing is ever refused for fragmentation: the two repositories give the same answers
      throughout. */
  lemma {:induction false} RunRefinesOneShard(r: Redis, m: MemoryState, finalDeduct: bool, ops: seq<Op>)
    requires (forall op :: op in ops ==> InRange(op, 1)) && Sane(r, 1) && Refines(r, 1, m)
    requires NeverParting(r, 1, finalDeduct, ops)
    ensures RedisRun(r, 1, finalDeduct, ops).1 == MemoryAnswers(m, ops).1
    ensures Refines(RedisRun(r, 1, finalDeduct, ops).0, 1, MemoryAnswers(m, ops).0)
    decreases |ops|
  {
    if ops != [] {
      OpRefines(r, 1, m, finalDeduct, ops[0]);
      if ops[0].DoReserve? {
        OneShardFits(r, ops[0].p, ops[0].q);
      }
      RunRefinesOneShard(OnRedis(r, 1, finalDeduct, ops[0]).0, InMemory(m, ops[0]).0, finalDeduct, ops[1..]);
    }
  }

  /** The empty stores are related. */
  lemma EmptyRefines(n: nat)
    ensures Sane(EMPTY, n) && Refines(EMPTY, n, MemoryState(map[], map[]))
  {
    forall p
      ensures Exact(EMPTY, p)
    {
      assert A.Orders(Alone(EMPTY)) == {};
    }
  }
}
