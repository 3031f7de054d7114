/** The in-memory repository, and how the sharded Redis repository refines it. */
module Memory {
  import opened Wrappers
  import opened Sums
  import opened Shards
  import opened RedisScripts
  import opened StockPersistence
  import opened StockCommands
  import A = Accounts

  datatype Booking = Booking(productId: ProductId, quantity: int, status: Status)

  datatype MemoryState = MemoryState(stocks: map<ProductId, Stock>, reservations: map<OrderId, Booking>)

  const NO_STOCK := Stock(0, 0, 0)

  function Known(m: MemoryState, p: ProductId): Stock {
    if p in m.stocks then m.stocks[p] else NO_STOCK
  }

  /** The total never falls below what is available and reserved. */
  function Topped(s: Stock): Stock {
    if s.total < s.available + s.reserved then s.(total := s.available + s.reserved) else s
  }

  function Seed(m: MemoryState, p: ProductId, total: int): MemoryState {
    m.(stocks := m.stocks[p := Stock(Clamp(total), 0, Clamp(total))])
  }

  function Adjust(m: MemoryState, p: ProductId, delta: int): (MemoryState, Outcome) {
    if p !in m.stocks then (m, NotFound)
    else if m.stocks[p].available + delta < 0 then (m, Insufficient)
    else
      var s := m.stocks[p];
      (m.(stocks := m.stocks[p := Topped(s.(available := s.available + delta, total := s.total + delta))]), Ok)
  }

  function Reserve(m: MemoryState, o: OrderId, p: ProductId, q: int): (MemoryState, Outcome) {
    if o in m.reservations then
      (m, if m.reservations[o].productId != p || m.reservations[o].quantity != q then Conflict else Ok)
    else if p !in m.stocks then (m, NotFound)
    else if !(q > 0 && m.stocks[p].available >= q) then (m, Insufficient)
    else
      var s := m.stocks[p];
      (MemoryState(m.stocks[p := s.(available := s.available - q, reserved := s.reserved + q)],
                   m.reservations[o := Booking(p, q, Reserved)]), Ok)
  }

  function Confirm(m: MemoryState, o: OrderId): MemoryState {
    if o !in m.reservations || m.reservations[o].status != Reserved then m
    else
      var b := m.reservations[o];
      var s := Known(m, b.productId);
      MemoryState(m.stocks[b.productId := Topped(s.(reserved := Clamp(s.reserved - b.quantity),
          total := s.total - b.quantity))],
                  m.reservations[o := b.(status := Confirmed)])
  }

  function Release(m: MemoryState, o: OrderId): MemoryState {
    if o !in m.reservations || m.reservations[o].status != Reserved then m
    else
      var b := m.reservations[o];
      var s := Known(m, b.productId);
      MemoryState(m.stocks[b.productId := s.(available := s.available + b.quantity,
          reserved := Clamp(s.reserved - b.quantity))],
                  m.reservations[o := b.(status := Released)])
  }

  class MemoryStockRepository {
    var stocks: map<ProductId, Stock>
    var reservations: map<OrderId, Booking>

    constructor ()
      ensures Value() == MemoryState(map[], map[])
    {
      stocks, reservations := map[], map[];
    }

    function Value(): MemoryState
      reads this
    {
      MemoryState(stocks, reservations)
    }

    method GetStock(p: ProductId) returns (stock: Option<Stock>)
      ensures stock == if p in stocks then Some(stocks[p]) else None
    {
      if p !in stocks {
        return None;
      }
      return Some(stocks[p]);
    }

    method SeedStock(p: ProductId, total: int)
      modifies this
      ensures Value() == Seed(old(Value()), p, total)
    {
      var t := if total < 0 then 0 else total;
      stocks := stocks[p := Stock(t, 0, t)];
    }

    method AdjustStock(p: ProductId, delta: int) returns (out: Outcome)
      modifies this
      ensures (Value(), out) == Adjust(old(Value()), p, delta)
    {
      if p !in stocks {
        return NotFound;
      }
      var after := stocks[p];
      if after.available + delta < 0 {
        return Insufficient;
      }
      after := after.(available := after.available + delta);
      after := after.(total := after.total + delta);
      if after.total < after.available + after.reserved {
        after := after.(total := after.available + after.reserved);
      }
      stocks := stocks[p := after];
      return Ok;
    }

    method ReserveStock(o: OrderId, p: ProductId, q: int) returns (out: Outcome)
      modifies this
      ensures (Value(), out) == Reserve(old(Value()), o, p, q)
    {
      if o in reservations {
        if reservations[o].productId != p || reservations[o].quantity != q {
          return Conflict;
        }
        return Ok;
      }
      if p !in stocks {
        return NotFound;
      }
      var stock := stocks[p];
      if !(q > 0 && stock.available >= q) {
        return Insufficient;
      }
      stock := stock.(available := stock.available - q);
      stock := stock.(reserved := stock.reserved + q);
      stocks := stocks[p := stock];
      reservations := reservations[o := Booking(p, q, Reserved)];
      return Ok;
    }

    method ConfirmDeduct(o: OrderId)
      modifies this
      ensures Value() == Confirm(old(Value()), o)
    {
      if o !in reservations || reservations[o].status == Confirmed {
        return;
      }
      if reservations[o].status == Released {
        return;
      }
      var b := reservations[o];
      var stock := if b.productId in stocks then stocks[b.productId] else NO_STOCK;
      stock := stock.(reserved := stock.reserved - b.quantity, total := stock.total - b.quantity);
      if stock.reserved < 0 {
        stock := stock.(reserved := 0);
      }
      if stock.total < stock.available + stock.reserved {
        stock := stock.(total := stock.available + stock.reserved);
      }
      stocks := stocks[b.productId := stock];
      reservations := reservations[o := b.(status := Confirmed)];
    }

    method ReleaseStock(o: OrderId)
      modifies this
      ensures Value() == Release(old(Value()), o)
    {
      if o !in reservations || reservations[o].status == Released {
        return;
      }
      if reservations[o].status == Confirmed {
        return;
      }
      var b := reservations[o];
      var stock := if b.productId in stocks then stocks[b.productId] else NO_STOCK;
      stock := stock.(available := stock.available + b.quantity, reserved := stock.reserved - b.quantity);
      if stock.reserved < 0 {
        stock := stock.(reserved := 0);
      }
      stocks := stocks[b.productId := stock];
      reservations := reservations[o := b.(status := Released)];
    }
  }

  // ------------------------------------------------------------------------------------------------------------
  // The abstraction
  // ------------------------------------------------------------------------------------------------------------

  function StockView(r: Redis, n: nat, p: ProductId): Option<Stock> {
    if HasStock(r, p, n) then Some(Stock(Available(r, p, n), Counter(r, p), Available(r, p, n) + Counter(r, p)))
        else None
  }

  function BookingView(r: Redis, o: OrderId): Option<Booking> {
    if o in r.reservations
    then Some(Booking(r.reservations[o].productId, r.reservations[o].quantity, r.reservations[o].status)) else None
  }

  predicate MatchesStock(r: Redis, n: nat, m: MemoryState, p: ProductId) {
    StockView(r, n, p) == if p in m.stocks then Some(m.stocks[p]) else None
  }

  predicate MatchesBooking(r: Redis, m: MemoryState, o: OrderId) {
    BookingView(r, o) == if o in m.reservations then Some(m.reservations[o]) else None
  }

  /** With the shard sum as available stock and the counter as reserved stock, Redis is the memory repository. */
  ghost predicate Refines(r: Redis, n: nat, m: MemoryState) {
    && (forall p :: MatchesStock(r, n, m, p))
    && (forall o :: MatchesBooking(r, m, o))
  }

  /** Redis beside empty tables, to count its reserved quantities. */
  function Alone(r: Redis): Stores {
    Stores(r, Db({}, map[], map[], {}, map[]))
  }

  predicate SaneOrder(r: Redis, n: nat, o: OrderId)
    requires o in r.reservations
  {
    var v := r.reservations[o];
    v.productId > 0 && v.quantity > 0 && 1 <= v.shardIndex <= n && HasStock(r, v.productId, n)
  }

  ghost predicate Exact(r: Redis, p: ProductId) {
    Counter(r, p) == A.LiveReserved(Alone(r), p)
  }

  /** What the operations keep true of Redis: shards are non-negative, orders are sane and of products with shard keys,
      and the reserved counter is the sum of the reserved quantities. */
  ghost predicate Sane(r: Redis, n: nat) {
    && ShardsNonNegative(r)
    && (forall o :: o in r.reservations ==> SaneOrder(r, n, o))
    && (forall p :: Exact(r, p))
  }

  lemma Covers(r: Redis, n: nat, o: OrderId)
    requires Sane(r, n) && o in r.reservations && r.reservations[o].status == Reserved
    ensures Counter(r, r.reservations[o].productId) >= r.reservations[o].quantity
  {
    var p := r.reservations[o].productId;
    assert Exact(r, p) && SaneOrder(r, n, o);
    forall o' | o' in r.reservations
      ensures A.ReservedOf(Alone(r), p)(o') >= 0
    {
      assert SaneOrder(r, n, o');
    }
    SumNonNegative(A.Orders(Alone(r)), A.ReservedOf(Alone(r), p));
    assert A.ReservedOf(Alone(r), p)(o) == r.reservations[o].quantity;
  }

  /** One key written: the product has stock afterwards, and the others are as before. */
  lemma KeyView(r: Redis, r': Redis, n: nat, p: ProductId, idx: nat, v: int)
    requires idx < n && r'.stock == r.stock[(p, idx) := v]
    requires forall p' :: p' != p ==> Counter(r', p') == Counter(r, p')
    ensures HasStock(r', p, n) && Available(r', p, n) == Available(r, p, n) - Get(r.stock, p, idx) + v
    ensures forall p' :: p' != p ==> StockView(r', n, p') == StockView(r, n, p')
    ensures forall p' :: HasStock(r, p', n) ==> HasStock(r', p', n)
  {
    RowSet(r.stock, p, n, idx, v);
    assert Row(r'.stock, p, n)[idx].Some?;
    forall p' | p' != p
      ensures HasStock(r', p', n) <==> HasStock(r, p', n)
    {
      assert Row(r'.stock, p', n) == Row(r.stock, p', n);
    }
  }

  /** Both sides move at most one product. */
  lemma OneProduct(r: Redis, n: nat, m: MemoryState, r': Redis, m': MemoryState, p: ProductId)
    requires Refines(r, n, m) && MatchesStock(r', n, m', p)
    requires forall p' :: p' != p ==> StockView(r', n, p') == StockView(r, n, p')
    requires forall p' :: p' != p ==>
      (p' in m'.stocks <==> p' in m.stocks) && (p' in m.stocks ==> m'.stocks[p'] == m.stocks[p'])
    ensures forall p' :: MatchesStock(r', n, m', p')
  {
    forall p'
      ensures MatchesStock(r', n, m', p')
    {
      assert MatchesStock(r, n, m, p');
    }
  }

  /** Both sides move at most one order. */
  lemma OneBooking(r: Redis, n: nat, m: MemoryState, r': Redis, m': MemoryState, o: OrderId)
    requires Refines(r, n, m) && MatchesBooking(r', m', o)
    requires forall o' :: o' != o ==> BookingView(r', o') == BookingView(r, o')
    requires forall o' :: o' != o ==> (o' in m'.reservations <==> o' in m.reservations)
    requires forall o' :: o' != o && o' in m.reservations && o' in m'.reservations ==>
             m'.reservations[o'] == m.reservations[o']
    ensures forall o' :: MatchesBooking(r', m', o')
  {
    forall o'
      ensures MatchesBooking(r', m', o')
    {
      assert MatchesBooking(r, m, o');
    }
  }

  // ------------------------------------------------------------------------------------------------------------
  // Reserve
  // ------------------------------------------------------------------------------------------------------------

  /** No single shard holds the amount, though together they do. */
  ghost predicate Fragmented(r: Redis, n: nat, p: ProductId, q: int) {
    Available(r, p, n) >= q && forall i :: 0 <= i < n ==> !Fits(Row(r.stock, p, n)[i], q)
  }

  function Placed(r: Redis, o: OrderId, p: ProductId, q: int, idx: nat, now: int): Redis {
    r.(stock := r.stock[(p, idx) := Get(r.stock, p, idx) - q],
       counter := r.counter[p := Counter(r, p) + q],
       reservations := r.reservations[o := Reservation(Reserved, p, q, idx + 1, false)],
       expiry := r.expiry[o := now + EXPIRY_SECONDS])
  }

  lemma PlacedRefines(r: Redis, n: nat, m: MemoryState, o: OrderId, p: ProductId, q: int, idx: nat, now: int)
    requires Refines(r, n, m) && Sane(r, n) && q > 0 && o !in r.reservations && idx < n
    requires Fits(Row(r.stock, p, n)[idx], q)
    ensures Reserve(m, o, p, q).1 == Ok
    ensures Refines(Placed(r, o, p, q, idx, now), n, Reserve(m, o, p, q).0)
  {
    assert MatchesBooking(r, m, o) && MatchesStock(r, n, m, p);
    RowNonNegative(r, p, n);
    TotalBounds(Row(r.stock, p, n));
    assert Row(r.stock, p, n)[idx] == Some(Get(r.stock, p, idx));
    var r', m' := Placed(r, o, p, q, idx, now), Reserve(m, o, p, q).0;
    KeyView(r, r', n, p, idx, Get(r.stock, p, idx) - q);
    OneProduct(r, n, m, r', m', p);
    OneBooking(r, n, m, r', m', o);
  }

  /** Reserve: same answer and same state, except that Redis refuses what no single shard can hold. */
  lemma ReserveRefines(r: Redis, n: nat, m: MemoryState, start: nat, o: OrderId, p: ProductId, q: int, now: int)
    requires start < n && Sane(r, n) && Refines(r, n, m) && p > 0 && q > 0
    ensures var (r', code) := ReserveScript(r, n, start, o, p, q, now);
            var (m', out) := Reserve(m, o, p, q);
            && (CodeOutcome(code) == out <==> !(o !in r.reservations && Fragmented(r, n, p, q)))
            && (if CodeOutcome(code) == out then Refines(r', n, m') else out == Ok && code == -2 && r' == r)
  {
    var row := Row(r.stock, p, n);
    assert MatchesBooking(r, m, o) && MatchesStock(r, n, m, p);
    FirstFitComplete(row, start, q);
    if o !in r.reservations {
      if FirstFit(row, start, q, 0).Some? {
        var idx := FirstFit(row, start, q, 0).value;
        assert ReserveScript(r, n, start, o, p, q, now) == (Placed(r, o, p, q, idx, now), 1);
        PlacedRefines(r, n, m, o, p, q, idx, now);
      } else if !HasStock(r, p, n) {
        NothingPlaced(r, n, p, q);
      }
    }
  }

  lemma NothingPlaced(r: Redis, n: nat, p: ProductId, q: int)
    requires q > 0 && !HasStock(r, p, n)
    ensures Available(r, p, n) < q
  {
    TotalZero(Row(r.stock, p, n));
  }

  /** With one shard there is no fragmentation. */
  lemma OneShardFits(r: Redis, p: ProductId, q: int)
    requires q > 0
    ensures !Fragmented(r, 1, p, q)
  {
    var row := Row(r.stock, p, 1);
    assert row[1..] == [];
    assert Total(row[1..]) == 0;
    assert Available(r, p, 1) == Cell(row[0]);
  }

  // ------------------------------------------------------------------------------------------------------------
  // Confirm and release
  // ------------------------------------------------------------------------------------------------------------

  lemma ConfirmReservedRefines(r: Redis, n: nat, m: MemoryState, o: OrderId, finalDeduct: bool)
    requires Sane(r, n) && Refines(r, n, m) && o in r.reservations && r.reservations[o].status == Reserved
    ensures Refines(ConfirmScript(r, o, finalDeduct).0, n, Confirm(m, o))
  {
    var r', m' := ConfirmScript(r, o, finalDeduct).0, Confirm(m, o);
    var v := r.reservations[o];
    A.ConfirmEffect(r, o, finalDeduct);
    assert SaneOrder(r, n, o) && MatchesBooking(r, m, o) && MatchesStock(r, n, m, v.productId);
    SameKeys(r, r', n);
    OneProduct(r, n, m, r', m', v.productId);
    OneBooking(r, n, m, r', m', o);
  }

  lemma SameKeys(r: Redis, r': Redis, n: nat)
    requires r'.stock == r.stock
    ensures forall p :: (HasStock(r', p, n) <==> HasStock(r, p, n)) && Available(r', p, n) == Available(r, p, n)
  {
  }

  lemma ConfirmRefines(r: Redis, n: nat, m: MemoryState, o: OrderId, finalDeduct: bool)
    requires Sane(r, n) && Refines(r, n, m)
    ensures Refines(ConfirmScript(r, o, finalDeduct).0, n, Confirm(m, o))
  {
    var r', m' := ConfirmScript(r, o, finalDeduct).0, Confirm(m, o);
    assert MatchesBooking(r, m, o);
    if o in r.reservations {
      if r.reservations[o].status == Reserved {
        ConfirmReservedRefines(r, n, m, o, finalDeduct);
      } else {
        A.ConfirmEffect(r, o, finalDeduct);
        SameViews(r, r', n, m);
      }
    }
  }

  lemma SameViews(r: Redis, r': Redis, n: nat, m: MemoryState)
    requires Refines(r, n, m) && r'.stock == r.stock && r'.counter == r.counter && r'.reservations == r.reservations
    ensures Refines(r', n, m)
  {
    forall p
      ensures MatchesStock(r', n, m, p)
    {
      assert MatchesStock(r, n, m, p);
    }
    forall o
      ensures MatchesBooking(r', m, o)
    {
      assert MatchesBooking(r, m, o);
    }
  }

  lemma ReleaseReservedRefines(r: Redis, n: nat, m: MemoryState, o: OrderId)
    requires Sane(r, n) && Refines(r, n, m) && o in r.reservations && r.reservations[o].status == Reserved
    ensures Refines(ReleaseScript(r, n, o, r.reservations[o].productId), n, Release(m, o))
  {
    var v := r.reservations[o];
    var p := v.productId;
    var r', m' := ReleaseScript(r, n, o, p), Release(m, o);
    assert SaneOrder(r, n, o) && MatchesBooking(r, m, o) && MatchesStock(r, n, m, p);
    Covers(r, n, o);
    KeyView(r, r', n, p, v.shardIndex - 1, Get(r.stock, p, v.shardIndex - 1) + v.quantity);
    OneProduct(r, n, m, r', m', p);
    OneBooking(r, n, m, r', m', o);
  }

  /** Release: the states agree afterwards exactly when the order was not confirmed; of a confirmed order Redis gives
      the stock back and marks it released, the memory repository does nothing. */
  lemma ReleaseRefines(r: Redis, n: nat, m: MemoryState, o: OrderId, p: ProductId)
    requires Sane(r, n) && Refines(r, n, m) && (o in r.reservations ==> r.reservations[o].productId == p)
    ensures Refines(ReleaseScript(r, n, o, p), n, Release(m, o))
            <==> !(o in r.reservations && r.reservations[o].status == Confirmed)
  {
    assert MatchesBooking(r, m, o);
    if o in r.reservations && r.reservations[o].status == Confirmed {
      assert !MatchesBooking(ReleaseScript(r, n, o, p), Release(m, o), o);
    } else if o in r.reservations && r.reservations[o].status == Reserved {
      ReleaseReservedRefines(r, n, m, o);
    }
  }

  // ------------------------------------------------------------------------------------------------------------
  // Adjust and seed
  // ------------------------------------------------------------------------------------------------------------

  lemma DrainKeepsKeys(r: Redis, n: nat, p: ProductId, delta: int, start: nat, p': ProductId)
    requires 1 <= start <= n && HasStock(r, p, n)
    ensures HasStock(AdjustScript(r, n, p, delta, start).0, p', n) <==> HasStock(r, p', n)
  {
    var r' := AdjustScript(r, n, p, delta, start).0;
    if delta > 0 {
      KeyView(r, r', n, p, start - 1, Get(r.stock, p, start - 1) + delta);
      assert p' != p ==> StockView(r', n, p') == StockView(r, n, p');
    } else if Available(r, p, n) >= -delta {
      DrainStockIsDrain(r.stock, p, n, start - 1, -delta, 0);
      if p' == p {
        var i :| 0 <= i < n && Row(r.stock, p, n)[i].Some?;
        assert Row(r'.stock, p, n)[i].Some?;
      } else {
        assert Row(r'.stock, p', n) == Row(r.stock, p', n);
      }
    }
  }

  /** Adjust of a product that exists: same answer and same state, except for a zero adjust of a product without any
      stock, which Redis refuses and memory accepts. */
  lemma AdjustRefines(r: Redis, n: nat, m: MemoryState, p: ProductId, delta: int, start: nat)
    requires 1 <= start <= n && Sane(r, n) && Refines(r, n, m) && HasStock(r, p, n)
    ensures var (r', code) := AdjustScript(r, n, p, delta, start);
            var (m', out) := Adjust(m, p, delta);
            (CodeOutcome(code) == out <==> !Idle(r, p, n, delta)) && Refines(r', n, m')
  {
    var (r', code) := AdjustScript(r, n, p, delta, start);
    var (m', out) := Adjust(m, p, delta);
    AdjustEffect(r, n, p, delta, start);
    assert MatchesStock(r, n, m, p);
    if Idle(r, p, n, delta) {
      RowNonNegative(r, p, n);
    }
    forall p'
      ensures MatchesStock(r', n, m', p')
    {
      assert MatchesStock(r, n, m, p');
      DrainKeepsKeys(r, n, p, delta, start, p');
    }
    forall o
      ensures MatchesBooking(r', m', o)
    {
      assert MatchesBooking(r, m, o);
    }
  }

  lemma SeedRefines(r: Redis, n: nat, m: MemoryState, p: ProductId, total: int)
    requires n > 0 && Refines(r, n, m)
    ensures Refines(SeedRedisState(r, p, total, 0, n), n, Seed(m, p, total))
  {
    var r', m' := SeedRedisState(r, p, total, 0, n), Seed(m, p, total);
    SplitSumsBack(total, n);
    SeedRow(r, p, Split(total, n));
    assert Row(r'.stock, p, n)[0].Some?;
    forall p'
      ensures MatchesStock(r', n, m', p')
    {
      assert MatchesStock(r, n, m, p');
    }
    forall o
      ensures MatchesBooking(r', m', o)
    {
      assert MatchesBooking(r, m, o);
    }
  }
}
