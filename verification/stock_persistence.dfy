/** The MySQL side of the inventory: stock buckets, the deduct and revert log, and the reservation ledger. Every
    serialisable transaction is one atomic function on the tables. */
module StockPersistence {
  import opened Wrappers
  import opened Sums
  import opened Shards
  import opened RedisScripts

  type Buckets = map<int, int>

  /** A row of `inventory_reservation`. */
  datatype LedgerRow = LedgerRow(productId: ProductId, quantity: int, shardIndex: int, status: Status, expiresAt: int)

  /** `deducts[o] == b` is the log row `DEDUCT_BUCKET_b` of order `o`; `reverts` holds the orders with a
      `REVERT` row. */
  datatype Db = Db(
    products: set<ProductId>,
    buckets: map<ProductId, Buckets>,
    deducts: map<OrderId, int>,
    reverts: set<OrderId>,
    ledger: map<OrderId, LedgerRow>)

  datatype Outcome = Ok | NotFound | Insufficient | Conflict | Unexpected

  datatype LedgerMode = Off | Shadow | Enforce

  function BucketsOf(d: Db, p: ProductId): Buckets {
    if p in d.buckets then d.buckets[p] else map[]
  }

  function Lookup(m: Buckets): int -> int {
    b => if b in m then m[b] else 0
  }

  ghost function BucketSum(m: Buckets): int {
    Sum(m.Keys, Lookup(m))
  }

  ghost function BucketTotal(d: Db, p: ProductId): int {
    BucketSum(BucketsOf(d, p))
  }

  // ------------------------------------------------------------------------------------------------------------
  // Choosing a bucket that holds the whole quantity
  // ------------------------------------------------------------------------------------------------------------

  predicate Holds(m: Buckets, b: int, q: int) {
    b in m && m[b] >= q
  }

  lemma {:induction false} LeastExists(s: set<int>)
    requires s != {}
    ensures exists b :: b in s && forall c :: c in s ==> b <= c
    decreases s
  {
    NonEmpty(s);
    var x :| x in s;
    if s != {x} {
      assert s - {x} != {};
      LeastExists(s - {x});
      var y :| y in s - {x} && forall c :: c in s - {x} ==> y <= c;
      var least := if x <= y then x else y;
      forall c | c in s
        ensures least <= c
      {
        assert c == x || c in s - {x};
      }
      assert least in s;
    }
  }

  /** The preferred bucket if it holds the quantity, otherwise the lowest bucket that does. */
  function PickBucket(m: Buckets, q: int, preferred: int): (r: Option<int>)
    ensures r.Some? ==> Holds(m, r.value, q)
    ensures Holds(m, preferred, q) ==> r == Some(preferred)
    ensures r.Some? && !Holds(m, preferred, q) ==> forall b :: Holds(m, b, q) ==> r.value <= b
    ensures r.None? <==> forall b :: b in m ==> m[b] < q
  {
    if Holds(m, preferred, q) then Some(preferred)
    else
      var fitting := set b | b in m && m[b] >= q;
      if fitting == {} then
        assert forall b :: b in m && m[b] >= q ==> b in fitting;
        None
      else
        LeastExists(fitting);
        var b :| b in fitting && forall c :: c in fitting ==> b <= c;
        assert Holds(m, b, q);
        assert forall c :: Holds(m, c, q) ==> c in fitting;
        Some(b)
  }

  // ------------------------------------------------------------------------------------------------------------
  // The transactions as functions
  // ------------------------------------------------------------------------------------------------------------

  function WithBucket(d: Db, p: ProductId, b: int, stock: int): Db {
    d.(buckets := d.buckets[p := BucketsOf(d, p)[b := stock]])
  }

  function InBucket(d: Db, p: ProductId, b: int): int {
    if b in BucketsOf(d, p) then BucketsOf(d, p)[b] else 0
  }

  function DeductTx(d: Db, o: OrderId, p: ProductId, q: int, preferred: int): (Db, Outcome) {
    if o in d.deducts then (d, Ok)
    else match PickBucket(BucketsOf(d, p), q, preferred)
      case None => (d, if BucketsOf(d, p) == map[] then NotFound else Insufficient)
      case Some(b) => (WithBucket(d, p, b, InBucket(d, p, b) - q).(deducts := d.deducts[o := b]), Ok)
  }

  function RevertTx(d: Db, o: OrderId, p: ProductId, q: int): Db {
    if o !in d.deducts || o in d.reverts then d
    else WithBucket(d, p, d.deducts[o], InBucket(d, p, d.deducts[o]) + q).(reverts := d.reverts + {o})
  }

  function AdjustTx(d: Db, p: ProductId, delta: int, b: int): (Db, Outcome) {
    if delta <= 0 && (b !in BucketsOf(d, p) || InBucket(d, p, b) + delta < 0) then (d, Insufficient)
    else if p !in d.products then (d, NotFound)
    else (WithBucket(d, p, b, InBucket(d, p, b) + delta), Ok)
  }

  function InsertLedger(mode: LedgerMode, d: Db, o: OrderId, row: LedgerRow): (Db, Outcome) {
    if mode == Off then (d, Ok)
    else if o !in d.ledger then (d.(ledger := d.ledger[o := row]), Ok)
    else if d.ledger[o].productId == row.productId && d.ledger[o].quantity == row.quantity then (d, Ok)
    else (d, if mode == Shadow then Ok else Conflict)
  }

  function TransitionLedger(mode: LedgerMode, d: Db, o: OrderId, target: Status, allowed: set<Status>): Db {
    if mode == Off || o !in d.ledger || d.ledger[o].status !in allowed then d
    else d.(ledger := d.ledger[o := d.ledger[o].(status := target)])
  }

  function LoadLedger(mode: LedgerMode, d: Db, o: OrderId): Option<LedgerRow> {
    if mode == Off || o !in d.ledger then None else Some(d.ledger[o])
  }

  /** Quantity that order `o` holds reserved for product `p` according to the ledger. */
  function ActiveQty(d: Db, p: ProductId): OrderId -> int {
    o => if o in d.ledger && d.ledger[o].productId == p && d.ledger[o].status == Reserved
        then d.ledger[o].quantity else 0
  }

  ghost function ActiveTotal(mode: LedgerMode, d: Db, p: ProductId): int {
    if mode == Off then 0 else Sum(d.ledger.Keys, ActiveQty(d, p))
  }

  function ExpectedReserved(redisReserved: int, ledgerReserved: int, mode: LedgerMode): nat {
    Clamp(match mode
      case Off => redisReserved
      case Shadow => if ledgerReserved > redisReserved then ledgerReserved else redisReserved
      case Enforce => ledgerReserved)
  }

  function ExpectedAvailable(mysqlTotal: int, redisReserved: int, ledgerReserved: int, mode: LedgerMode): nat {
    Clamp(mysqlTotal - ExpectedReserved(redisReserved, ledgerReserved, mode))
  }

  function SeedBuckets(d: Db, p: ProductId, values: seq<int>, i: nat): Db
    requires i <= |values|
    decreases |values| - i
  {
    if i == |values| then d else SeedBuckets(WithBucket(d, p, i, values[i]), p, values, i + 1)
  }

  // ------------------------------------------------------------------------------------------------------------
  // What the transactions do to the bucket totals
  // ------------------------------------------------------------------------------------------------------------

  lemma BucketSet(d: Db, p: ProductId, b: int, stock: int)
    ensures BucketTotal(WithBucket(d, p, b, stock), p) == BucketTotal(d, p) + stock - InBucket(d, p, b)
    ensures forall p' :: p' != p ==> BucketTotal(WithBucket(d, p, b, stock), p') == BucketTotal(d, p')
  {
    var m := BucketsOf(d, p);
    SumUpdate(m.Keys, Lookup(m), m[b := stock].Keys, Lookup(m[b := stock]), b);
    assert BucketsOf(WithBucket(d, p, b, stock), p) == m[b := stock];
    forall p' | p' != p
      ensures BucketTotal(WithBucket(d, p, b, stock), p') == BucketTotal(d, p')
    {
      assert BucketsOf(WithBucket(d, p, b, stock), p') == BucketsOf(d, p');
    }
  }

  predicate BucketsNonNegative(d: Db) {
    forall p, b :: p in d.buckets && b in d.buckets[p] ==> d.buckets[p][b] >= 0
  }

  /** A deduction happens at most once per order, takes the whole quantity from one bucket, and fails only when no
      single bucket holds it. */
  lemma DeductEffect(d: Db, o: OrderId, p: ProductId, q: int, preferred: int)
    requires BucketsNonNegative(d) && q > 0
    ensures var (d', out) := DeductTx(d, o, p, q, preferred);
            && BucketsNonNegative(d')
            && (out == Ok <==> o in d.deducts || exists b :: Holds(BucketsOf(d, p), b, q))
            && (out == Ok ==> o in d'.deducts)
            && (forall o' :: o' != o ==> (o' in d'.deducts <==> o' in d.deducts))
            && BucketTotal(d', p) == BucketTotal(d, p) - (if out == Ok && o !in d.deducts then q else 0)
            && (forall p' :: p' != p ==> BucketTotal(d', p') == BucketTotal(d, p'))
  {
    var m := BucketsOf(d, p);
    match PickBucket(m, q, preferred) {
      case None =>
        assert forall b :: b in m ==> !Holds(m, b, q);
      case Some(b) =>
        assert Holds(m, b, q);
        BucketSet(d, p, b, InBucket(d, p, b) - q);
    }
  }

  lemma RevertEffect(d: Db, o: OrderId, p: ProductId, q: int)
    requires BucketsNonNegative(d) && q > 0
    ensures var d' := RevertTx(d, o, p, q);
            && BucketsNonNegative(d')
            && (o in d.deducts ==> o in d'.reverts)
            && BucketTotal(d', p) == BucketTotal(d, p) + (if o in d.deducts && o !in d.reverts then q else 0)
            && (forall p' :: p' != p ==> BucketTotal(d', p') == BucketTotal(d, p'))
  {
    if o in d.deducts && o !in d.reverts {
      BucketSet(d, p, d.deducts[o], InBucket(d, p, d.deducts[o]) + q);
    }
  }

  lemma AdjustTxEffect(d: Db, p: ProductId, delta: int, b: int)
    requires BucketsNonNegative(d)
    ensures var (d', out) := AdjustTx(d, p, delta, b);
            && BucketsNonNegative(d')
            && BucketTotal(d', p) == BucketTotal(d, p) + (if out == Ok then delta else 0)
            && (forall p' :: p' != p ==> BucketTotal(d', p') == BucketTotal(d, p'))
  {
    BucketSet(d, p, b, InBucket(d, p, b) + delta);
  }

  lemma {:induction false} SeedBucketsRow(d: Db, p: ProductId, values: seq<int>, i: nat)
    requires i <= |values|
    requires forall b :: b in BucketsOf(d, p) ==> 0 <= b < |values|
    requires forall b :: 0 <= b < i ==> b in BucketsOf(d, p) && BucketsOf(d, p)[b] == values[b]
    requires BucketsNonNegative(d) && forall v :: v in values ==> v >= 0
    ensures var d' := SeedBuckets(d, p, values, i);
            && (forall b :: b in BucketsOf(d', p) <==> 0 <= b < |values|)
            && (forall b :: 0 <= b < |values| ==> BucketsOf(d', p)[b] == values[b])
            && (forall p' :: p' != p ==> BucketsOf(d', p') == BucketsOf(d, p'))
            && BucketsNonNegative(d')
            && d' == d.(buckets := d'.buckets)
    decreases |values| - i
  {
    if i < |values| {
      assert values[i] in values;
      SeedBucketsRow(WithBucket(d, p, i, values[i]), p, values, i + 1);
    }
  }

  // ------------------------------------------------------------------------------------------------------------
  // The tables, updated by transactions
  // ------------------------------------------------------------------------------------------------------------

  class MySqlStore {
    var products: set<ProductId>
    var buckets: map<ProductId, Buckets>
    var deducts: map<OrderId, int>
    var reverts: set<OrderId>
    var ledger: map<OrderId, LedgerRow>

    constructor (products: set<ProductId>)
      ensures Value() == Db(products, map[], map[], {}, map[])
    {
      this.products := products;
      buckets, deducts, reverts, ledger := map[], map[], {}, map[];
    }

    function Value(): Db
      reads this
    {
      Db(products, buckets, deducts, reverts, ledger)
    }

    method SetBucket(p: ProductId, b: int, stock: int)
      modifies this`buckets
      ensures Value() == WithBucket(old(Value()), p, b, stock)
    {
      buckets := buckets[p := (if p in buckets then buckets[p] else map[])[b := stock]];
    }

    method ConfirmDeduct(o: OrderId, p: ProductId, q: int, preferred: int) returns (out: Outcome)
      modifies this
      ensures (Value(), out) == DeductTx(old(Value()), o, p, q, preferred)
    {
      if o in deducts {
        return Ok;
      }
      var m := if p in buckets then buckets[p] else map[];
      var bucket := PickBucket(m, q, preferred);
      if bucket.None? {
        return if m == map[] then NotFound else Insufficient;
      }
      deducts := deducts[o := bucket.value];
      SetBucket(p, bucket.value, m[bucket.value] - q);
      return Ok;
    }

    method ReleaseDeduct(o: OrderId, p: ProductId, q: int)
      modifies this
      ensures Value() == RevertTx(old(Value()), o, p, q)
    {
      if o !in deducts {
        return;
      }
      var b := deducts[o];
      if o in reverts {
        return;
      }
      reverts := reverts + {o};
      SetBucket(p, b, InBucket(Value(), p, b) + q);
    }

    method AdjustStock(p: ProductId, delta: int, b: int) returns (out: Outcome)
      modifies this
      ensures (Value(), out) == AdjustTx(old(Value()), p, delta, b)
    {
      if delta <= 0 {
        if p !in buckets || b !in buckets[p] || buckets[p][b] + delta < 0 {
          return Insufficient;
        }
      }
      if p !in products {
        return NotFound;
      }
      SetBucket(p, b, InBucket(Value(), p, b) + delta);
      return Ok;
    }

    method SeedStock(p: ProductId, values: seq<int>)
      modifies this
      ensures Value() == SeedBuckets(old(Value()), p, values, 0)
    {
      var i := 0;
      while i < |values|
        invariant 0 <= i <= |values|
        invariant SeedBuckets(Value(), p, values, i) == SeedBuckets(old(Value()), p, values, 0)
      {
        SetBucket(p, i, values[i]);
        i := i + 1;
      }
    }

    /** Sum over the buckets of a product, and whether it has any. */
    method Total(p: ProductId) returns (total: int, ok: bool)
      ensures total == BucketTotal(Value(), p)
      ensures ok <==> BucketsOf(Value(), p) != map[]
    {
      var m := if p in buckets then buckets[p] else map[];
      total, ok := 0, m != map[];
      var rest := m.Keys;
      while rest != {}
        invariant rest <= m.Keys
        invariant total + Sum(rest, Lookup(m)) == BucketSum(m)
        decreases |rest|
      {
        NonEmpty(rest);
        var b :| b in rest;
        SumPick(rest, Lookup(m), b);
        total := total + m[b];
        rest := rest - {b};
      }
    }

    method ActiveReservationTotal(mode: LedgerMode, p: ProductId) returns (total: int)
      ensures total == ActiveTotal(mode, Value(), p)
    {
      total := 0;
      if mode == Off {
        return;
      }
      var rest := ledger.Keys;
      while rest != {}
        invariant rest <= ledger.Keys
        invariant total + Sum(rest, ActiveQty(Value(), p)) == Sum(ledger.Keys, ActiveQty(Value(), p))
        decreases |rest|
      {
        var o :| o in rest;
        SumPick(rest, ActiveQty(Value(), p), o);
        if ledger[o].productId == p && ledger[o].status == Reserved {
          total := total + ledger[o].quantity;
        }
        rest := rest - {o};
      }
    }

    method InsertReservation(mode: LedgerMode, o: OrderId, row: LedgerRow) returns (out: Outcome)
      modifies this
      ensures (Value(), out) == InsertLedger(mode, old(Value()), o, row)
    {
      if mode == Off {
        return Ok;
      }
      if o in ledger {
        if ledger[o].productId != row.productId || ledger[o].quantity != row.quantity {
          return if mode == Shadow then Ok else Conflict;
        }
        return Ok;
      }
      ledger := ledger[o := row];
      return Ok;
    }

    method TransitionReservation(mode: LedgerMode, o: OrderId, target: Status, allowed: set<Status>)
      modifies this
      ensures Value() == TransitionLedger(mode, old(Value()), o, target, allowed)
    {
      if mode == Off {
        return;
      }
      if o in ledger && ledger[o].status in allowed {
        ledger := ledger[o := ledger[o].(status := target)];
      }
    }
  }
}
