/** What single scripts and transactions do to single shards and buckets, and how they undo each other cell by cell. */
module Cells {
  import opened Wrappers
  import opened Sums
  import opened Shards
  import opened RedisScripts
  import opened StockPersistence

  // ------------------------------------------------------------------------------------------------------------
  // Where scans start
  // ------------------------------------------------------------------------------------------------------------

  /** The checksum counts round the shards: with checksum `k * n + i` the start is shard `i`. */
  lemma StartIndexCycles(crc32: OrderId -> nat, o: OrderId, n: nat, k: nat, i: nat)
    requires i < n && crc32(o) == k * n + i
    ensures StartIndex(crc32, o, n) == i
  {
    RemainderIs(crc32(o), n, k, i);
  }

  lemma RemainderIs(x: nat, n: nat, k: nat, i: nat)
    requires i < n && x == k * n + i
    ensures x % n == i
  {
    MultiplesApart(x / n, k, n);
    MultiplesApart(k, x / n, n);
    assert x == x / n * n + x % n;
  }

  lemma MultiplesApart(a: nat, b: nat, n: nat)
    ensures a < b ==> a * n + n <= b * n
  {
    if a < b {
      assert b * n == (a + 1) * n + (b - a - 1) * n;
    }
  }

  // ------------------------------------------------------------------------------------------------------------
  // Redis
  // ------------------------------------------------------------------------------------------------------------

  /** A row in which one cell holds `x` more. */
  predicate OneCell(before: seq<Option<int>>, after: seq<Option<int>>, i: int, x: int) {
    && |after| == |before| && 0 <= i < |before| && Cell(after[i]) == Cell(before[i]) + x
    && forall j :: 0 <= j < |before| && j != i ==> after[j] == before[j]
  }

  /** No row of another product differs. */
  ghost predicate SameRows(r: Redis, r': Redis, n: nat, p: ProductId) {
    forall x :: x != p ==> Row(r'.stock, x, n) == Row(r.stock, x, n) && Counter(r', x) == Counter(r, x)
  }

  /** The first shard in scan order that holds the quantity. */
  ghost predicate FirstFitting(row: seq<Option<int>>, start: nat, q: int, i: int) {
    && 0 <= i < |row| && Fits(row[i], q)
    && exists k ::
         0 <= k < |row| && At(start, k, |row|) == i && forall j :: 0 <= j < k ==> !Fits(row[At(start, j, |row|)], q)
  }

  /** A new order that is accepted takes its whole quantity out of the first shard that holds it, which its hash names,
      and puts it on the counter; nothing of other orders and products changes. */
  lemma ReserveTakesOneShard(r: Redis, n: nat, start: nat, o: OrderId, p: ProductId, q: int, now: int)
    requires start < n && o !in r.reservations
    ensures var (r', code) := ReserveScript(r, n, start, o, p, q, now);
            if code == 1 then
              && o in r'.reservations && r'.reservations[o].status == Reserved && !r'.reservations[o].deducted
              && r'.reservations[o].productId == p && r'.reservations[o].quantity == q
              && r'.reservations == r.reservations[o := r'.reservations[o]]
              && FirstFitting(Row(r.stock, p, n), start, q, r'.reservations[o].shardIndex - 1)
              && OneCell(Row(r.stock, p, n), Row(r'.stock, p, n), r'.reservations[o].shardIndex - 1, -q)
              && Counter(r', p) == Counter(r, p) + q && SameRows(r, r', n, p)
            else r' == r && (forall i :: 0 <= i < n ==> !Fits(Row(r.stock, p, n)[i], q))
                 && (code == -1 <==> forall i :: 0 <= i < n ==> Row(r.stock, p, n)[i].None?)
                 && (code == -2 <==> exists i :: 0 <= i < n && Row(r.stock, p, n)[i].Some?)
  {
    var row := Row(r.stock, p, n);
    FirstFitFrom(row, start, q, 0);
    FirstFitComplete(row, start, q);
    match FirstFit(row, start, q, 0) {
      case None =>
      case Some(idx) => RowSet(r.stock, p, n, idx, Get(r.stock, p, idx) - q);
    }
  }

  /** A known order is not reserved again: the same request is accepted, another is a conflict, and nothing changes. */
  lemma ReserveKnown(r: Redis, n: nat, start: nat, o: OrderId, p: ProductId, q: int, now: int)
    requires o in r.reservations
    ensures var (r', code) := ReserveScript(r, n, start, o, p, q, now);
            && r' == r
            && code == if r.reservations[o].productId == p && r.reservations[o].quantity == q then 1 else -3
  {
  }

  /** Confirming takes a reserved quantity off the counter and off the clock; shards and other orders do not change. */
  lemma ConfirmTakesOffCounter(r: Redis, n: nat, o: OrderId, finalDeduct: bool)
    requires o in r.reservations && r.reservations[o].status == Reserved && r.reservations[o].quantity > 0
    requires Counter(r, r.reservations[o].productId) >= r.reservations[o].quantity
    ensures var v, r' := r.reservations[o], ConfirmScript(r, o, finalDeduct).0;
            && r'.reservations == r.reservations[o := v.(status := Confirmed)] && r'.stock == r.stock
            && Counter(r', v.productId) == Counter(r, v.productId) - v.quantity && SameRows(r, r', n, v.productId)
            && r'.expiry == r.expiry - {o}
  {
  }

  /** Releasing puts the quantity back on the shard that the hash names, and off the counter only if it was reserved. */
  lemma ReleasePutsBack(r: Redis, n: nat, o: OrderId)
    requires o in r.reservations && r.reservations[o].status != Released && r.reservations[o].quantity > 0
    requires 1 <= r.reservations[o].shardIndex <= n
    requires r.reservations[o].status == Reserved ==>
      Counter(r, r.reservations[o].productId) >= r.reservations[o].quantity
    ensures var v, r' := r.reservations[o], ReleaseScript(r, n, o, r.reservations[o].productId);
            && r'.reservations == r.reservations[o := v.(status := Released)]
            && OneCell(Row(r.stock, v.productId, n), Row(r'.stock, v.productId, n), v.shardIndex - 1, v.quantity)
            && Counter(r', v.productId)
               == Counter(r, v.productId) - (if v.status == Reserved then v.quantity else 0)
            && SameRows(r, r', n, v.productId)
            && r'.expiry == r.expiry - {o}
  {
    var v := r.reservations[o];
    RowSet(r.stock, v.productId, n, v.shardIndex - 1, Get(r.stock, v.productId, v.shardIndex - 1) + v.quantity);
  }

  /** A reserve that is accepted and then released, confirmed in between or not, leaves every shard and counter as it
      was. */
  lemma ReserveIsUndone(r: Redis, n: nat, start: nat, o: OrderId, p: ProductId, q: int, now: int, confirm: bool,
                        finalDeduct: bool)
    requires start < n && q > 0 && o !in r.reservations && Counter(r, p) >= 0
    requires ReserveScript(r, n, start, o, p, q, now).1 == 1
    ensures var r1 := ReserveScript(r, n, start, o, p, q, now).0;
            var r2 := if confirm then ConfirmScript(r1, o, finalDeduct).0 else r1;
            var r3 := ReleaseScript(r2, n, o, p);
            && (forall x :: Row(r3.stock, x, n) == Row(r.stock, x, n) && Counter(r3, x) == Counter(r, x))
            && o in r3.reservations && r3.reservations[o].status == Released && o !in r3.expiry
  {
    ReserveTakesOneShard(r, n, start, o, p, q, now);
    var r1 := ReserveScript(r, n, start, o, p, q, now).0;
    var r2 := if confirm then ConfirmScript(r1, o, finalDeduct).0 else r1;
    if confirm {
      ConfirmTakesOffCounter(r1, n, o, finalDeduct);
    }
    ReleaseReturns(r, r1, r2, n, o, p, q);
  }

  lemma ReleaseReturns(r: Redis, r1: Redis, r2: Redis, n: nat, o: OrderId, p: ProductId, q: int)
    requires o in r2.reservations && r2.reservations[o].status != Released && q > 0
    requires r2.reservations[o].productId == p && r2.reservations[o].quantity == q && r2.stock == r1.stock
    requires OneCell(Row(r.stock, p, n), Row(r1.stock, p, n), r2.reservations[o].shardIndex - 1, -q)
    requires Row(r.stock, p, n)[r2.reservations[o].shardIndex - 1].Some? && SameRows(r, r2, n, p)
    requires Counter(r2, p) == Counter(r, p) + (if r2.reservations[o].status == Reserved then q else 0)
    requires Counter(r, p) >= 0
    ensures var r3 := ReleaseScript(r2, n, o, p);
            && (forall x :: Row(r3.stock, x, n) == Row(r.stock, x, n) && Counter(r3, x) == Counter(r, x))
            && o in r3.reservations && r3.reservations[o].status == Released && o !in r3.expiry
  {
    var r3 := ReleaseScript(r2, n, o, p);
    ReleasePutsBack(r2, n, o);
    SameCells(Row(r.stock, p, n), Row(r1.stock, p, n), Row(r3.stock, p, n), r2.reservations[o].shardIndex - 1, q);
    forall x
      ensures Row(r3.stock, x, n) == Row(r.stock, x, n) && Counter(r3, x) == Counter(r, x)
    {
    }
  }

  lemma SameCells(a: seq<Option<int>>, b: seq<Option<int>>, c: seq<Option<int>>, i: int, q: int)
    requires OneCell(a, b, i, -q) && OneCell(b, c, i, q) && a[i].Some? && c[i].Some?
    ensures c == a
  {
  }

  /** A reserved order is due a day after it was reserved, and not before. */
  lemma ReserveStartsClock(r: Redis, n: nat, start: nat, o: OrderId, p: ProductId, q: int, now: int)
    requires start < n && o !in r.reservations && ReserveScript(r, n, start, o, p, q, now).1 == 1
    ensures var r' := ReserveScript(r, n, start, o, p, q, now).0;
            && o in r'.expiry && r'.expiry[o] - now == 86400
            && forall x :: x in r.expiry && x != o ==> x in r'.expiry && r'.expiry[x] == r.expiry[x]
  {
  }

  /** A positive adjust goes to the shard it names. */
  lemma AdjustCredits(r: Redis, n: nat, p: ProductId, delta: int, start: nat)
    requires 1 <= start <= n && delta > 0
    ensures var r' := AdjustScript(r, n, p, delta, start).0;
            OneCell(Row(r.stock, p, n), Row(r'.stock, p, n), start - 1, delta) && SameRows(r, r', n, p)
  {
    RowSet(r.stock, p, n, start - 1, Get(r.stock, p, start - 1) + delta);
  }

  ghost predicate DrainedFrom(before: seq<Option<int>>, after: seq<Option<int>>, start: nat) {
    |before| == |after| && exists k :: SplitsAt(before, after, start, 0, k)
  }

  /** A negative adjust that goes through empties the shards from the one it names on: those before some point of the
      scan end up empty, those after it keep what they had. */
  lemma AdjustDrains(r: Redis, n: nat, p: ProductId, delta: int, start: nat)
    requires 1 <= start <= n && delta < 0 && Available(r, p, n) + delta >= 0
    ensures var r' := AdjustScript(r, n, p, delta, start).0;
            SameRows(r, r', n, p) && DrainedFrom(Row(r.stock, p, n), Row(r'.stock, p, n), start - 1)
  {
    DrainStockIsDrain(r.stock, p, n, start - 1, -delta, 0);
    DrainGreedy(Row(r.stock, p, n), start - 1, -delta, 0);
  }

  // ------------------------------------------------------------------------------------------------------------
  // MySQL
  // ------------------------------------------------------------------------------------------------------------

  /** One bucket of one product holds `x` more. */
  ghost predicate OneBucket(d: Db, d': Db, p: ProductId, b: int, x: int) {
    && BucketsOf(d', p).Keys == BucketsOf(d, p).Keys + {b} && InBucket(d', p, b) == InBucket(d, p, b) + x
    && (forall c :: c != b ==> InBucket(d', p, c) == InBucket(d, p, c))
    && (forall y :: y != p ==> BucketsOf(d', y) == BucketsOf(d, y))
  }

  /** A first deduction comes out of the one bucket that the log then names: the preferred one if it holds the quantity,
      otherwise the lowest that does. It fails exactly when none does, telling an unknown product from an empty one. */
  lemma DeductTakesOneBucket(d: Db, o: OrderId, p: ProductId, q: int, preferred: int)
    requires o !in d.deducts
    ensures var (d', out) := DeductTx(d, o, p, q, preferred);
            if exists b :: Holds(BucketsOf(d, p), b, q) then
              && out == Ok && o in d'.deducts && d'.deducts == d.deducts[o := d'.deducts[o]]
              && Holds(BucketsOf(d, p), d'.deducts[o], q) && OneBucket(d, d', p, d'.deducts[o], -q)
              && (Holds(BucketsOf(d, p), preferred, q) ==> d'.deducts[o] == preferred)
              && (!Holds(BucketsOf(d, p), preferred, q) ==>
                    forall b :: Holds(BucketsOf(d, p), b, q) ==> d'.deducts[o] <= b)
              && d' == d.(buckets := d'.buckets, deducts := d'.deducts)
            else d' == d && out == if BucketsOf(d, p) == map[] then NotFound else Insufficient
  {
  }

  /** A first revert puts the quantity back into the bucket that the log names, and into no other. */
  lemma RevertPutsBack(d: Db, o: OrderId, p: ProductId, q: int)
    requires o in d.deducts && o !in d.reverts
    ensures var d' := RevertTx(d, o, p, q);
            && OneBucket(d, d', p, d.deducts[o], q) && d'.reverts == d.reverts + {o}
            && d' == d.(buckets := d'.buckets, reverts := d'.reverts)
  {
  }

  /** Without a deduction, or after one revert, there is nothing to give back. */
  lemma RevertOnce(d: Db, o: OrderId, p: ProductId, q: int)
    requires o !in d.deducts || o in d.reverts
    ensures RevertTx(d, o, p, q) == d
  {
  }

  /** A deduction and its revert leave every bucket as it was. */
  lemma DeductIsUndone(d: Db, o: OrderId, p: ProductId, q: int, preferred: int)
    requires o !in d.deducts && o !in d.reverts && DeductTx(d, o, p, q, preferred).1 == Ok
    ensures forall x :: BucketsOf(RevertTx(DeductTx(d, o, p, q, preferred).0, o, p, q), x) == BucketsOf(d, x)
  {
    DeductTakesOneBucket(d, o, p, q, preferred);
    var d1 := DeductTx(d, o, p, q, preferred).0;
    RevertPutsBack(d1, o, p, q);
    var d2 := RevertTx(d1, o, p, q);
    assert BucketsOf(d2, p).Keys == BucketsOf(d, p).Keys;
    forall b | b in BucketsOf(d, p)
      ensures BucketsOf(d2, p)[b] == BucketsOf(d, p)[b]
    {
      assert InBucket(d2, p, b) == InBucket(d, p, b);
    }
    assert BucketsOf(d2, p) == BucketsOf(d, p);
  }

  /** An adjust moves the one bucket it names. It goes through exactly for a known product, and downwards only as far as
      that bucket reaches. */
  lemma AdjustMovesOneBucket(d: Db, p: ProductId, delta: int, b: int)
    ensures var (d', out) := AdjustTx(d, p, delta, b);
            && (out == Ok <==>
                  p in d.products && (delta > 0 || (b in BucketsOf(d, p) && BucketsOf(d, p)[b] + delta >= 0)))
            && (out == Ok ==> OneBucket(d, d', p, b, delta) && d' == d.(buckets := d'.buckets))
            && (out != Ok ==> d' == d && (out == Insufficient || (out == NotFound && p !in d.products)))
  {
  }
}
