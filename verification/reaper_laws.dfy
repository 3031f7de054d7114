/** What a call of the reaper does: it is a run of the engine, it releases everything it claimed, and the times it
    writes keep others away for as long as they say. */
module ReaperLaws {
  import opened Wrappers
  import opened Sums
  import opened Shards
  import opened RedisScripts
  import opened StockPersistence
  import opened StockCommands
  import opened ReservationReaper
  import opened Accounts
  import opened Engine
  import opened Solo
  import Calls
  import Retry

  // ------------------------------------------------------------------------------------------------------------
  // The call is a run of the engine
  // ------------------------------------------------------------------------------------------------------------

  function Members(orders: seq<OrderId>): set<OrderId> {
    set o | o in orders
  }

  /** How many steps a command takes when it is left alone. */
  function StepsOf(cfg: Config, st: Stores, c: Cmd, now: int): nat
    requires ValidConfig(cfg)
    decreases Rank(c)
  {
    var (st', next) := StepCmd(cfg, st, c, now);
    if next.Goto? then 1 + StepsOf(cfg, st', next.cmd, now) else 1
  }

  /** The world with process `id` releasing one order and `rest` still to do. */
  function Amid(w: World, st: Stores, id: nat, c: Cmd, rest: seq<OrderId>): World {
    w.(st := st, procs := w.procs[id := Reaping(c, rest)])
  }

  lemma AmidSteps(cfg: Config, w: World, st: Stores, id: nat, c: Cmd, rest: seq<OrderId>, now: int)
    requires ValidConfig(cfg) && id !in w.procs && c.OnOrder()
    ensures var (st', next) := StepCmd(cfg, st, c, now);
            var w' := Apply(cfg, Amid(w, st, id, c, rest), Step(id, now));
            && (next.Goto? ==> w' == Amid(w, st', id, next.cmd, rest))
            && (next.Return? && next.out == Ok ==>
                  w' == w.(st := st', procs := w.procs[id := Finishing(c.o, true, rest)], crashed := w.crashed - {c.o}))
  {
    var next := StepCmd(cfg, st, c, now).1;
    var end := if next.Goto? then Reaping(next.cmd, rest) else Finishing(c.o, next.out == Ok, rest);
    assert w.procs[id := Reaping(c, rest)][id := end] == w.procs[id := end];
  }

  lemma {:induction false} AmidThrough(cfg: Config, w: World, st: Stores, id: nat, c: Cmd, rest: seq<OrderId>, now: int)
    requires ValidConfig(cfg) && id !in w.procs && c.OnOrder() && Run(cfg, st, c, now).1 == Ok
    ensures RunAll(cfg, Amid(w, st, id, c, rest), Steps(id, now, StepsOf(cfg, st, c, now)))
            == w.(st := Run(cfg, st, c, now).0, procs := w.procs[id := Finishing(c.o, true, rest)],
                  crashed := w.crashed - {c.o})
    decreases Rank(c)
  {
    var (st', next) := StepCmd(cfg, st, c, now);
    StepsFirst(cfg, Amid(w, st, id, c, rest), id, now, StepsOf(cfg, st, c, now));
    AmidSteps(cfg, w, st, id, c, rest, now);
    StepsOwn(cfg, st, c, now);
    if next.Goto? {
      AmidThrough(cfg, w, st', id, next.cmd, rest, now);
    }
  }

  /** The world of a reaper that is about to turn to `claimed`. */
  function Before(w: World, st: Stores, id: nat, claimed: seq<OrderId>): World {
    w.(st := st, procs := Continue(w.procs, id, claimed))
  }

  lemma FinishesOne(cfg: Config, w: World, st: Stores, id: nat, o: OrderId, rest: seq<OrderId>, now: int)
    requires ValidConfig(cfg) && id !in w.procs
    ensures Apply(cfg, w.(st := st, procs := w.procs[id := Finishing(o, true, rest)]), Step(id, now))
            == Before(w, st.(redis := CompleteScript(st.redis, o)), id, rest)
  {
    var finishing := w.procs[id := Finishing(o, true, rest)];
    assert finishing - {id} == w.procs;
    if rest != [] {
      var next := Reaping(ReadingRelease(rest[0]), rest[1..]);
      assert finishing[id := next] == w.procs[id := next];
    }
  }

  /** The steps of a reaper from its claim to its end. */
  function ReapEvents(cfg: Config, st: Stores, id: nat, claimed: seq<OrderId>, now: int): seq<Event>
    requires ValidConfig(cfg)
    decreases |claimed|
  {
    if claimed == [] then []
    else Steps(id, now, StepsOf(cfg, st, ReadingRelease(claimed[0]), now))
         + ([Step(id, now)] + ReapEvents(cfg, ReapOne(cfg, st, claimed[0], now).0, id, claimed[1..], now))
  }

  /** One order, from the reaper's turning to it to its turning to the next. */
  lemma ReapsFirst(cfg: Config, w: World, st: Stores, id: nat, claimed: seq<OrderId>, now: int)
    requires ValidConfig(cfg) && id !in w.procs && claimed != []
    ensures var (st', ok) := ReapOne(cfg, st, claimed[0], now);
            && ok
            && RunAll(cfg, Before(w, st, id, claimed), ReapEvents(cfg, st, id, claimed, now))
               == RunAll(cfg, Before(w.(crashed := w.crashed - {claimed[0]}), st', id, claimed[1..]),
                         ReapEvents(cfg, st', id, claimed[1..], now))
  {
    var o, rest := claimed[0], claimed[1..];
    var released := Run(cfg, st, ReadingRelease(o), now).0;
    var w1 := w.(crashed := w.crashed - {o});
    var finishing := w1.(st := released, procs := w.procs[id := Finishing(o, true, rest)]);
    var tail := ReapEvents(cfg, ReapOne(cfg, st, o, now).0, id, rest, now);
    ReleaseReturnsOk(cfg, st, o, now);
    AmidThrough(cfg, w, st, id, ReadingRelease(o), rest, now);
    RunConcat(cfg, Before(w, st, id, claimed), Steps(id, now, StepsOf(cfg, st, ReadingRelease(o), now)),
              [Step(id, now)] + tail);
    RunConcat(cfg, finishing, [Step(id, now)], tail);
    RunOne(cfg, finishing, Step(id, now));
    FinishesOne(cfg, w1, released, id, o, rest, now);
  }

  lemma {:induction false} ReapsThrough(cfg: Config, w: World, st: Stores, id: nat, claimed: seq<OrderId>, now: int)
    requires ValidConfig(cfg) && id !in w.procs
    ensures RunAll(cfg, Before(w, st, id, claimed), ReapEvents(cfg, st, id, claimed, now))
            == w.(st := ReapAll(cfg, st, claimed, now).0, crashed := w.crashed - Members(claimed))
    ensures ReapAll(cfg, st, claimed, now).1 == |claimed|
    decreases |claimed|
  {
    if claimed == [] {
      assert w.crashed - Members(claimed) == w.crashed;
    } else {
      var w1 := w.(crashed := w.crashed - {claimed[0]});
      ReapsFirst(cfg, w, st, id, claimed, now);
      ReapsThrough(cfg, w1, ReapOne(cfg, st, claimed[0], now).0, id, claimed[1..], now);
      MembersSplit(w.crashed, claimed);
    }
  }

  lemma MembersSplit<V>(m: map<OrderId, V>, claimed: seq<OrderId>)
    requires claimed != []
    ensures m - {claimed[0]} - Members(claimed[1..]) == m - Members(claimed)
  {
    assert claimed == [claimed[0]] + claimed[1..];
    assert Members(claimed) == {claimed[0]} + Members(claimed[1..]);
  }

  /** A call of the reaper, with working stores and nothing in between, is a reaper of the engine from its claim to its
      end; every claimed order counts as processed. */
  lemma ReaperIsEngineRun(cfg: Config, w: World, id: nat, claimed: seq<OrderId>, limit: nat, now: int)
    requires ValidConfig(cfg) && id !in w.procs && IsClaim(Requeue(w.st.redis, now), claimed, now, limit)
    ensures var st := w.st.(redis := MoveClaimed(Requeue(w.st.redis, now), claimed, now));
            var (st', processed) := ReapAll(cfg, st, claimed, now);
            && RunAll(cfg, w, [StartReaper(id, claimed, limit, now)] + ReapEvents(cfg, st, id, claimed, now))
               == w.(st := st', crashed := w.crashed - Members(claimed))
            && processed == |claimed|
  {
    var st := w.st.(redis := MoveClaimed(Requeue(w.st.redis, now), claimed, now));
    var start := StartReaper(id, claimed, limit, now);
    RunConcat(cfg, w, [start], ReapEvents(cfg, st, id, claimed, now));
    RunOne(cfg, w, start);
    ReapsThrough(cfg, w, st, id, claimed, now);
  }

  // ------------------------------------------------------------------------------------------------------------
  // Everything claimed is released
  // ------------------------------------------------------------------------------------------------------------

  /** An order the reaper is through with. */
  predicate Reaped(r: Redis, o: OrderId) {
    && o in r.reservations && r.reservations[o].status == Released
    && o !in r.expiry && o !in r.processing && o !in r.retries
  }

  /** The release of one order, in what concerns another. */
  predicate OtherOrder(r: Redis, r': Redis, o: OrderId) {
    && (o in r'.reservations <==> o in r.reservations)
    && (o in r.reservations ==> r'.reservations[o] == r.reservations[o])
    && (o in r'.expiry <==> o in r.expiry) && (o in r'.processing <==> o in r.processing)
    && (o in r'.retries <==> o in r.retries) && (o in r'.dead <==> o in r.dead)
  }

  lemma ReapsOne(cfg: Config, st: Stores, o: OrderId, now: int)
    requires ValidConfig(cfg) && Shape(cfg, st) && Known(st, o) && o !in st.redis.expiry
    ensures var (st', ok) := ReapOne(cfg, st, o, now);
            ok && Reaped(st'.redis, o) && forall x :: x != o ==> OtherOrder(st.redis, st'.redis, x)
  {
    var v := st.redis.reservations[o];
    assert ValidReservation(cfg, v);
    Retry.StepOn(cfg, st, ReadingRelease(o), now, 1);
    Calls.ReleasesFrom(cfg, st, o, v.productId, v.quantity, now);
  }

  /** The part of `ReapsThrough` that concerns one order. */
  lemma OneOfThem(cfg: Config, w: World, st: Stores, id: nat, claimed: seq<OrderId>, now: int)
    requires ValidConfig(cfg) && id !in w.procs && claimed != [] && WorldInv(cfg, Before(w, st, id, claimed))
    ensures var w1 := w.(crashed := w.crashed - {claimed[0]});
            WorldInv(cfg, Before(w1, ReapOne(cfg, st, claimed[0], now).0, id, claimed[1..]))
  {
    var o, rest := claimed[0], claimed[1..];
    var w1, released := w.(crashed := w.crashed - {o}), Run(cfg, st, ReadingRelease(o), now).0;
    ReleaseReturnsOk(cfg, st, o, now);
    AmidThrough(cfg, w, st, id, ReadingRelease(o), rest, now);
    FinishesOne(cfg, w1, released, id, o, rest, now);
    RunKeeps(cfg, Before(w, st, id, claimed), Steps(id, now, StepsOf(cfg, st, ReadingRelease(o), now)));
    ApplyKeeps(cfg, w1.(st := released, procs := w.procs[id := Finishing(o, true, rest)]), Step(id, now));
  }

  lemma {:induction false} AllReaped(cfg: Config, w: World, st: Stores, id: nat, claimed: seq<OrderId>, now: int)
    requires ValidConfig(cfg) && id !in w.procs && WorldInv(cfg, Before(w, st, id, claimed))
    requires forall i, j :: 0 <= i < j < |claimed| ==> claimed[i] != claimed[j]
    requires forall o :: o in claimed ==> Known(st, o) && o !in st.redis.expiry
    ensures var r := ReapAll(cfg, st, claimed, now).0.redis;
            && (forall o :: o in claimed ==> Reaped(r, o))
            && (forall o :: o !in claimed ==> OtherOrder(st.redis, r, o))
    decreases |claimed|
  {
    if claimed != [] {
      var st' := ReapOne(cfg, st, claimed[0], now).0;
      ReapsOne(cfg, st, claimed[0], now);
      OneOfThem(cfg, w, st, id, claimed, now);
      forall o | o in claimed[1..]
        ensures o in claimed && o != claimed[0] && Known(st', o) && o !in st'.redis.expiry
      {
        var k :| 0 <= k < |claimed[1..]| && claimed[1..][k] == o;
        assert claimed[k + 1] == o && claimed[0] != claimed[k + 1];
        assert OtherOrder(st.redis, st'.redis, o);
      }
      assert claimed[0] !in claimed[1..];
      AllReaped(cfg, w.(crashed := w.crashed - {claimed[0]}), st', id, claimed[1..], now);
      ReapedStays(st.redis, st'.redis, ReapAll(cfg, st, claimed, now).0.redis, claimed);
    }
  }

  lemma ReapedStays(r: Redis, r1: Redis, r2: Redis, claimed: seq<OrderId>)
    requires claimed != [] && Reaped(r1, claimed[0]) && forall o :: o != claimed[0] ==> OtherOrder(r, r1, o)
    requires forall o :: o in claimed[1..] ==> Reaped(r2, o)
    requires forall o :: o !in claimed[1..] ==> OtherOrder(r1, r2, o)
    requires claimed[0] !in claimed[1..]
    ensures forall o :: o in claimed ==> Reaped(r2, o)
    ensures forall o :: o !in claimed ==> OtherOrder(r, r2, o)
  {
    forall o
      ensures o in claimed ==> Reaped(r2, o)
      ensures o !in claimed ==> OtherOrder(r, r2, o)
    {
      assert o in claimed <==> o == claimed[0] || o in claimed[1..];
      if o !in claimed[1..] {
        assert OtherOrder(r1, r2, o);
        if o != claimed[0] {
          assert OtherOrder(r, r1, o);
        }
      }
    }
  }

  lemma {:induction false} SumSplit<K(!new)>(keys: set<K>, part: set<K>, f: K -> int)
    requires part <= keys
    ensures Sum(keys, f) == Sum(part, f) + Sum(keys - part, f)
    decreases part
  {
    if part == {} {
      assert keys - part == keys;
    } else {
      var k :| k in part;
      SumPick(keys, f, k);
      SumPick(part, f, k);
      SumSplit(keys - {k}, part - {k}, f);
      assert keys - {k} - (part - {k}) == keys - part;
    }
  }

  /** Released orders hold nothing: what they held is what the rest does not hold. */
  lemma HeldByRest(st: Stores, st': Stores, gone: set<OrderId>, p: ProductId)
    requires gone <= Orders(st) && Orders(st') == Orders(st)
    requires forall o :: o in gone ==> st'.redis.reservations[o].status == Released
    requires forall o :: o in Orders(st) - gone ==> st'.redis.reservations[o] == st.redis.reservations[o]
    ensures Held(st', p) == Held(st, p) - Sum(gone, HeldOf(st, p))
    ensures LiveReserved(st', p) == LiveReserved(st, p) - Sum(gone, ReservedOf(st, p))
  {
    SumSplit(Orders(st), gone, HeldOf(st, p));
    SumSplit(Orders(st), gone, ReservedOf(st, p));
    SumSplit(Orders(st), gone, HeldOf(st', p));
    SumSplit(Orders(st), gone, ReservedOf(st', p));
    SumZero(gone, HeldOf(st', p));
    SumZero(gone, ReservedOf(st', p));
    SumSame(Orders(st) - gone, HeldOf(st, p), HeldOf(st', p));
    SumSame(Orders(st) - gone, ReservedOf(st, p), ReservedOf(st', p));
  }

  /** In any reachable world, with working stores: a call of the reaper releases every order it claimed and is through
      with it, leaves every other order as its claim left it, and brings what the claimed orders held back to the
      shards, and what they held reserved off the counter. */
  lemma ReapedAreReleased(cfg: Config, w: World, id: nat, claimed: seq<OrderId>, limit: nat, now: int, p: ProductId)
    requires ValidConfig(cfg) && WorldInv(cfg, w) && id !in w.procs
    requires IsClaim(Requeue(w.st.redis, now), claimed, now, limit)
    ensures var st := w.st.(redis := MoveClaimed(Requeue(w.st.redis, now), claimed, now));
            var (st', processed) := ReapAll(cfg, st, claimed, now);
            && processed == |claimed|
            && (forall o :: o in claimed ==> Known(w.st, o) && Reaped(st'.redis, o))
            && (forall o :: o !in claimed ==> OtherOrder(st.redis, st'.redis, o))
            && Available(st'.redis, p, cfg.shardCount)
               == Available(w.st.redis, p, cfg.shardCount) + Sum(Members(claimed), HeldOf(w.st, p))
            && Counter(st'.redis, p) == Counter(w.st.redis, p) - Sum(Members(claimed), ReservedOf(w.st, p))
  {
    var st := w.st.(redis := MoveClaimed(Requeue(w.st.redis, now), claimed, now));
    var start, st' := StartReaper(id, claimed, limit, now), ReapAll(cfg, st, claimed, now).0;
    var gone := Members(claimed);
    ClaimTracked(w.st.redis, claimed, limit, now);
    MoveClaimedSets(Requeue(w.st.redis, now), claimed, now);
    ApplyKeeps(cfg, w, start);
    AllReaped(cfg, w, st, id, claimed, now);
    ReaperIsEngineRun(cfg, w, id, claimed, limit, now);
    RunKeeps(cfg, w, [start] + ReapEvents(cfg, st, id, claimed, now));
    ReapedOrders(w.st, st, st', claimed);
    HeldByRest(w.st, st', gone, p);
    assert Conserved(cfg, w.st, w.supply, p) && Conserved(cfg, st', w.supply, p);
  }

  lemma ReapedOrders(st0: Stores, st: Stores, st': Stores, claimed: seq<OrderId>)
    requires st.redis.reservations == st0.redis.reservations && forall o :: o in claimed ==> Known(st0, o)
    requires forall o :: o in claimed ==> Reaped(st'.redis, o)
    requires forall o :: o !in claimed ==> OtherOrder(st.redis, st'.redis, o)
    ensures Members(claimed) <= Orders(st0) && Orders(st') == Orders(st0)
    ensures forall o :: o in Orders(st0) && o !in claimed ==>
              st'.redis.reservations[o] == st0.redis.reservations[o]
  {
    forall o
      ensures o in Orders(st') <==> o in Orders(st0)
      ensures o in Orders(st0) && o !in claimed ==> st'.redis.reservations[o] == st0.redis.reservations[o]
    {
      if o in claimed {
        assert Reaped(st'.redis, o);
      } else {
        assert OtherOrder(st.redis, st'.redis, o);
      }
    }
  }

  // ------------------------------------------------------------------------------------------------------------
  // Times
  // ------------------------------------------------------------------------------------------------------------

  /** An order whose processing time is over is due at once for the reaper that finds it; the others stay where they
      are. */
  lemma AbandonedIsDue(r: Redis, now: int, o: OrderId)
    ensures var r' := Requeue(r, now);
            && (o in r.processing && r.processing[o] <= now ==> Due(r', o, now) && o !in r'.processing)
            && (o in r.processing && r.processing[o] > now ==>
                  o in r'.processing && r'.processing[o] == r.processing[o])
            && ((o in r.processing ==> r.processing[o] > now) ==>
                  (o in r'.expiry <==> o in r.expiry) && (o in r.expiry ==> r'.expiry[o] == r.expiry[o]))
            && r' == r.(expiry := r'.expiry, processing := r'.processing)
  {
  }

  lemma {:induction false} MoveClaimedTimes(r: Redis, claimed: seq<OrderId>, now: int, o: OrderId)
    ensures var r' := MoveClaimed(r, claimed, now);
            && (o in claimed ==> o in r'.processing && r'.processing[o] == now + PROCESSING_TIMEOUT)
            && (o !in claimed && o in r.processing ==> o in r'.processing && r'.processing[o] == r.processing[o])
            && (o !in claimed && o in r.expiry ==> o in r'.expiry && r'.expiry[o] == r.expiry[o])
    decreases |claimed|
  {
    if claimed != [] {
      assert claimed == [claimed[0]] + claimed[1..];
      MoveClaimedTimes(r.(expiry := Without(r.expiry, claimed[0]),
                          processing := r.processing[claimed[0] := now + PROCESSING_TIMEOUT]), claimed[1..], now, o);
    }
  }

  /** A claim leaves a due order behind only when it is full, with orders that were due no later. */
  lemma EarliestFirst(r: Redis, claimed: seq<OrderId>, now: int, limit: nat, o: OrderId)
    requires IsClaim(r, claimed, now, limit) && o in r.expiry && r.expiry[o] <= now && o !in claimed
    ensures |claimed| == limit
    ensures forall i :: 0 <= i < |claimed| ==> claimed[i] in r.expiry && r.expiry[claimed[i]] <= r.expiry[o]
  {
    assert Due(r, o, now);
    forall i | 0 <= i < |claimed|
      ensures claimed[i] in r.expiry && r.expiry[claimed[i]] <= r.expiry[o]
    {
      assert claimed[i] in claimed;
      assert Due(r, claimed[i], now);
    }
  }

  /** What a reaper has claimed no other can take within the processing timeout, and any can from then on. */
  lemma ClaimHolds(r: Redis, claimed: seq<OrderId>, now: int, later: int, o: OrderId)
    requires o in claimed
    ensures Due(Requeue(MoveClaimed(r, claimed, now), later), o, later) <==> later >= now + 300
  {
    MoveClaimedSets(r, claimed, now);
    MoveClaimedTimes(r, claimed, now, o);
    AbandonedIsDue(MoveClaimed(r, claimed, now), later, o);
  }

  lemma RetryCounts(r: Redis, o: OrderId, now: int)
    ensures var r' := RetryScript(r, o, now); o !in r'.processing && Attempts(r', o) == Attempts(r, o) + 1
  {
    var r' := RetryScript(r, o, now);
    assert r'.retries == r.retries[o := Attempts(r, o) + 1] && r'.processing == r.processing - {o};
  }

  lemma RetryDue(r: Redis, o: OrderId, now: int, later: int)
    requires o !in r.expiry
    ensures var r' := RetryScript(r, o, now);
            if Attempts(r, o) + 1 < 3 then (Due(r', o, later) <==> later >= now + 30) && r'.dead == r.dead
            else o !in r'.expiry && r'.dead == r.dead[o := now]
  {
  }

  /** A release that failed is tried again after the delay and not before, until the last attempt, which makes it a dead
      letter. */
  lemma RetryWaits(r: Redis, o: OrderId, now: int, later: int)
    requires o !in r.expiry
    ensures var r' := RetryScript(r, o, now);
            && o !in r'.processing && Attempts(r', o) == Attempts(r, o) + 1
            && (Attempts(r', o) < 3 ==> (Due(r', o, later) <==> later >= now + 30) && r'.dead == r.dead)
            && (Attempts(r', o) >= 3 ==> o !in r'.expiry && r'.dead == r.dead[o := now])
            && forall x :: x != o ==> OtherOrder(r, r', x)
  {
    RetryCounts(r, o, now);
    RetryDue(r, o, now, later);
    RetryTouchesOne(r, o, now);
  }

  lemma RetryTouchesOne(r: Redis, o: OrderId, now: int)
    ensures forall x :: x != o ==> OtherOrder(r, RetryScript(r, o, now), x)
  {
    forall x | x != o
      ensures OtherOrder(r, RetryScript(r, o, now), x)
    {
      RetryOther(r, o, now, x);
    }
  }

  lemma RetryOther(r: Redis, o: OrderId, now: int, x: OrderId)
    requires x != o
    ensures OtherOrder(r, RetryScript(r, o, now), x)
  {
  }
}
