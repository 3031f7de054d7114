/** The expiry reaper: its three scripts over the expiry, processing and dead-letter sets, and the loop that
    releases what it claimed. */
module ReservationReaper {
  import opened Wrappers
  import opened Shards
  import opened RedisScripts
  import opened StockPersistence
  import opened StockCommands

  const PROCESSING_TIMEOUT := 300
  const RETRY_DELAY := 30
  const MAX_RETRIES := 3

  function Requeue(r: Redis, now: int): Redis {
    r.(processing := map o | o in r.processing && r.processing[o] > now :: r.processing[o],
       expiry := r.expiry + map o | o in r.processing && r.processing[o] <= now :: now)
  }

  predicate Due(r: Redis, o: OrderId, now: int) {
    o in r.expiry && r.expiry[o] <= now
  }

  /** What a range query on the expiry set with a limit returns: distinct due orders, at most `limit` of them and all
      of them if fewer are due, none left behind that expired before one taken. */
  ghost predicate IsClaim(r: Redis, claimed: seq<OrderId>, now: int, limit: nat) {
    && |claimed| <= limit
    && (forall i, j :: 0 <= i < j < |claimed| ==> claimed[i] != claimed[j])
    && (forall o :: o in claimed ==> Due(r, o, now))
    && (|claimed| < limit ==> forall o :: Due(r, o, now) ==> o in claimed)
    && (forall o, o' :: o in claimed && Due(r, o', now) && o' !in claimed ==> r.expiry[o] <= r.expiry[o'])
  }

  function MoveClaimed(r: Redis, claimed: seq<OrderId>, now: int): Redis
    decreases |claimed|
  {
    if claimed == [] then r
    else MoveClaimed(r.(expiry := Without(r.expiry, claimed[0]),
                        processing := r.processing[claimed[0] := now + PROCESSING_TIMEOUT]), claimed[1..], now)
  }

  function CompleteScript(r: Redis, o: OrderId): Redis {
    r.(processing := Without(r.processing, o), retries := Without(r.retries, o))
  }

  function Attempts(r: Redis, o: OrderId): int {
    if o in r.retries then r.retries[o] else 0
  }

  function RetryScript(r: Redis, o: OrderId, now: int): Redis {
    var attempts := Attempts(r, o) + 1;
    var r' := r.(retries := r.retries[o := attempts], processing := Without(r.processing, o));
    if attempts >= MAX_RETRIES then r'.(dead := r'.dead[o := now])
    else r'.(expiry := r'.expiry[o := now + RETRY_DELAY])
  }

  lemma {:induction false} MoveClaimedSets(r: Redis, claimed: seq<OrderId>, now: int)
    ensures var r' := MoveClaimed(r, claimed, now);
            && r' == r.(expiry := r'.expiry, processing := r'.processing)
            && (forall o :: o in r'.expiry <==> o in r.expiry && o !in claimed)
            && (forall o :: o in r'.processing <==> o in r.processing || o in claimed)
    decreases |claimed|
  {
    if claimed != [] {
      assert claimed == [claimed[0]] + claimed[1..];
      MoveClaimedSets(r.(expiry := Without(r.expiry, claimed[0]),
                         processing := r.processing[claimed[0] := now + PROCESSING_TIMEOUT]), claimed[1..], now);
    }
  }

  /** Release one claimed order, then complete it or schedule its retry. */
  function ReapOne(cfg: Config, st: Stores, o: OrderId, now: int): (Stores, bool)
    requires ValidConfig(cfg)
  {
    var (st1, out) := Run(cfg, st, ReadingRelease(o), now);
    (st1.(redis := if out == Ok then CompleteScript(st1.redis, o) else RetryScript(st1.redis, o, now)), out == Ok)
  }

  /** The loop over what was claimed, and how many releases it counted as processed. */
  function ReapAll(cfg: Config, st: Stores, claimed: seq<OrderId>, now: int): (Stores, nat)
    requires ValidConfig(cfg)
    decreases |claimed|
  {
    if claimed == [] then (st, 0)
    else
      var (st1, ok) := ReapOne(cfg, st, claimed[0], now);
      var (st2, more) := ReapAll(cfg, st1, claimed[1..], now);
      (st2, more + if ok then 1 else 0)
  }

  method EarliestDue(r: RedisStore, now: int, limit: nat) returns (claimed: seq<OrderId>)
    ensures IsClaim(r.Value(), claimed, now, limit)
  {
    claimed := [];
    var due := set o | o in r.expiry && r.expiry[o] <= now;
    while due != {} && |claimed| < limit
      invariant |claimed| <= limit
      invariant forall o :: Due(r.Value(), o, now) <==> o in due || o in claimed
      invariant forall o :: o in due ==> o !in claimed
      invariant forall i, j :: 0 <= i < j < |claimed| ==> claimed[i] != claimed[j]
      invariant forall o, o' :: o in claimed && o' in due ==> r.expiry[o] <= r.expiry[o']
      decreases |due|
    {
      var first :| first in due;
      var rest := due - {first};
      while rest != {}
        invariant first in due && rest <= due
        invariant forall o :: o in due && o !in rest ==> r.expiry[first] <= r.expiry[o]
        decreases |rest|
      {
        var o :| o in rest;
        if r.expiry[o] < r.expiry[first] {
          first := o;
        }
        rest := rest - {o};
      }
      claimed := claimed + [first];
      due := due - {first};
    }
  }

  method ClaimExpired(r: RedisStore, now: int, limit: nat) returns (claimed: seq<OrderId>)
    modifies r
    ensures IsClaim(Requeue(old(r.Value()), now), claimed, now, limit)
    ensures r.Value() == MoveClaimed(Requeue(old(r.Value()), now), claimed, now)
  {
    RequeueAbandoned(r, now);
    claimed := EarliestDue(r, now, limit);
    var i := 0;
    while i < |claimed|
      invariant 0 <= i <= |claimed|
      invariant MoveClaimed(r.Value(), claimed[i..], now) == MoveClaimed(Requeue(old(r.Value()), now), claimed, now)
    {
      assert claimed[i..][1..] == claimed[i + 1..];
      r.expiry := Without(r.expiry, claimed[i]);
      r.processing := r.processing[claimed[i] := now + PROCESSING_TIMEOUT];
      i := i + 1;
    }
  }

  /** The maps a requeue has produced once every order in `left` is still to be moved. */
  ghost predicate Requeued(r: Redis, now: int, left: set<OrderId>, processing: map<OrderId, int>,
                           expiry: map<OrderId, int>) {
    && (forall o :: o in left ==> o in r.processing && r.processing[o] <= now)
    && (forall o :: o in processing <==> o in r.processing && (r.processing[o] > now || o in left))
    && (forall o :: o in processing ==> processing[o] == r.processing[o])
    && (forall o :: o in expiry <==> o in r.expiry || (o in r.processing && r.processing[o] <= now && o !in left))
    && (forall o :: o in expiry ==>
          expiry[o] == if o in r.processing && r.processing[o] <= now && o !in left then now else r.expiry[o])
  }

  lemma RequeueDone(r: Redis, now: int, processing: map<OrderId, int>, expiry: map<OrderId, int>)
    requires Requeued(r, now, {}, processing, expiry)
    ensures Requeue(r, now) == r.(processing := processing, expiry := expiry)
  {
    assert Requeue(r, now).processing == processing;
    assert Requeue(r, now).expiry == expiry;
  }

  method RequeueAbandoned(r: RedisStore, now: int)
    modifies r
    ensures r.Value() == Requeue(old(r.Value()), now)
  {
    ghost var before := r.Value();
    var abandoned := set o | o in r.processing && r.processing[o] <= now;
    while abandoned != {}
      invariant r.Value() == before.(expiry := r.expiry, processing := r.processing)
      invariant Requeued(before, now, abandoned, r.processing, r.expiry)
      decreases |abandoned|
    {
      var o :| o in abandoned;
      r.processing := Without(r.processing, o);
      r.expiry := r.expiry[o := now];
      abandoned := abandoned - {o};
    }
    RequeueDone(before, now, r.processing, r.expiry);
  }

  method CompleteExpired(r: RedisStore, o: OrderId)
    modifies r
    ensures r.Value() == CompleteScript(old(r.Value()), o)
  {
    r.processing := Without(r.processing, o);
    r.retries := Without(r.retries, o);
  }

  method RetryExpired(r: RedisStore, o: OrderId, now: int) returns (attempts: int)
    modifies r
    ensures r.Value() == RetryScript(old(r.Value()), o, now)
    ensures attempts == Attempts(old(r.Value()), o) + 1
  {
    attempts := (if o in r.retries then r.retries[o] else 0) + 1;
    r.retries := r.retries[o := attempts];
    r.processing := Without(r.processing, o);
    if attempts >= MAX_RETRIES {
      r.dead := r.dead[o := now];
    } else {
      r.expiry := r.expiry[o := now + RETRY_DELAY];
    }
  }

  method ReleaseClaimed(repo: Repository, o: OrderId, now: int) returns (ok: bool)
    requires ValidConfig(repo.cfg)
    modifies repo.redis, repo.db
    ensures (repo.Value(), ok) == ReapOne(repo.cfg, old(repo.Value()), o, now)
  {
    var out := repo.ReleaseStock(o, now);
    if out != Ok {
      var _ := RetryExpired(repo.redis, o, now);
      return false;
    }
    CompleteExpired(repo.redis, o);
    return true;
  }

  method ReleaseExpiredReservations(repo: Repository, limit: int, now: int) returns (processed: nat,
                                    claimed: seq<OrderId>)
    requires ValidConfig(repo.cfg)
    modifies repo.redis, repo.db
    ensures IsClaim(Requeue(old(repo.Value()).redis, now), claimed, now, if limit <= 0 then 100 else limit)
    ensures (repo.Value(), processed) ==
            ReapAll(repo.cfg, old(repo.Value()).(redis := MoveClaimed(Requeue(old(repo.Value()).redis, now), claimed,
                now)), claimed, now)
  {
    var size := if limit <= 0 then 100 else limit;
    claimed := ClaimExpired(repo.redis, now, size);
    processed := ReleaseAllClaimed(repo, claimed, now);
  }

  method ReleaseAllClaimed(repo: Repository, claimed: seq<OrderId>, now: int) returns (processed: nat)
    requires ValidConfig(repo.cfg)
    modifies repo.redis, repo.db
    ensures (repo.Value(), processed) == ReapAll(repo.cfg, old(repo.Value()), claimed, now)
  {
    ghost var goal := ReapAll(repo.cfg, repo.Value(), claimed, now);
    processed := 0;
    var i := 0;
    while i < |claimed|
      invariant 0 <= i <= |claimed|
      invariant ReapAll(repo.cfg, repo.Value(), claimed[i..], now).0 == goal.0
      invariant ReapAll(repo.cfg, repo.Value(), claimed[i..], now).1 + processed == goal.1
    {
      ghost var left := claimed[i..];
      assert left[0] == claimed[i] && left[1..] == claimed[i + 1..];
      var ok := ReleaseClaimed(repo, claimed[i], now);
      if ok {
        processed := processed + 1;
      }
      i := i + 1;
    }
  }

  /** Without a failing store, a release always returns success and leaves no live reservation behind. */
  lemma ReleaseReturnsOk(cfg: Config, st: Stores, o: OrderId, now: int)
    requires ValidConfig(cfg)
    ensures Run(cfg, st, ReadingRelease(o), now).1 == Ok
    ensures var r := Run(cfg, st, ReadingRelease(o), now).0.redis;
            o in st.redis.reservations && st.redis.reservations[o].productId > 0
                && st.redis.reservations[o].quantity > 0
            ==> o in r.reservations && r.reservations[o].status == Released
  {
    var id := GetReservationScript(st.redis, o);
    if id.productId <= 0 || id.quantity <= 0 {
      var next := StepCmd(cfg, st, LoadingLedger(o), now).1;
      assert Run(cfg, st, ReadingRelease(o), now) == Run(cfg, st, LoadingLedger(o), now);
      if next.Goto? {
        var st1 := StepCmd(cfg, st, Hydrating(o, next.cmd.row), now).0;
        assert Run(cfg, st, LoadingLedger(o), now) == Run(cfg, st, Hydrating(o, next.cmd.row), now);
        AfterReadOk(cfg, st1, o, next.cmd.row.productId, next.cmd.row.quantity, now);
      }
    } else {
      AfterReadOk(cfg, st, o, id.productId, id.quantity, now);
    }
  }

  lemma AfterReadOk(cfg: Config, st: Stores, o: OrderId, p: ProductId, q: int, now: int)
    requires ValidConfig(cfg)
    ensures var (st', out) := Run(cfg, st, AfterReleaseRead(cfg, o, p, q).cmd, now);
            && out == Ok
            && (o in st.redis.reservations ==>
                 o in st'.redis.reservations && st'.redis.reservations[o].status == Released)
  {
    var st1 := if cfg.finalDeduct then st.(db := RevertTx(st.db, o, p, q)) else st;
    assert Run(cfg, st, AfterReleaseRead(cfg, o, p, q).cmd, now) == Run(cfg, st1, Releasing(o, p), now);
    var st2 := st1.(redis := ReleaseScript(st1.redis, cfg.shardCount, o, p));
    assert Run(cfg, st1, Releasing(o, p), now) == Run(cfg, st2, ReleasingLedger(o), now);
  }
}
