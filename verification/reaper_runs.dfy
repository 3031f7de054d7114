/** Runs with at most one reaper at a time, interleaved with any commands: the three sets stay disjoint, an order fails
    at most three times, and a dead-lettered order is never claimed again. */
module ReaperRuns {
  import opened Wrappers
  import opened Shards
  import opened RedisScripts
  import opened StockPersistence
  import opened StockCommands
  import opened ReservationReaper
  import opened Accounts
  import opened Engine

  ghost predicate Disjoint(r: Redis) {
    && r.expiry.Keys !! r.processing.Keys
    && r.expiry.Keys !! r.dead.Keys
    && r.processing.Keys !! r.dead.Keys
  }

  /** The retry counts: positive, at most the maximum, at the maximum exactly for dead-lettered orders. */
  ghost predicate Counted(r: Redis) {
    && (forall o :: o in r.retries ==> o in r.reservations && 1 <= r.retries[o] <= MAX_RETRIES)
    && (forall o :: o in r.dead <==> o in r.retries && r.retries[o] == MAX_RETRIES)
  }

  ghost predicate SetsOk(r: Redis) {
    Disjoint(r) && Counted(r)
  }

  predicate IsReaper(proc: Proc) {
    !proc.Direct?
  }

  /** The orders a reaper still has in its hands. */
  function Work(proc: Proc): seq<OrderId> {
    match proc
    case Direct(_) => []
    case Reaping(c, rest) => if c.OnOrder() then [c.o] + rest else rest
    case Finishing(o, _, rest) => [o] + rest
  }

  ghost predicate InHand(r: Redis, work: seq<OrderId>) {
    && (forall o :: o in work ==> o in r.processing)
    && (forall i, j :: 0 <= i < j < |work| ==> work[i] != work[j])
  }

  ghost predicate OneReaper(w: World) {
    forall i, j :: i in w.procs && j in w.procs && IsReaper(w.procs[i]) && IsReaper(w.procs[j]) ==> i == j
  }

  ghost predicate HandsOk(w: World) {
    forall i :: i in w.procs ==> InHand(w.st.redis, Work(w.procs[i]))
  }

  ghost predicate ReaperInv(cfg: Config, w: World) {
    WorldInv(cfg, w) && SetsOk(w.st.redis) && OneReaper(w) && HandsOk(w)
  }

  /** A second reaper does not start while one is at work. */
  ghost predicate Alone(w: World, e: Event) {
    e.StartReaper? ==> forall i :: i in w.procs ==> !IsReaper(w.procs[i])
  }

  // ------------------------------------------------------------------------------------------------------------
  // Scripts
  // ------------------------------------------------------------------------------------------------------------

  /** A step of a command touches only the expiry set: it adds its own order, unknown until then, or removes it. */
  ghost predicate SameHands(r: Redis, r': Redis) {
    && r'.processing == r.processing && r'.retries == r.retries && r'.dead == r.dead
    && (forall o :: o in r'.expiry ==> o in r.expiry || o !in r.reservations)
    && (forall o :: o in r.reservations ==> o in r'.reservations)
  }

  lemma OrdersOnly(r: Redis, r': Redis)
    requires r'.processing == r.processing && r'.retries == r.retries && r'.dead == r.dead
    requires r'.expiry.Keys <= r.expiry.Keys
    requires r.reservations.Keys <= r'.reservations.Keys
    ensures SameHands(r, r')
  {
  }

  lemma CommandSets(cfg: Config, st: Stores, c: Cmd, now: int)
    requires ValidConfig(cfg)
    ensures SameHands(st.redis, StepCmd(cfg, st, c, now).0.redis)
  {
    if !WritesRedis(c) {
      QuietStep(cfg, st, c, now);
      OrdersOnly(st.redis, StepCmd(cfg, st, c, now).0.redis);
    } else {
      WritingStep(cfg, st, c, now);
      WritingSets(cfg, st.redis, c, now);
    }
  }

  lemma ReserveSets(r: Redis, n: nat, start: nat, o: OrderId, p: ProductId, q: int, now: int)
    ensures SameHands(r, ReserveScript(r, n, start, o, p, q, now).0)
  {
  }

  lemma ReleaseSets(r: Redis, n: nat, o: OrderId, p: ProductId)
    ensures SameHands(r, ReleaseScript(r, n, o, p))
  {
    OrdersOnly(r, ReleaseScript(r, n, o, p));
  }

  lemma MarkSets(r: Redis, o: OrderId)
    ensures SameHands(r, MarkDeductedScript(r, o))
  {
    OrdersOnly(r, MarkDeductedScript(r, o));
  }

  lemma HydrateSets(r: Redis, o: OrderId, v: Reservation)
    ensures SameHands(r, HydrateScript(r, o, v))
  {
    OrdersOnly(r, HydrateScript(r, o, v));
  }

  lemma HashSets(r: Redis, o: OrderId, v: Reservation)
    ensures SameHands(r, MarkDeductedScript(r, o)) && SameHands(r, HydrateScript(r, o, v))
  {
    MarkSets(r, o);
    HydrateSets(r, o, v);
  }

  lemma AdjustSets(r: Redis, n: nat, p: ProductId, delta: int, start: nat)
    requires 1 <= start <= n
    ensures SameHands(r, AdjustScript(r, n, p, delta, start).0)
  {
    var r' := AdjustScript(r, n, p, delta, start).0;
    assert r' == r.(stock := r'.stock);
    OrdersOnly(r, r');
  }

  lemma WritingSets(cfg: Config, r: Redis, c: Cmd, now: int)
    requires ValidConfig(cfg) && WritesRedis(c)
    ensures SameHands(r, Written(cfg, r, c, now))
  {
    if c.Reserving? {
      ReserveSets(r, cfg.shardCount, StartIndex(cfg.crc32, c.o, cfg.shardCount), c.o, c.p, c.q, now);
    } else if c.Confirming? {
      ConfirmSets(r, c.o, cfg.finalDeduct);
    } else if c.Releasing? {
      ReleaseSets(r, cfg.shardCount, c.o, c.p);
    } else if c.AdjustingShards? {
      AdjustSets(r, cfg.shardCount, c.p, c.delta, AdjustStart(cfg, c.bucket));
    } else if c.Hydrating? {
      HashSets(r, c.o, Reservation(c.row.status, c.row.productId, c.row.quantity, c.row.shardIndex, false));
    } else {
      HashSets(r, c.o, Reservation(Reserved, 0, 0, 0, false));
    }
  }

  lemma ConfirmSets(r: Redis, o: OrderId, finalDeduct: bool)
    ensures SameHands(r, ConfirmScript(r, o, finalDeduct).0)
  {
    if o in r.reservations {
      ConfirmEffect(r, o, finalDeduct);
      OrdersOnly(r, ConfirmScript(r, o, finalDeduct).0);
    }
  }

  lemma CommandKeepsSets(r: Redis, r': Redis)
    requires SetsOk(r) && Tracked(r) && SameHands(r, r')
    ensures SetsOk(r')
  {
    forall o | o in r'.expiry
      ensures o !in r'.processing && o !in r'.dead
    {
      if o !in r.expiry {
        assert !InSomeSet(r, o);
      }
    }
  }

  lemma FinishKeepsSets(r: Redis, o: OrderId, released: bool, now: int)
    requires SetsOk(r) && o in r.processing && o in r.reservations
    ensures SetsOk(FinishStep(r, o, released, now))
  {
    assert o !in r.dead && o !in r.expiry;
    if released {
      CompleteKeepsSets(r, o);
    } else {
      RetryDisjoint(r, o, now);
      RetryCounted(r, o, now);
    }
  }

  lemma CompleteKeepsSets(r: Redis, o: OrderId)
    requires SetsOk(r) && o in r.processing
    ensures SetsOk(CompleteScript(r, o))
  {
    assert o !in r.dead;
  }

  lemma RetryDisjoint(r: Redis, o: OrderId, now: int)
    requires Disjoint(r) && o in r.processing
    ensures Disjoint(RetryScript(r, o, now))
  {
    assert o !in r.dead && o !in r.expiry;
  }

  lemma RetryCounted(r: Redis, o: OrderId, now: int)
    requires Counted(r) && o !in r.dead && o in r.reservations
    ensures Counted(RetryScript(r, o, now))
  {
    assert Attempts(r, o) < MAX_RETRIES;
  }

  lemma FinishKeepsHands(r: Redis, o: OrderId, released: bool, now: int, rest: seq<OrderId>)
    requires InHand(r, [o] + rest)
    ensures InHand(FinishStep(r, o, released, now), rest)
  {
    var work := [o] + rest;
    assert forall i :: 0 <= i < |rest| ==> rest[i] == work[i + 1];
    forall x | x in rest
      ensures x in r.processing && x != o
    {
      var i :| 0 <= i < |rest| && rest[i] == x;
      assert work[0] != work[i + 1];
      assert x in work;
    }
  }

  lemma ClaimKeepsSets(r: Redis, claimed: seq<OrderId>, limit: nat, now: int)
    requires SetsOk(r) && IsClaim(Requeue(r, now), claimed, now, limit)
    ensures var r' := MoveClaimed(Requeue(r, now), claimed, now);
            SetsOk(r') && InHand(r', claimed) && forall o :: o in claimed ==> o !in r.dead
  {
    MoveClaimedSets(Requeue(r, now), claimed, now);
  }

  // ------------------------------------------------------------------------------------------------------------
  // Events
  // ------------------------------------------------------------------------------------------------------------

  lemma TailInHand(r: Redis, work: seq<OrderId>)
    requires InHand(r, work) && work != []
    ensures InHand(r, work[1..])
  {
    assert forall i :: 0 <= i < |work[1..]| ==> work[1..][i] == work[i + 1];
  }

  lemma HandsStay(r: Redis, r': Redis, work: seq<OrderId>)
    requires InHand(r, work) && r'.processing == r.processing
    ensures InHand(r', work)
  {
  }

  /** What a process move must respect: the others stay, no reaper appears, and the mover keeps only work it had. */
  lemma MoveKeeps(cfg: Config, w: World, w': World, id: nat)
    requires ReaperInv(cfg, w) && WorldInv(cfg, w') && SetsOk(w'.st.redis)
    requires forall i :: i in w'.procs && i != id ==> i in w.procs && w'.procs[i] == w.procs[i]
    requires id in w'.procs ==>
      id in w.procs && InHand(w'.st.redis, Work(w'.procs[id])) && IsReaper(w'.procs[id]) == IsReaper(w.procs[id])
    requires id in w.procs && (IsReaper(w.procs[id]) || w'.st.redis.processing == w.st.redis.processing)
    ensures ReaperInv(cfg, w')
  {
    forall i | i in w'.procs
      ensures InHand(w'.st.redis, Work(w'.procs[i]))
    {
      if i != id {
        if w'.st.redis.processing == w.st.redis.processing {
          HandsStay(w.st.redis, w'.st.redis, Work(w.procs[i]));
        } else {
          assert !IsReaper(w.procs[i]);
        }
      }
    }
  }

  lemma AppliedSets(cfg: Config, w: World, id: nat, applied: bool, now: int)
    requires ValidConfig(cfg) && ReaperInv(cfg, w) && id in w.procs
    ensures var r' := Applied(cfg, w, id, applied, now).st.redis;
            && SetsOk(r')
            && (if w.procs[id].Finishing? then InHand(r', w.procs[id].rest) else r'.processing == w.st.redis.processing)
  {
    assert ProcOk(w.st, w.procs[id]) && InHand(w.st.redis, Work(w.procs[id]));
    match w.procs[id] {
      case Direct(c) =>
        CommandSets(cfg, w.st, c, now);
        if applied { CommandKeepsSets(w.st.redis, StepCmd(cfg, w.st, c, now).0.redis); }
      case Reaping(c, _) =>
        CommandSets(cfg, w.st, c, now);
        if applied { CommandKeepsSets(w.st.redis, StepCmd(cfg, w.st, c, now).0.redis); }
      case Finishing(o, released, rest) =>
        assert o in Work(w.procs[id]);
        if applied {
          FinishKeepsSets(w.st.redis, o, released, now);
          FinishKeepsHands(w.st.redis, o, released, now, rest);
        } else {
          TailInHand(w.st.redis, [o] + rest);
        }
    }
  }

  lemma ContinueHands(r: Redis, procs: map<nat, Proc>, id: nat, rest: seq<OrderId>)
    requires InHand(r, rest)
    ensures id in Continue(procs, id, rest) ==>
            InHand(r, Work(Continue(procs, id, rest)[id])) && IsReaper(Continue(procs, id, rest)[id])
  {
    if rest != [] {
      assert [rest[0]] + rest[1..] == rest;
    }
  }

  lemma ReaperWork(cfg: Config, st: Stores, c: Cmd, rest: seq<OrderId>, now: int)
    requires ValidConfig(cfg) && Shape(cfg, st) && ProcOk(st, Reaping(c, rest))
    ensures var next := StepCmd(cfg, st, c, now).1;
            Work(if next.Goto? then Reaping(next.cmd, rest) else Finishing(c.o, next.out == Ok, rest))
                == Work(Reaping(c, rest))
  {
    ReaperStep(cfg, st, c, now);
  }

  lemma StepKeepsReaper(cfg: Config, w: World, id: nat, now: int)
    requires ValidConfig(cfg) && ReaperInv(cfg, w) && id in w.procs
    ensures ReaperInv(cfg, StepProc(cfg, w, id, now))
  {
    var w' := StepProc(cfg, w, id, now);
    assert ProcOk(w.st, w.procs[id]) && InHand(w.st.redis, Work(w.procs[id]));
    StepProcKeeps(cfg, w, id, now);
    StepProcShape(cfg, w, id, now);
    AppliedSets(cfg, w, id, true, now);
    StepWork(cfg, w, id, now);
    MoveKeeps(cfg, w, w', id);
  }

  lemma StepWork(cfg: Config, w: World, id: nat, now: int)
    requires ValidConfig(cfg) && ReaperInv(cfg, w) && id in w.procs
    ensures var w' := StepProc(cfg, w, id, now);
            id in w'.procs ==>
              InHand(w'.st.redis, Work(w'.procs[id])) && IsReaper(w'.procs[id]) == IsReaper(w.procs[id])
  {
    assert ProcOk(w.st, w.procs[id]) && InHand(w.st.redis, Work(w.procs[id]));
    AppliedSets(cfg, w, id, true, now);
    if w.procs[id].Reaping? {
      ReaperWork(cfg, w.st, w.procs[id].cmd, w.procs[id].rest, now);
      HandsStay(w.st.redis, StepCmd(cfg, w.st, w.procs[id].cmd, now).0.redis, Work(w.procs[id]));
    } else if w.procs[id].Finishing? {
      ContinueHands(Applied(cfg, w, id, true, now).st.redis, w.procs, id, w.procs[id].rest);
    }
  }

  lemma FailKeepsReaper(cfg: Config, w: World, id: nat, applied: bool, now: int)
    requires ValidConfig(cfg) && ReaperInv(cfg, w) && id in w.procs
    ensures ReaperInv(cfg, FailProc(cfg, w, id, applied, now))
  {
    var w' := FailProc(cfg, w, id, applied, now);
    assert ProcOk(w.st, w.procs[id]) && InHand(w.st.redis, Work(w.procs[id]));
    FailProcKeeps(cfg, w, id, applied, now);
    FailProcShape(cfg, w, id, applied, now);
    AppliedSets(cfg, w, id, applied, now);
    if w.procs[id].Finishing? {
      ContinueHands(w'.st.redis, w.procs, id, w.procs[id].rest);
    } else {
      HandsStay(w.st.redis, w'.st.redis, Work(w.procs[id]));
    }
    MoveKeeps(cfg, w, w', id);
  }

  lemma KillKeepsReaper(cfg: Config, w: World, id: nat, applied: bool, now: int)
    requires ValidConfig(cfg) && ReaperInv(cfg, w) && id in w.procs
    ensures ReaperInv(cfg, KillProc(cfg, w, id, applied, now))
  {
    KillProcKeeps(cfg, w, id, applied, now);
    AppliedSets(cfg, w, id, applied, now);
    MoveKeeps(cfg, w, KillProc(cfg, w, id, applied, now), id);
  }

  lemma ClaimKeepsReaper(cfg: Config, w: World, e: Event)
    requires ValidConfig(cfg) && ReaperInv(cfg, w) && e.StartReaper? && Enabled(w, e) && Alone(w, e)
    ensures ReaperInv(cfg, Apply(cfg, w, e))
  {
    ApplyKeeps(cfg, w, e);
    ClaimSets(cfg, w, e);
    ClaimHands(cfg, w, e);
  }

  lemma ClaimSets(cfg: Config, w: World, e: Event)
    requires ValidConfig(cfg) && ReaperInv(cfg, w) && e.StartReaper? && Enabled(w, e)
    ensures SetsOk(Apply(cfg, w, e).st.redis) && InHand(Apply(cfg, w, e).st.redis, e.claimed)
  {
    ClaimKeepsSets(w.st.redis, e.claimed, e.limit, e.now);
  }

  lemma ClaimHands(cfg: Config, w: World, e: Event)
    requires ValidConfig(cfg) && OneReaper(w) && e.StartReaper? && Enabled(w, e) && Alone(w, e)
    requires InHand(Apply(cfg, w, e).st.redis, e.claimed)
    ensures OneReaper(Apply(cfg, w, e)) && HandsOk(Apply(cfg, w, e))
  {
    var w' := Apply(cfg, w, e);
    ContinueHands(w'.st.redis, w.procs, e.id, e.claimed);
    assert forall i :: i in w'.procs && i != e.id ==> i in w.procs && w'.procs[i] == w.procs[i];
  }

  lemma ApplyKeepsReaper(cfg: Config, w: World, e: Event)
    requires ValidConfig(cfg) && ReaperInv(cfg, w) && Alone(w, e)
    ensures ReaperInv(cfg, Apply(cfg, w, e))
  {
    if Enabled(w, e) {
      match e {
        case Start(id, c) => ApplyKeeps(cfg, w, e);
        case StartReaper(_, _, _, _) => ClaimKeepsReaper(cfg, w, e);
        case Step(id, now) => StepKeepsReaper(cfg, w, id, now);
        case Fail(id, applied, now) => FailKeepsReaper(cfg, w, id, applied, now);
        case Kill(id, applied, now) => KillKeepsReaper(cfg, w, id, applied, now);
      }
    }
  }

  ghost function Next(cfg: Config, w: World, e: Event): World
    requires ValidConfig(cfg)
  {
    if Alone(w, e) then Apply(cfg, w, e) else w
  }

  ghost function RunAlone(cfg: Config, w: World, es: seq<Event>): World
    requires ValidConfig(cfg)
    decreases |es|
  {
    if es == [] then w else RunAlone(cfg, Next(cfg, w, es[0]), es[1..])
  }

  lemma {:induction false} RunAloneKeeps(cfg: Config, w: World, es: seq<Event>)
    requires ValidConfig(cfg) && ReaperInv(cfg, w)
    ensures ReaperInv(cfg, RunAlone(cfg, w, es))
    decreases |es|
  {
    if es != [] {
      if Alone(w, es[0]) {
        ApplyKeepsReaper(cfg, w, es[0]);
      }
      RunAloneKeeps(cfg, Next(cfg, w, es[0]), es[1..]);
    }
  }

  // ------------------------------------------------------------------------------------------------------------
  // Counting failures over a whole run
  // ------------------------------------------------------------------------------------------------------------

  /** The event runs the retry script on `o`: one more failed release. */
  predicate Fails(w: World, e: Event, o: OrderId) {
    && (e.Step? || (e.Fail? && e.applied) || (e.Kill? && e.applied))
    && e.id in w.procs && w.procs[e.id].Finishing? && !w.procs[e.id].released && w.procs[e.id].o == o
  }

  ghost function Failures(cfg: Config, w: World, es: seq<Event>, o: OrderId): nat
    requires ValidConfig(cfg)
    decreases |es|
  {
    if es == [] then 0 else (if Fails(w, es[0], o) then 1 else 0) + Failures(cfg, Next(cfg, w, es[0]), es[1..], o)
  }

  /** How often `o` can still fail: not at all once it is dead-lettered or in none of the sets. */
  function Budget(r: Redis, o: OrderId): int {
    if o in r.expiry || o in r.processing || o !in r.reservations then MAX_RETRIES - Attempts(r, o) else 0
  }

  lemma CommandBudget(r: Redis, r': Redis, o: OrderId)
    requires SetsOk(r) && Tracked(r) && SameHands(r, r')
    ensures 0 <= Budget(r', o) <= Budget(r, o)
  {
    CommandKeepsSets(r, r');
  }

  lemma FinishBudget(r: Redis, o: OrderId, released: bool, now: int, o': OrderId)
    requires SetsOk(r) && o in r.processing && o in r.reservations
    ensures var r' := FinishStep(r, o, released, now);
            0 <= Budget(r', o') <= Budget(r, o') - if !released && o' == o then 1 else 0
  {
    FinishKeepsSets(r, o, released, now);
    assert o !in r.dead && o !in r.expiry && Attempts(r, o) < MAX_RETRIES;
  }

  lemma ClaimBudget(r: Redis, claimed: seq<OrderId>, limit: nat, now: int, o: OrderId)
    requires SetsOk(r) && IsClaim(Requeue(r, now), claimed, now, limit)
    ensures Budget(MoveClaimed(Requeue(r, now), claimed, now), o) <= Budget(r, o)
  {
    MoveClaimedSets(Requeue(r, now), claimed, now);
  }

  lemma AppliedBudget(cfg: Config, w: World, id: nat, applied: bool, now: int, o: OrderId)
    requires ValidConfig(cfg) && ReaperInv(cfg, w) && id in w.procs
    ensures var failed := applied && w.procs[id].Finishing? && !w.procs[id].released && w.procs[id].o == o;
            Budget(Applied(cfg, w, id, applied, now).st.redis, o) <= Budget(w.st.redis, o) - if failed then 1 else 0
  {
    assert ProcOk(w.st, w.procs[id]) && InHand(w.st.redis, Work(w.procs[id]));
    if applied {
      match w.procs[id] {
        case Direct(c) =>
          CommandSets(cfg, w.st, c, now);
          CommandBudget(w.st.redis, StepCmd(cfg, w.st, c, now).0.redis, o);
        case Reaping(c, _) =>
          CommandSets(cfg, w.st, c, now);
          CommandBudget(w.st.redis, StepCmd(cfg, w.st, c, now).0.redis, o);
        case Finishing(o', released, rest) =>
          assert o' in Work(w.procs[id]);
          FinishBudget(w.st.redis, o', released, now, o);
      }
    }
  }

  lemma EventBudget(cfg: Config, w: World, e: Event, o: OrderId)
    requires ValidConfig(cfg) && ReaperInv(cfg, w) && Alone(w, e)
    ensures Budget(Apply(cfg, w, e).st.redis, o) <= Budget(w.st.redis, o) - if Fails(w, e, o) then 1 else 0
  {
    if Enabled(w, e) {
      match e {
        case Start(_, _) =>
        case StartReaper(_, claimed, limit, now) => ClaimBudget(w.st.redis, claimed, limit, now, o);
        case Step(id, now) =>
          AppliedBudget(cfg, w, id, true, now, o);
          StepProcShape(cfg, w, id, now);
        case Fail(id, applied, now) =>
          AppliedBudget(cfg, w, id, applied, now, o);
          FailProcShape(cfg, w, id, applied, now);
        case Kill(id, applied, now) => AppliedBudget(cfg, w, id, applied, now, o);
      }
    }
  }

  lemma BudgetBounds(r: Redis, o: OrderId)
    requires SetsOk(r)
    ensures 0 <= Budget(r, o) <= MAX_RETRIES
  {
  }

  lemma {:induction false} FailuresWithinBudget(cfg: Config, w: World, es: seq<Event>, o: OrderId)
    requires ValidConfig(cfg) && ReaperInv(cfg, w)
    ensures Failures(cfg, w, es, o) <= Budget(w.st.redis, o)
    decreases |es|
  {
    BudgetBounds(w.st.redis, o);
    if es != [] {
      if Alone(w, es[0]) {
        ApplyKeepsReaper(cfg, w, es[0]);
        EventBudget(cfg, w, es[0], o);
      }
      FailuresWithinBudget(cfg, Next(cfg, w, es[0]), es[1..], o);
    }
  }

  lemma InitialReaper(cfg: Config, w: World)
    requires ValidConfig(cfg) && Initial(cfg, w)
    ensures ReaperInv(cfg, w)
  {
    InitialInv(cfg, w);
  }

  /** Over a whole run, whatever interleaves with the single reaper, no order fails more than three times. */
  lemma AtMostThreeFailures(cfg: Config, w: World, es: seq<Event>, o: OrderId)
    requires ValidConfig(cfg) && Initial(cfg, w)
    ensures Failures(cfg, w, es, o) <= MAX_RETRIES
    ensures Disjoint(RunAlone(cfg, w, es).st.redis)
  {
    InitialReaper(cfg, w);
    FailuresWithinBudget(cfg, w, es, o);
    BudgetBounds(w.st.redis, o);
    RunAloneKeeps(cfg, w, es);
  }

  lemma {:induction false} DeadForever(cfg: Config, w: World, es: seq<Event>, o: OrderId)
    requires ValidConfig(cfg) && ReaperInv(cfg, w) && o in w.st.redis.dead
    ensures o in RunAlone(cfg, w, es).st.redis.dead
    decreases |es|
  {
    if es != [] {
      if Alone(w, es[0]) {
        ApplyKeepsReaper(cfg, w, es[0]);
        DeadStays(cfg, w, es[0], o);
      }
      DeadForever(cfg, Next(cfg, w, es[0]), es[1..], o);
    }
  }

  /** A dead-lettered order stays dead-lettered, does not fail again, and is in no later claim. */
  lemma DeadIsFinal(cfg: Config, w: World, es: seq<Event>, o: OrderId, e: Event)
    requires ValidConfig(cfg) && ReaperInv(cfg, w) && o in w.st.redis.dead
    ensures o in RunAlone(cfg, w, es).st.redis.dead
    ensures Failures(cfg, w, es, o) == 0
    ensures e.StartReaper? && Enabled(RunAlone(cfg, w, es), e) ==> o !in e.claimed
  {
    FailuresWithinBudget(cfg, w, es, o);
    assert Budget(w.st.redis, o) == 0;
    DeadForever(cfg, w, es, o);
    RunAloneKeeps(cfg, w, es);
    if e.StartReaper? && Enabled(RunAlone(cfg, w, es), e) {
      ClaimKeepsSets(RunAlone(cfg, w, es).st.redis, e.claimed, e.limit, e.now);
    }
  }

  lemma DeadStays(cfg: Config, w: World, e: Event, o: OrderId)
    requires ValidConfig(cfg) && ReaperInv(cfg, w) && Alone(w, e) && o in w.st.redis.dead
    ensures o in Apply(cfg, w, e).st.redis.dead
  {
    if Enabled(w, e) {
      match e {
        case Start(_, _) =>
        case StartReaper(_, claimed, _, now) => MoveClaimedSets(Requeue(w.st.redis, now), claimed, now);
        case Step(id, now) => AppliedDead(cfg, w, id, true, now, o); StepProcShape(cfg, w, id, now);
        case Fail(id, applied, now) => AppliedDead(cfg, w, id, applied, now, o);
          FailProcShape(cfg, w, id, applied, now);
        case Kill(id, applied, now) => AppliedDead(cfg, w, id, applied, now, o);
      }
    }
  }

  lemma AppliedDead(cfg: Config, w: World, id: nat, applied: bool, now: int, o: OrderId)
    requires ValidConfig(cfg) && id in w.procs && o in w.st.redis.dead
    ensures o in Applied(cfg, w, id, applied, now).st.redis.dead
  {
    if applied && !w.procs[id].Finishing? {
      CommandSets(cfg, w.st, w.procs[id].cmd, now);
    }
  }
}
