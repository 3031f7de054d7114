/** Any number of commands and reapers, interleaved step by step, failing or dying anywhere: the invariants that hold
    in every reachable state. */
module Engine {
  import opened Wrappers
  import opened Sums
  import opened Shards
  import opened RedisScripts
  import opened StockPersistence
  import opened StockCommands
  import opened ReservationReaper
  import opened Accounts

  /** A process: a caller's command, a reaper releasing one of its claimed orders, or a reaper about to complete or
      retry one; `rest` is what the reaper still has to do. */
  datatype Proc =
    | Direct(cmd: Cmd)
    | Reaping(cmd: Cmd, rest: seq<OrderId>)
    | Finishing(o: OrderId, released: bool, rest: seq<OrderId>)

  /** `supply` and `drift` are the books: what was seeded and adjusted in Redis, and the adjusts that MySQL has and
      Redis does not. `crashed` remembers, per order, a command that stopped without returning. */
  datatype World = World(st: Stores, procs: map<nat, Proc>, supply: Totals, drift: Totals, crashed: map<OrderId, Cmd>)

  /** `Fail`: the current step reports an error. `Kill`: the process dies. Either way the step may have taken effect. */
  datatype Event =
    | Start(id: nat, cmd: Cmd)
    | StartReaper(id: nat, claimed: seq<OrderId>, limit: nat, now: int)
    | Step(id: nat, now: int)
    | Fail(id: nat, applied: bool, now: int)
    | Kill(id: nat, applied: bool, now: int)

  /** The commands a caller can issue, with the arguments the service layer lets through. */
  predicate Issued(c: Cmd) {
    match c
    case Reserving(_, p, q) => p > 0 && q > 0
    case ReadingConfirm(_) => true
    case ReadingRelease(_) => true
    case CheckingStock(p, delta, bucket) => p > 0 && delta != 0 && bucket >= 0
    case _ => false
  }

  ghost predicate Enabled(w: World, e: Event) {
    match e
    case Start(id, c) => id !in w.procs && Issued(c)
    case StartReaper(id, claimed, limit, now) => id !in w.procs
        && IsClaim(Requeue(w.st.redis, now), claimed, now, limit)
    case Step(id, _) => id in w.procs
    case Fail(id, _, _) => id in w.procs
    case Kill(id, _, _) => id in w.procs
  }

  function Continue(procs: map<nat, Proc>, id: nat, rest: seq<OrderId>): map<nat, Proc> {
    if rest == [] then procs - {id} else procs[id := Reaping(ReadingRelease(rest[0]), rest[1..])]
  }

  function NextSupply(cfg: Config, st: Stores, c: Cmd, supply: Totals): Totals
    requires ValidConfig(cfg)
  {
    if c.AdjustingShards? && AdjustScript(st.redis, cfg.shardCount, c.p, c.delta, AdjustStart(cfg, c.bucket)).1 == 1
    then Plus(supply, c.p, c.delta) else supply
  }

  function NextDrift(cfg: Config, st: Stores, c: Cmd, drift: Totals): Totals
    requires ValidConfig(cfg)
  {
    if c.AdjustingBucket? && AdjustTx(st.db, c.p, c.delta, c.bucket).1 == Ok then Plus(drift, c.p, c.delta)
    else if c.AdjustingShards? && AdjustScript(st.redis, cfg.shardCount, c.p, c.delta, AdjustStart(cfg, c.bucket)).1
        == 1
    then Plus(drift, c.p, -c.delta) else drift
  }

  /** The stores and the books after the step of `c` took effect. */
  function Effect(cfg: Config, w: World, c: Cmd, now: int): World
    requires ValidConfig(cfg)
  {
    w.(st := StepCmd(cfg, w.st, c, now).0, supply := NextSupply(cfg, w.st, c, w.supply),
        drift := NextDrift(cfg, w.st, c, w.drift))
  }

  function FinishStep(r: Redis, o: OrderId, released: bool, now: int): Redis {
    if released then CompleteScript(r, o) else RetryScript(r, o, now)
  }

  /** The command a caller would issue again to retry `c`. */
  function Origin(c: Cmd): Cmd
    requires c.OnOrder()
  {
    match c
    case Reserving(o, p, q) => c
    case ReadingShard(o, p, q) => Reserving(o, p, q)
    case RecordingReservation(o, p, q, _) => Reserving(o, p, q)
    case ReadingConfirm(o) => c
    case Confirming(o, _, _) => ReadingConfirm(o)
    case Deducting(o, _, _) => ReadingConfirm(o)
    case Marking(o, _) => ReadingConfirm(o)
    case ConfirmingLedger(o) => ReadingConfirm(o)
    case ReadingRelease(o) => c
    case LoadingLedger(o) => ReadingRelease(o)
    case Hydrating(o, _) => ReadingRelease(o)
    case Reverting(o, _, _) => ReadingRelease(o)
    case Releasing(o, _) => ReadingRelease(o)
    case ReleasingLedger(o) => ReadingRelease(o)
  }

  /** A command that stops is remembered until it, or a release, gets through. A refused reserve leaves no trace. */
  function Stopped(crashed: map<OrderId, Cmd>, c: Cmd): map<OrderId, Cmd> {
    if c.OnOrder() then crashed[c.o := Origin(c)] else crashed
  }

  function Returned(crashed: map<OrderId, Cmd>, c: Cmd, out: Outcome): map<OrderId, Cmd> {
    if !c.OnOrder() then crashed
    else if out == Ok || c.Reserving? then crashed - {c.o}
    else Stopped(crashed, c)
  }

  /** The step of process `id` took effect, or did not; the process itself has not moved. */
  function Applied(cfg: Config, w: World, id: nat, applied: bool, now: int): World
    requires ValidConfig(cfg) && id in w.procs
  {
    if !applied then w
    else match w.procs[id]
      case Direct(c) => Effect(cfg, w, c, now)
      case Reaping(c, _) => Effect(cfg, w, c, now)
      case Finishing(o, released, _) => w.(st := w.st.(redis := FinishStep(w.st.redis, o, released, now)))
  }

  function StepProc(cfg: Config, w: World, id: nat, now: int): World
    requires ValidConfig(cfg) && id in w.procs
  {
    var w' := Applied(cfg, w, id, true, now);
    match w.procs[id]
    case Direct(c) =>
      (match StepCmd(cfg, w.st, c, now).1
       case Goto(c') => w'.(procs := w.procs[id := Direct(c')])
       case Return(out) => w'.(procs := w.procs - {id}, crashed := Returned(w.crashed, c, out)))
    case Reaping(c, rest) =>
      (match StepCmd(cfg, w.st, c, now).1
       case Goto(c') => w'.(procs := w.procs[id := Reaping(c', rest)])
       case Return(out) =>
         if c.OnOrder() then w'.(procs := w.procs[id := Finishing(c.o, out == Ok, rest)],
             crashed := Returned(w.crashed, c, out))
         else w'.(procs := w.procs - {id}))
    case Finishing(o, released, rest) => w'.(procs := Continue(w.procs, id, rest))
  }

  /** In shadow mode an error of the ledger is logged and the command returns success. */
  predicate Swallowed(mode: LedgerMode, c: Cmd) {
    mode == Shadow && (c.RecordingReservation? || c.ConfirmingLedger? || c.LoadingLedger? || c.ReleasingLedger?)
  }

  function Gone(cfg: Config, crashed: map<OrderId, Cmd>, c: Cmd): map<OrderId, Cmd> {
    if Swallowed(cfg.mode, c) then Returned(crashed, c, Ok) else Stopped(crashed, c)
  }

  /** An error from the read that starts a confirm is ignored: the command goes on with an empty identity. A reaper
      takes an error from its release to its retry script, and ignores errors of its finishing scripts. */
  function FailProc(cfg: Config, w: World, id: nat, applied: bool, now: int): World
    requires ValidConfig(cfg) && id in w.procs
  {
    var w' := Applied(cfg, w, id, applied, now);
    match w.procs[id]
    case Direct(c) =>
      if c.ReadingConfirm? then w'.(procs := w.procs[id := Direct(Confirming(c.o, 0, 0))])
      else w'.(procs := w.procs - {id}, crashed := Gone(cfg, w.crashed, c))
    case Reaping(c, rest) =>
      if c.OnOrder() then w'.(procs := w.procs[id := Finishing(c.o, Swallowed(cfg.mode, c), rest)],
          crashed := Gone(cfg, w.crashed, c))
      else w'.(procs := w.procs - {id})
    case Finishing(o, _, rest) => w'.(procs := Continue(w.procs, id, rest))
  }

  function KillProc(cfg: Config, w: World, id: nat, applied: bool, now: int): World
    requires ValidConfig(cfg) && id in w.procs
  {
    var w' := Applied(cfg, w, id, applied, now);
    w'.(procs := w.procs - {id},
        crashed := if w.procs[id].Finishing? then w.crashed else Stopped(w.crashed, w.procs[id].cmd))
  }

  ghost function Apply(cfg: Config, w: World, e: Event): World
    requires ValidConfig(cfg)
  {
    if !Enabled(w, e) then w
    else match e
      case Start(id, c) => w.(procs := w.procs[id := Direct(c)])
      case StartReaper(id, claimed, _, now) =>
        w.(st := w.st.(redis := MoveClaimed(Requeue(w.st.redis, now), claimed, now)),
            procs := Continue(w.procs, id, claimed))
      case Step(id, now) => StepProc(cfg, w, id, now)
      case Fail(id, applied, now) => FailProc(cfg, w, id, applied, now)
      case Kill(id, applied, now) => KillProc(cfg, w, id, applied, now)
  }

  ghost function RunAll(cfg: Config, w: World, es: seq<Event>): World
    requires ValidConfig(cfg)
    decreases |es|
  {
    if es == [] then w else RunAll(cfg, Apply(cfg, w, es[0]), es[1..])
  }

  // ------------------------------------------------------------------------------------------------------------
  // What a process may rely on
  // ------------------------------------------------------------------------------------------------------------

  predicate Known(st: Stores, o: OrderId) {
    o in st.redis.reservations
  }

  predicate Past(st: Stores, o: OrderId, s: Status) {
    o in st.redis.reservations && match s
      case Reserved => true
      case Confirmed => st.redis.reservations[o].status != Reserved
      case Released => st.redis.reservations[o].status == Released
  }

  predicate CmdOk(st: Stores, c: Cmd) {
    match c
    case Reserving(_, p, q) => p > 0 && q > 0
    case ReadingShard(o, p, q) => Has(st, o, p, q)
    case RecordingReservation(o, p, q, shard) => Has(st, o, p, q) && shard == st.redis.reservations[o].shardIndex
    case ReadingConfirm(_) => true
    case Confirming(o, p, q) => (p == 0 && q == 0) || Has(st, o, p, q)
    case Deducting(o, p, q) => Has(st, o, p, q) && Past(st, o, Confirmed)
    case Marking(o, p) => Past(st, o, Confirmed)
    case ConfirmingLedger(o) => Past(st, o, Confirmed)
    case ReadingRelease(_) => true
    case LoadingLedger(_) => true
    case Hydrating(o, row) => Has(st, o, row.productId, row.quantity)
    case Reverting(o, p, q) => Has(st, o, p, q)
    case Releasing(o, p) => Known(st, o) && st.redis.reservations[o].productId == p
    case ReleasingLedger(o) => Past(st, o, Released)
    case CheckingStock(_, _, _) => true
    case AdjustingBucket(_, _, _) => true
    case AdjustingShards(_, _, _) => true
  }

  predicate ReaperCmd(c: Cmd) {
    c.ReadingRelease? || c.Reverting? || c.Releasing? || c.ReleasingLedger?
  }

  predicate ProcOk(st: Stores, proc: Proc) {
    match proc
    case Direct(c) => CmdOk(st, c)
    case Reaping(c, rest) => CmdOk(st, c) && ReaperCmd(c) && Known(st, c.o) && forall o :: o in rest ==> Known(st, o)
    case Finishing(o, released, rest) =>
      Known(st, o) && (released ==> Past(st, o, Released)) && forall o' :: o' in rest ==> Known(st, o')
  }

  /** How the facts about orders can only grow: identities stay, statuses move on. */
  ghost predicate Evolves(st: Stores, st': Stores) {
    forall o :: Known(st, o) ==>
      && Known(st', o)
      && st'.redis.reservations[o].productId == st.redis.reservations[o].productId
      && st'.redis.reservations[o].quantity == st.redis.reservations[o].quantity
      && st'.redis.reservations[o].shardIndex == st.redis.reservations[o].shardIndex
      && (Past(st, o, Confirmed) ==> Past(st', o, Confirmed))
      && (Past(st, o, Released) ==> Past(st', o, Released))
  }

  lemma StillOk(st: Stores, st': Stores, proc: Proc)
    requires Evolves(st, st') && ProcOk(st, proc)
    ensures ProcOk(st', proc)
  {
  }

  ghost predicate WorldInv(cfg: Config, w: World) {
    && StoreInv(cfg, w.st, w.supply, w.drift)
    && forall id :: id in w.procs ==> ProcOk(w.st, w.procs[id])
  }

  // ------------------------------------------------------------------------------------------------------------
  // One step of one command
  // ------------------------------------------------------------------------------------------------------------

  lemma InsertKeeps(cfg: Config, st: Stores, supply: Totals, drift: Totals, o: OrderId, row: LedgerRow)
    requires StoreInv(cfg, st, supply, drift) && Has(st, o, row.productId, row.quantity)
    ensures StoreInv(cfg, st.(db := InsertLedger(cfg.mode, st.db, o, row).0), supply, drift)
  {
    LedgerKeeps(cfg, st, supply, drift, InsertLedger(cfg.mode, st.db, o, row).0);
  }

  lemma TransitionKeeps(cfg: Config, st: Stores, supply: Totals, drift: Totals, o: OrderId, target: Status,
                        allowed: set<Status>)
    requires StoreInv(cfg, st, supply, drift)
    ensures StoreInv(cfg, st.(db := TransitionLedger(cfg.mode, st.db, o, target, allowed)), supply, drift)
  {
    LedgerKeeps(cfg, st, supply, drift, TransitionLedger(cfg.mode, st.db, o, target, allowed));
  }

  ghost predicate EffectKeeps(cfg: Config, w: World, c: Cmd, now: int)
    requires ValidConfig(cfg)
  {
    var w' := Effect(cfg, w, c, now);
    StoreInv(cfg, w'.st, w'.supply, w'.drift)
  }

  lemma ReserveStepKeeps(cfg: Config, w: World, c: Cmd, now: int)
    requires ValidConfig(cfg) && StoreInv(cfg, w.st, w.supply, w.drift) && CmdOk(w.st, c)
    requires c.Reserving? || c.RecordingReservation?
    ensures EffectKeeps(cfg, w, c, now)
  {
    if c.Reserving? {
      ReserveKeeps(cfg, w.st, w.supply, w.drift, c.o, c.p, c.q, now);
    } else {
      InsertKeeps(cfg, w.st, w.supply, w.drift, c.o, LedgerRow(c.p, c.q, c.shard, Reserved, now + EXPIRY_SECONDS));
    }
  }

  lemma ConfirmStepKeeps(cfg: Config, w: World, c: Cmd, now: int)
    requires ValidConfig(cfg) && StoreInv(cfg, w.st, w.supply, w.drift) && CmdOk(w.st, c)
    requires c.Confirming? || c.Deducting? || c.Marking? || c.ConfirmingLedger?
    ensures EffectKeeps(cfg, w, c, now)
  {
    match c {
      case Confirming(o, p, q) => ConfirmKeeps(cfg, w.st, w.supply, w.drift, o);
      case Deducting(o, p, q) => DeductKeeps(cfg, w.st, w.supply, w.drift, o, p, q);
      case Marking(o, p) => MarkKeeps(cfg, w.st, w.supply, w.drift, o);
      case ConfirmingLedger(o) => TransitionKeeps(cfg, w.st, w.supply, w.drift, o, Confirmed, {Reserved});
    }
  }

  lemma ReleaseStepKeeps(cfg: Config, w: World, c: Cmd, now: int)
    requires ValidConfig(cfg) && StoreInv(cfg, w.st, w.supply, w.drift) && CmdOk(w.st, c)
    requires c.Hydrating? || c.Reverting? || c.Releasing? || c.ReleasingLedger?
    ensures EffectKeeps(cfg, w, c, now)
  {
    match c {
      case Hydrating(o, row) =>
      case Reverting(o, p, q) => RevertKeeps(cfg, w.st, w.supply, w.drift, o, p, q);
      case Releasing(o, p) => ReleaseKeeps(cfg, w.st, w.supply, w.drift, o, p);
      case ReleasingLedger(o) => TransitionKeeps(cfg, w.st, w.supply, w.drift, o, Released, {Reserved, Confirmed});
    }
  }

  lemma AdjustStepKeeps(cfg: Config, w: World, c: Cmd, now: int)
    requires ValidConfig(cfg) && StoreInv(cfg, w.st, w.supply, w.drift)
    requires c.AdjustingBucket? || c.AdjustingShards?
    ensures EffectKeeps(cfg, w, c, now)
  {
    if c.AdjustingBucket? {
      AdjustBucketKeeps(cfg, w.st, w.supply, w.drift, c.p, c.delta, c.bucket);
    } else {
      AdjustShardsKeeps(cfg, w.st, w.supply, w.drift, c.p, c.delta, c.bucket);
    }
  }

  lemma StepKeeps(cfg: Config, w: World, c: Cmd, now: int)
    requires ValidConfig(cfg) && StoreInv(cfg, w.st, w.supply, w.drift) && CmdOk(w.st, c)
    ensures EffectKeeps(cfg, w, c, now)
  {
    if c.Reserving? || c.RecordingReservation? {
      ReserveStepKeeps(cfg, w, c, now);
    } else if c.Confirming? || c.Deducting? || c.Marking? || c.ConfirmingLedger? {
      ConfirmStepKeeps(cfg, w, c, now);
    } else if c.Hydrating? || c.Reverting? || c.Releasing? || c.ReleasingLedger? {
      ReleaseStepKeeps(cfg, w, c, now);
    } else if c.AdjustingBucket? || c.AdjustingShards? {
      AdjustStepKeeps(cfg, w, c, now);
    } else {
      assert Effect(cfg, w, c, now) == w;
    }
  }

  lemma SameOrdersEvolve(st: Stores, st': Stores)
    requires st'.redis.reservations == st.redis.reservations
    ensures Evolves(st, st')
  {
  }

  lemma ConfirmEvolves(cfg: Config, st: Stores, o: OrderId)
    ensures Evolves(st, Confirm(cfg, st, o))
  {
    if Known(st, o) {
      ConfirmEffect(st.redis, o, cfg.finalDeduct);
    }
  }

  /** The commands' steps that change Redis. */
  predicate WritesRedis(c: Cmd) {
    c.Reserving? || c.Confirming? || c.Marking? || c.Hydrating? || c.Releasing? || c.AdjustingShards?
  }

  lemma QuietStep(cfg: Config, st: Stores, c: Cmd, now: int)
    requires ValidConfig(cfg) && !WritesRedis(c)
    ensures StepCmd(cfg, st, c, now).0.redis == st.redis
  {
  }

  /** What the steps that change Redis leave of it. */
  function Written(cfg: Config, r: Redis, c: Cmd, now: int): Redis
    requires ValidConfig(cfg) && WritesRedis(c)
  {
    if c.Reserving? then ReserveScript(r, cfg.shardCount, StartIndex(cfg.crc32, c.o, cfg.shardCount), c.o, c.p, c.q,
        now).0
    else if c.Confirming? then ConfirmScript(r, c.o, cfg.finalDeduct).0
    else if c.Marking? then MarkDeductedScript(r, c.o)
    else if c.Hydrating? then HydrateScript(r, c.o,
        Reservation(c.row.status, c.row.productId, c.row.quantity, c.row.shardIndex, false))
    else if c.Releasing? then ReleaseScript(r, cfg.shardCount, c.o, c.p)
    else AdjustScript(r, cfg.shardCount, c.p, c.delta, AdjustStart(cfg, c.bucket)).0
  }

  lemma WritingStep(cfg: Config, st: Stores, c: Cmd, now: int)
    requires ValidConfig(cfg) && WritesRedis(c)
    ensures StepCmd(cfg, st, c, now).0.redis == Written(cfg, st.redis, c, now)
  {
  }

  lemma StepEvolves(cfg: Config, st: Stores, c: Cmd, now: int)
    requires ValidConfig(cfg)
    ensures Evolves(st, StepCmd(cfg, st, c, now).0)
  {
    var st' := StepCmd(cfg, st, c, now).0;
    if !WritesRedis(c) {
      QuietStep(cfg, st, c, now);
      SameOrdersEvolve(st, st');
    } else {
      WritingStep(cfg, st, c, now);
      WritingEvolves(cfg, st, st', c, now);
    }
  }

  lemma ReserveEvolves(cfg: Config, st: Stores, st': Stores, start: nat, o: OrderId, p: ProductId, q: int, now: int)
    requires st'.redis == ReserveScript(st.redis, cfg.shardCount, start, o, p, q, now).0
    ensures Evolves(st, st')
  {
  }

  lemma ReleaseEvolves(st: Stores, st': Stores, n: nat, o: OrderId, p: ProductId)
    requires st'.redis == ReleaseScript(st.redis, n, o, p)
    ensures Evolves(st, st')
  {
  }

  lemma HydrateEvolves(st: Stores, st': Stores, o: OrderId, v: Reservation)
    requires st'.redis == HydrateScript(st.redis, o, v)
    ensures Evolves(st, st')
  {
    if !Known(st, o) {
      assert forall x :: Known(st, x) ==> x != o;
    }
  }

  lemma MarkEvolves(st: Stores, st': Stores, o: OrderId)
    requires st'.redis == MarkDeductedScript(st.redis, o)
    ensures Evolves(st, st')
  {
    if Known(st, o) {
      var v := st.redis.reservations[o];
      assert st'.redis.reservations[o] == v.(deducted := true);
      assert forall x :: Known(st, x) && x != o ==> st'.redis.reservations[x] == st.redis.reservations[x];
    }
  }

  lemma WritingEvolves(cfg: Config, st: Stores, st': Stores, c: Cmd, now: int)
    requires ValidConfig(cfg) && WritesRedis(c) && st'.redis == Written(cfg, st.redis, c, now)
    ensures Evolves(st, st')
  {
    match c {
      case Reserving(o, p, q) => ReserveEvolves(cfg, st, st', StartIndex(cfg.crc32, o, cfg.shardCount), o, p, q, now);
      case Confirming(o, _, _) => ConfirmEvolves(cfg, st, o);
      case Marking(o, _) => MarkEvolves(st, st', o);
      case Hydrating(o, row) => HydrateEvolves(st, st', o,
          Reservation(row.status, row.productId, row.quantity, row.shardIndex, false));
      case Releasing(o, p) => ReleaseEvolves(st, st', cfg.shardCount, o, p);
      case AdjustingShards(_, _, _) => SameOrdersEvolve(st, st');
    }
  }

  lemma StepGoesOk(cfg: Config, st: Stores, c: Cmd, now: int)
    requires ValidConfig(cfg) && Shape(cfg, st) && CmdOk(st, c)
    ensures var (st', next) := StepCmd(cfg, st, c, now); next.Goto? ==> CmdOk(st', next.cmd)
  {
    match c {
      case Confirming(o, p, q) => if Known(st, o) { ConfirmEffect(st.redis, o, cfg.finalDeduct); }
      case _ =>
    }
  }

  lemma ReaperStep(cfg: Config, st: Stores, c: Cmd, now: int)
    requires ValidConfig(cfg) && Shape(cfg, st) && CmdOk(st, c) && ReaperCmd(c) && Known(st, c.o)
    ensures var (st', next) := StepCmd(cfg, st, c, now);
            && (next.Goto? ==> ReaperCmd(next.cmd) && next.cmd.o == c.o)
            && (next.Return? ==> next.out == Ok && Past(st', c.o, Released))
  {
    assert ValidReservation(cfg, st.redis.reservations[c.o]);
  }

  // ------------------------------------------------------------------------------------------------------------
  // One script of the reaper
  // ------------------------------------------------------------------------------------------------------------

  lemma FinishTracked(r: Redis, o: OrderId, released: bool, now: int)
    requires Tracked(r) && o in r.reservations && (released ==> r.reservations[o].status != Reserved)
    ensures Tracked(FinishStep(r, o, released, now))
  {
  }

  lemma FinishKeeps(cfg: Config, st: Stores, supply: Totals, drift: Totals, o: OrderId, released: bool, now: int)
    requires StoreInv(cfg, st, supply, drift) && Known(st, o) && (released ==> Past(st, o, Released))
    ensures StoreInv(cfg, st.(redis := FinishStep(st.redis, o, released, now)), supply, drift)
  {
    FinishTracked(st.redis, o, released, now);
    ReaperKeeps(cfg, st, supply, drift, FinishStep(st.redis, o, released, now));
  }

  lemma ClaimTracked(r: Redis, claimed: seq<OrderId>, limit: nat, now: int)
    requires Tracked(r) && IsClaim(Requeue(r, now), claimed, now, limit)
    ensures Tracked(MoveClaimed(Requeue(r, now), claimed, now))
    ensures forall o :: o in claimed ==> o in r.reservations
  {
    MoveClaimedSets(Requeue(r, now), claimed, now);
    forall o | InSomeSet(r, o)
      ensures InSomeSet(MoveClaimed(Requeue(r, now), claimed, now), o)
    {
    }
    forall o | o in claimed
      ensures o in r.reservations
    {
      assert InSomeSet(r, o);
    }
  }

  lemma ClaimKeeps(cfg: Config, st: Stores, supply: Totals, drift: Totals, claimed: seq<OrderId>, limit: nat, now: int)
    requires StoreInv(cfg, st, supply, drift) && IsClaim(Requeue(st.redis, now), claimed, now, limit)
    ensures StoreInv(cfg, st.(redis := MoveClaimed(Requeue(st.redis, now), claimed, now)), supply, drift)
  {
    ClaimTracked(st.redis, claimed, limit, now);
    MoveClaimedSets(Requeue(st.redis, now), claimed, now);
    ReaperKeeps(cfg, st, supply, drift, MoveClaimed(Requeue(st.redis, now), claimed, now));
  }

  // ------------------------------------------------------------------------------------------------------------
  // Every event, and every run
  // ------------------------------------------------------------------------------------------------------------

  lemma OthersOk(w: World, w': World, id: nat)
    requires Evolves(w.st, w'.st) && forall i :: i in w.procs ==> ProcOk(w.st, w.procs[i])
    requires forall i :: i in w'.procs && i != id ==> i in w.procs && w'.procs[i] == w.procs[i]
    requires id in w'.procs ==> ProcOk(w'.st, w'.procs[id])
    ensures forall i :: i in w'.procs ==> ProcOk(w'.st, w'.procs[i])
  {
    forall i | i in w'.procs && i != id
      ensures ProcOk(w'.st, w'.procs[i])
    {
      StillOk(w.st, w'.st, w.procs[i]);
    }
  }

  lemma EffectOk(cfg: Config, w: World, c: Cmd, now: int)
    requires ValidConfig(cfg) && StoreInv(cfg, w.st, w.supply, w.drift) && CmdOk(w.st, c)
    ensures var w' := Effect(cfg, w, c, now);
            StoreInv(cfg, w'.st, w'.supply, w'.drift) && Evolves(w.st, w'.st)
  {
    StepKeeps(cfg, w, c, now);
    StepEvolves(cfg, w.st, c, now);
  }

  lemma FinishEvolves(st: Stores, o: OrderId, released: bool, now: int)
    ensures Evolves(st, st.(redis := FinishStep(st.redis, o, released, now)))
  {
    SameOrdersEvolve(st, st.(redis := FinishStep(st.redis, o, released, now)));
  }

  lemma AppliedKeeps(cfg: Config, w: World, id: nat, applied: bool, now: int)
    requires ValidConfig(cfg) && WorldInv(cfg, w) && id in w.procs
    ensures var w' := Applied(cfg, w, id, applied, now);
            && StoreInv(cfg, w'.st, w'.supply, w'.drift) && Evolves(w.st, w'.st)
            && w'.procs == w.procs && w'.crashed == w.crashed
  {
    var proc := w.procs[id];
    assert ProcOk(w.st, proc);
    if !applied {
      SameOrdersEvolve(w.st, w.st);
    } else if proc.Finishing? {
      FinishKeeps(cfg, w.st, w.supply, w.drift, proc.o, proc.released, now);
      FinishEvolves(w.st, proc.o, proc.released, now);
    } else {
      EffectOk(cfg, w, proc.cmd, now);
    }
  }

  /** The process that stepped, if it goes on, goes on from facts it may rely on. */
  lemma StepDirectOk(cfg: Config, st: Stores, c: Cmd, now: int)
    requires ValidConfig(cfg) && Shape(cfg, st) && ProcOk(st, Direct(c))
    ensures var (st', next) := StepCmd(cfg, st, c, now); next.Goto? ==> ProcOk(st', Direct(next.cmd))
  {
    StepGoesOk(cfg, st, c, now);
  }

  lemma StepReapingOk(cfg: Config, st: Stores, c: Cmd, rest: seq<OrderId>, now: int)
    requires ValidConfig(cfg) && Shape(cfg, st) && ProcOk(st, Reaping(c, rest))
    ensures var (st', next) := StepCmd(cfg, st, c, now);
            ProcOk(st', if next.Goto? then Reaping(next.cmd, rest) else Finishing(c.o, next.out == Ok, rest))
  {
    StepGoesOk(cfg, st, c, now);
    ReaperStep(cfg, st, c, now);
    StepEvolves(cfg, st, c, now);
  }

  lemma ContinueOk(st: Stores, procs: map<nat, Proc>, id: nat, rest: seq<OrderId>)
    requires forall o :: o in rest ==> Known(st, o)
    ensures id in Continue(procs, id, rest) ==> ProcOk(st, Continue(procs, id, rest)[id])
  {
  }

  lemma StepFinishingOk(cfg: Config, w: World, id: nat, now: int)
    requires ValidConfig(cfg) && id in w.procs && w.procs[id].Finishing? && ProcOk(w.st, w.procs[id])
    ensures var w' := StepProc(cfg, w, id, now); id in w'.procs ==> ProcOk(w'.st, w'.procs[id])
  {
    var proc := w.procs[id];
    var st' := w.st.(redis := FinishStep(w.st.redis, proc.o, proc.released, now));
    FinishEvolves(w.st, proc.o, proc.released, now);
    StillOk(w.st, st', proc);
    ContinueOk(st', w.procs, id, proc.rest);
  }

  lemma StepProcOk(cfg: Config, w: World, id: nat, now: int)
    requires ValidConfig(cfg) && WorldInv(cfg, w) && id in w.procs
    ensures var w' := StepProc(cfg, w, id, now); id in w'.procs ==> ProcOk(w'.st, w'.procs[id])
  {
    assert ProcOk(w.st, w.procs[id]);
    if w.procs[id].Direct? {
      StepDirectOk(cfg, w.st, w.procs[id].cmd, now);
    } else if w.procs[id].Reaping? {
      StepReapingOk(cfg, w.st, w.procs[id].cmd, w.procs[id].rest, now);
    } else {
      StepFinishingOk(cfg, w, id, now);
    }
  }

  lemma StepProcKeeps(cfg: Config, w: World, id: nat, now: int)
    requires ValidConfig(cfg) && WorldInv(cfg, w) && id in w.procs
    ensures WorldInv(cfg, StepProc(cfg, w, id, now))
  {
    AppliedKeeps(cfg, w, id, true, now);
    StepProcOk(cfg, w, id, now);
    StepProcShape(cfg, w, id, now);
    OthersOk(w, StepProc(cfg, w, id, now), id);
  }

  lemma StepProcShape(cfg: Config, w: World, id: nat, now: int)
    requires ValidConfig(cfg) && id in w.procs
    ensures var w', a := StepProc(cfg, w, id, now), Applied(cfg, w, id, true, now);
            && w'.st == a.st && w'.supply == a.supply && w'.drift == a.drift
            && forall i :: i in w'.procs && i != id ==> i in w.procs && w'.procs[i] == w.procs[i]
  {
    StepProcBooks(cfg, w, id, now);
    StepProcOthers(cfg, w, id, now);
  }

  lemma StepProcBooks(cfg: Config, w: World, id: nat, now: int)
    requires ValidConfig(cfg) && id in w.procs
    ensures var w', a := StepProc(cfg, w, id, now), Applied(cfg, w, id, true, now);
            w'.st == a.st && w'.supply == a.supply && w'.drift == a.drift
  {
    if !w.procs[id].Finishing? {
      var next := StepCmd(cfg, w.st, w.procs[id].cmd, now).1;
      match next {
        case Goto(_) =>
        case Return(_) =>
      }
    }
  }

  lemma StepProcOthers(cfg: Config, w: World, id: nat, now: int)
    requires ValidConfig(cfg) && id in w.procs
    ensures var w' := StepProc(cfg, w, id, now);
            forall i :: i in w'.procs && i != id ==> i in w.procs && w'.procs[i] == w.procs[i]
  {
  }

  lemma FailProcShape(cfg: Config, w: World, id: nat, applied: bool, now: int)
    requires ValidConfig(cfg) && id in w.procs
    ensures var w', a := FailProc(cfg, w, id, applied, now), Applied(cfg, w, id, applied, now);
            && w'.st == a.st && w'.supply == a.supply && w'.drift == a.drift
            && (forall i :: i in w'.procs && i != id ==> i in w.procs && w'.procs[i] == w.procs[i])
            && (id in w'.procs ==> match w.procs[id]
                case Direct(c) => c.ReadingConfirm? && w'.procs[id] == Direct(Confirming(c.o, 0, 0))
                case Reaping(c, rest) => c.OnOrder() && w'.procs[id] == Finishing(c.o, Swallowed(cfg.mode, c), rest)
                case Finishing(_, _, rest) => rest != [] && w'.procs[id] == Reaping(ReadingRelease(rest[0]), rest[1..]))
  {
  }

  lemma FailProcKeeps(cfg: Config, w: World, id: nat, applied: bool, now: int)
    requires ValidConfig(cfg) && WorldInv(cfg, w) && id in w.procs
    ensures WorldInv(cfg, FailProc(cfg, w, id, applied, now))
  {
    assert ProcOk(w.st, w.procs[id]);
    AppliedKeeps(cfg, w, id, applied, now);
    FailProcShape(cfg, w, id, applied, now);
    StillOk(w.st, Applied(cfg, w, id, applied, now).st, w.procs[id]);
    OthersOk(w, FailProc(cfg, w, id, applied, now), id);
  }

  lemma KillProcKeeps(cfg: Config, w: World, id: nat, applied: bool, now: int)
    requires ValidConfig(cfg) && WorldInv(cfg, w) && id in w.procs
    ensures WorldInv(cfg, KillProc(cfg, w, id, applied, now))
  {
    AppliedKeeps(cfg, w, id, applied, now);
    OthersOk(w, KillProc(cfg, w, id, applied, now), id);
  }

  lemma ClaimEvolves(st: Stores, claimed: seq<OrderId>, now: int)
    ensures Evolves(st, st.(redis := MoveClaimed(Requeue(st.redis, now), claimed, now)))
  {
    MoveClaimedSets(Requeue(st.redis, now), claimed, now);
    SameOrdersEvolve(st, st.(redis := MoveClaimed(Requeue(st.redis, now), claimed, now)));
  }

  lemma ClaimedKeeps(cfg: Config, w: World, st': Stores, id: nat, claimed: seq<OrderId>)
    requires WorldInv(cfg, w) && StoreInv(cfg, st', w.supply, w.drift) && Evolves(w.st, st')
    requires forall o :: o in claimed ==> Known(w.st, o)
    ensures WorldInv(cfg, w.(st := st', procs := Continue(w.procs, id, claimed)))
  {
    ContinueOk(st', w.procs, id, claimed);
    OthersOk(w, w.(st := st', procs := Continue(w.procs, id, claimed)), id);
  }

  lemma StartReaperKeeps(cfg: Config, w: World, e: Event)
    requires ValidConfig(cfg) && WorldInv(cfg, w) && e.StartReaper? && Enabled(w, e)
    ensures WorldInv(cfg, Apply(cfg, w, e))
  {
    ClaimKeeps(cfg, w.st, w.supply, w.drift, e.claimed, e.limit, e.now);
    ClaimTracked(w.st.redis, e.claimed, e.limit, e.now);
    ClaimEvolves(w.st, e.claimed, e.now);
    ClaimedKeeps(cfg, w, w.st.(redis := MoveClaimed(Requeue(w.st.redis, e.now), e.claimed, e.now)), e.id, e.claimed);
  }

  lemma ApplyKeeps(cfg: Config, w: World, e: Event)
    requires ValidConfig(cfg) && WorldInv(cfg, w)
    ensures WorldInv(cfg, Apply(cfg, w, e))
  {
    if Enabled(w, e) {
      match e {
        case Start(id, c) => OthersOk(w, Apply(cfg, w, e), id);
        case StartReaper(_, _, _, _) => StartReaperKeeps(cfg, w, e);
        case Step(id, now) => StepProcKeeps(cfg, w, id, now);
        case Fail(id, applied, now) => FailProcKeeps(cfg, w, id, applied, now);
        case Kill(id, applied, now) => KillProcKeeps(cfg, w, id, applied, now);
      }
    }
  }

  lemma {:induction false} RunKeeps(cfg: Config, w: World, es: seq<Event>)
    requires ValidConfig(cfg) && WorldInv(cfg, w)
    ensures WorldInv(cfg, RunAll(cfg, w, es))
    decreases |es|
  {
    if es != [] {
      ApplyKeeps(cfg, w, es[0]);
      RunKeeps(cfg, Apply(cfg, w, es[0]), es[1..]);
    }
  }

  // ------------------------------------------------------------------------------------------------------------
  // Seeding, and what the invariant means
  // ------------------------------------------------------------------------------------------------------------

  /** No order has been seen, no command runs, and the two stores agree on what was seeded. */
  ghost predicate Initial(cfg: Config, w: World) {
    && w.procs == map[] && w.drift == map[] && w.crashed == map[]
    && w.st.redis.reservations == map[] && w.st.redis.expiry == map[]
    && w.st.redis.processing == map[] && w.st.redis.dead == map[]
    && w.st.redis.retries == map[]
    && w.st.db.deducts == map[] && w.st.db.reverts == {} && w.st.db.ledger == map[]
    && ShardsNonNegative(w.st.redis) && BucketsNonNegative(w.st.db)
    && (forall p, b :: b in BucketsOf(w.st.db, p) ==> 0 <= b < cfg.shardCount)
    && forall p :: SeededEqually(cfg, w, p)
  }

  ghost predicate SeededEqually(cfg: Config, w: World, p: ProductId) {
    && Available(w.st.redis, p, cfg.shardCount) == Of(w.supply, p) == BucketTotal(w.st.db, p)
    && Counter(w.st.redis, p) == 0
  }

  function EmptyWorld(products: set<ProductId>): World {
    World(Stores(EMPTY, Db(products, map[], map[], {}, map[])), map[], map[], map[], map[])
  }

  lemma EmptyIsInitial(cfg: Config, products: set<ProductId>)
    requires ValidConfig(cfg)
    ensures Initial(cfg, EmptyWorld(products))
  {
    var w := EmptyWorld(products);
    forall p
      ensures SeededEqually(cfg, w, p)
    {
      TotalZero(Row(w.st.redis.stock, p, cfg.shardCount));
      SumZero(BucketsOf(w.st.db, p).Keys, Lookup(BucketsOf(w.st.db, p)));
    }
  }

  lemma {:induction false} SumOfSplit(values: seq<int>, m: Buckets)
    requires forall b :: b in m <==> 0 <= b < |values|
    requires forall b :: 0 <= b < |values| ==> m[b] == values[b]
    ensures BucketSum(m) == Total(Values(values))
    decreases |values|
  {
    if values == [] {
      assert m.Keys == {};
    } else {
      var last := |values| - 1;
      var front := values[..last];
      var m' := m - {last};
      SumOfSplit(front, m');
      SumUpdate(m'.Keys, Lookup(m'), m.Keys, Lookup(m), last);
      assert Values(values) == Values(front) + [Some(values[last])];
      TotalConcat(Values(front), [Some(values[last])]);
    }
  }

  lemma SeedingShards(cfg: Config, w: World, p: ProductId, total: int)
    requires ValidConfig(cfg) && total >= 0 && ShardsNonNegative(w.st.redis)
    ensures var r, n := Seeded(cfg, w.st, p, total, cfg.shardCount).redis, cfg.shardCount;
            && ShardsNonNegative(r) && Available(r, p, n) == total && Counter(r, p) == 0
            && (forall p' :: p' != p ==>
                  Available(r, p', n) == Available(w.st.redis, p', n) && Counter(r, p') == Counter(w.st.redis, p'))
  {
    var values := Split(total, cfg.shardCount);
    SplitSumsBack(total, cfg.shardCount);
    SeedRow(w.st.redis, p, values);
    SetShardsKeys(w.st.redis.stock, p, values, 0);
  }

  lemma SeedingBuckets(cfg: Config, w: World, p: ProductId, total: int)
    requires ValidConfig(cfg) && total >= 0 && BucketsNonNegative(w.st.db)
    requires forall p, b :: b in BucketsOf(w.st.db, p) ==> 0 <= b < cfg.shardCount
    ensures var d := Seeded(cfg, w.st, p, total, cfg.shardCount).db;
            && BucketsNonNegative(d) && BucketTotal(d, p) == total && d == w.st.db.(buckets := d.buckets)
            && (forall p' :: p' != p ==> BucketsOf(d, p') == BucketsOf(w.st.db, p'))
            && (forall p', b :: b in BucketsOf(d, p') ==> 0 <= b < cfg.shardCount)
  {
    var values := Split(total, cfg.shardCount);
    SplitSumsBack(total, cfg.shardCount);
    forall v | v in values ensures v >= 0 { }
    SeedBucketsRow(w.st.db, p, values, 0);
    SumOfSplit(values, BucketsOf(SeedBuckets(w.st.db, p, values, 0), p));
  }

  /** Seeding a product with the repository's own shard count keeps the two stores equal. */
  lemma SeedingIsInitial(cfg: Config, w: World, p: ProductId, total: int)
    requires ValidConfig(cfg) && Initial(cfg, w) && total >= 0
    ensures Initial(cfg, w.(st := Seeded(cfg, w.st, p, total, cfg.shardCount), supply := w.supply[p := total]))
  {
    var w' := w.(st := Seeded(cfg, w.st, p, total, cfg.shardCount), supply := w.supply[p := total]);
    SeedingShards(cfg, w, p, total);
    SeedingBuckets(cfg, w, p, total);
    forall p'
      ensures SeededEqually(cfg, w', p')
    {
      assert SeededEqually(cfg, w, p');
    }
  }

  lemma InitialInv(cfg: Config, w: World)
    requires ValidConfig(cfg) && Initial(cfg, w)
    ensures WorldInv(cfg, w)
  {
    forall p
      ensures Conserved(cfg, w.st, w.supply, p) && Balanced(cfg, w.st, w.drift, p)
    {
      assert SeededEqually(cfg, w, p);
    }
  }

  /** No oversell. After any run, every shard is non-negative, the reserved counter is exactly what the reserved orders
      hold (so no clamp ever fired), and shards plus reserved and confirmed quantities are what was seeded and
      adjusted. */
  lemma NoOversell(cfg: Config, w: World, es: seq<Event>, p: ProductId)
    requires ValidConfig(cfg) && Initial(cfg, w)
    ensures var w' := RunAll(cfg, w, es);
            && (forall i :: (p, i) in w'.st.redis.stock ==> w'.st.redis.stock[(p, i)] >= 0)
            && Counter(w'.st.redis, p) == LiveReserved(w'.st, p)
            && Available(w'.st.redis, p, cfg.shardCount) + Held(w'.st, p) == Of(w'.supply, p)
            && 0 <= LiveReserved(w'.st, p) <= Held(w'.st, p) <= Of(w'.supply, p)
  {
    InitialInv(cfg, w);
    RunKeeps(cfg, w, es);
    var w' := RunAll(cfg, w, es);
    assert Conserved(cfg, w'.st, w'.supply, p);
    HeldCoversReserved(cfg, w'.st, p);
    RowNonNegative(w'.st.redis, p, cfg.shardCount);
  }

  lemma HeldCoversReserved(cfg: Config, st: Stores, p: ProductId)
    requires Shape(cfg, st)
    ensures 0 <= LiveReserved(st, p) <= Held(st, p)
  {
    SumNonNegative(Orders(st), ReservedOf(st, p));
    SumMonotone(Orders(st), ReservedOf(st, p), HeldOf(st, p));
  }

  /** Two-store conservation. After any run, MySQL exceeds Redis by exactly what the orders that are confirmed without
      a live deduction hold, less what the orders released without a revert hold, plus the adjusts Redis lacks. */
  lemma TwoStoreConservation(cfg: Config, w: World, es: seq<Event>, p: ProductId)
    requires ValidConfig(cfg) && Initial(cfg, w)
    ensures var w' := RunAll(cfg, w, es);
            BucketTotal(w'.st.db, p) - (Available(w'.st.redis, p, cfg.shardCount) + Counter(w'.st.redis, p))
            == Gap(w'.st, p) + Of(w'.drift, p)
  {
    InitialInv(cfg, w);
    RunKeeps(cfg, w, es);
    assert Balanced(cfg, RunAll(cfg, w, es).st, RunAll(cfg, w, es).drift, p);
  }

  /** No lost reservation. After any run with any number of reapers, every reserved order is in the expiry, the
      processing or the dead-letter set. */
  lemma NoLostReservation(cfg: Config, w: World, es: seq<Event>, o: OrderId)
    requires ValidConfig(cfg) && Initial(cfg, w)
    ensures var r := RunAll(cfg, w, es).st.redis;
            o in r.reservations && r.reservations[o].status == Reserved ==>
                o in r.expiry || o in r.processing || o in r.dead
  {
    InitialInv(cfg, w);
    RunKeeps(cfg, w, es);
  }
}
