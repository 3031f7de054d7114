/** Runs in which the commands on one order do not overlap and a stopped command is retried, or compensated by a
    release, before anything else happens to its order. Final deduct is on and the ledger is enforced. */
module Quiescence {
  import opened Wrappers
  import opened Sums
  import opened Shards
  import opened RedisScripts
  import opened StockPersistence
  import opened StockCommands
  import opened ReservationReaper
  import opened Accounts
  import opened Engine
  import opened NoOverlap
  import Retry

  ghost predicate Strict(cfg: Config) {
    ValidConfig(cfg) && cfg.finalDeduct && cfg.mode == Enforce
  }

  // ------------------------------------------------------------------------------------------------------------
  // The records of one order
  // ------------------------------------------------------------------------------------------------------------

  predicate InLedger(st: Stores, o: OrderId, statuses: set<Status>) {
    o in st.db.ledger && st.db.ledger[o].status in statuses
  }

  /** The reservation hash, the ledger row and the log of an order agree. */
  predicate Settled(st: Stores, o: OrderId) {
    if o !in st.redis.reservations then o !in st.db.ledger
    else match st.redis.reservations[o].status
      case Reserved => InLedger(st, o, {Reserved}) && st.db.ledger[o].shardIndex == st.redis.reservations[o].shardIndex
      case Confirmed => InLedger(st, o, {Confirmed}) && Deducted(st, o)
      case Released => o !in st.db.ledger || InLedger(st, o, {Released})
  }

  /** Reserved in Redis, not yet in the ledger. */
  predicate HalfReserved(st: Stores, o: OrderId, p: ProductId, q: int) {
    Has(st, o, p, q) && st.redis.reservations[o].status == Reserved && o !in st.db.ledger
  }

  /** Confirmed in Redis; the deduction and the ledger row may still be to come. */
  predicate HalfConfirmed(st: Stores, o: OrderId) {
    && o in st.redis.reservations && st.redis.reservations[o].status == Confirmed
    && InLedger(st, o, {Reserved, Confirmed}) && o !in st.db.reverts
  }

  /** A released order the ledger has never heard of: reserving it again would record it as reserved. */
  predicate Forgotten(st: Stores, o: OrderId) {
    o in st.redis.reservations && st.redis.reservations[o].status == Released && o !in st.db.ledger
  }

  /** Facts that hold at every order at all times: the Redis flag implies the log row, and a released order has no
      live deduction. */
  predicate Fine(st: Stores, o: OrderId) {
    o in st.redis.reservations ==>
      && (st.redis.reservations[o].deducted ==> o in st.db.deducts)
      && (st.redis.reservations[o].status == Released ==> !Deducted(st, o))
  }

  /** What holds of the records of an order while command `c` on it is about to run its next step. */
  predicate ActiveOk(st: Stores, c: Cmd)
    requires c.OnOrder()
  {
    match c
    case Reserving(o, p, q) => !Forgotten(st, o) && (Settled(st, o) || HalfReserved(st, o, p, q))
    case ReadingShard(o, p, q) => !Forgotten(st, o) && (Settled(st, o) || HalfReserved(st, o, p, q)) && Has(st, o, p, q)
    case RecordingReservation(o, p, q, shard) =>
      !Forgotten(st, o) && (Settled(st, o) || HalfReserved(st, o, p, q)) && Has(st, o, p, q)
      && shard == st.redis.reservations[o].shardIndex
    case ReadingConfirm(o) => Settled(st, o) || HalfConfirmed(st, o)
    case Confirming(o, p, q) => (Settled(st, o) || HalfConfirmed(st, o))
        && (if o in st.redis.reservations then Has(st, o, p, q) else p == 0 && q == 0)
    case Deducting(o, p, q) => HalfConfirmed(st, o) && Has(st, o, p, q)
    case Marking(o, p) => HalfConfirmed(st, o) && o in st.db.deducts
    case ConfirmingLedger(o) => (HalfConfirmed(st, o) && o in st.db.deducts)
        || (Settled(st, o) && Past(st, o, Released))
    case ReadingRelease(o) => true
    case LoadingLedger(o) => o !in st.redis.reservations
    case Hydrating(o, row) => false
    case Reverting(o, p, q) => Has(st, o, p, q)
    case Releasing(o, p) => Known(st, o) && st.redis.reservations[o].productId == p && !Deducted(st, o)
    case ReleasingLedger(o) => Past(st, o, Released)
  }

  /** What holds of the records of an order whose last command stopped and has to be issued again as `c`. */
  predicate CrashedOk(st: Stores, c: Cmd)
    requires c.OnOrder()
  {
    match c
    case Reserving(o, p, q) => !Forgotten(st, o) && (Settled(st, o) || HalfReserved(st, o, p, q))
    case ReadingConfirm(o) => Settled(st, o) || HalfConfirmed(st, o)
    case ReadingRelease(o) => true
    case _ => false
  }

  // ------------------------------------------------------------------------------------------------------------
  // One step of the command that is active on an order
  // ------------------------------------------------------------------------------------------------------------

  /** Where a step leaves the records of its order. */
  ghost predicate StepLands(cfg: Config, st: Stores, c: Cmd, now: int)
    requires ValidConfig(cfg) && c.OnOrder()
  {
    var (st', next) := StepCmd(cfg, st, c, now);
    && Fine(st', c.o) && CrashedOk(st', Origin(c))
    && match next
       case Goto(c') => c'.OnOrder() && c'.o == c.o && Origin(c') == Origin(c) && ActiveOk(st', c')
       case Return(out) => (out == Ok || c.Reserving? ==> Settled(st', c.o))
  }

  lemma ReserveLands(cfg: Config, st: Stores, c: Cmd, now: int)
    requires Strict(cfg) && c.Reserving? && ActiveOk(st, c) && Fine(st, c.o) && ShapeAt(cfg, st, c.o)
    ensures StepLands(cfg, st, c, now)
  {
  }

  lemma RecordLands(cfg: Config, st: Stores, c: Cmd, now: int)
    requires Strict(cfg) && (c.ReadingShard? || c.RecordingReservation?) && ActiveOk(st, c) && Fine(st, c.o)
    requires ShapeAt(cfg, st, c.o)
    ensures StepLands(cfg, st, c, now)
  {
  }

  lemma ConfirmReadLands(cfg: Config, st: Stores, c: Cmd, now: int)
    requires Strict(cfg) && c.ReadingConfirm? && ActiveOk(st, c) && Fine(st, c.o) && ShapeAt(cfg, st, c.o)
    ensures StepLands(cfg, st, c, now)
  {
  }

  lemma ConfirmLands(cfg: Config, st: Stores, c: Cmd, now: int)
    requires Strict(cfg) && c.Confirming? && ActiveOk(st, c) && Fine(st, c.o) && ShapeAt(cfg, st, c.o)
    ensures StepLands(cfg, st, c, now)
  {
    if c.o in st.redis.reservations {
      ConfirmEffect(st.redis, c.o, cfg.finalDeduct);
    }
  }

  lemma DeductLands(cfg: Config, st: Stores, c: Cmd, now: int)
    requires Strict(cfg) && c.Deducting? && ActiveOk(st, c) && Fine(st, c.o) && ShapeAt(cfg, st, c.o)
    ensures StepLands(cfg, st, c, now)
  {
  }

  lemma MarkLands(cfg: Config, st: Stores, c: Cmd, now: int)
    requires Strict(cfg) && (c.Marking? || c.ConfirmingLedger?) && ActiveOk(st, c) && Fine(st, c.o)
    requires ShapeAt(cfg, st, c.o)
    ensures StepLands(cfg, st, c, now)
  {
  }

  lemma ReleaseReadLands(cfg: Config, st: Stores, c: Cmd, now: int)
    requires Strict(cfg) && (c.ReadingRelease? || c.LoadingLedger? || c.Hydrating?)
    requires ActiveOk(st, c) && Fine(st, c.o) && ShapeAt(cfg, st, c.o)
    ensures StepLands(cfg, st, c, now)
  {
  }

  lemma RevertLands(cfg: Config, st: Stores, c: Cmd, now: int)
    requires Strict(cfg) && c.Reverting? && ActiveOk(st, c) && Fine(st, c.o) && ShapeAt(cfg, st, c.o)
    ensures StepLands(cfg, st, c, now)
  {
  }

  lemma ReleaseLands(cfg: Config, st: Stores, c: Cmd, now: int)
    requires Strict(cfg) && (c.Releasing? || c.ReleasingLedger?) && ActiveOk(st, c) && Fine(st, c.o)
    requires ShapeAt(cfg, st, c.o)
    ensures StepLands(cfg, st, c, now)
  {
    if c.ReleasingLedger? && c.o in st.db.ledger {
      var st' := StepCmd(cfg, st, c, now).0;
      assert st.db.ledger[c.o].status in {Reserved, Confirmed} || st.db.ledger[c.o].status == Released;
      assert st'.db.ledger[c.o].status == Released;
    }
  }

  lemma Lands(cfg: Config, st: Stores, c: Cmd, now: int)
    requires Strict(cfg) && c.OnOrder() && ActiveOk(st, c) && Fine(st, c.o) && ShapeAt(cfg, st, c.o)
    ensures StepLands(cfg, st, c, now)
  {
    match c {
      case Reserving(_, _, _) => ReserveLands(cfg, st, c, now);
      case ReadingShard(_, _, _) => RecordLands(cfg, st, c, now);
      case RecordingReservation(_, _, _, _) => RecordLands(cfg, st, c, now);
      case ReadingConfirm(_) => ConfirmReadLands(cfg, st, c, now);
      case Confirming(_, _, _) => ConfirmLands(cfg, st, c, now);
      case Deducting(_, _, _) => DeductLands(cfg, st, c, now);
      case Marking(_, _) => MarkLands(cfg, st, c, now);
      case ConfirmingLedger(_) => MarkLands(cfg, st, c, now);
      case ReadingRelease(_) => ReleaseReadLands(cfg, st, c, now);
      case LoadingLedger(_) => ReleaseReadLands(cfg, st, c, now);
      case Hydrating(_, _) => ReleaseReadLands(cfg, st, c, now);
      case Reverting(_, _, _) => RevertLands(cfg, st, c, now);
      case Releasing(_, _) => ReleaseLands(cfg, st, c, now);
      case ReleasingLedger(_) => ReleaseLands(cfg, st, c, now);
    }
  }

  lemma SameRecords(st: Stores, st': Stores, o: OrderId)
    requires RecordsOf(st', o) == RecordsOf(st, o)
    ensures Settled(st', o) == Settled(st, o) && Fine(st', o) == Fine(st, o)
    ensures forall c: Cmd :: c.OnOrder() && c.o == o ==>
            (ActiveOk(st', c) <==> ActiveOk(st, c)) && (CrashedOk(st', c) <==> CrashedOk(st, c))
  {
  }

  // ------------------------------------------------------------------------------------------------------------
  // All orders, in disciplined runs
  // ------------------------------------------------------------------------------------------------------------

  predicate AtRest(w: World, o: OrderId) {
    if o in w.crashed then w.crashed[o].OnOrder() && w.crashed[o].o == o && CrashedOk(w.st, w.crashed[o])
        else Settled(w.st, o)
  }

  ghost predicate OrderOk(w: World, o: OrderId) {
    && Fine(w.st, o)
    && (forall i :: i in w.procs && WorksOn(w.procs[i], o) ==> ActiveOk(w.st, w.procs[i].cmd))
    && (forall i, j :: i in w.procs && j in w.procs && WorksOn(w.procs[i], o) && WorksOn(w.procs[j], o) ==> i == j)
    && (!Busy(w, o) ==> AtRest(w, o))
  }

  ghost predicate SerialInv(cfg: Config, w: World) {
    WorldInv(cfg, w) && forall o :: OrderOk(w, o)
  }

  /** The discipline, beyond no overlap: what stopped on an order is retried or compensated by a release; a forgotten
      released order is not reserved again; and the read that starts a confirm does not fail. */
  predicate Disciplined(w: World, e: Event) {
    && Apart(w, e)
    && match e
       case Start(id, c) =>
         c.OnOrder() ==>
           && (c.o in w.crashed ==> w.crashed[c.o] == c || c.ReadingRelease?)
           && (c.Reserving? ==> !Forgotten(w.st, c.o))
       case Fail(id, _, _) => id in w.procs && !w.procs[id].Finishing? ==> !w.procs[id].cmd.ReadingConfirm?
       case _ => true
  }

  ghost function RunSerial(cfg: Config, w: World, es: seq<Event>): World
    requires ValidConfig(cfg)
    decreases |es|
  {
    if es == [] then w
    else RunSerial(cfg, if Disciplined(w, es[0]) then Apply(cfg, w, es[0]) else w, es[1..])
  }

  /** An order whose records, workers and crash entry an event did not touch. */
  ghost predicate Untouched(w: World, w': World, o: OrderId) {
    && RecordsOf(w'.st, o) == RecordsOf(w.st, o)
    && (forall i :: i in w'.procs && WorksOn(w'.procs[i], o) <==> i in w.procs && WorksOn(w.procs[i], o))
    && (forall i :: i in w'.procs && WorksOn(w'.procs[i], o) ==> w'.procs[i].cmd == w.procs[i].cmd)
    && (o in w'.crashed <==> o in w.crashed) && (o in w.crashed ==> w'.crashed[o] == w.crashed[o])
  }

  lemma UntouchedOk(w: World, w': World, o: OrderId)
    requires OrderOk(w, o) && Untouched(w, w', o)
    ensures OrderOk(w', o)
  {
    SameRecords(w.st, w'.st, o);
    if Busy(w, o) {
      var i :| i in w.procs && WorksOn(w.procs[i], o);
      assert i in w'.procs && WorksOn(w'.procs[i], o);
    }
  }

  /** The order that gets its first worker. */
  lemma TakenOk(w: World, w': World, o: OrderId, id: nat)
    requires OrderOk(w, o) && !Busy(w, o) && RecordsOf(w'.st, o) == RecordsOf(w.st, o)
    requires id in w'.procs && WorksOn(w'.procs[id], o) && ActiveOk(w'.st, w'.procs[id].cmd)
    requires forall i :: i in w'.procs && i != id ==> i in w.procs && w'.procs[i] == w.procs[i]
    ensures OrderOk(w', o)
  {
    SameRecords(w.st, w'.st, o);
    assert forall i :: i in w.procs ==> !WorksOn(w.procs[i], o);
  }

  /** The order of the process that moved: its worker goes on, or leaves it at rest. */
  lemma MovedOk(w: World, w': World, o: OrderId, id: nat)
    requires OrderOk(w, o) && id in w.procs && WorksOn(w.procs[id], o) && Fine(w'.st, o)
    requires forall i :: i in w'.procs && i != id ==> i in w.procs && w'.procs[i] == w.procs[i]
    requires if id in w'.procs && WorksOn(w'.procs[id], o) then ActiveOk(w'.st, w'.procs[id].cmd) else AtRest(w', o)
    ensures OrderOk(w', o)
  {
    assert forall i :: i in w.procs && i != id ==> !WorksOn(w.procs[i], o);
  }

  /** A process moved by the step of command `c`: the orders other than its own. */
  lemma OthersUntouched(cfg: Config, w: World, w': World, id: nat, c: Cmd, now: int, o: OrderId)
    requires ValidConfig(cfg) && id in w.procs && !w.procs[id].Finishing? && w.procs[id].cmd == c
    requires !(c.OnOrder() && c.o == o) && OrderOk(w, o)
    requires w'.st == w.st || w'.st == StepCmd(cfg, w.st, c, now).0
    requires forall i :: i != id ==> (i in w'.procs <==> i in w.procs) && (i in w.procs ==> w'.procs[i] == w.procs[i])
    requires id in w'.procs ==> !WorksOn(w'.procs[id], o)
    requires (o in w'.crashed <==> o in w.crashed) && (o in w.crashed ==> w'.crashed[o] == w.crashed[o])
    ensures OrderOk(w', o)
  {
    Locality(cfg, w.st, c, now);
    assert !WorksOn(w.procs[id], o);
    UntouchedOk(w, w', o);
  }

  /** A command that moves takes its own order where `StepLands` says. */
  lemma CommandStep(cfg: Config, w: World, id: nat, now: int)
    requires Strict(cfg) && SerialInv(cfg, w) && id in w.procs && !w.procs[id].Finishing?
    ensures forall o :: OrderOk(StepProc(cfg, w, id, now), o)
  {
    var c := w.procs[id].cmd;
    var w' := StepProc(cfg, w, id, now);
    assert ProcOk(w.st, w.procs[id]);
    StepShape(cfg, w, id, now);
    forall o
      ensures OrderOk(w', o)
    {
      assert OrderOk(w, o);
      if c.OnOrder() && c.o == o {
        assert WorksOn(w.procs[id], o);
        ShapeGivesAt(cfg, w.st, o);
        Lands(cfg, w.st, c, now);
        MovedOk(w, w', o, id);
      } else {
        StepStays(cfg, w.st, c, now);
        OthersUntouched(cfg, w, w', id, c, now, o);
      }
    }
  }

  /** A command that stops leaves its order to be retried. */
  lemma CommandStops(cfg: Config, w: World, w': World, id: nat, now: int, applied: bool)
    requires Strict(cfg) && SerialInv(cfg, w) && id in w.procs && !w.procs[id].Finishing?
    requires w'.st == Applied(cfg, w, id, applied, now).st
    requires forall i :: i != id ==> (i in w'.procs <==> i in w.procs) && (i in w.procs ==> w'.procs[i] == w.procs[i])
    requires id in w'.procs ==> w'.procs[id].Finishing?
    requires w'.crashed == Stopped(w.crashed, w.procs[id].cmd)
    ensures forall o :: OrderOk(w', o)
  {
    var c := w.procs[id].cmd;
    assert ProcOk(w.st, w.procs[id]);
    forall o
      ensures OrderOk(w', o)
    {
      assert OrderOk(w, o);
      if c.OnOrder() && c.o == o {
        assert WorksOn(w.procs[id], o);
        ShapeGivesAt(cfg, w.st, o);
        Lands(cfg, w.st, c, now);
        ActiveIsRetryable(w.st, c);
        MovedOk(w, w', o, id);
      } else {
        OthersUntouched(cfg, w, w', id, c, now, o);
      }
    }
  }

  lemma ActiveIsRetryable(st: Stores, c: Cmd)
    requires c.OnOrder() && ActiveOk(st, c)
    ensures CrashedOk(st, Origin(c)) && Origin(c).OnOrder() && Origin(c).o == c.o
  {
  }

  /** Only the reaper's sets change, and possibly one free order gets a release. */
  lemma ReaperMoves(cfg: Config, w: World, w': World, id: nat, rest: seq<OrderId>)
    requires SerialInv(cfg, w) && FreeNext(w, rest)
    requires forall o :: RecordsOf(w'.st, o) == RecordsOf(w.st, o)
    requires id in w.procs ==> w.procs[id].Finishing?
    requires w'.procs == Continue(w.procs, id, rest) && w'.crashed == w.crashed
    ensures forall o :: OrderOk(w', o)
  {
    forall o
      ensures OrderOk(w', o)
    {
      assert OrderOk(w, o);
      if rest != [] && o == rest[0] {
        TakenOk(w, w', o, id);
      } else {
        UntouchedOk(w, w', o);
      }
    }
  }

  lemma StartOk(cfg: Config, w: World, id: nat, c: Cmd)
    requires Strict(cfg) && SerialInv(cfg, w) && id !in w.procs && Issued(c) && Disciplined(w, Start(id, c))
    ensures var w' := w.(procs := w.procs[id := Direct(c)]); forall o :: OrderOk(w', o)
  {
    var w' := w.(procs := w.procs[id := Direct(c)]);
    forall o
      ensures OrderOk(w', o)
    {
      assert OrderOk(w, o);
      if c.OnOrder() && c.o == o {
        TakenOk(w, w', o, id);
      } else {
        UntouchedOk(w, w', o);
      }
    }
  }

  ghost predicate AllOk(w: World) {
    forall o :: OrderOk(w, o)
  }

  lemma ClaimOk(cfg: Config, w: World, e: Event)
    requires Strict(cfg) && SerialInv(cfg, w) && e.StartReaper? && Enabled(w, e) && Disciplined(w, e)
    ensures AllOk(Apply(cfg, w, e))
  {
    MoveClaimedSets(Requeue(w.st.redis, e.now), e.claimed, e.now);
    ReaperMoves(cfg, w, Apply(cfg, w, e), e.id, e.claimed);
  }

  lemma FinishTurns(cfg: Config, w: World, id: nat, now: int)
    requires Strict(cfg) && SerialInv(cfg, w) && id in w.procs && w.procs[id].Finishing?
    requires FreeNext(w, w.procs[id].rest)
    ensures AllOk(StepProc(cfg, w, id, now))
  {
    ReaperMoves(cfg, w, StepProc(cfg, w, id, now), id, w.procs[id].rest);
  }

  lemma StepOk(cfg: Config, w: World, id: nat, now: int)
    requires Strict(cfg) && SerialInv(cfg, w) && id in w.procs && Disciplined(w, Step(id, now))
    ensures AllOk(StepProc(cfg, w, id, now))
  {
    if w.procs[id].Finishing? {
      FinishTurns(cfg, w, id, now);
    } else {
      CommandStep(cfg, w, id, now);
    }
  }

  lemma FinishFails(cfg: Config, w: World, id: nat, applied: bool, now: int)
    requires Strict(cfg) && SerialInv(cfg, w) && id in w.procs && w.procs[id].Finishing?
    requires FreeNext(w, w.procs[id].rest)
    ensures AllOk(FailProc(cfg, w, id, applied, now))
  {
    ReaperMoves(cfg, w, FailProc(cfg, w, id, applied, now), id, w.procs[id].rest);
  }

  lemma FailOk(cfg: Config, w: World, id: nat, applied: bool, now: int)
    requires Strict(cfg) && SerialInv(cfg, w) && id in w.procs && Disciplined(w, Fail(id, applied, now))
    ensures AllOk(FailProc(cfg, w, id, applied, now))
  {
    if w.procs[id].Finishing? {
      FinishFails(cfg, w, id, applied, now);
    } else {
      FailShape(cfg, w, id, applied, now);
      CommandStops(cfg, w, FailProc(cfg, w, id, applied, now), id, now, applied);
    }
  }

  lemma ApplyOk(cfg: Config, w: World, e: Event)
    requires Strict(cfg) && SerialInv(cfg, w) && Disciplined(w, e)
    ensures AllOk(Apply(cfg, w, e))
  {
    if Enabled(w, e) {
      match e {
        case Start(id, c) => StartOk(cfg, w, id, c);
        case StartReaper(_, _, _, _) => ClaimOk(cfg, w, e);
        case Step(id, now) => StepOk(cfg, w, id, now);
        case Fail(id, applied, now) => FailOk(cfg, w, id, applied, now);
        case Kill(id, applied, now) => KillOk(cfg, w, id, applied, now);
      }
    }
  }

  lemma ApplySerial(cfg: Config, w: World, e: Event)
    requires Strict(cfg) && SerialInv(cfg, w) && Disciplined(w, e)
    ensures SerialInv(cfg, Apply(cfg, w, e))
  {
    ApplyKeeps(cfg, w, e);
    ApplyOk(cfg, w, e);
  }

  lemma FailShape(cfg: Config, w: World, id: nat, applied: bool, now: int)
    requires Strict(cfg) && WorldInv(cfg, w) && id in w.procs && !w.procs[id].Finishing?
    requires !w.procs[id].cmd.ReadingConfirm?
    ensures var w' := FailProc(cfg, w, id, applied, now);
            && w'.st == Applied(cfg, w, id, applied, now).st
            && (forall i :: i != id ==>
                  (i in w'.procs <==> i in w.procs) && (i in w.procs ==> w'.procs[i] == w.procs[i]))
            && (id in w'.procs ==> w'.procs[id].Finishing?)
            && w'.crashed == Stopped(w.crashed, w.procs[id].cmd)
  {
    assert ProcOk(w.st, w.procs[id]);
  }

  lemma FinishKilled(cfg: Config, w: World, id: nat, applied: bool, now: int)
    requires Strict(cfg) && SerialInv(cfg, w) && id in w.procs && w.procs[id].Finishing?
    ensures AllOk(KillProc(cfg, w, id, applied, now))
  {
    ReaperMoves(cfg, w, KillProc(cfg, w, id, applied, now), id, []);
  }

  lemma KillOk(cfg: Config, w: World, id: nat, applied: bool, now: int)
    requires Strict(cfg) && SerialInv(cfg, w) && id in w.procs
    ensures AllOk(KillProc(cfg, w, id, applied, now))
  {
    if w.procs[id].Finishing? {
      FinishKilled(cfg, w, id, applied, now);
    } else {
      KillShape(cfg, w, id, applied, now);
      CommandStops(cfg, w, KillProc(cfg, w, id, applied, now), id, now, applied);
    }
  }

  lemma {:induction false} RunSerialKeeps(cfg: Config, w: World, es: seq<Event>)
    requires Strict(cfg) && SerialInv(cfg, w)
    ensures SerialInv(cfg, RunSerial(cfg, w, es))
    decreases |es|
  {
    if es != [] {
      var w' := if Disciplined(w, es[0]) then Apply(cfg, w, es[0]) else w;
      if Disciplined(w, es[0]) {
        ApplySerial(cfg, w, es[0]);
      }
      RunSerialKeeps(cfg, w', es[1..]);
    }
  }

  lemma InitialSerial(cfg: Config, w: World)
    requires Strict(cfg) && Initial(cfg, w)
    ensures SerialInv(cfg, w)
  {
    InitialInv(cfg, w);
  }

  // ------------------------------------------------------------------------------------------------------------
  // What the discipline buys
  // ------------------------------------------------------------------------------------------------------------

  /** Nothing runs and nothing that stopped is left to be retried. */
  predicate Quiescent(w: World) {
    w.procs == map[] && w.crashed == map[]
  }

  lemma QuiescentIsSettled(cfg: Config, w: World, o: OrderId)
    requires SerialInv(cfg, w) && Quiescent(w)
    ensures Settled(w.st, o) && Fine(w.st, o) && NothingHalfDone(w.st, o)
  {
    assert OrderOk(w, o);
    assert !Busy(w, o);
  }

  /** Once nothing is in flight or left to retry, and every adjust reached both stores, the two stores agree. */
  lemma QuiescentBalance(cfg: Config, w: World, es: seq<Event>, p: ProductId)
    requires Strict(cfg) && Initial(cfg, w) && Quiescent(RunSerial(cfg, w, es))
    ensures var w' := RunSerial(cfg, w, es);
            BucketTotal(w'.st.db, p) == Available(w'.st.redis, p, cfg.shardCount) + Counter(w'.st.redis, p)
                + Of(w'.drift, p)
  {
    InitialSerial(cfg, w);
    RunSerialKeeps(cfg, w, es);
    var w' := RunSerial(cfg, w, es);
    forall o {
      QuiescentIsSettled(cfg, w', o);
    }
    NoGap(w'.st, p);
    assert Balanced(cfg, w'.st, w'.drift, p);
  }

  // ------------------------------------------------------------------------------------------------------------
  // Why the discipline says what it says
  // ------------------------------------------------------------------------------------------------------------

  /** Reserving again a settled order of the same product and quantity leaves it settled exactly when it is not a
      released order unknown to the ledger: that one ends up released in Redis and reserved in the ledger. */
  lemma ReserveAgain(cfg: Config, st: Stores, o: OrderId, p: ProductId, q: int, now: int)
    requires Strict(cfg) && Settled(st, o) && Has(st, o, p, q)
    ensures var (st', out) := Run(cfg, st, Reserving(o, p, q), now);
            && (Settled(st', o) <==> !Forgotten(st, o))
            && (Forgotten(st, o) ==> out == Ok && Past(st', o, Released) && InLedger(st', o, {Reserved}))
  {
    var id := GetReservationScript(st.redis, o);
    assert Run(cfg, st, Reserving(o, p, q), now) == Run(cfg, st, ReadingShard(o, p, q), now);
    assert Run(cfg, st, ReadingShard(o, p, q), now) == Run(cfg, st, RecordingReservation(o, p, q, id.shardIndex), now);
  }

  /** That case is reached: from any stores that do not know the order, a reserve that stopped after its script, then a
      release, then the reserve again. */
  lemma ForgottenIsReached(cfg: Config, st: Stores, o: OrderId, p: ProductId, q: int, now: int)
    requires Strict(cfg) && p > 0 && q > 0
    requires o !in st.redis.reservations && o !in st.db.ledger && o !in st.db.deducts
    requires Retry.Scripted(cfg, st, o, p, q, now).1 == 1
    ensures var st1 := RunSteps(cfg, st, Reserving(o, p, q), now, 1);
            var (st2, released) := Run(cfg, st1, ReadingRelease(o), now);
            var (st3, reserved) := Run(cfg, st2, Reserving(o, p, q), now);
            && released == Ok && Settled(st2, o) && Forgotten(st2, o)
            && reserved == Ok && Past(st3, o, Released) && InLedger(st3, o, {Reserved})
  {
    var st1 := st.(redis := Retry.Scripted(cfg, st, o, p, q, now).0);
    Retry.ReserveStops(cfg, st, o, p, q, now, 1);
    ReleaseForgets(cfg, st1, o, p, q, now);
    ReserveAgain(cfg, Run(cfg, st1, ReadingRelease(o), now).0, o, p, q, now);
  }

  lemma ReleaseForgets(cfg: Config, st: Stores, o: OrderId, p: ProductId, q: int, now: int)
    requires Strict(cfg) && p > 0 && q > 0 && Has(st, o, p, q) && st.redis.reservations[o].status == Reserved
    requires !st.redis.reservations[o].deducted && o !in st.db.ledger && o !in st.db.deducts
    ensures var (st', out) := Run(cfg, st, ReadingRelease(o), now);
            out == Ok && Settled(st', o) && Has(st', o, p, q) && Forgotten(st', o)
  {
    Retry.StepOn(cfg, st, ReadingRelease(o), now, 1);
    Retry.StepOn(cfg, st, Reverting(o, p, q), now, 1);
    Retry.StepOn(cfg, st, Releasing(o, p), now, 1);
    var st' := st.(redis := ReleaseScript(st.redis, cfg.shardCount, o, p));
    Retry.StepOn(cfg, st', ReleasingLedger(o), now, 1);
  }
}
