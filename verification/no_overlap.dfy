/** Runs in which no two commands work on one order at a time, and nothing else is asked: any configuration, commands
    that fail or die anywhere and are never retried, misread confirms, any order of commands on an order. */
module NoOverlap {
  import opened Wrappers
  import opened Sums
  import opened Shards
  import opened RedisScripts
  import opened StockPersistence
  import opened StockCommands
  import opened ReservationReaper
  import opened Accounts
  import opened Engine

  // ------------------------------------------------------------------------------------------------------------
  // The records of one order
  // ------------------------------------------------------------------------------------------------------------

  predicate Deducted(st: Stores, o: OrderId) {
    o in st.db.deducts && o !in st.db.reverts
  }

  /** The part of `Shape` that speaks of one order. */
  predicate ShapeAt(cfg: Config, st: Stores, o: OrderId) {
    && (o in st.redis.reservations ==> ValidReservation(cfg, st.redis.reservations[o]))
    && (o in st.db.ledger ==> Has(st, o, st.db.ledger[o].productId, st.db.ledger[o].quantity))
    && (o in st.db.deducts ==> o in st.redis.reservations && st.redis.reservations[o].status != Reserved)
    && (o in st.db.reverts ==> o in st.db.deducts)
  }

  lemma ShapeGivesAt(cfg: Config, st: Stores, o: OrderId)
    requires Shape(cfg, st)
    ensures ShapeAt(cfg, st, o)
  {
  }

  /** The records of one order in both stores. */
  datatype Records = Records(hash: Option<Reservation>, row: Option<LedgerRow>, deducted: bool, reverted: bool)

  function RecordsOf(st: Stores, o: OrderId): Records {
    Records(if o in st.redis.reservations then Some(st.redis.reservations[o]) else None,
            if o in st.db.ledger then Some(st.db.ledger[o]) else None,
            o in st.db.deducts, o in st.db.reverts)
  }

  /** A step touches the records of its own order only. */
  lemma Locality(cfg: Config, st: Stores, c: Cmd, now: int)
    requires ValidConfig(cfg)
    ensures forall o :: !(c.OnOrder() && o == c.o) ==> RecordsOf(StepCmd(cfg, st, c, now).0, o) == RecordsOf(st, o)
  {
  }

  // ------------------------------------------------------------------------------------------------------------
  // No overlap
  // ------------------------------------------------------------------------------------------------------------

  predicate WorksOn(proc: Proc, o: OrderId) {
    !proc.Finishing? && proc.cmd.OnOrder() && proc.cmd.o == o
  }

  predicate Busy(w: World, o: OrderId) {
    exists i :: i in w.procs && WorksOn(w.procs[i], o)
  }

  /** The order a reaper turns to when it has finished with the current one must be free. */
  predicate FreeNext(w: World, rest: seq<OrderId>) {
    rest != [] ==> !Busy(w, rest[0])
  }

  /** A command starts on a free order only, and a reaper turns to free orders only. */
  predicate Apart(w: World, e: Event) {
    match e
    case Start(_, c) => c.OnOrder() ==> !Busy(w, c.o)
    case StartReaper(_, claimed, _, _) => FreeNext(w, claimed)
    case Step(id, _) => id in w.procs && w.procs[id].Finishing? ==> FreeNext(w, w.procs[id].rest)
    case Fail(id, _, _) => id in w.procs && w.procs[id].Finishing? ==> FreeNext(w, w.procs[id].rest)
    case Kill(_, _, _) => true
  }

  ghost function RunApart(cfg: Config, w: World, es: seq<Event>): World
    requires ValidConfig(cfg)
    decreases |es|
  {
    if es == [] then w
    else RunApart(cfg, if Apart(w, es[0]) then Apply(cfg, w, es[0]) else w, es[1..])
  }

  // ------------------------------------------------------------------------------------------------------------
  // What a step does to its order
  // ------------------------------------------------------------------------------------------------------------

  /** A released order has no live deduction, and without final deduct nothing is ever deducted. */
  predicate Sound(cfg: Config, st: Stores, o: OrderId) {
    && (o in st.redis.reservations && st.redis.reservations[o].status == Released ==> !Deducted(st, o))
    && (!cfg.finalDeduct ==> o !in st.db.deducts)
  }

  /** What a worker alone on its order may rely on: it deducts confirmed orders, and releases what is not deducted. */
  predicate Working(cfg: Config, st: Stores, c: Cmd) {
    && (c.Deducting? ==>
          cfg.finalDeduct && c.o in st.redis.reservations && st.redis.reservations[c.o].status == Confirmed)
    && (c.Releasing? ==> !Deducted(st, c.o))
  }

  /** Where a step leaves its order. */
  ghost predicate StepSound(cfg: Config, st: Stores, c: Cmd, now: int)
    requires ValidConfig(cfg) && c.OnOrder()
  {
    var (st', next) := StepCmd(cfg, st, c, now);
    Sound(cfg, st', c.o) && (next.Goto? ==> Working(cfg, st', next.cmd))
  }

  lemma ReserveSound(cfg: Config, st: Stores, c: Cmd, now: int)
    requires ValidConfig(cfg) && c.OnOrder() && Sound(cfg, st, c.o) && ShapeAt(cfg, st, c.o)
    requires c.Reserving? || c.ReadingShard? || c.RecordingReservation? || c.ReadingConfirm? || c.Marking?
             || c.ConfirmingLedger?
    ensures StepSound(cfg, st, c, now)
  {
  }

  lemma ConfirmSound(cfg: Config, st: Stores, c: Cmd, now: int)
    requires ValidConfig(cfg) && c.Confirming? && Sound(cfg, st, c.o)
    ensures StepSound(cfg, st, c, now)
  {
    if c.o in st.redis.reservations {
      ConfirmEffect(st.redis, c.o, cfg.finalDeduct);
    }
  }

  lemma DeductSound(cfg: Config, st: Stores, c: Cmd, now: int)
    requires ValidConfig(cfg) && c.Deducting? && Sound(cfg, st, c.o) && Working(cfg, st, c)
    ensures StepSound(cfg, st, c, now)
  {
  }

  lemma ReleaseSound(cfg: Config, st: Stores, c: Cmd, now: int)
    requires ValidConfig(cfg) && c.OnOrder() && Sound(cfg, st, c.o) && CmdOk(st, c) && Working(cfg, st, c)
    requires c.ReadingRelease? || c.LoadingLedger? || c.Hydrating? || c.Reverting? || c.Releasing? || c.ReleasingLedger?
    ensures StepSound(cfg, st, c, now)
  {
  }

  lemma EveryStepSound(cfg: Config, st: Stores, c: Cmd, now: int)
    requires ValidConfig(cfg) && c.OnOrder() && CmdOk(st, c)
    requires Sound(cfg, st, c.o) && ShapeAt(cfg, st, c.o) && Working(cfg, st, c)
    ensures StepSound(cfg, st, c, now)
  {
    if c.Confirming? {
      ConfirmSound(cfg, st, c, now);
    } else if c.Deducting? {
      DeductSound(cfg, st, c, now);
    } else if c.ReadingRelease? || c.LoadingLedger? || c.Hydrating? || c.Reverting? || c.Releasing?
        || c.ReleasingLedger? {
      ReleaseSound(cfg, st, c, now);
    } else {
      ReserveSound(cfg, st, c, now);
    }
  }

  // ------------------------------------------------------------------------------------------------------------
  // All orders
  // ------------------------------------------------------------------------------------------------------------

  ghost predicate SoundOrder(cfg: Config, w: World, o: OrderId) {
    && Sound(cfg, w.st, o)
    && (forall i :: i in w.procs && WorksOn(w.procs[i], o) ==> Working(cfg, w.st, w.procs[i].cmd))
    && (forall i, j :: i in w.procs && j in w.procs && WorksOn(w.procs[i], o) && WorksOn(w.procs[j], o) ==> i == j)
  }

  ghost predicate AllSound(cfg: Config, w: World) {
    forall o :: SoundOrder(cfg, w, o)
  }

  lemma SameRecordsSound(cfg: Config, st: Stores, st': Stores, o: OrderId)
    requires RecordsOf(st', o) == RecordsOf(st, o)
    ensures Sound(cfg, st', o) == Sound(cfg, st, o)
    ensures forall c: Cmd :: c.OnOrder() && c.o == o ==> (Working(cfg, st', c) <==> Working(cfg, st, c))
  {
    assert Records(None, None, false, false) == Records(None, None, false, false);
  }

  /** An order whose records did not change, and whose workers are workers it had. */
  lemma LeftAlone(cfg: Config, w: World, w': World, o: OrderId)
    requires SoundOrder(cfg, w, o) && RecordsOf(w'.st, o) == RecordsOf(w.st, o)
    requires forall i :: i in w'.procs && WorksOn(w'.procs[i], o) ==> i in w.procs && w'.procs[i] == w.procs[i]
    ensures SoundOrder(cfg, w', o)
  {
    SameRecordsSound(cfg, w.st, w'.st, o);
  }

  /** An order that gets its only worker. */
  lemma GetsWorker(cfg: Config, w: World, w': World, o: OrderId, id: nat)
    requires SoundOrder(cfg, w, o) && !Busy(w, o) && RecordsOf(w'.st, o) == RecordsOf(w.st, o)
    requires forall i :: i in w'.procs && i != id ==> i in w.procs && w'.procs[i] == w.procs[i]
    requires id in w'.procs && WorksOn(w'.procs[id], o) ==> Working(cfg, w'.st, w'.procs[id].cmd)
    ensures SoundOrder(cfg, w', o)
  {
    SameRecordsSound(cfg, w.st, w'.st, o);
    assert forall i :: i in w.procs ==> !WorksOn(w.procs[i], o);
  }

  /** The order whose only worker moved. */
  lemma KeepsWorker(cfg: Config, w: World, w': World, o: OrderId, id: nat)
    requires SoundOrder(cfg, w, o) && id in w.procs && WorksOn(w.procs[id], o) && Sound(cfg, w'.st, o)
    requires forall i :: i in w'.procs && i != id ==> i in w.procs && w'.procs[i] == w.procs[i]
    requires id in w'.procs && WorksOn(w'.procs[id], o) ==> Working(cfg, w'.st, w'.procs[id].cmd)
    ensures SoundOrder(cfg, w', o)
  {
    assert forall i :: i in w.procs && i != id ==> !WorksOn(w.procs[i], o);
  }

  /** How a command's process may move: on to its next step, on past a misread, or away. */
  ghost predicate Advances(cfg: Config, w: World, w': World, id: nat, now: int)
    requires ValidConfig(cfg) && id in w.procs && !w.procs[id].Finishing?
  {
    var c := w.procs[id].cmd;
    var (st', next) := StepCmd(cfg, w.st, c, now);
    && (w'.st == w.st || w'.st == st')
    && (forall i :: i in w'.procs && i != id ==> i in w.procs && w'.procs[i] == w.procs[i])
    && (id in w'.procs && !w'.procs[id].Finishing? ==>
          || (c.ReadingConfirm? && w'.procs[id].cmd == Confirming(c.o, 0, 0))
          || (w'.st == st' && next == Goto(w'.procs[id].cmd)))
  }

  lemma CommandMoves(cfg: Config, w: World, w': World, id: nat, now: int)
    requires ValidConfig(cfg) && WorldInv(cfg, w) && AllSound(cfg, w) && id in w.procs && !w.procs[id].Finishing?
    requires Advances(cfg, w, w', id, now)
    ensures AllSound(cfg, w')
  {
    var c := w.procs[id].cmd;
    assert ProcOk(w.st, w.procs[id]);
    Locality(cfg, w.st, c, now);
    StepStays(cfg, w.st, c, now);
    forall o
      ensures SoundOrder(cfg, w', o)
    {
      assert SoundOrder(cfg, w, o);
      if c.OnOrder() && c.o == o {
        assert WorksOn(w.procs[id], o);
        ShapeGivesAt(cfg, w.st, o);
        EveryStepSound(cfg, w.st, c, now);
        KeepsWorker(cfg, w, w', o, id);
      } else {
        assert !WorksOn(w.procs[id], o);
        LeftAlone(cfg, w, w', o);
      }
    }
  }

  lemma StepShape(cfg: Config, w: World, id: nat, now: int)
    requires ValidConfig(cfg) && id in w.procs && !w.procs[id].Finishing?
    ensures var w', c := StepProc(cfg, w, id, now), w.procs[id].cmd;
            var next := StepCmd(cfg, w.st, c, now).1;
            && w'.st == StepCmd(cfg, w.st, c, now).0
            && (forall i :: i != id ==>
                  (i in w'.procs <==> i in w.procs) && (i in w.procs ==> w'.procs[i] == w.procs[i]))
            && (next.Goto? ==>
                  id in w'.procs && !w'.procs[id].Finishing? && w'.procs[id].cmd == next.cmd
                  && w'.crashed == w.crashed)
            && (next.Return? && id in w'.procs ==> w'.procs[id].Finishing?)
            && (next.Return? ==> w'.crashed == if c.OnOrder() then Returned(w.crashed, c, next.out) else w.crashed)
  {
  }

  lemma StepStays(cfg: Config, st: Stores, c: Cmd, now: int)
    requires ValidConfig(cfg)
    ensures var next := StepCmd(cfg, st, c, now).1;
            next.Goto? ==> next.cmd.OnOrder() == c.OnOrder() && (c.OnOrder() ==> next.cmd.o == c.o)
  {
  }

  lemma KillShape(cfg: Config, w: World, id: nat, applied: bool, now: int)
    requires ValidConfig(cfg) && id in w.procs && !w.procs[id].Finishing?
    ensures var w' := KillProc(cfg, w, id, applied, now);
            && w'.st == Applied(cfg, w, id, applied, now).st
            && w'.procs == w.procs - {id} && w'.crashed == Stopped(w.crashed, w.procs[id].cmd)
  {
  }

  /** Only the reaper's sets change, and possibly one free order gets a release. */
  lemma ReaperTurns(cfg: Config, w: World, w': World, id: nat, rest: seq<OrderId>)
    requires AllSound(cfg, w) && FreeNext(w, rest)
    requires forall o :: RecordsOf(w'.st, o) == RecordsOf(w.st, o)
    requires w'.procs == Continue(w.procs, id, rest)
    ensures AllSound(cfg, w')
  {
    forall o
      ensures SoundOrder(cfg, w', o)
    {
      assert SoundOrder(cfg, w, o);
      if rest != [] && o == rest[0] {
        GetsWorker(cfg, w, w', o, id);
      } else {
        LeftAlone(cfg, w, w', o);
      }
    }
  }

  lemma StartSound(cfg: Config, w: World, id: nat, c: Cmd)
    requires AllSound(cfg, w) && id !in w.procs && Issued(c) && Apart(w, Start(id, c))
    ensures AllSound(cfg, w.(procs := w.procs[id := Direct(c)]))
  {
    var w' := w.(procs := w.procs[id := Direct(c)]);
    forall o
      ensures SoundOrder(cfg, w', o)
    {
      assert SoundOrder(cfg, w, o);
      if c.OnOrder() && c.o == o {
        GetsWorker(cfg, w, w', o, id);
      } else {
        LeftAlone(cfg, w, w', o);
      }
    }
  }

  lemma ClaimSound(cfg: Config, w: World, e: Event)
    requires ValidConfig(cfg) && AllSound(cfg, w) && e.StartReaper? && Enabled(w, e) && Apart(w, e)
    ensures AllSound(cfg, Apply(cfg, w, e))
  {
    MoveClaimedSets(Requeue(w.st.redis, e.now), e.claimed, e.now);
    ReaperTurns(cfg, w, Apply(cfg, w, e), e.id, e.claimed);
  }

  lemma StepAdvances(cfg: Config, w: World, id: nat, now: int)
    requires ValidConfig(cfg) && id in w.procs && !w.procs[id].Finishing?
    ensures Advances(cfg, w, StepProc(cfg, w, id, now), id, now)
  {
    StepShape(cfg, w, id, now);
  }

  lemma FinishTurns(cfg: Config, w: World, id: nat, now: int)
    requires ValidConfig(cfg) && AllSound(cfg, w) && id in w.procs && w.procs[id].Finishing?
    requires FreeNext(w, w.procs[id].rest)
    ensures AllSound(cfg, StepProc(cfg, w, id, now))
  {
    ReaperTurns(cfg, w, StepProc(cfg, w, id, now), id, w.procs[id].rest);
  }

  lemma StepProcSound(cfg: Config, w: World, id: nat, now: int)
    requires ValidConfig(cfg) && WorldInv(cfg, w) && AllSound(cfg, w) && id in w.procs && Apart(w, Step(id, now))
    ensures AllSound(cfg, StepProc(cfg, w, id, now))
  {
    if w.procs[id].Finishing? {
      FinishTurns(cfg, w, id, now);
    } else {
      StepAdvances(cfg, w, id, now);
      CommandMoves(cfg, w, StepProc(cfg, w, id, now), id, now);
    }
  }

  lemma FinishFails(cfg: Config, w: World, id: nat, applied: bool, now: int)
    requires ValidConfig(cfg) && AllSound(cfg, w) && id in w.procs && w.procs[id].Finishing?
    requires FreeNext(w, w.procs[id].rest)
    ensures AllSound(cfg, FailProc(cfg, w, id, applied, now))
  {
    ReaperTurns(cfg, w, FailProc(cfg, w, id, applied, now), id, w.procs[id].rest);
  }

  lemma FailProcSound(cfg: Config, w: World, id: nat, applied: bool, now: int)
    requires ValidConfig(cfg) && WorldInv(cfg, w) && AllSound(cfg, w) && id in w.procs
    requires Apart(w, Fail(id, applied, now))
    ensures AllSound(cfg, FailProc(cfg, w, id, applied, now))
  {
    if w.procs[id].Finishing? {
      FinishFails(cfg, w, id, applied, now);
    } else {
      FailAdvances(cfg, w, id, applied, now);
      CommandMoves(cfg, w, FailProc(cfg, w, id, applied, now), id, now);
    }
  }

  lemma FailAdvances(cfg: Config, w: World, id: nat, applied: bool, now: int)
    requires ValidConfig(cfg) && id in w.procs && !w.procs[id].Finishing?
    ensures Advances(cfg, w, FailProc(cfg, w, id, applied, now), id, now)
  {
    FailProcShape(cfg, w, id, applied, now);
  }

  lemma FinishKilled(cfg: Config, w: World, id: nat, applied: bool, now: int)
    requires ValidConfig(cfg) && AllSound(cfg, w) && id in w.procs && w.procs[id].Finishing?
    ensures AllSound(cfg, KillProc(cfg, w, id, applied, now))
  {
    ReaperTurns(cfg, w, KillProc(cfg, w, id, applied, now), id, []);
  }

  lemma KillAdvances(cfg: Config, w: World, id: nat, applied: bool, now: int)
    requires ValidConfig(cfg) && id in w.procs && !w.procs[id].Finishing?
    ensures Advances(cfg, w, KillProc(cfg, w, id, applied, now), id, now)
  {
    KillShape(cfg, w, id, applied, now);
  }

  lemma KillProcSound(cfg: Config, w: World, id: nat, applied: bool, now: int)
    requires ValidConfig(cfg) && WorldInv(cfg, w) && AllSound(cfg, w) && id in w.procs
    ensures AllSound(cfg, KillProc(cfg, w, id, applied, now))
  {
    if w.procs[id].Finishing? {
      FinishKilled(cfg, w, id, applied, now);
    } else {
      KillAdvances(cfg, w, id, applied, now);
      CommandMoves(cfg, w, KillProc(cfg, w, id, applied, now), id, now);
    }
  }

  lemma ApplySound(cfg: Config, w: World, e: Event)
    requires ValidConfig(cfg) && WorldInv(cfg, w) && AllSound(cfg, w) && Apart(w, e)
    ensures AllSound(cfg, Apply(cfg, w, e))
  {
    if Enabled(w, e) {
      match e {
        case Start(id, c) => StartSound(cfg, w, id, c);
        case StartReaper(_, _, _, _) => ClaimSound(cfg, w, e);
        case Step(id, now) => StepProcSound(cfg, w, id, now);
        case Fail(id, applied, now) => FailProcSound(cfg, w, id, applied, now);
        case Kill(id, applied, now) => KillProcSound(cfg, w, id, applied, now);
      }
    }
  }

  lemma {:induction false} RunApartKeeps(cfg: Config, w: World, es: seq<Event>)
    requires ValidConfig(cfg) && WorldInv(cfg, w) && AllSound(cfg, w)
    ensures WorldInv(cfg, RunApart(cfg, w, es)) && AllSound(cfg, RunApart(cfg, w, es))
    decreases |es|
  {
    if es != [] {
      if Apart(w, es[0]) {
        ApplyKeeps(cfg, w, es[0]);
        ApplySound(cfg, w, es[0]);
      }
      RunApartKeeps(cfg, if Apart(w, es[0]) then Apply(cfg, w, es[0]) else w, es[1..]);
    }
  }

  // ------------------------------------------------------------------------------------------------------------
  // What no overlap buys
  // ------------------------------------------------------------------------------------------------------------

  /** No half-done work: every confirmed order has its deduction and every released one its revert. */
  predicate NothingHalfDone(st: Stores, o: OrderId) {
    o in st.redis.reservations ==>
      && (st.redis.reservations[o].status == Confirmed ==> Deducted(st, o))
      && (st.redis.reservations[o].status == Released ==> !Deducted(st, o))
  }

  lemma GapNonNegative(cfg: Config, st: Stores, p: ProductId)
    requires Shape(cfg, st) && forall o :: Sound(cfg, st, o)
    ensures forall o :: GapAt(st, p, o) >= 0
  {
    forall o
      ensures GapAt(st, p, o) >= 0
    {
      assert Sound(cfg, st, o);
    }
  }

  /** What MySQL holds of a product beyond Redis and the adjusts that Redis lacks. */
  ghost function Excess(cfg: Config, w: World, p: ProductId): int {
    BucketTotal(w.st.db, p) - (Available(w.st.redis, p, cfg.shardCount) + Counter(w.st.redis, p)) - Of(w.drift, p)
  }

  lemma RunApartSound(cfg: Config, w: World, es: seq<Event>)
    requires ValidConfig(cfg) && Initial(cfg, w)
    ensures var w' := RunApart(cfg, w, es);
            && Shape(cfg, w'.st) && (forall o :: Sound(cfg, w'.st, o)) && forall p ::
                 Excess(cfg, w', p) == Gap(w'.st, p)
  {
    InitialInv(cfg, w);
    RunApartKeeps(cfg, w, es);
    var w' := RunApart(cfg, w, es);
    forall o
      ensures Sound(cfg, w'.st, o)
    {
      assert SoundOrder(cfg, w', o);
    }
    forall p
      ensures Excess(cfg, w', p) == Gap(w'.st, p)
    {
      assert Balanced(cfg, w'.st, w'.drift, p);
    }
  }

  /** Without overlap on an order, MySQL never falls behind Redis by anything but an adjust. */
  lemma SerialConservation(cfg: Config, w: World, es: seq<Event>, p: ProductId)
    requires ValidConfig(cfg) && Initial(cfg, w)
    ensures Excess(cfg, RunApart(cfg, w, es), p) >= 0
  {
    RunApartSound(cfg, w, es);
    var st := RunApart(cfg, w, es).st;
    GapNonNegative(cfg, st, p);
    SumNonNegative(Orders(st), GapOf(st, p));
  }

  /** Without overlap, the two stores agree on a product exactly when every confirmed order of it has a live deduction
      and no released one does. */
  lemma BalanceIsExact(cfg: Config, w: World, es: seq<Event>, p: ProductId)
    requires ValidConfig(cfg) && Initial(cfg, w)
    ensures var w' := RunApart(cfg, w, es);
            Excess(cfg, w', p) == 0 <==>
            forall o :: o in w'.st.redis.reservations && w'.st.redis.reservations[o].productId == p ==>
                NothingHalfDone(w'.st, o)
  {
    RunApartSound(cfg, w, es);
    var st := RunApart(cfg, w, es).st;
    GapNonNegative(cfg, st, p);
    SumNonNegative(Orders(st), GapOf(st, p));
    if Gap(st, p) == 0 {
      forall o | o in st.redis.reservations && st.redis.reservations[o].productId == p
        ensures NothingHalfDone(st, o)
      {
        assert GapOf(st, p)(o) <= 0;
        assert Sound(cfg, st, o);
      }
    } else if forall o :: o in st.redis.reservations && st.redis.reservations[o].productId == p ==>
        NothingHalfDone(st, o) {
      NoGap(st, p);
    }
  }

  lemma NoGap(st: Stores, p: ProductId)
    requires forall o :: o in st.redis.reservations && st.redis.reservations[o].productId == p ==>
             NothingHalfDone(st, o)
    ensures Gap(st, p) == 0
  {
    forall o
      ensures GapAt(st, p, o) == 0
    {
      assert o in st.redis.reservations && st.redis.reservations[o].productId == p ==> NothingHalfDone(st, o);
    }
    SumZero(Orders(st), GapOf(st, p));
  }
}
