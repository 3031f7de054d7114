/** Crash and retry: a command that stopped after any of its steps, any number of times, converges on rerun to the
    state of one uninterrupted run, and rerunning a finished command changes nothing. */
module Retry {
  import opened Wrappers
  import opened Shards
  import opened RedisScripts
  import opened StockPersistence
  import opened StockCommands

  /** An attempt at a command: how many steps it got to, when, and whether the read that starts a confirm failed. The
      source ignores that failure and goes on with an empty identity. */
  datatype Attempt = Attempt(steps: nat, now: int, misread: bool)

  function Attempted(cfg: Config, st: Stores, c: Cmd, a: Attempt): Stores
    requires ValidConfig(cfg)
  {
    RunSteps(cfg, st, if a.misread && c.ReadingConfirm? then Confirming(c.o, 0, 0) else c, a.now, a.steps)
  }

  /** The stores after successive attempts. */
  function Attempts(cfg: Config, st: Stores, c: Cmd, attempts: seq<Attempt>): Stores
    requires ValidConfig(cfg)
    decreases |attempts|
  {
    if attempts == [] then st else Attempts(cfg, Attempted(cfg, st, c, attempts[0]), c, attempts[1..])
  }

  lemma StepOn(cfg: Config, st: Stores, c: Cmd, now: int, k: nat)
    requires ValidConfig(cfg) && k > 0
    ensures var (st', next) := StepCmd(cfg, st, c, now);
            && RunSteps(cfg, st, c, now, k) == (if next.Goto? then RunSteps(cfg, st', next.cmd, now, k - 1) else st')
            && Run(cfg, st, c, now) == (if next.Goto? then Run(cfg, st', next.cmd, now) else (st', next.out))
  {
  }

  // ------------------------------------------------------------------------------------------------------------
  // Confirm
  // ------------------------------------------------------------------------------------------------------------

  /** The confirm script applied twice is the confirm script, and still asks for the same next step. */
  lemma ConfirmScriptTwice(r: Redis, o: OrderId, finalDeduct: bool)
    ensures var (r', code) := ConfirmScript(r, o, finalDeduct);
            var (r'', code') := ConfirmScript(r', o, finalDeduct);
            r'' == r' && (code' == 2 <==> code == 2) && GetReservationScript(r', o) == GetReservationScript(r, o)
  {
    var (r', code) := ConfirmScript(r, o, finalDeduct);
    if o in r.reservations && r.reservations[o].status != Released {
      assert r'.reservations[o := r'.reservations[o].(status := Confirmed)] == r'.reservations;
      assert Without(r'.expiry, o) == r'.expiry;
    }
  }

  /** Restarting a confirm from the state right after its script, before the deduct. */
  lemma ConfirmFromScript(cfg: Config, st: Stores, o: OrderId, now: int, now': int)
    requires ValidConfig(cfg)
    ensures var id := GetReservationScript(st.redis, o);
            var (st', next) := StepCmd(cfg, st, Confirming(o, id.productId, id.quantity), now);
            Run(cfg, st', ReadingConfirm(o), now')
                == (if next.Goto? then Run(cfg, st', next.cmd, now') else (st', next.out))
  {
    var id := GetReservationScript(st.redis, o);
    var (st', next) := StepCmd(cfg, st, Confirming(o, id.productId, id.quantity), now);
    ConfirmScriptTwice(st.redis, o, cfg.finalDeduct);
    StepOn(cfg, st', ReadingConfirm(o), now', 1);
    StepOn(cfg, st', Confirming(o, id.productId, id.quantity), now', 1);
  }

  /** The states in which a confirm of `o` has already passed its script: rerunning the script changes nothing. */
  predicate Passed(st: Stores, o: OrderId, finalDeduct: bool) {
    var (r, code) := ConfirmScript(st.redis, o, finalDeduct);
    r == st.redis
  }

  lemma RestartPassed(cfg: Config, st: Stores, o: OrderId, now: int)
    requires ValidConfig(cfg) && Passed(st, o, cfg.finalDeduct)
    requires GetReservationScript(st.redis, o).productId > 0 && GetReservationScript(st.redis, o).quantity > 0
    ensures Run(cfg, st, ReadingConfirm(o), now) ==
            var id := GetReservationScript(st.redis, o);
            if ConfirmScript(st.redis, o, cfg.finalDeduct).1 == 2
            then Run(cfg, st, Deducting(o, id.productId, id.quantity), now)
            else Run(cfg, st, ConfirmingLedger(o), now)
  {
    var id := GetReservationScript(st.redis, o);
    StepOn(cfg, st, ReadingConfirm(o), now, 1);
    StepOn(cfg, st, Confirming(o, id.productId, id.quantity), now, 1);
  }

  lemma TransitionTwice(mode: LedgerMode, d: Db, o: OrderId, target: Status, allowed: set<Status>)
    requires target !in allowed
    ensures var d' := TransitionLedger(mode, d, o, target, allowed);
            TransitionLedger(mode, d', o, target, allowed) == d'
  {
  }

  /** A restart at any later point of the same confirm. */
  lemma RestartLater(cfg: Config, st: Stores, o: OrderId, c: Cmd, now: int, now': int, k: nat)
    requires ValidConfig(cfg) && Passed(st, o, cfg.finalDeduct)
    requires var id := GetReservationScript(st.redis, o);
             && id.productId > 0 && id.quantity > 0
             && (c == Deducting(o, id.productId, id.quantity)
                  || (c == Marking(o, id.productId) && o in st.db.deducts) || c == ConfirmingLedger(o))
    requires !c.ConfirmingLedger? <==> ConfirmScript(st.redis, o, cfg.finalDeduct).1 == 2
    ensures Run(cfg, RunSteps(cfg, st, c, now, k), ReadingConfirm(o), now') == Run(cfg, st, c, now)
    decreases Rank(c), k
  {
    RestartPassed(cfg, st, o, now');
    if k == 0 {
      if c.Marking? {
        StepOn(cfg, st, Deducting(o, c.p, GetReservationScript(st.redis, o).quantity), now', 1);
      }
      SameAtAnyTime(cfg, st, c, now, now');
    } else {
      StepOn(cfg, st, c, now, k);
      var (st', next) := StepCmd(cfg, st, c, now);
      if next.Goto? {
        if c.Marking? {
          MarkPasses(st, o, cfg.finalDeduct);
        }
        RestartLater(cfg, st', o, next.cmd, now, now', k - 1);
      } else if c.Deducting? {
        SameAtAnyTime(cfg, st, c, now, now');
      } else {
        TransitionTwice(cfg.mode, st.db, o, Confirmed, {Reserved});
        RestartPassed(cfg, st', o, now');
        StepOn(cfg, st', ConfirmingLedger(o), now', 1);
      }
    }
  }

  lemma MarkPasses(st: Stores, o: OrderId, finalDeduct: bool)
    requires Passed(st, o, finalDeduct) && ConfirmScript(st.redis, o, finalDeduct).1 == 2
    ensures var st' := st.(redis := MarkDeductedScript(st.redis, o));
            && Passed(st', o, finalDeduct) && ConfirmScript(st'.redis, o, finalDeduct).1 != 2
            && GetReservationScript(st'.redis, o) == GetReservationScript(st.redis, o)
  {
    var st' := st.(redis := MarkDeductedScript(st.redis, o));
    var v := st.redis.reservations[o];
    assert ConfirmScript(st.redis, o, finalDeduct).0.reservations[o] == v;
    assert st'.redis.reservations[o := v.(deducted := true)] == st'.redis.reservations;
    assert Without(st'.redis.expiry, o) == st'.redis.expiry;
  }

  /** Confirm and release steps do not look at the clock. */
  lemma SameAtAnyTime(cfg: Config, st: Stores, c: Cmd, now: int, now': int)
    requires ValidConfig(cfg) && !c.Reserving? && !c.ReadingShard? && !c.RecordingReservation?
    ensures Run(cfg, st, c, now) == Run(cfg, st, c, now')
    decreases Rank(c)
  {
    var (st', next) := StepCmd(cfg, st, c, now);
    assert StepCmd(cfg, st, c, now') == (st', next);
    if next.Goto? {
      SameAtAnyTime(cfg, st', next.cmd, now, now');
    }
  }

  lemma ConfirmOnce(cfg: Config, st: Stores, o: OrderId, now: int, now': int, k: nat)
    requires ValidConfig(cfg)
    ensures Run(cfg, RunSteps(cfg, st, ReadingConfirm(o), now, k), ReadingConfirm(o), now')
            == Run(cfg, st, ReadingConfirm(o), now)
  {
    SameAtAnyTime(cfg, st, ReadingConfirm(o), now, now');
    if k >= 2 {
      var id := GetReservationScript(st.redis, o);
      var c := Confirming(o, id.productId, id.quantity);
      StepOn(cfg, st, ReadingConfirm(o), now, k);
      StepOn(cfg, st, c, now, k - 1);
      ConfirmScriptTwice(st.redis, o, cfg.finalDeduct);
      ConfirmFromScript(cfg, st, o, now, now');
      var (st', next) := StepCmd(cfg, st, c, now);
      if next.Goto? {
        SameAtAnyTime(cfg, st', next.cmd, now, now');
        if id.quantity > 0 {
          RestartLater(cfg, st', o, next.cmd, now, now', k - 2);
        } else {
          StepOn(cfg, st', next.cmd, now, 1);
          if k > 2 {
            LedgerOnly(cfg, st', o, now, now', id);
          }
        }
      }
    } else if k == 1 {
      StepOn(cfg, st, ReadingConfirm(o), now, 1);
    }
  }

  /** Restart after the ledger step of a confirm that needed no deduction. */
  lemma LedgerOnly(cfg: Config, st: Stores, o: OrderId, now: int, now': int, id: Identity)
    requires ValidConfig(cfg) && Passed(st, o, cfg.finalDeduct) && id == GetReservationScript(st.redis, o)
    requires id.productId > 0 && ConfirmScript(st.redis, o, cfg.finalDeduct).1 != 2
    ensures var st' := st.(db := TransitionLedger(cfg.mode, st.db, o, Confirmed, {Reserved}));
            Run(cfg, st', ReadingConfirm(o), now') == (st', Ok)
  {
    var st' := st.(db := TransitionLedger(cfg.mode, st.db, o, Confirmed, {Reserved}));
    TransitionTwice(cfg.mode, st.db, o, Confirmed, {Reserved});
    StepOn(cfg, st', ReadingConfirm(o), now', 1);
    StepOn(cfg, st', Confirming(o, id.productId, id.quantity), now', 1);
    StepOn(cfg, st', ConfirmingLedger(o), now', 1);
  }

  // ------------------------------------------------------------------------------------------------------------
  // Release
  // ------------------------------------------------------------------------------------------------------------

  /** A release that found its order only in the ledger. */
  lemma ReleaseFromLedger(cfg: Config, st: Stores, o: OrderId, now: int, now': int, k: nat)
    requires ValidConfig(cfg) && k > 0
    requires GetReservationScript(st.redis, o).productId <= 0 || GetReservationScript(st.redis, o).quantity <= 0
    requires Run(cfg, st, ReadingRelease(o), now') == Run(cfg, st, LoadingLedger(o), now)
    ensures Run(cfg, RunSteps(cfg, st, LoadingLedger(o), now, k - 1), ReadingRelease(o), now')
            == Run(cfg, st, LoadingLedger(o), now)
  {
    if k > 1 {
      StepOn(cfg, st, LoadingLedger(o), now, k - 1);
      LoadingKeeps(cfg, st, o, now);
      if StepCmd(cfg, st, LoadingLedger(o), now).1.Goto? && k > 2 {
        ReleaseHydrated(cfg, st, o, now, now', k - 2);
      }
    }
  }

  lemma LoadingKeeps(cfg: Config, st: Stores, o: OrderId, now: int)
    requires ValidConfig(cfg)
    ensures var (st', next) := StepCmd(cfg, st, LoadingLedger(o), now);
            st' == st && (next.Goto? ==> next.cmd.Hydrating? && next.cmd.o == o)
  {
  }

  lemma ReleaseHydrated(cfg: Config, st: Stores, o: OrderId, now: int, now': int, k: nat)
    requires ValidConfig(cfg) && k > 0 && StepCmd(cfg, st, LoadingLedger(o), now).1.Goto?
    requires GetReservationScript(st.redis, o).productId <= 0 || GetReservationScript(st.redis, o).quantity <= 0
    ensures var c := StepCmd(cfg, st, LoadingLedger(o), now).1.cmd;
            Run(cfg, RunSteps(cfg, st, c, now, k), ReadingRelease(o), now') == Run(cfg, st, c, now)
  {
    LoadingKeeps(cfg, st, o, now);
    var c := StepCmd(cfg, st, LoadingLedger(o), now).1.cmd;
    StepOn(cfg, st, c, now, k);
    HydratedRereads(cfg, st, o, now);
    ReleaseTail(cfg, StepCmd(cfg, st, c, now).0, o, c.row.productId, c.row.quantity, now, now', k - 1);
  }

  lemma HydratedRereads(cfg: Config, st: Stores, o: OrderId, now: int)
    requires ValidConfig(cfg) && StepCmd(cfg, st, LoadingLedger(o), now).1.Goto?
    requires GetReservationScript(st.redis, o).productId <= 0 || GetReservationScript(st.redis, o).quantity <= 0
    ensures var row := StepCmd(cfg, st, LoadingLedger(o), now).1.cmd.row;
            && row.productId > 0 && row.quantity > 0
            && Rereads(cfg, StepCmd(cfg, st, Hydrating(o, row), now).0, o, row.productId, row.quantity)
  {
  }

  /** Every step of a release is absorbed by the steps up to and including it when the release starts over. */
  lemma ReleaseOnce(cfg: Config, st: Stores, o: OrderId, now: int, now': int, k: nat)
    requires ValidConfig(cfg)
    ensures Run(cfg, RunSteps(cfg, st, ReadingRelease(o), now, k), ReadingRelease(o), now')
            == Run(cfg, st, ReadingRelease(o), now)
  {
    SameAtAnyTime(cfg, st, ReadingRelease(o), now, now');
    if k > 0 {
      StepOn(cfg, st, ReadingRelease(o), now, k);
      var id := GetReservationScript(st.redis, o);
      if id.productId <= 0 || id.quantity <= 0 {
        ReleaseFromLedger(cfg, st, o, now, now', k);
      } else {
        ReleaseTail(cfg, st, o, id.productId, id.quantity, now, now', k - 1);
      }
    }
  }

  /** A restart reaches the steps after the read with the same product and quantity, or finds nothing to do because
      the ledger already says released. */
  ghost predicate Rereads(cfg: Config, st: Stores, o: OrderId, p: ProductId, q: int)
    requires ValidConfig(cfg)
  {
    var id := GetReservationScript(st.redis, o);
    if id.productId <= 0 || id.quantity <= 0 then
      && o in st.redis.reservations && cfg.mode != Off && o in st.db.ledger
      && st.db.ledger[o].productId == p && st.db.ledger[o].quantity == q && st.db.ledger[o].status != Released
    else id.productId == p && id.quantity == q
  }

  lemma Restart(cfg: Config, st: Stores, o: OrderId, p: ProductId, q: int, now: int)
    requires ValidConfig(cfg) && p > 0 && q > 0 && Rereads(cfg, st, o, p, q)
    ensures Run(cfg, st, ReadingRelease(o), now) == Run(cfg, st, AfterReleaseRead(cfg, o, p, q).cmd, now)
  {
    StepOn(cfg, st, ReadingRelease(o), now, 1);
    var id := GetReservationScript(st.redis, o);
    if id.productId <= 0 || id.quantity <= 0 {
      StepOn(cfg, st, LoadingLedger(o), now, 1);
      StepOn(cfg, st, Hydrating(o, st.db.ledger[o]), now, 1);
    }
  }

  lemma ReleaseTail(cfg: Config, st: Stores, o: OrderId, p: ProductId, q: int, now: int, now': int, k: nat)
    requires ValidConfig(cfg) && p > 0 && q > 0 && Rereads(cfg, st, o, p, q)
    ensures var c := AfterReleaseRead(cfg, o, p, q).cmd;
            Run(cfg, RunSteps(cfg, st, c, now, k), ReadingRelease(o), now') == Run(cfg, st, c, now)
  {
    if !cfg.finalDeduct {
      ReleaseFromScript(cfg, st, o, p, q, now, now', k);
    } else if k == 0 {
      Restart(cfg, st, o, p, q, now');
      SameAtAnyTime(cfg, st, Reverting(o, p, q), now, now');
    } else {
      var st1 := st.(db := RevertTx(st.db, o, p, q));
      StepOn(cfg, st, Reverting(o, p, q), now, k);
      RevertTwice(st.db, o, p, q);
      ReleaseFromScript(cfg, st1, o, p, q, now, now', k - 1);
    }
  }

  lemma RevertTwice(d: Db, o: OrderId, p: ProductId, q: int)
    ensures RevertTx(RevertTx(d, o, p, q), o, p, q) == RevertTx(d, o, p, q)
  {
  }

  /** From the release script on, with the revert already done. */
  lemma ReleaseFromScript(cfg: Config, st: Stores, o: OrderId, p: ProductId, q: int, now: int, now': int, k: nat)
    requires ValidConfig(cfg) && p > 0 && q > 0 && Rereads(cfg, st, o, p, q)
    requires cfg.finalDeduct ==> RevertTx(st.db, o, p, q) == st.db
    ensures Run(cfg, RunSteps(cfg, st, Releasing(o, p), now, k), ReadingRelease(o), now')
            == Run(cfg, st, Releasing(o, p), now)
  {
    if k == 0 {
      Restart(cfg, st, o, p, q, now');
      StepOn(cfg, st, AfterReleaseRead(cfg, o, p, q).cmd, now', 1);
      SameAtAnyTime(cfg, st, Releasing(o, p), now, now');
    } else {
      StepOn(cfg, st, Releasing(o, p), now, k);
      ReleaseEnd(cfg, st, o, p, q, now, now', k - 1);
    }
  }

  function Closed(cfg: Config, st: Stores, o: OrderId): Stores {
    st.(db := TransitionLedger(cfg.mode, st.db, o, Released, {Reserved, Confirmed}))
  }

  /** On a released order only the ledger step still does something. */
  lemma TailOnReleased(cfg: Config, st: Stores, o: OrderId, p: ProductId, q: int, now: int)
    requires ValidConfig(cfg) && o in st.redis.reservations && st.redis.reservations[o].status == Released
    requires cfg.finalDeduct ==> RevertTx(st.db, o, p, q) == st.db
    ensures Run(cfg, st, AfterReleaseRead(cfg, o, p, q).cmd, now) == (Closed(cfg, st, o), Ok)
  {
    StepOn(cfg, st, AfterReleaseRead(cfg, o, p, q).cmd, now, 1);
    StepOn(cfg, st, Releasing(o, p), now, 1);
    StepOn(cfg, st, ReleasingLedger(o), now, 1);
  }

  lemma ReleaseEnd(cfg: Config, st: Stores, o: OrderId, p: ProductId, q: int, now: int, now': int, k: nat)
    requires ValidConfig(cfg) && p > 0 && q > 0 && Rereads(cfg, st, o, p, q)
    requires cfg.finalDeduct ==> RevertTx(st.db, o, p, q) == st.db
    ensures var st2 := st.(redis := ReleaseScript(st.redis, cfg.shardCount, o, p));
            Run(cfg, RunSteps(cfg, st2, ReleasingLedger(o), now, k), ReadingRelease(o), now')
                == Run(cfg, st2, ReleasingLedger(o), now)
  {
    var st2 := st.(redis := ReleaseScript(st.redis, cfg.shardCount, o, p));
    StepOn(cfg, st2, ReleasingLedger(o), now, 1);
    if k == 0 {
      Restart(cfg, st2, o, p, q, now');
      TailOnReleased(cfg, st2, o, p, q, now');
    } else {
      StepOn(cfg, st2, ReleasingLedger(o), now, k);
      RestartClosed(cfg, st2, o, p, q, now');
    }
  }

  lemma RestartClosed(cfg: Config, st: Stores, o: OrderId, p: ProductId, q: int, now: int)
    requires ValidConfig(cfg) && p > 0 && q > 0 && Rereads(cfg, st, o, p, q)
    requires o in st.redis.reservations && st.redis.reservations[o].status == Released
    requires cfg.finalDeduct ==> RevertTx(st.db, o, p, q) == st.db
    ensures Run(cfg, Closed(cfg, st, o), ReadingRelease(o), now) == (Closed(cfg, st, o), Ok)
  {
    var st' := Closed(cfg, st, o);
    var id := GetReservationScript(st'.redis, o);
    TransitionTwice(cfg.mode, st.db, o, Released, {Reserved, Confirmed});
    StepOn(cfg, st', ReadingRelease(o), now, 1);
    if id.productId <= 0 || id.quantity <= 0 {
      StepOn(cfg, st', LoadingLedger(o), now, 1);
    } else {
      if cfg.finalDeduct {
        RevertUnaffected(cfg, st, o, p, q);
      }
      TailOnReleased(cfg, st', o, p, q, now);
    }
  }

  lemma RevertUnaffected(cfg: Config, st: Stores, o: OrderId, p: ProductId, q: int)
    requires RevertTx(st.db, o, p, q) == st.db
    ensures RevertTx(Closed(cfg, st, o).db, o, p, q) == Closed(cfg, st, o).db
  {
    var d := RevertTx(st.db, o, p, q);
    assert o in st.db.deducts ==> o in d.reverts;
  }

  // ------------------------------------------------------------------------------------------------------------
  // Misread confirms
  // ------------------------------------------------------------------------------------------------------------

  /** A confirm that missed its read applies the confirm script and returns success. */
  lemma MisreadRun(cfg: Config, st: Stores, o: OrderId, now: int)
    requires ValidConfig(cfg)
    ensures Run(cfg, st, Confirming(o, 0, 0), now) == (st.(redis := ConfirmScript(st.redis, o, cfg.finalDeduct).0), Ok)
  {
    StepOn(cfg, st, Confirming(o, 0, 0), now, 1);
  }

  /** The confirm script found a deduction to make. */
  predicate OwesDeduction(cfg: Config, st: Stores, o: OrderId) {
    && o in st.redis.reservations && cfg.finalDeduct
    && st.redis.reservations[o].status != Released && !st.redis.reservations[o].deducted
  }

  /** The ledger has a row for a confirm to move. */
  predicate OwesTransition(cfg: Config, st: Stores, o: OrderId) {
    cfg.mode != Off && o in st.db.ledger && st.db.ledger[o].status == Reserved
  }

  /** What a misread confirm leaves undone: the deduction if one is owed, otherwise the ledger transition if one is. */
  predicate Skips(cfg: Config, st: Stores, o: OrderId) {
    && o in st.redis.reservations && st.redis.reservations[o].productId > 0
    && (if OwesDeduction(cfg, st, o) then st.redis.reservations[o].quantity > 0 else OwesTransition(cfg, st, o))
  }

  lemma ConfirmAsks(cfg: Config, st: Stores, o: OrderId)
    ensures ConfirmScript(st.redis, o, cfg.finalDeduct).1 == 2 <==> OwesDeduction(cfg, st, o)
  {
  }

  /** A confirm that reads properly ends as the misread one when the deduction it owes is of no quantity, or it owes
      nothing at all. */
  lemma CleanConfirm(cfg: Config, st: Stores, o: OrderId, now: int)
    requires ValidConfig(cfg) && !OwesDeduction(cfg, st, o)
    ensures var st' := st.(redis := ConfirmScript(st.redis, o, cfg.finalDeduct).0);
            Run(cfg, st, ReadingConfirm(o), now) ==
            (if GetReservationScript(st.redis, o).productId > 0
             then st'.(db := TransitionLedger(cfg.mode, st.db, o, Confirmed, {Reserved})) else st', Ok)
  {
    var id := GetReservationScript(st.redis, o);
    ConfirmAsks(cfg, st, o);
    StepOn(cfg, st, ReadingConfirm(o), now, 1);
    StepOn(cfg, st, Confirming(o, id.productId, id.quantity), now, 1);
    if id.productId > 0 {
      StepOn(cfg, st.(redis := ConfirmScript(st.redis, o, cfg.finalDeduct).0), ConfirmingLedger(o), now, 1);
    }
  }

  /** From the deduction on, a confirm returns an error, or has set the deducted flag. */
  lemma DeductingShows(cfg: Config, st: Stores, o: OrderId, p: ProductId, q: int, now: int)
    requires ValidConfig(cfg) && o in st.redis.reservations && !st.redis.reservations[o].deducted
    ensures Run(cfg, st, Deducting(o, p, q), now) != (st, Ok)
  {
    StepOn(cfg, st, Deducting(o, p, q), now, 1);
    var (st1, next) := StepCmd(cfg, st, Deducting(o, p, q), now);
    if next.Goto? {
      StepOn(cfg, st1, Marking(o, p), now, 1);
      StepOn(cfg, StepCmd(cfg, st1, Marking(o, p), now).0, ConfirmingLedger(o), now, 1);
    }
  }

  lemma OwingConfirm(cfg: Config, st: Stores, o: OrderId, now: int)
    requires ValidConfig(cfg) && OwesDeduction(cfg, st, o)
    ensures Run(cfg, st, ReadingConfirm(o), now) == Run(cfg, st, Confirming(o, 0, 0), now) <==> !Skips(cfg, st, o)
  {
    var id := GetReservationScript(st.redis, o);
    ConfirmAsks(cfg, st, o);
    MisreadRun(cfg, st, o, now);
    StepOn(cfg, st, ReadingConfirm(o), now, 1);
    StepOn(cfg, st, Confirming(o, id.productId, id.quantity), now, 1);
    if id.productId > 0 && id.quantity > 0 {
      DeductingShows(cfg, st.(redis := ConfirmScript(st.redis, o, cfg.finalDeduct).0), o, id.productId, id.quantity,
          now);
    }
  }

  /** A confirm that owes a deduction which MySQL can make. */
  lemma DeductingConfirm(cfg: Config, st: Stores, o: OrderId, now: int)
    requires ValidConfig(cfg) && OwesDeduction(cfg, st, o)
    requires st.redis.reservations[o].productId > 0 && st.redis.reservations[o].quantity > 0
    requires var v := st.redis.reservations[o];
             DeductTx(st.db, o, v.productId, v.quantity, StartIndex(cfg.crc32, o, cfg.shardCount)).1 == Ok
    ensures var v := st.redis.reservations[o];
            var db := DeductTx(st.db, o, v.productId, v.quantity, StartIndex(cfg.crc32, o, cfg.shardCount)).0;
            Run(cfg, st, ReadingConfirm(o), now) ==
            (Stores(MarkDeductedScript(ConfirmScript(st.redis, o, cfg.finalDeduct).0, o),
                    TransitionLedger(cfg.mode, db, o, Confirmed, {Reserved})), Ok)
  {
    var v := st.redis.reservations[o];
    ConfirmAsks(cfg, st, o);
    StepOn(cfg, st, ReadingConfirm(o), now, 1);
    StepOn(cfg, st, Confirming(o, v.productId, v.quantity), now, 1);
    var st1 := st.(redis := ConfirmScript(st.redis, o, cfg.finalDeduct).0);
    StepOn(cfg, st1, Deducting(o, v.productId, v.quantity), now, 1);
    var st2 := StepCmd(cfg, st1, Deducting(o, v.productId, v.quantity), now).0;
    StepOn(cfg, st2, Marking(o, v.productId), now, 1);
    StepOn(cfg, StepCmd(cfg, st2, Marking(o, v.productId), now).0, ConfirmingLedger(o), now, 1);
  }

  /** A confirm whose first read fails always returns success, and does all that a confirm does exactly when it owed
      neither a deduction nor a ledger transition. */
  lemma ConfirmAfterFailedRead(cfg: Config, st: Stores, o: OrderId, now: int)
    requires ValidConfig(cfg)
    ensures Run(cfg, st, Confirming(o, 0, 0), now).1 == Ok
    ensures Run(cfg, st, ReadingConfirm(o), now) == Run(cfg, st, Confirming(o, 0, 0), now) <==> !Skips(cfg, st, o)
  {
    MisreadRun(cfg, st, o, now);
    if OwesDeduction(cfg, st, o) {
      OwingConfirm(cfg, st, o, now);
    } else {
      CleanConfirm(cfg, st, o, now);
    }
  }

  /** What a misread confirm skipped, the next confirm that reads properly makes up for. */
  lemma MisreadOnce(cfg: Config, st: Stores, o: OrderId, now: int, now': int, k: nat)
    requires ValidConfig(cfg)
    ensures Run(cfg, RunSteps(cfg, st, Confirming(o, 0, 0), now, k), ReadingConfirm(o), now')
            == Run(cfg, st, ReadingConfirm(o), now')
  {
    if k > 0 {
      var id := GetReservationScript(st.redis, o);
      StepOn(cfg, st, Confirming(o, 0, 0), now, k);
      ConfirmFromScript(cfg, st, o, now, now');
      StepOn(cfg, st, ReadingConfirm(o), now', 1);
      StepOn(cfg, st, Confirming(o, id.productId, id.quantity), now', 1);
    }
  }

  // ------------------------------------------------------------------------------------------------------------
  // Reserve
  // ------------------------------------------------------------------------------------------------------------

  function Scripted(cfg: Config, st: Stores, o: OrderId, p: ProductId, q: int, now: int): (Redis, int)
    requires ValidConfig(cfg)
  {
    ReserveScript(st.redis, cfg.shardCount, StartIndex(cfg.crc32, o, cfg.shardCount), o, p, q, now)
  }

  function ReserveRow(r: Redis, o: OrderId, p: ProductId, q: int, now: int): LedgerRow {
    LedgerRow(p, q, GetReservationScript(r, o).shardIndex, Reserved, now + EXPIRY_SECONDS)
  }

  lemma ReserveRuns(cfg: Config, st: Stores, o: OrderId, p: ProductId, q: int, now: int)
    requires ValidConfig(cfg)
    ensures var (r, code) := Scripted(cfg, st, o, p, q, now);
            var (db, out) := InsertLedger(cfg.mode, st.db, o, ReserveRow(r, o, p, q, now));
            Run(cfg, st, Reserving(o, p, q), now) == if code == 1 then (Stores(r, db), out) else (st, CodeOutcome(code))
  {
    var (r, code) := Scripted(cfg, st, o, p, q, now);
    StepOn(cfg, st, Reserving(o, p, q), now, 1);
    if code == 1 {
      var st1 := st.(redis := r);
      StepOn(cfg, st1, ReadingShard(o, p, q), now, 1);
      StepOn(cfg, st1, RecordingReservation(o, p, q, GetReservationScript(r, o).shardIndex), now, 1);
    }
  }

  lemma ReserveStops(cfg: Config, st: Stores, o: OrderId, p: ProductId, q: int, now: int, k: nat)
    requires ValidConfig(cfg)
    ensures var (r, code) := Scripted(cfg, st, o, p, q, now);
            RunSteps(cfg, st, Reserving(o, p, q), now, k) ==
            if k == 0 || code != 1 then st
            else Stores(r, if k < 3 then st.db else InsertLedger(cfg.mode, st.db, o, ReserveRow(r, o, p, q, now)).0)
  {
    var (r, code) := Scripted(cfg, st, o, p, q, now);
    if k > 0 {
      StepOn(cfg, st, Reserving(o, p, q), now, k);
      if code == 1 && k > 1 {
        var st1 := st.(redis := r);
        StepOn(cfg, st1, ReadingShard(o, p, q), now, k - 1);
        if k > 2 {
          StepOn(cfg, st1, RecordingReservation(o, p, q, GetReservationScript(r, o).shardIndex), now, k - 2);
        }
      }
    }
  }

  /** The stores with the expiry times left out: the clock of an attempt shows nowhere else. */
  function Timeless(st: Stores): Stores {
    Stores(st.redis.(expiry := map o | o in st.redis.expiry :: 0),
           st.db.(ledger := map o | o in st.db.ledger :: st.db.ledger[o].(expiresAt := 0)))
  }

  lemma ScriptedTimeless(cfg: Config, st: Stores, o: OrderId, p: ProductId, q: int, now: int, now': int)
    requires ValidConfig(cfg)
    ensures var (r, code), (r', code') := Scripted(cfg, st, o, p, q, now), Scripted(cfg, st, o, p, q, now');
            && code == code' && (code != 1 ==> r == st.redis) && Timeless(st.(redis := r)) == Timeless(st.(redis := r'))
            && GetReservationScript(r, o) == GetReservationScript(r', o)
  {
  }

  /** Rerun on its own result, the reserve script does nothing, at any time. */
  lemma ScriptedTwice(cfg: Config, st: Stores, o: OrderId, p: ProductId, q: int, now: int, now': int)
    requires ValidConfig(cfg) && Scripted(cfg, st, o, p, q, now).1 == 1
    ensures var st' := st.(redis := Scripted(cfg, st, o, p, q, now).0);
            Scripted(cfg, st', o, p, q, now') == (st'.redis, 1)
  {
  }

  lemma InsertTimeless(mode: LedgerMode, r: Redis, d: Db, o: OrderId, p: ProductId, q: int, now: int, now': int)
    ensures var (d1, out), (d2, out') := InsertLedger(mode, d, o, ReserveRow(r, o, p, q, now)),
            InsertLedger(mode, d, o, ReserveRow(r, o, p, q, now'));
            out == out' && Timeless(Stores(r, d1)) == Timeless(Stores(r, d2))
  {
  }

  lemma InsertTwice(mode: LedgerMode, r: Redis, d: Db, o: OrderId, p: ProductId, q: int, now: int, now': int)
    ensures var (d1, out) := InsertLedger(mode, d, o, ReserveRow(r, o, p, q, now));
            InsertLedger(mode, d1, o, ReserveRow(r, o, p, q, now')) == (d1, out)
  {
  }

  /** Wherever a reserve stopped, running it again, at whatever time, ends as one uninterrupted run at any time would,
      up to the expiry times. */
  lemma ReserveOnce(cfg: Config, st: Stores, o: OrderId, p: ProductId, q: int, now: int, now': int, now'': int, k: nat)
    requires ValidConfig(cfg)
    ensures var (once, out) := Run(cfg, st, Reserving(o, p, q), now'');
            var (again, out') := Run(cfg, RunSteps(cfg, st, Reserving(o, p, q), now, k), Reserving(o, p, q), now');
            Timeless(again) == Timeless(once) && out' == out
  {
    ReserveStops(cfg, st, o, p, q, now, k);
    ReserveAnyTime(cfg, st, o, p, q, now', now'');
    if k > 0 && Scripted(cfg, st, o, p, q, now).1 == 1 {
      ReserveAnyTime(cfg, st, o, p, q, now, now'');
      ReserveRuns(cfg, st, o, p, q, now);
      ReserveRerun(cfg, st, o, p, q, now, now', k);
    }
  }

  lemma ReserveAnyTime(cfg: Config, st: Stores, o: OrderId, p: ProductId, q: int, now: int, now': int)
    requires ValidConfig(cfg)
    ensures var (st1, out), (st2, out') := Run(cfg, st, Reserving(o, p, q), now),
            Run(cfg, st, Reserving(o, p, q), now');
            Timeless(st1) == Timeless(st2) && out == out'
  {
    ReserveRuns(cfg, st, o, p, q, now);
    ReserveRuns(cfg, st, o, p, q, now');
    ScriptedTimeless(cfg, st, o, p, q, now, now');
    InsertTimeless(cfg.mode, Scripted(cfg, st, o, p, q, now).0, st.db, o, p, q, now, now');
  }

  lemma ReserveRerun(cfg: Config, st: Stores, o: OrderId, p: ProductId, q: int, now: int, now': int, k: nat)
    requires ValidConfig(cfg) && k > 0 && Scripted(cfg, st, o, p, q, now).1 == 1
    ensures var (st1, out) := Run(cfg, st, Reserving(o, p, q), now);
            var (again, out') := Run(cfg, RunSteps(cfg, st, Reserving(o, p, q), now, k), Reserving(o, p, q), now');
            Timeless(again) == Timeless(st1) && out' == out
  {
    var r := Scripted(cfg, st, o, p, q, now).0;
    var st1 := RunSteps(cfg, st, Reserving(o, p, q), now, k);
    ReserveStops(cfg, st, o, p, q, now, k);
    ReserveRuns(cfg, st, o, p, q, now);
    ReserveRuns(cfg, st1, o, p, q, now');
    ScriptedTwice(cfg, st, o, p, q, now, now');
    assert Scripted(cfg, st1, o, p, q, now') == Scripted(cfg, st.(redis := r), o, p, q, now');
    InsertTimeless(cfg.mode, r, st.db, o, p, q, now, now');
    InsertTwice(cfg.mode, r, st.db, o, p, q, now, now');
  }

  // ------------------------------------------------------------------------------------------------------------
  // Any number of attempts
  // ------------------------------------------------------------------------------------------------------------

  predicate Retryable(c: Cmd) {
    c.ReadingConfirm? || c.ReadingRelease?
  }

  lemma AttemptOnce(cfg: Config, st: Stores, c: Cmd, now: int, a: Attempt)
    requires ValidConfig(cfg) && Retryable(c)
    ensures Run(cfg, Attempted(cfg, st, c, a), c, now) == Run(cfg, st, c, now)
  {
    if c.ReadingRelease? {
      ReleaseOnce(cfg, st, c.o, a.now, now, a.steps);
    } else if a.misread {
      MisreadOnce(cfg, st, c.o, a.now, now, a.steps);
    } else {
      ConfirmOnce(cfg, st, c.o, a.now, now, a.steps);
    }
    SameAtAnyTime(cfg, st, c, a.now, now);
  }

  /** Whatever the number of attempts at a confirm or a release, whenever each was made, wherever each stopped, and
      whichever of them missed their first read, one more run that reads properly returns what a single uninterrupted
      run returns at any time, and leaves the stores as that run leaves them. */
  lemma {:induction false} RetryConverges(cfg: Config, st: Stores, c: Cmd, now: int, now': int, attempts: seq<Attempt>)
    requires ValidConfig(cfg) && Retryable(c)
    ensures Run(cfg, Attempts(cfg, st, c, attempts), c, now) == Run(cfg, st, c, now')
    decreases |attempts|
  {
    if attempts == [] {
      SameAtAnyTime(cfg, st, c, now, now');
    } else {
      RetryConverges(cfg, Attempted(cfg, st, c, attempts[0]), c, now, now', attempts[1..]);
      AttemptOnce(cfg, st, c, now', attempts[0]);
    }
  }

  /** The same for a reserve, up to the expiry times, which are those of the attempts that wrote them. */
  lemma {:induction false} ReserveConverges(cfg: Config, st: Stores, o: OrderId, p: ProductId, q: int, now: int,
                                            now': int, attempts: seq<Attempt>)
    requires ValidConfig(cfg)
    ensures var (once, out) := Run(cfg, st, Reserving(o, p, q), now');
            var (again, out') := Run(cfg, Attempts(cfg, st, Reserving(o, p, q), attempts), Reserving(o, p, q), now);
            Timeless(again) == Timeless(once) && out' == out
    decreases |attempts|
  {
    if attempts == [] {
      ReserveAnyTime(cfg, st, o, p, q, now, now');
    } else {
      var a := attempts[0];
      ReserveConverges(cfg, Attempted(cfg, st, Reserving(o, p, q), a), o, p, q, now, now', attempts[1..]);
      ReserveOnce(cfg, st, o, p, q, a.now, now', now', a.steps);
    }
  }

  lemma {:induction false} EnoughSteps(cfg: Config, st: Stores, c: Cmd, now: int)
    requires ValidConfig(cfg)
    ensures forall k: nat :: k > Rank(c) ==> RunSteps(cfg, st, c, now, k) == Run(cfg, st, c, now).0
    decreases Rank(c)
  {
    forall k: nat | k > Rank(c)
      ensures RunSteps(cfg, st, c, now, k) == Run(cfg, st, c, now).0
    {
      StepOn(cfg, st, c, now, k);
      var (st', next) := StepCmd(cfg, st, c, now);
      if next.Goto? {
        EnoughSteps(cfg, st', next.cmd, now);
      }
    }
  }

  /** A finished command is idempotent: run again, at any time, it changes nothing and returns the same. */
  lemma RerunChangesNothing(cfg: Config, st: Stores, c: Cmd, now: int, now': int)
    requires ValidConfig(cfg) && (Retryable(c) || c.Reserving?)
    ensures Run(cfg, Run(cfg, st, c, now).0, c, now') == Run(cfg, st, c, now)
  {
    if c.Reserving? {
      ReserveChangesNothing(cfg, st, c.o, c.p, c.q, now, now');
    } else {
      EnoughSteps(cfg, st, c, now);
      AttemptOnce(cfg, st, c, now', Attempt(Rank(c) + 1, now, false));
      SameAtAnyTime(cfg, st, c, now, now');
    }
  }

  lemma ReserveChangesNothing(cfg: Config, st: Stores, o: OrderId, p: ProductId, q: int, now: int, now': int)
    requires ValidConfig(cfg)
    ensures Run(cfg, Run(cfg, st, Reserving(o, p, q), now).0, Reserving(o, p, q), now')
            == Run(cfg, st, Reserving(o, p, q), now)
  {
    var (r, code) := Scripted(cfg, st, o, p, q, now);
    var st1 := Run(cfg, st, Reserving(o, p, q), now).0;
    ReserveRuns(cfg, st, o, p, q, now);
    ReserveRuns(cfg, st1, o, p, q, now');
    if code == 1 {
      ScriptedTwice(cfg, st, o, p, q, now, now');
      assert Scripted(cfg, st1, o, p, q, now') == Scripted(cfg, st.(redis := r), o, p, q, now');
      InsertTwice(cfg.mode, r, st.db, o, p, q, now, now');
    } else {
      ScriptedTimeless(cfg, st, o, p, q, now, now');
    }
  }
}
