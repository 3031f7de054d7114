/** Commands that run from start to return with nothing in between, as part of a run of the engine. */
module Solo {
  import opened Wrappers
  import opened Shards
  import opened RedisScripts
  import opened StockPersistence
  import opened StockCommands
  import opened Accounts
  import opened Engine

  lemma {:induction false} RunConcat(cfg: Config, w: World, xs: seq<Event>, ys: seq<Event>)
    requires ValidConfig(cfg)
    ensures RunAll(cfg, w, xs + ys) == RunAll(cfg, RunAll(cfg, w, xs), ys)
    decreases |xs|
  {
    if xs == [] {
      assert xs + ys == ys;
    } else {
      assert (xs + ys)[1..] == xs[1..] + ys;
      RunConcat(cfg, Apply(cfg, w, xs[0]), xs[1..], ys);
    }
  }

  lemma RunOne(cfg: Config, w: World, e: Event)
    requires ValidConfig(cfg)
    ensures RunAll(cfg, w, [e]) == Apply(cfg, w, e)
  {
    assert [e][1..] == [];
  }

  lemma RunThree(cfg: Config, w: World, a: Event, b: Event, c: Event)
    requires ValidConfig(cfg)
    ensures RunAll(cfg, w, [a, b, c]) == Apply(cfg, Apply(cfg, Apply(cfg, w, a), b), c)
  {
    assert [a, b, c][1..] == [b, c] && [b, c][1..] == [c];
    RunOne(cfg, Apply(cfg, Apply(cfg, w, a), b), c);
  }

  /** The world with process `id` about to run the next step of `c` on stores `st`. */
  function Midway(w: World, st: Stores, id: nat, c: Cmd): World {
    w.(st := st, procs := w.procs[id := Direct(c)])
  }

  lemma StartsMidway(cfg: Config, w: World, id: nat, c: Cmd)
    requires ValidConfig(cfg) && id !in w.procs && Issued(c)
    ensures Apply(cfg, w, Start(id, c)) == Midway(w, w.st, id, c)
  {
  }

  /** One step of a process of its own. */
  lemma StepsMidway(cfg: Config, w: World, st: Stores, id: nat, c: Cmd, now: int)
    requires ValidConfig(cfg) && id !in w.procs && c.OnOrder()
    ensures var (st', next) := StepCmd(cfg, st, c, now);
            var w' := Apply(cfg, Midway(w, st, id, c), Step(id, now));
            && (next.Goto? ==> w' == Midway(w, st', id, next.cmd))
            && (next.Return? && next.out == Ok ==> w' == w.(st := st', crashed := w.crashed - {c.o}))
  {
    assert w.procs[id := Direct(c)] - {id} == w.procs;
    var next := StepCmd(cfg, st, c, now).1;
    if next.Goto? {
      assert w.procs[id := Direct(c)][id := Direct(next.cmd)] == w.procs[id := Direct(next.cmd)];
    }
  }

  /** The process dies when its step has taken effect. */
  lemma DiesMidway(cfg: Config, w: World, st: Stores, id: nat, c: Cmd, now: int)
    requires ValidConfig(cfg) && id !in w.procs && c.OnOrder()
    ensures Apply(cfg, Midway(w, st, id, c), Kill(id, true, now))
            == w.(st := StepCmd(cfg, st, c, now).0, crashed := w.crashed[c.o := Origin(c)])
  {
    assert w.procs[id := Direct(c)] - {id} == w.procs;
  }

  /** The first read of a confirm fails. */
  lemma MisreadsMidway(cfg: Config, w: World, st: Stores, id: nat, o: OrderId, now: int)
    requires ValidConfig(cfg) && id !in w.procs
    ensures Apply(cfg, Midway(w, st, id, ReadingConfirm(o)), Fail(id, false, now))
            == Midway(w, st, id, Confirming(o, 0, 0))
  {
    assert w.procs[id := Direct(ReadingConfirm(o))][id := Direct(Confirming(o, 0, 0))]
        == w.procs[id := Direct(Confirming(o, 0, 0))];
  }

  function Steps(id: nat, now: int, k: nat): seq<Event>
    decreases k
  {
    if k == 0 then [] else [Step(id, now)] + Steps(id, now, k - 1)
  }

  lemma {:induction false} NothingSteps(cfg: Config, w: World, id: nat, now: int, k: nat)
    requires ValidConfig(cfg) && id !in w.procs
    ensures RunAll(cfg, w, Steps(id, now, k)) == w
    decreases k
  {
    if k > 0 {
      assert Steps(id, now, k)[1..] == Steps(id, now, k - 1);
      NothingSteps(cfg, w, id, now, k - 1);
    }
  }

  lemma StepsOwn(cfg: Config, st: Stores, c: Cmd, now: int)
    requires ValidConfig(cfg) && c.OnOrder()
    ensures var next := StepCmd(cfg, st, c, now).1; next.Goto? ==> next.cmd.OnOrder() && next.cmd.o == c.o
  {
  }

  lemma StepsFirst(cfg: Config, w: World, id: nat, now: int, k: nat)
    requires ValidConfig(cfg) && k > 0
    ensures RunAll(cfg, w, Steps(id, now, k)) == RunAll(cfg, Apply(cfg, w, Step(id, now)), Steps(id, now, k - 1))
  {
    assert Steps(id, now, k)[1..] == Steps(id, now, k - 1);
  }

  /** A command that is left alone takes the stores where its uninterrupted run does. */
  lemma {:induction false} StepsThrough(cfg: Config, w: World, st: Stores, id: nat, c: Cmd, now: int, k: nat)
    requires ValidConfig(cfg) && id !in w.procs && c.OnOrder() && k >= Rank(c) && Run(cfg, st, c, now).1 == Ok
    ensures RunAll(cfg, Midway(w, st, id, c), Steps(id, now, k))
            == w.(st := Run(cfg, st, c, now).0, crashed := w.crashed - {c.o})
    decreases k
  {
    var (st', next) := StepCmd(cfg, st, c, now);
    StepsFirst(cfg, Midway(w, st, id, c), id, now, k);
    StepsMidway(cfg, w, st, id, c, now);
    StepsOwn(cfg, st, c, now);
    if next.Goto? {
      StepsThrough(cfg, w, st', id, next.cmd, now, k - 1);
    } else {
      NothingSteps(cfg, w.(st := st', crashed := w.crashed - {c.o}), id, now, k - 1);
    }
  }

  function Alone(id: nat, c: Cmd, now: int): seq<Event> {
    [Start(id, c)] + Steps(id, now, Rank(c))
  }

  lemma RunsAlone(cfg: Config, w: World, id: nat, c: Cmd, now: int)
    requires ValidConfig(cfg) && id !in w.procs && Issued(c) && c.OnOrder() && Run(cfg, w.st, c, now).1 == Ok
    ensures RunAll(cfg, w, Alone(id, c, now)) == w.(st := Run(cfg, w.st, c, now).0, crashed := w.crashed - {c.o})
  {
    assert Alone(id, c, now)[1..] == Steps(id, now, Rank(c));
    StartsMidway(cfg, w, id, c);
    StepsThrough(cfg, w, w.st, id, c, now, Rank(c));
  }

  /** A product seeded into empty stores. */
  ghost function SeededWorld(cfg: Config, p: ProductId, total: int): World
    requires ValidConfig(cfg)
  {
    var w := EmptyWorld({p});
    w.(st := Seeded(cfg, w.st, p, total, cfg.shardCount), supply := map[p := total])
  }

  lemma SeededIsInitial(cfg: Config, p: ProductId, total: nat)
    requires ValidConfig(cfg)
    ensures Initial(cfg, SeededWorld(cfg, p, total))
  {
    EmptyIsInitial(cfg, {p});
    SeedingIsInitial(cfg, EmptyWorld({p}), p, total);
    var none: Totals := map[];
    assert none[p := total] == map[p := total as int];
  }
}
