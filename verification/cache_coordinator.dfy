/** The two-level cache: a request as a series of atomic steps that may interleave with others, the coordinator that
    runs them in place, and how old a value can be when it is returned. Times are in nanoseconds. */
module CacheCoordinator {
  import opened Wrappers
  import opened LocalCache

  datatype Config = Config(enableL1: bool, enableL2: bool, staleWhileRevalidate: bool, allowStaleOnError: bool,
                           l1Ttl: int, softTtl: int, hardTtl: int, operationTimeout: int, maxEntries: int)

  const SECOND := 1_000_000_000
  const MILLISECOND := 1_000_000

  function Normalized(cfg: Config, hasClient: bool): Config {
    var l1 := if cfg.l1Ttl <= 0 then 2 * SECOND else cfg.l1Ttl;
    var soft := if cfg.softTtl <= 0 then 30 * SECOND else cfg.softTtl;
    var hard := if cfg.hardTtl <= soft then 2 * soft else cfg.hardTtl;
    var timeout := if cfg.operationTimeout <= 0 then 200 * MILLISECOND else cfg.operationTimeout;
    cfg.(l1Ttl := l1, softTtl := soft, hardTtl := hard, operationTimeout := timeout, enableL2 := cfg.enableL2
        && hasClient,
         maxEntries := MaxEntries(cfg.maxEntries))
  }

  predicate ValidConfig(cfg: Config) {
    0 < cfg.l1Ttl && 0 < cfg.softTtl < cfg.hardTtl && 0 < cfg.operationTimeout && 0 < cfg.maxEntries
  }

  lemma NormalizedIsValid(cfg: Config, hasClient: bool)
    ensures ValidConfig(Normalized(cfg, hasClient))
    ensures Normalized(Normalized(cfg, hasClient), hasClient) == Normalized(cfg, hasClient)
  {
  }

  /** Per-key jitter from the hash of the key: at most 99 percent of `max`. */
  function Jitter(hash: string -> nat, key: string, max: int): int {
    if max <= 0 then 0 else max * (hash(key) % 100) / 100
  }

  function Soft(cfg: Config, hash: string -> nat, key: string): int {
    cfg.softTtl + Jitter(hash, key, cfg.softTtl / 10)
  }

  function Hard(cfg: Config, hash: string -> nat, key: string): int {
    cfg.hardTtl + Jitter(hash, key, cfg.hardTtl / 10)
  }

  lemma JitterBounds(hash: string -> nat, key: string, max: int)
    ensures 0 <= Jitter(hash, key, max) && (max > 0 ==> Jitter(hash, key, max) < max)
  {
    if max > 0 {
      Portion(max, hash(key) % 100);
    }
  }

  lemma Portion(max: int, h: nat)
    requires max > 0 && h < 100
    ensures 0 <= max * h <= 99 * max && 0 <= max * h / 100 < max
  {
    assert max * h <= max * 99;
    var x := max * h;
    assert 0 <= x < 100 * max;
  }

  lemma JitterMonotone(hash: string -> nat, key: string, a: int, b: int)
    requires a <= b
    ensures Jitter(hash, key, a) <= Jitter(hash, key, b)
  {
    JitterBounds(hash, key, b);
    if a > 0 {
      var h := hash(key) % 100;
      assert a * h <= b * h;
    }
  }

  /** The same jitter on both: the soft expiry never passes the hard one, and stays within a tenth of its setting. */
  lemma SoftBeforeHard(cfg: Config, hash: string -> nat, key: string)
    requires ValidConfig(cfg)
    ensures 0 < cfg.softTtl <= Soft(cfg, hash, key) < Hard(cfg, hash, key)
    ensures 10 * Soft(cfg, hash, key) <= 11 * cfg.softTtl
    ensures 10 * Hard(cfg, hash, key) <= 11 * cfg.hardTtl
  {
    JitterBounds(hash, key, cfg.softTtl / 10);
    JitterBounds(hash, key, cfg.hardTtl / 10);
    JitterMonotone(hash, key, cfg.softTtl / 10, cfg.hardTtl / 10);
  }

  function Millis(t: int): int {
    t / MILLISECOND
  }

  // ------------------------------------------------------------------------------------------------------------
  // A request, step by step
  // ------------------------------------------------------------------------------------------------------------

  datatype Envelope = Envelope(value: Bytes, softExpiresAt: int, hardExpiresAt: int)

  /** A value as it came from the origin, and when it was stored. */
  datatype Stored = Stored(key: string, value: Bytes, at: int)

  datatype State = State(l1: Entries, l2: map<string, Envelope>, stored: set<Stored>)

  datatype Source = L1 | L2 | Stale | Origin

  datatype Answer = Served(value: Bytes, source: Source) | Failed

  /** How old a value can be when a request that did its own lookups is answered with it, by where it came from. */
  function Age(cfg: Config, hash: string -> nat, key: string, source: Source): int {
    match source
    case L1 => Soft(cfg, hash, key) + cfg.l1Ttl
    case L2 => Soft(cfg, hash, key)
    case Stale => Hard(cfg, hash, key)
    case Origin => 0
  }

  /** The answer when the origin failed. */
  function Unloaded(cfg: Config, stale: Option<Bytes>): Answer {
    if stale.Some? && stale.value != [] && cfg.allowStaleOnError then Served(stale.value, Stale) else Failed
  }

  /** A request at the step it will run next; `now` is the time it looks things up with, `loadedAt` the time the origin
      answered it, `at` the time it stored its value. */
  datatype Task =
    | LookingUp(key: string, now: int)
    | ReadingL2(key: string, now: int)
    | Filling(key: string, value: Bytes, now: int)
    | Loading(key: string, stale: Option<Bytes>, now: int)
    | Storing(key: string, value: Bytes, now: int, loadedAt: int)
    | WritingL2(key: string, value: Bytes, at: int, now: int)

  datatype Next = Goto(task: Task) | Return(answer: Answer)

  /** What a step meets: a failing read or write, the loader's result, the clock, the order of an eviction scan. */
  datatype World = World(readFails: bool, loaded: Option<Bytes>, writeFails: bool, clock: int, order: seq<string>)

  /** `world.order` is the order in which the map is iterated. An order that does not list the keys is none, and then
      nothing is set. */
  ghost function SetL1(cfg: Config, entries: Entries, key: string, value: Bytes, expiresAt: int,
      world: World): Entries {
    if !cfg.enableL1 then entries
    else if key in entries || |entries| < cfg.maxEntries then entries[key := Entry(value, expiresAt, world.clock)]
    else if !Listing(world.order, entries.Keys) then entries
    else Without(entries, Scanned(entries, world.order).key)[key := Entry(value, expiresAt, world.clock)]
  }

  function Sealed(cfg: Config, hash: string -> nat, key: string, value: Bytes, at: int): Envelope {
    Envelope(value, Millis(at + Soft(cfg, hash, key)), Millis(at + Hard(cfg, hash, key)))
  }

  ghost function StepTask(cfg: Config, hash: string -> nat, st: State, t: Task, world: World): (State, Next) {
    match t
    case LookingUp(key, now) =>
      var miss := Goto(if cfg.enableL2 then ReadingL2(key, now) else Loading(key, None, now));
      if !cfg.enableL1 then (st, miss)
      else
        var (l1, value) := Looked(st.l1, key, now);
        (st.(l1 := l1), if value.Some? then Return(Served(value.value, L1)) else miss)
    case ReadingL2(key, now) =>
      if world.readFails || key !in st.l2 then (st, Goto(Loading(key, None, now)))
      else
        var e := st.l2[key];
        if e.hardExpiresAt <= Millis(now) then (st.(l2 := st.l2 - {key}), Goto(Loading(key, None, now)))
        else if Millis(now) < e.softExpiresAt then (st, Goto(Filling(key, e.value, now)))
        else if cfg.staleWhileRevalidate then (st, Return(Served(e.value, Stale)))
        else (st, Goto(Loading(key, Some(e.value), now)))
    case Filling(key, value, now) =>
      (st.(l1 := SetL1(cfg, st.l1, key, value, now + cfg.l1Ttl, world)), Return(Served(value, L2)))
    case Loading(key, stale, now) =>
      (st, match world.loaded
           case Some(value) => Goto(Storing(key, value, now, world.clock))
           case None => Return(Unloaded(cfg, stale)))
    case Storing(key, value, now, _) =>
      (State(SetL1(cfg, st.l1, key, value, world.clock + cfg.l1Ttl, world), st.l2,
          st.stored + {Stored(key, value, world.clock)}),
       if cfg.enableL2 then Goto(WritingL2(key, value, world.clock, now))
       else Return(Served(value, Origin)))
    case WritingL2(key, value, at, _) =>
      (if world.writeFails then st else st.(l2 := st.l2[key := Sealed(cfg, hash, key, value, at)]),
       Return(Served(value, Origin)))
  }

  function Rank(t: Task): nat {
    match t
    case LookingUp(_, _) => 5
    case ReadingL2(_, _) => 4
    case Filling(_, _, _) => 1
    case Loading(_, _, _) => 3
    case Storing(_, _, _, _) => 2
    case WritingL2(_, _, _, _) => 1
  }

  /** A request run to its answer with nothing in between. */
  ghost function RunTask(cfg: Config, hash: string -> nat, st: State, t: Task, world: World): (State, Answer)
    decreases Rank(t)
  {
    var (st', next) := StepTask(cfg, hash, st, t, world);
    match next
    case Goto(t') => RunTask(cfg, hash, st', t', world)
    case Return(answer) => (st', answer)
  }

  lemma RunOn(cfg: Config, hash: string -> nat, st: State, t: Task, world: World)
    ensures var (st', next) := StepTask(cfg, hash, st, t, world);
            RunTask(cfg, hash, st, t, world) == if next.Goto?
                then RunTask(cfg, hash, st', next.task, world) else (st', next.answer)
  {
  }

  lemma FillRuns(cfg: Config, hash: string -> nat, st: State, key: string, now: int, world: World)
    requires !world.readFails && key in st.l2 && st.l2[key].hardExpiresAt > Millis(now)
    requires Millis(now) < st.l2[key].softExpiresAt
    ensures RunTask(cfg, hash, st, ReadingL2(key, now), world)
            == (st.(l1 := SetL1(cfg, st.l1, key, st.l2[key].value, now + cfg.l1Ttl, world)),
                Served(st.l2[key].value, L2))
  {
    RunOn(cfg, hash, st, ReadingL2(key, now), world);
    RunOn(cfg, hash, st, Filling(key, st.l2[key].value, now), world);
  }

  lemma StoreRuns(cfg: Config, hash: string -> nat, st: State, key: string, value: Bytes, now: int, loadedAt: int,
                  world: World)
    ensures RunTask(cfg, hash, st, Storing(key, value, now, loadedAt), world)
            == (State(SetL1(cfg, st.l1, key, value, world.clock + cfg.l1Ttl, world),
                      if cfg.enableL2 && !world.writeFails
                          then st.l2[key := Sealed(cfg, hash, key, value, world.clock)] else st.l2,
                      st.stored + {Stored(key, value, world.clock)}),
                Served(value, Origin))
  {
    RunOn(cfg, hash, st, Storing(key, value, now, loadedAt), world);
    var st' := StepTask(cfg, hash, st, Storing(key, value, now, loadedAt), world).0;
    RunOn(cfg, hash, st', WritingL2(key, value, world.clock, now), world);
  }

  /** The state with which a request goes on after looking in the first level, and its next step. */
  function AfterLookup(cfg: Config, st: State, key: string, now: int): State {
    if cfg.enableL1 then st.(l1 := Looked(st.l1, key, now).0) else st
  }

  lemma LookupMisses(cfg: Config, hash: string -> nat, st: State, key: string, now: int, world: World)
    requires cfg.enableL1 ==> Looked(st.l1, key, now).1.None?
    ensures RunTask(cfg, hash, st, LookingUp(key, now), world)
            == RunTask(cfg, hash, AfterLookup(cfg, st, key, now),
                       if cfg.enableL2 then ReadingL2(key, now) else Loading(key, None, now), world)
  {
    RunOn(cfg, hash, st, LookingUp(key, now), world);
  }

  // ------------------------------------------------------------------------------------------------------------
  // The coordinator
  // ------------------------------------------------------------------------------------------------------------

  class Coordinator {
    const cfg: Config
    const hash: string -> nat
    const local: Cache
    var l2: map<string, Envelope>
    ghost var stored: set<Stored>

    constructor (config: Config, hash: string -> nat, hasClient: bool)
      ensures cfg == Normalized(config, hasClient) && ValidConfig(cfg)
      ensures fresh(local) && local.maxEntries == cfg.maxEntries && Value() == State(map[], map[], {})
    {
      this.hash := hash;
      cfg := Normalized(config, hasClient);
      local := new Cache(config.maxEntries);
      l2, stored := map[], {};
    }

    ghost function Value(): State
      reads this, local
    {
      State(local.entries, l2, stored)
    }

    /** One request with no other running, answered as the step machine answers for some eviction order. */
    method GetOrLoad(key: string, now: int, clock: int, readFails: bool, writeFails: bool, loaded: Option<Bytes>)
      returns (answer: Answer, ghost world: World)
      requires local.maxEntries == cfg.maxEntries
      modifies this, local
      ensures world == World(readFails, loaded, writeFails, clock, world.order)
      ensures (Value(), answer) == RunTask(cfg, hash, old(Value()), LookingUp(key, now), world)
      ensures Listing(world.order, AfterLookup(cfg, old(Value()), key, now).l1.Keys)
    {
      ghost var start := Value();
      if cfg.enableL1 {
        var hit := local.Get(key, now);
        if hit.Some? {
          world := World(readFails, loaded, writeFails, clock, SomeOrder(local.entries.Keys));
          return Served(hit.value, L1), world;
        }
      }
      assert Value() == AfterLookup(cfg, start, key, now);
      if cfg.enableL2 {
        answer, world := LoadThroughL2(key, now, clock, readFails, writeFails, loaded);
      } else {
        answer, world := Load(key, None, now, clock, readFails, writeFails, loaded);
      }
      LookupMisses(cfg, hash, start, key, now, world);
    }

    /** The second level: fresh values are promoted, stale ones may be served, and anything else goes to the origin. */
    method LoadThroughL2(key: string, now: int, clock: int, readFails: bool, writeFails: bool, loaded: Option<Bytes>)
      returns (answer: Answer, ghost world: World)
      requires local.maxEntries == cfg.maxEntries
      modifies this, local
      ensures world == World(readFails, loaded, writeFails, clock, world.order)
      ensures (Value(), answer) == RunTask(cfg, hash, old(Value()), ReadingL2(key, now), world)
      ensures Listing(world.order, old(local.entries).Keys)
    {
      ghost var missed := Value();
      world := World(readFails, loaded, writeFails, clock, SomeOrder(local.entries.Keys));
      var stale: Option<Bytes> := None;
      var cached := ReadL2(key, now, readFails);
      if cached.Some? {
        if Millis(now) < cached.value.softExpiresAt {
          ghost var order := SetLocal(key, cached.value.value, now + cfg.l1Ttl, clock);
          world := world.(order := order);
          FillRuns(cfg, hash, missed, key, now, world);
          return Served(cached.value.value, L2), world;
        }
        stale := Some(cached.value.value);
        if cfg.staleWhileRevalidate {
          RunOn(cfg, hash, missed, ReadingL2(key, now), world);
          return Served(stale.value, Stale), world;
        }
      }
      answer, world := Load(key, stale, now, clock, readFails, writeFails, loaded);
      RunOn(cfg, hash, missed, ReadingL2(key, now), world);
    }

    /** The origin: its value is stored on the way back; when it fails, a stale value may stand in. */
    method Load(key: string, stale: Option<Bytes>, now: int, clock: int, readFails: bool, writeFails: bool,
                loaded: Option<Bytes>)
      returns (answer: Answer, ghost world: World)
      requires local.maxEntries == cfg.maxEntries
      modifies this, local
      ensures world == World(readFails, loaded, writeFails, clock, world.order)
      ensures (Value(), answer) == RunTask(cfg, hash, old(Value()), Loading(key, stale, now), world)
      ensures Listing(world.order, old(local.entries).Keys)
    {
      ghost var loading := Value();
      world := World(readFails, loaded, writeFails, clock, SomeOrder(local.entries.Keys));
      if loaded.None? {
        if stale.Some? && stale.value != [] && cfg.allowStaleOnError {
          return Served(stale.value, Stale), world;
        }
        return Failed, world;
      }
      ghost var order := Store(key, loaded.value, clock, writeFails);
      world := world.(order := order);
      assert RunTask(cfg, hash, loading, Loading(key, stale, now), world)
             == RunTask(cfg, hash, loading, Storing(key, loaded.value, now, clock), world);
      StoreRuns(cfg, hash, loading, key, loaded.value, now, clock, world);
      return Served(loaded.value, Origin), world;
    }

    method ReadL2(key: string, now: int, readFails: bool) returns (cached: Option<Envelope>)
      modifies this`l2
      ensures l2 == if !readFails && key in old(l2) && old(l2)[key].hardExpiresAt <= Millis(now)
              then old(l2) - {key} else old(l2)
      ensures cached == if !readFails && key in old(l2) && old(l2)[key].hardExpiresAt > Millis(now)
              then Some(old(l2)[key]) else None
    {
      if readFails || key !in l2 {
        return None;
      }
      if l2[key].hardExpiresAt <= Millis(now) {
        l2 := l2 - {key};
        return None;
      }
      return Some(l2[key]);
    }

    method SetLocal(key: string, value: Bytes, expiresAt: int, clock: int) returns (ghost order: seq<string>)
      requires local.maxEntries == cfg.maxEntries
      modifies local
      ensures local.entries == SetL1(cfg, old(local.entries), key, value, expiresAt,
              World(false, None, false, clock, order))
      ensures Listing(order, old(local.entries).Keys)
    {
      order := SomeOrder(local.entries.Keys);
      if cfg.enableL1 {
        ghost var before := local.entries;
        local.Set(key, value, expiresAt, clock);
        if key !in before && |before| >= local.maxEntries {
          order :| Sets(before, local.maxEntries, key, value, expiresAt, clock, order, local.entries);
        }
      }
    }

    method Store(key: string, value: Bytes, clock: int, writeFails: bool) returns (ghost order: seq<string>)
      requires local.maxEntries == cfg.maxEntries
      modifies this, local
      ensures stored == old(stored) + {Stored(key, value, clock)}
      ensures local.entries == SetL1(cfg, old(local.entries), key, value, clock + cfg.l1Ttl,
              World(false, None, false, clock, order))
      ensures Listing(order, old(local.entries).Keys)
      ensures l2 == if cfg.enableL2 && !writeFails
              then old(l2)[key := Sealed(cfg, hash, key, value, clock)] else old(l2)
    {
      stored := stored + {Stored(key, value, clock)};
      order := SetLocal(key, value, clock + cfg.l1Ttl, clock);
      if !cfg.enableL2 {
        return;
      }
      var softTtl := cfg.softTtl + Jitter(hash, key, cfg.softTtl / 10);
      var hardTtl := cfg.hardTtl + Jitter(hash, key, cfg.hardTtl / 10);
      var envelope := Envelope(value, Millis(clock + softTtl), Millis(clock + hardTtl));
      if !writeFails {
        l2 := l2[key := envelope];
      }
    }
  }

  // ------------------------------------------------------------------------------------------------------------
  // All interleavings
  // ------------------------------------------------------------------------------------------------------------

  /** `waits` says for each request that joined another's load whose it is; `background` holds the refreshes, whose
      loads requests do not join. */
  datatype System = System(st: State, tasks: map<nat, Task>, waits: map<nat, nat>, background: set<nat>)

  /** Background refreshes begin at loading; invalidation and Redis expiry drop keys at any time. `Join`: a request that
      comes to load finds another's load of its key in flight, and waits for it. Nothing makes a request join, which
      only allows more runs. */
  datatype Event =
    | Begin(id: nat, key: string, now: int)
    | BeginRefresh(id: nat, key: string, now: int)
    | Step(id: nat, world: World)
    | Join(id: nat, leader: nat)
    | Drop(l1Keys: set<string>, l2Keys: set<string>)

  /** A load that others can join: it returns once it failed, or its value is stored in both levels. */
  predicate InFlight(t: Task) {
    t.Loading? || t.Storing? || t.WritingL2?
  }

  function Followers(s: System, id: nat): set<nat> {
    set f | f in s.waits && s.waits[f] == id
  }

  /** Time does not run backwards: a step comes after the lookups of the request and of those that wait for it and after
      its load, and the write to the second level takes at most the operation timeout. Eviction scans iterate over the
      keys there are. */
  ghost predicate Enabled(cfg: Config, s: System, e: Event) {
    match e
    case Begin(id, _, _) => id !in s.tasks
    case BeginRefresh(id, _, _) => id !in s.tasks
    case Step(id, world) =>
      && id in s.tasks && id !in s.waits && s.tasks[id].now <= world.clock && Listing(world.order, s.st.l1.Keys)
      && (forall f :: f in Followers(s, id) && f in s.tasks ==> s.tasks[f].now <= world.clock)
      && (s.tasks[id].Storing? ==> s.tasks[id].loadedAt <= world.clock)
      && (s.tasks[id].WritingL2? ==> s.tasks[id].at <= world.clock <= s.tasks[id].at + cfg.operationTimeout)
    case Join(id, leader) =>
      && id in s.tasks && id !in s.waits && s.tasks[id].Loading? && Followers(s, id) == {} && id !in s.background
      && leader in s.tasks && leader !in s.waits && InFlight(s.tasks[leader]) && leader !in s.background
      && leader != id && s.tasks[leader].key == s.tasks[id].key
    case Drop(_, _) => true
  }

  /** What a request that waited gets when the load returns: its value, or, if it failed, what the request makes of that
      itself. */
  function Joined(cfg: Config, leader: Task, follower: Task): Answer
    requires leader.Loading? || leader.Storing? || leader.WritingL2?
    requires follower.Loading?
  {
    if leader.Loading? then Unloaded(cfg, follower.stale) else Served(leader.value, Origin)
  }

  /** The answers when request `id` returns: its own, and one to each that waited for it. */
  function Answers(cfg: Config, s: System, id: nat, answer: Answer): map<nat, Answer>
    requires id in s.tasks
  {
    map[id := answer] +
    map f | f in Followers(s, id) && f in s.tasks && s.tasks[f].Loading? && InFlight(s.tasks[id]) ::
      Joined(cfg, s.tasks[id], s.tasks[f])
  }

  ghost function Apply(cfg: Config, hash: string -> nat, s: System, e: Event): (System, map<nat, Answer>) {
    if !Enabled(cfg, s, e) then (s, map[])
    else match e
      case Begin(id, key, now) =>
        (s.(tasks := s.tasks[id := LookingUp(key, now)], background := s.background - {id}), map[])
      case BeginRefresh(id, key, now) =>
        (s.(tasks := s.tasks[id := Loading(key, None, now)], background := s.background + {id}), map[])
      case Step(id, world) =>
        var (st, next) := StepTask(cfg, hash, s.st, s.tasks[id], world);
        (match next
         case Goto(t) => (s.(st := st, tasks := s.tasks[id := t]), map[])
         case Return(answer) =>
           (s.(st := st, tasks := s.tasks - {id} - Followers(s, id), waits := s.waits - Followers(s, id)),
            Answers(cfg, s, id, answer)))
      case Join(id, leader) => (s.(waits := s.waits[id := leader]), map[])
      case Drop(l1Keys, l2Keys) => (s.(st := s.st.(l1 := s.st.l1 - l1Keys, l2 := s.st.l2 - l2Keys)), map[])
  }

  ghost function Run(cfg: Config, hash: string -> nat, s: System, es: seq<Event>): System
    decreases |es|
  {
    if es == [] then s else Run(cfg, hash, Apply(cfg, hash, s, es[0]).0, es[1..])
  }

  /** Some storing of this value under this key happened no longer than `age` before time `t`. */
  ghost predicate Within(stored: set<Stored>, key: string, value: Bytes, t: int, age: int) {
    exists s :: s in stored && s.key == key && s.value == value && t <= s.at + age
  }

  ghost predicate SealedFor(cfg: Config, hash: string -> nat, stored: set<Stored>, key: string, e: Envelope) {
    exists s :: s in stored && s.key == key && e == Sealed(cfg, hash, key, s.value, s.at)
  }

  ghost predicate TaskOk(cfg: Config, hash: string -> nat, stored: set<Stored>, t: Task) {
    match t
    case LookingUp(_, _) => true
    case ReadingL2(_, _) => true
    case Filling(key, value, now) => Within(stored, key, value, now, Soft(cfg, hash, key))
    case Loading(key, stale, now) => stale.Some? ==> Within(stored, key, stale.value, now, Hard(cfg, hash, key))
    case Storing(_, _, _, _) => true
    case WritingL2(key, value, at, now) => Stored(key, value, at) in stored && now <= at
  }

  ghost predicate L1Ok(cfg: Config, hash: string -> nat, stored: set<Stored>, l1: Entries) {
    forall key :: key in l1 ==> Within(stored, key, l1[key].value, l1[key].expiresAt, Soft(cfg, hash, key) + cfg.l1Ttl)
  }

  ghost predicate L2Ok(cfg: Config, hash: string -> nat, stored: set<Stored>, l2: map<string, Envelope>) {
    forall key :: key in l2 ==> SealedFor(cfg, hash, stored, key, l2[key])
  }

  /** Who waits is at loading, and what it waits for is a load of its key that is in flight. */
  predicate WaitOk(s: System, f: nat)
    requires f in s.waits
  {
    && f in s.tasks && s.tasks[f].Loading?
    && s.waits[f] in s.tasks && s.waits[f] !in s.waits
    && InFlight(s.tasks[s.waits[f]]) && s.tasks[s.waits[f]].key == s.tasks[f].key
  }

  ghost predicate SystemOk(cfg: Config, hash: string -> nat, s: System) {
    && L1Ok(cfg, hash, s.st.stored, s.st.l1) && L2Ok(cfg, hash, s.st.stored, s.st.l2)
    && (forall id :: id in s.tasks ==> TaskOk(cfg, hash, s.st.stored, s.tasks[id]))
    && forall f :: f in s.waits ==> WaitOk(s, f)
  }

  lemma WithinGrows(stored: set<Stored>, stored': set<Stored>, key: string, value: Bytes, t: int, age: int, t': int,
                    age': int)
    requires Within(stored, key, value, t, age) && stored <= stored' && t' - t <= age' - age
    ensures Within(stored', key, value, t', age')
  {
    var s :| s in stored && s.key == key && s.value == value && t <= s.at + age;
    assert s in stored';
  }

  lemma SealedGrows(cfg: Config, hash: string -> nat, stored: set<Stored>, stored': set<Stored>, key: string,
                    e: Envelope)
    requires SealedFor(cfg, hash, stored, key, e) && stored <= stored'
    ensures SealedFor(cfg, hash, stored', key, e)
  {
    var s :| s in stored && s.key == key && e == Sealed(cfg, hash, key, s.value, s.at);
    assert s in stored';
  }

  lemma TaskGrows(cfg: Config, hash: string -> nat, stored: set<Stored>, stored': set<Stored>, t: Task)
    requires TaskOk(cfg, hash, stored, t) && stored <= stored'
    ensures TaskOk(cfg, hash, stored', t)
  {
    match t {
      case Filling(key, value, now) => WithinGrows(stored, stored', key, value, now, Soft(cfg, hash, key), now,
          Soft(cfg, hash, key));
      case Loading(key, stale, now) =>
        if stale.Some? {
          WithinGrows(stored, stored', key, stale.value, now, Hard(cfg, hash, key), now, Hard(cfg, hash, key));
        }
      case _ =>
    }
  }

  /** An envelope read before its expiry tells how old its value is at most. */
  lemma ReadAge(cfg: Config, hash: string -> nat, stored: set<Stored>, key: string, e: Envelope, now: int)
    requires SealedFor(cfg, hash, stored, key, e)
    ensures Millis(now) < e.softExpiresAt ==> Within(stored, key, e.value, now, Soft(cfg, hash, key))
    ensures Millis(now) < e.hardExpiresAt ==> Within(stored, key, e.value, now, Hard(cfg, hash, key))
  {
    var s :| s in stored && s.key == key && e == Sealed(cfg, hash, key, s.value, s.at);
    assert Millis(now) < e.softExpiresAt ==> now <= s.at + Soft(cfg, hash, key);
    assert Millis(now) < e.hardExpiresAt ==> now <= s.at + Hard(cfg, hash, key);
  }

  lemma SetL1Ok(cfg: Config, hash: string -> nat, stored: set<Stored>, l1: Entries, key: string, value: Bytes,
                expiresAt: int, world: World)
    requires L1Ok(cfg, hash, stored, l1)
    requires Within(stored, key, value, expiresAt, Soft(cfg, hash, key) + cfg.l1Ttl)
    ensures L1Ok(cfg, hash, stored, SetL1(cfg, l1, key, value, expiresAt, world))
  {
    var l1' := SetL1(cfg, l1, key, value, expiresAt, world);
    forall x | x in l1'
      ensures Within(stored, x, l1'[x].value, l1'[x].expiresAt, Soft(cfg, hash, x) + cfg.l1Ttl)
    {
      assert (cfg.enableL1 && x == key) || (x in l1 && l1'[x] == l1[x]);
    }
  }

  lemma L1Grows(cfg: Config, hash: string -> nat, stored: set<Stored>, stored': set<Stored>, l1: Entries)
    requires L1Ok(cfg, hash, stored, l1) && stored <= stored'
    ensures L1Ok(cfg, hash, stored', l1)
  {
    forall key | key in l1
      ensures Within(stored', key, l1[key].value, l1[key].expiresAt, Soft(cfg, hash, key) + cfg.l1Ttl)
    {
      WithinGrows(stored, stored', key, l1[key].value, l1[key].expiresAt, Soft(cfg, hash, key) + cfg.l1Ttl,
                  l1[key].expiresAt, Soft(cfg, hash, key) + cfg.l1Ttl);
    }
  }

  lemma L2Grows(cfg: Config, hash: string -> nat, stored: set<Stored>, stored': set<Stored>, l2: map<string, Envelope>)
    requires L2Ok(cfg, hash, stored, l2) && stored <= stored'
    ensures L2Ok(cfg, hash, stored', l2)
  {
    forall key | key in l2
      ensures SealedFor(cfg, hash, stored', key, l2[key])
    {
      SealedGrows(cfg, hash, stored, stored', key, l2[key]);
    }
  }

  /** What a step of a request leaves: sound levels, a sound request, and an answer that is young enough. */
  ghost predicate StepOk(cfg: Config, hash: string -> nat, st: State, st': State, t: Task, next: Next) {
    && st.stored <= st'.stored && L1Ok(cfg, hash, st'.stored, st'.l1) && L2Ok(cfg, hash, st'.stored, st'.l2)
    && (next.Goto? ==> TaskOk(cfg, hash, st'.stored, next.task))
    && (next.Return? && next.answer.Served? ==>
         Within(st'.stored, t.key, next.answer.value, t.now, Age(cfg, hash, t.key, next.answer.source)))
  }

  lemma LookupOk(cfg: Config, hash: string -> nat, st: State, t: Task, world: World)
    requires ValidConfig(cfg) && L1Ok(cfg, hash, st.stored, st.l1) && L2Ok(cfg, hash, st.stored, st.l2) && t.LookingUp?
    ensures StepOk(cfg, hash, st, StepTask(cfg, hash, st, t, world).0, t, StepTask(cfg, hash, st, t, world).1)
  {
    if cfg.enableL1 && t.key in st.l1 && st.l1[t.key].expiresAt > t.now {
      WithinGrows(st.stored, st.stored, t.key, st.l1[t.key].value, st.l1[t.key].expiresAt,
          Soft(cfg, hash, t.key) + cfg.l1Ttl,
          t.now, Age(cfg, hash, t.key, L1));
    }
  }

  lemma ReadOk(cfg: Config, hash: string -> nat, st: State, t: Task, world: World)
    requires ValidConfig(cfg) && L1Ok(cfg, hash, st.stored, st.l1) && L2Ok(cfg, hash, st.stored, st.l2) && t.ReadingL2?
    ensures StepOk(cfg, hash, st, StepTask(cfg, hash, st, t, world).0, t, StepTask(cfg, hash, st, t, world).1)
  {
    if t.key in st.l2 {
      var e := st.l2[t.key];
      ReadAge(cfg, hash, st.stored, t.key, e, t.now);
    }
  }

  lemma FillOk(cfg: Config, hash: string -> nat, st: State, t: Task, world: World)
    requires ValidConfig(cfg) && L1Ok(cfg, hash, st.stored, st.l1) && L2Ok(cfg, hash, st.stored, st.l2)
    requires TaskOk(cfg, hash, st.stored, t)
    requires t.Filling? || t.Loading?
    ensures StepOk(cfg, hash, st, StepTask(cfg, hash, st, t, world).0, t, StepTask(cfg, hash, st, t, world).1)
  {
    if t.Filling? {
      var soft := Soft(cfg, hash, t.key);
      WithinGrows(st.stored, st.stored, t.key, t.value, t.now, soft, t.now + cfg.l1Ttl, soft + cfg.l1Ttl);
      SetL1Ok(cfg, hash, st.stored, st.l1, t.key, t.value, t.now + cfg.l1Ttl, world);
    }
  }

  lemma StoreOk(cfg: Config, hash: string -> nat, st: State, t: Task, world: World)
    requires ValidConfig(cfg) && L1Ok(cfg, hash, st.stored, st.l1) && L2Ok(cfg, hash, st.stored, st.l2) && t.Storing?
    requires t.now <= world.clock
    ensures StepOk(cfg, hash, st, StepTask(cfg, hash, st, t, world).0, t, StepTask(cfg, hash, st, t, world).1)
  {
    var s := Stored(t.key, t.value, world.clock);
    var stored' := st.stored + {s};
    SoftBeforeHard(cfg, hash, t.key);
    L1Grows(cfg, hash, st.stored, stored', st.l1);
    L2Grows(cfg, hash, st.stored, stored', st.l2);
    assert s in stored';
    assert Within(stored', t.key, t.value, world.clock, 0);
    WithinGrows(stored', stored', t.key, t.value, world.clock, 0, world.clock + cfg.l1Ttl,
        Soft(cfg, hash, t.key) + cfg.l1Ttl);
    WithinGrows(stored', stored', t.key, t.value, world.clock, 0, t.now, 0);
    SetL1Ok(cfg, hash, stored', st.l1, t.key, t.value, world.clock + cfg.l1Ttl, world);
  }

  lemma WriteOk(cfg: Config, hash: string -> nat, st: State, t: Task, world: World)
    requires ValidConfig(cfg) && L1Ok(cfg, hash, st.stored, st.l1) && L2Ok(cfg, hash, st.stored, st.l2)
    requires TaskOk(cfg, hash, st.stored, t)
    requires t.WritingL2?
    ensures StepOk(cfg, hash, st, StepTask(cfg, hash, st, t, world).0, t, StepTask(cfg, hash, st, t, world).1)
  {
    var s := Stored(t.key, t.value, t.at);
    assert s in st.stored && s.key == t.key && s.value == t.value;
    assert SealedFor(cfg, hash, st.stored, t.key, Sealed(cfg, hash, t.key, t.value, t.at));
    assert Within(st.stored, t.key, t.value, t.now, 0);
  }

  lemma EveryStepOk(cfg: Config, hash: string -> nat, st: State, t: Task, world: World)
    requires ValidConfig(cfg) && L1Ok(cfg, hash, st.stored, st.l1) && L2Ok(cfg, hash, st.stored, st.l2)
    requires TaskOk(cfg, hash, st.stored, t)
    requires t.now <= world.clock
    ensures StepOk(cfg, hash, st, StepTask(cfg, hash, st, t, world).0, t, StepTask(cfg, hash, st, t, world).1)
  {
    match t {
      case LookingUp(_, _) => LookupOk(cfg, hash, st, t, world);
      case ReadingL2(_, _) => ReadOk(cfg, hash, st, t, world);
      case Filling(_, _, _) => FillOk(cfg, hash, st, t, world);
      case Loading(_, _, _) => FillOk(cfg, hash, st, t, world);
      case Storing(_, _, _, _) => StoreOk(cfg, hash, st, t, world);
      case WritingL2(_, _, _, _) => WriteOk(cfg, hash, st, t, world);
    }
  }

  lemma StepTasksOk(cfg: Config, hash: string -> nat, s: System, id: nat, world: World)
    requires ValidConfig(cfg) && SystemOk(cfg, hash, s) && Enabled(cfg, s, Step(id, world))
    ensures var s' := Apply(cfg, hash, s, Step(id, world)).0;
            && L1Ok(cfg, hash, s'.st.stored, s'.st.l1) && L2Ok(cfg, hash, s'.st.stored, s'.st.l2)
            && forall i :: i in s'.tasks ==> TaskOk(cfg, hash, s'.st.stored, s'.tasks[i])
  {
    var s' := Apply(cfg, hash, s, Step(id, world)).0;
    EveryStepOk(cfg, hash, s.st, s.tasks[id], world);
    forall i | i in s'.tasks
      ensures TaskOk(cfg, hash, s'.st.stored, s'.tasks[i])
    {
      if i != id {
        TaskGrows(cfg, hash, s.st.stored, s'.st.stored, s.tasks[i]);
      }
    }
  }

  lemma StaysInFlight(cfg: Config, hash: string -> nat, st: State, t: Task, world: World)
    ensures var next := StepTask(cfg, hash, st, t, world).1;
            next.Goto? ==> next.task.key == t.key && (InFlight(t) ==> InFlight(next.task))
  {
  }

  lemma StepWaitsOk(cfg: Config, hash: string -> nat, s: System, id: nat, world: World)
    requires (forall f :: f in s.waits ==> WaitOk(s, f)) && Enabled(cfg, s, Step(id, world))
    ensures var s' := Apply(cfg, hash, s, Step(id, world)).0; forall f :: f in s'.waits ==> WaitOk(s', f)
  {
    var s' := Apply(cfg, hash, s, Step(id, world)).0;
    StaysInFlight(cfg, hash, s.st, s.tasks[id], world);
    forall f | f in s'.waits
      ensures WaitOk(s', f)
    {
      assert WaitOk(s, f);
      assert s.waits[f] == id ==> f in Followers(s, id);
    }
  }

  lemma OthersWaitOk(cfg: Config, hash: string -> nat, s: System, e: Event)
    requires (forall f :: f in s.waits ==> WaitOk(s, f)) && Enabled(cfg, s, e) && !e.Step?
    ensures var s' := Apply(cfg, hash, s, e).0; forall f :: f in s'.waits ==> WaitOk(s', f)
  {
    var s' := Apply(cfg, hash, s, e).0;
    forall f | f in s'.waits
      ensures WaitOk(s', f)
    {
      if f in s.waits {
        assert WaitOk(s, f);
        if e.Join? {
          assert f !in Followers(s, e.id);
        }
      }
    }
  }

  lemma ApplyOk(cfg: Config, hash: string -> nat, s: System, e: Event)
    requires ValidConfig(cfg) && SystemOk(cfg, hash, s)
    ensures SystemOk(cfg, hash, Apply(cfg, hash, s, e).0)
  {
    if Enabled(cfg, s, e) {
      if e.Step? {
        StepTasksOk(cfg, hash, s, e.id, e.world);
        StepWaitsOk(cfg, hash, s, e.id, e.world);
      } else {
        OthersWaitOk(cfg, hash, s, e);
      }
    }
  }

  lemma {:induction false} RunOk(cfg: Config, hash: string -> nat, s: System, es: seq<Event>)
    requires ValidConfig(cfg) && SystemOk(cfg, hash, s)
    ensures SystemOk(cfg, hash, Run(cfg, hash, s, es))
    decreases |es|
  {
    if es != [] {
      ApplyOk(cfg, hash, s, es[0]);
      RunOk(cfg, hash, Apply(cfg, hash, s, es[0]).0, es[1..]);
    }
  }

  const IDLE := System(State(map[], map[], {}), map[], map[], {})

  /** A request that waited is answered with a value stored at most the operation timeout before its lookup, or with the
      stale value it read itself. */
  lemma JoinedAge(cfg: Config, hash: string -> nat, s: System, id: nat, world: World, f: nat)
    requires ValidConfig(cfg) && SystemOk(cfg, hash, s) && Enabled(cfg, s, Step(id, world)) && f in Followers(s, id)
    requires StepTask(cfg, hash, s.st, s.tasks[id], world).1.Return?
    ensures WaitOk(s, f)
    ensures var st' := StepTask(cfg, hash, s.st, s.tasks[id], world).0;
            var answer := Joined(cfg, s.tasks[id], s.tasks[f]);
            answer.Served? ==>
              Within(st'.stored, s.tasks[f].key, answer.value, s.tasks[f].now,
                     if answer.source == Origin then cfg.operationTimeout else Age(cfg, hash, s.tasks[f].key, Stale))
  {
    assert WaitOk(s, f);
    var t, st' := s.tasks[id], StepTask(cfg, hash, s.st, s.tasks[id], world).0;
    assert TaskOk(cfg, hash, s.st.stored, t) && TaskOk(cfg, hash, s.st.stored, s.tasks[f]);
    if !t.Loading? {
      var one := Stored(t.key, t.value, if t.Storing? then world.clock else t.at);
      assert one in st'.stored && one.key == t.key && one.value == t.value;
    }
  }

  /** The staleness bound: however requests, joined loads, refreshes, invalidations and expiries interleave, a value
      answered to a request was stored under its key, before the request looked it up, at most: the jittered soft expiry
      and the first level's, if it came from the first level; the jittered soft expiry, if from the second; the jittered
      hard expiry, if stale; nothing, if loaded; and the operation timeout, if the request waited for another's load. */
  lemma StalenessBound(cfg: Config, hash: string -> nat, es: seq<Event>, e: Event, id: nat)
    requires ValidConfig(cfg) && id in Apply(cfg, hash, Run(cfg, hash, IDLE, es), e).1
    ensures var s := Run(cfg, hash, IDLE, es);
            var (s', answers) := Apply(cfg, hash, s, e);
            && id in s.tasks
            && (answers[id].Served? ==>
                  Within(s'.st.stored, s.tasks[id].key, answers[id].value, s.tasks[id].now,
                         if id in s.waits && answers[id].source == Origin then cfg.operationTimeout
                         else Age(cfg, hash, s.tasks[id].key, answers[id].source)))
  {
    RunOk(cfg, hash, IDLE, es);
    var s := Run(cfg, hash, IDLE, es);
    EveryStepOk(cfg, hash, s.st, s.tasks[e.id], e.world);
    if id != e.id {
      JoinedAge(cfg, hash, s, e.id, e.world, id);
    }
  }

  /** Nobody waits for ever: when a load returns, everyone who waited for it is answered, and gone. */
  lemma AllAnswered(cfg: Config, hash: string -> nat, es: seq<Event>, id: nat, world: World, f: nat)
    requires ValidConfig(cfg) && Enabled(cfg, Run(cfg, hash, IDLE, es), Step(id, world))
    requires var s := Run(cfg, hash, IDLE, es);
             f in Followers(s, id) && StepTask(cfg, hash, s.st, s.tasks[id], world).1.Return?
    ensures var (s', answers) := Apply(cfg, hash, Run(cfg, hash, IDLE, es), Step(id, world));
            f in answers && f !in s'.tasks && f !in s'.waits
  {
    RunOk(cfg, hash, IDLE, es);
    assert WaitOk(Run(cfg, hash, IDLE, es), f);
  }

  // ------------------------------------------------------------------------------------------------------------
  // The first level over runs
  // ------------------------------------------------------------------------------------------------------------

  /** No request is for the empty key. */
  ghost predicate Keyed(es: seq<Event>) {
    forall e :: e in es && (e.Begin? || e.BeginRefresh?) ==> e.key != ""
  }

  ghost predicate Bounded(cfg: Config, s: System) {
    && |s.st.l1| <= cfg.maxEntries && "" !in s.st.l1
    && forall id :: id in s.tasks ==> s.tasks[id].key != ""
  }

  lemma SubsetSize<T>(a: set<T>, b: set<T>)
    requires a <= b
    ensures |a| <= |b|
  {
    assert b == a + (b - a);
  }

  lemma FewerEntries(entries: Entries, entries': Entries)
    requires entries'.Keys <= entries.Keys
    ensures |entries'| <= |entries|
  {
    SubsetSize(entries'.Keys, entries.Keys);
    assert |entries'| == |entries'.Keys| && |entries| == |entries.Keys|;
  }

  lemma SetL1Bounded(cfg: Config, entries: Entries, key: string, value: Bytes, expiresAt: int, world: World)
    requires ValidConfig(cfg) && |entries| <= cfg.maxEntries && "" !in entries && key != ""
    requires Listing(world.order, entries.Keys)
    ensures var entries' := SetL1(cfg, entries, key, value, expiresAt, world);
            |entries'| <= cfg.maxEntries && "" !in entries'
  {
    if cfg.enableL1 {
      var entries' := SetL1(cfg, entries, key, value, expiresAt, world);
      assert Sets(entries, cfg.maxEntries, key, value, expiresAt, world.clock, world.order, entries');
      SetKeepsBound(entries, cfg.maxEntries, key, value, expiresAt, world.clock, world.order, entries');
    }
  }

  lemma StepKeepsKey(cfg: Config, hash: string -> nat, st: State, t: Task, world: World)
    ensures var next := StepTask(cfg, hash, st, t, world).1; next.Goto? ==> next.task.key == t.key
  {
  }

  lemma OtherStep(cfg: Config, hash: string -> nat, st: State, t: Task, world: World)
    requires t.ReadingL2? || t.Loading? || t.WritingL2?
    ensures StepTask(cfg, hash, st, t, world).0.l1 == st.l1
  {
  }

  lemma StepBounded(cfg: Config, hash: string -> nat, st: State, t: Task, world: World)
    requires ValidConfig(cfg) && |st.l1| <= cfg.maxEntries && "" !in st.l1 && t.key != ""
    requires Listing(world.order, st.l1.Keys)
    ensures var st' := StepTask(cfg, hash, st, t, world).0; |st'.l1| <= cfg.maxEntries && "" !in st'.l1
  {
    match t {
      case LookingUp(key, now) =>
        if cfg.enableL1 {
          FewerEntries(st.l1, Looked(st.l1, key, now).0);
        }
      case Filling(key, value, now) => SetL1Bounded(cfg, st.l1, key, value, now + cfg.l1Ttl, world);
      case Storing(key, value, _, _) => SetL1Bounded(cfg, st.l1, key, value, world.clock + cfg.l1Ttl, world);
      case _ => OtherStep(cfg, hash, st, t, world);
    }
  }

  lemma ApplyBounded(cfg: Config, hash: string -> nat, s: System, e: Event)
    requires ValidConfig(cfg) && Bounded(cfg, s) && Keyed([e])
    ensures Bounded(cfg, Apply(cfg, hash, s, e).0)
  {
    assert e in [e];
    if Enabled(cfg, s, e) {
      match e {
        case Step(id, world) =>
          StepBounded(cfg, hash, s.st, s.tasks[id], world);
          StepKeepsKey(cfg, hash, s.st, s.tasks[id], world);
        case Drop(l1Keys, _) => FewerEntries(s.st.l1, s.st.l1 - l1Keys);
        case _ =>
      }
    }
  }

  /** Over any run without a request for the empty key, the first level never holds more than its maximum. */
  lemma {:induction false} NeverTooMany(cfg: Config, hash: string -> nat, s: System, es: seq<Event>)
    requires ValidConfig(cfg) && Bounded(cfg, s) && Keyed(es)
    ensures Bounded(cfg, Run(cfg, hash, s, es))
    decreases |es|
  {
    if es != [] {
      ApplyBounded(cfg, hash, s, es[0]);
      NeverTooMany(cfg, hash, Apply(cfg, hash, s, es[0]).0, es[1..]);
    }
  }

  /** The key and the value that an event sets in the first level, if it does. */
  ghost function SetBy(cfg: Config, s: System, e: Event): Option<(string, Bytes)> {
    if Enabled(cfg, s, e) && e.Step? && cfg.enableL1 && (s.tasks[e.id].Filling? || s.tasks[e.id].Storing?)
    then Some((s.tasks[e.id].key, s.tasks[e.id].value)) else None
  }

  /** The value that a run set last for a key, `before` being the last one set before the run. */
  ghost function LastSet(cfg: Config, hash: string -> nat, s: System, es: seq<Event>, key: string,
                         before: Option<Bytes>): Option<Bytes>
    decreases |es|
  {
    if es == [] then before
    else
      var set_ := SetBy(cfg, s, es[0]);
      LastSet(cfg, hash, Apply(cfg, hash, s, es[0]).0, es[1..], key,
              if set_.Some? && set_.value.0 == key then Some(set_.value.1) else before)
  }

  lemma StepSets(cfg: Config, hash: string -> nat, st: State, t: Task, world: World, key: string)
    requires Listing(world.order, st.l1.Keys)
    ensures var l1' := StepTask(cfg, hash, st, t, world).0.l1;
            key in l1' ==> if cfg.enableL1 && (t.Filling? || t.Storing?) && t.key == key then l1'[key].value == t.value
                           else key in st.l1 && l1'[key].value == st.l1[key].value
  {
    if t.ReadingL2? || t.Loading? || t.WritingL2? {
      OtherStep(cfg, hash, st, t, world);
    }
  }

  lemma ApplySets(cfg: Config, hash: string -> nat, s: System, e: Event, key: string)
    ensures var l1', set_ := Apply(cfg, hash, s, e).0.st.l1, SetBy(cfg, s, e);
            key in l1' ==> if set_.Some? && set_.value.0 == key then l1'[key].value == set_.value.1
                           else key in s.st.l1 && l1'[key].value == s.st.l1[key].value
  {
    if Enabled(cfg, s, e) && e.Step? {
      StepSets(cfg, hash, s.st, s.tasks[e.id], e.world, key);
    }
  }

  /** Whatever the first level holds for a key is the value set last for it. */
  lemma {:induction false} HoldsLastSet(cfg: Config, hash: string -> nat, s: System, es: seq<Event>, key: string,
                                        before: Option<Bytes>)
    requires key in s.st.l1 ==> before == Some(s.st.l1[key].value)
    ensures var l1 := Run(cfg, hash, s, es).st.l1;
            key in l1 ==> LastSet(cfg, hash, s, es, key, before) == Some(l1[key].value)
    decreases |es|
  {
    if es != [] {
      var set_ := SetBy(cfg, s, es[0]);
      ApplySets(cfg, hash, s, es[0], key);
      HoldsLastSet(cfg, hash, Apply(cfg, hash, s, es[0]).0, es[1..], key,
                   if set_.Some? && set_.value.0 == key then Some(set_.value.1) else before);
    }
  }

  /** Over every run without a request for the empty key, the first level holds at most its maximum, and for each key
      only the value set last. */
  lemma FirstLevelOverRuns(cfg: Config, hash: string -> nat, es: seq<Event>)
    requires ValidConfig(cfg) && Keyed(es)
    ensures var l1 := Run(cfg, hash, IDLE, es).st.l1;
            && |l1| <= cfg.maxEntries
            && forall key :: key in l1 ==> LastSet(cfg, hash, IDLE, es, key, None) == Some(l1[key].value)
  {
    NeverTooMany(cfg, hash, IDLE, es);
    forall key | key in Run(cfg, hash, IDLE, es).st.l1 {
      HoldsLastSet(cfg, hash, IDLE, es, key, None);
    }
  }
}
