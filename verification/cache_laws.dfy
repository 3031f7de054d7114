/** Where a cached value comes from and what becomes of it: every value stored or answered is one the origin returned
    for its key, and a value once loaded is answered by the first level, then by the second, then as stale, until it is
    loaded again. */
module CacheLaws {
  import opened Wrappers
  import opened LocalCache
  import opened CacheCoordinator

  // ------------------------------------------------------------------------------------------------------------
  // What the origin returned, read off the events
  // ------------------------------------------------------------------------------------------------------------

  datatype Loaded = Loaded(key: string, value: Bytes, at: int)

  /** The value that an event gets from the origin, if it does. */
  ghost function LoadBy(cfg: Config, s: System, e: Event): Option<Loaded> {
    if Enabled(cfg, s, e) && e.Step? && s.tasks[e.id].Loading? && e.world.loaded.Some?
    then Some(Loaded(s.tasks[e.id].key, e.world.loaded.value, e.world.clock)) else None
  }

  ghost function With(loads: set<Loaded>, load: Option<Loaded>): set<Loaded> {
    if load.Some? then loads + {load.value} else loads
  }

  /** All that the origin returned in a run, and before it. */
  ghost function Loads(cfg: Config, hash: string -> nat, s: System, es: seq<Event>, before: set<Loaded>): set<Loaded>
    decreases |es|
  {
    if es == [] then before
    else Loads(cfg, hash, Apply(cfg, hash, s, es[0]).0, es[1..], With(before, LoadBy(cfg, s, es[0])))
  }

  ghost function LoadAfter(cfg: Config, s: System, e: Event, id: nat, before: Option<Loaded>): Option<Loaded> {
    if Enabled(cfg, s, e) && (e.Begin? || e.BeginRefresh?) && e.id == id then None
    else if e.Step? && e.id == id && LoadBy(cfg, s, e).Some? then LoadBy(cfg, s, e)
    else before
  }

  /** What the origin returned to request `id`, last and since it began. */
  ghost function LoadOf(cfg: Config, hash: string -> nat, s: System, es: seq<Event>, id: nat,
                        before: Option<Loaded>): Option<Loaded>
    decreases |es|
  {
    if es == [] then before
    else LoadOf(cfg, hash, Apply(cfg, hash, s, es[0]).0, es[1..], id, LoadAfter(cfg, s, es[0], id, before))
  }

  /** The value was loaded for this key, and not after `t`. */
  ghost predicate WasLoaded(loads: set<Loaded>, key: string, value: Bytes, t: int) {
    exists l :: l in loads && l.key == key && l.value == value && l.at <= t
  }

  ghost predicate Traced(s: System, loads: set<Loaded>) {
    && (forall x :: x in s.st.stored ==> WasLoaded(loads, x.key, x.value, x.at))
    && (forall id :: id in s.tasks && s.tasks[id].Storing? ==>
          WasLoaded(loads, s.tasks[id].key, s.tasks[id].value, s.tasks[id].loadedAt))
  }

  lemma LoadedGrows(loads: set<Loaded>, loads': set<Loaded>, key: string, value: Bytes, t: int, t': int)
    requires WasLoaded(loads, key, value, t) && loads <= loads' && t <= t'
    ensures WasLoaded(loads', key, value, t')
  {
    var l :| l in loads && l.key == key && l.value == value && l.at <= t;
    assert l in loads';
  }

  lemma TracedGrows(s: System, loads: set<Loaded>, loads': set<Loaded>)
    requires Traced(s, loads) && loads <= loads'
    ensures Traced(s, loads')
  {
    forall x | x in s.st.stored
      ensures WasLoaded(loads', x.key, x.value, x.at)
    {
      LoadedGrows(loads, loads', x.key, x.value, x.at, x.at);
    }
    forall id | id in s.tasks && s.tasks[id].Storing?
      ensures WasLoaded(loads', s.tasks[id].key, s.tasks[id].value, s.tasks[id].loadedAt)
    {
      LoadedGrows(loads, loads', s.tasks[id].key, s.tasks[id].value, s.tasks[id].loadedAt, s.tasks[id].loadedAt);
    }
  }

  lemma StepStores(cfg: Config, hash: string -> nat, s: System, e: Event, loads: set<Loaded>, x: Stored)
    requires Traced(s, loads) && Enabled(cfg, s, e) && e.Step? && x in Apply(cfg, hash, s, e).0.st.stored
    ensures WasLoaded(loads, x.key, x.value, x.at)
  {
    var t := s.tasks[e.id];
    if x !in s.st.stored {
      LoadedGrows(loads, loads, t.key, t.value, t.loadedAt, e.world.clock);
    }
  }

  lemma StepTraced(cfg: Config, hash: string -> nat, s: System, e: Event, loads: set<Loaded>)
    requires Traced(s, loads) && Enabled(cfg, s, e) && e.Step?
    ensures Traced(Apply(cfg, hash, s, e).0, With(loads, LoadBy(cfg, s, e)))
  {
    var s', loads' := Apply(cfg, hash, s, e).0, With(loads, LoadBy(cfg, s, e));
    TracedGrows(s, loads, loads');
    forall x | x in s'.st.stored
      ensures WasLoaded(loads', x.key, x.value, x.at)
    {
      StepStores(cfg, hash, s, e, loads', x);
    }
    forall id | id in s'.tasks && s'.tasks[id].Storing?
      ensures WasLoaded(loads', s'.tasks[id].key, s'.tasks[id].value, s'.tasks[id].loadedAt)
    {
      if id == e.id {
        assert LoadBy(cfg, s, e).Some? && LoadBy(cfg, s, e).value in loads';
      }
    }
  }

  lemma ApplyTraced(cfg: Config, hash: string -> nat, s: System, e: Event, loads: set<Loaded>)
    requires Traced(s, loads)
    ensures Traced(Apply(cfg, hash, s, e).0, With(loads, LoadBy(cfg, s, e)))
  {
    if Enabled(cfg, s, e) && e.Step? {
      StepTraced(cfg, hash, s, e, loads);
    }
  }

  lemma {:induction false} RunTraced(cfg: Config, hash: string -> nat, s: System, es: seq<Event>, before: set<Loaded>)
    requires Traced(s, before)
    ensures Traced(Run(cfg, hash, s, es), Loads(cfg, hash, s, es, before))
    decreases |es|
  {
    if es != [] {
      ApplyTraced(cfg, hash, s, es[0], before);
      RunTraced(cfg, hash, Apply(cfg, hash, s, es[0]).0, es[1..], With(before, LoadBy(cfg, s, es[0])));
    }
  }

  /** Over any run, whatever is stored was returned by the origin for that key, no later than it was stored. */
  lemma StoredWasLoaded(cfg: Config, hash: string -> nat, es: seq<Event>, x: Stored)
    requires x in Run(cfg, hash, IDLE, es).st.stored
    ensures WasLoaded(Loads(cfg, hash, IDLE, es, {}), x.key, x.value, x.at)
  {
    RunTraced(cfg, hash, IDLE, es, {});
  }

  /** And so is every value answered: the origin returned it for the key of the request, and it was stored after that
      and recently enough for the place it comes from. */
  lemma AnswerWasLoaded(cfg: Config, hash: string -> nat, es: seq<Event>, e: Event, id: nat) returns (x: Stored)
    requires ValidConfig(cfg) && id in Apply(cfg, hash, Run(cfg, hash, IDLE, es), e).1
    requires Apply(cfg, hash, Run(cfg, hash, IDLE, es), e).1[id].Served?
    ensures var s := Run(cfg, hash, IDLE, es);
            var answer := Apply(cfg, hash, s, e).1[id];
            && id in s.tasks && x.key == s.tasks[id].key && x.value == answer.value
            && WasLoaded(With(Loads(cfg, hash, IDLE, es, {}), LoadBy(cfg, s, e)), x.key, x.value, x.at)
            && s.tasks[id].now <= x.at + (if id in s.waits && answer.source == Origin then cfg.operationTimeout
                                          else Age(cfg, hash, s.tasks[id].key, answer.source))
  {
    var s := Run(cfg, hash, IDLE, es);
    var s', answers := Apply(cfg, hash, s, e).0, Apply(cfg, hash, s, e).1;
    StalenessBound(cfg, hash, es, e, id);
    RunTraced(cfg, hash, IDLE, es, {});
    ApplyTraced(cfg, hash, s, e, Loads(cfg, hash, IDLE, es, {}));
    x :| x in s'.st.stored && x.key == s.tasks[id].key && x.value == answers[id].value
         && s.tasks[id].now
            <= x.at + (if id in s.waits && answers[id].source == Origin then cfg.operationTimeout
                       else Age(cfg, hash, s.tasks[id].key, answers[id].source));
  }

  // ------------------------------------------------------------------------------------------------------------
  // Answers from the origin
  // ------------------------------------------------------------------------------------------------------------

  /** A request that stores or writes a value does so with what the origin returned to it, after it began. */
  predicate Carries(s: System, id: nat, load: Option<Loaded>) {
    id in s.tasks && (s.tasks[id].Storing? || s.tasks[id].WritingL2?) ==>
      && load.Some? && load.value.key == s.tasks[id].key && load.value.value == s.tasks[id].value
      && s.tasks[id].now <= load.value.at
  }

  lemma ApplyCarries(cfg: Config, hash: string -> nat, s: System, e: Event, id: nat, before: Option<Loaded>)
    requires Carries(s, id, before)
    ensures Carries(Apply(cfg, hash, s, e).0, id, LoadAfter(cfg, s, e, id, before))
  {
  }

  lemma {:induction false} RunCarries(cfg: Config, hash: string -> nat, s: System, es: seq<Event>, id: nat,
                                      before: Option<Loaded>)
    requires Carries(s, id, before)
    ensures Carries(Run(cfg, hash, s, es), id, LoadOf(cfg, hash, s, es, id, before))
    decreases |es|
  {
    if es != [] {
      ApplyCarries(cfg, hash, s, es[0], id, before);
      RunCarries(cfg, hash, Apply(cfg, hash, s, es[0]).0, es[1..], id, LoadAfter(cfg, s, es[0], id, before));
    }
  }

  /** Who is answered when request `e.id` returns: itself, and those that wait for it. */
  lemma AnsweredBy(cfg: Config, hash: string -> nat, s: System, e: Event, id: nat)
    requires (forall f :: f in s.waits ==> WaitOk(s, f)) && id in Apply(cfg, hash, s, e).1
    ensures e.Step? && id in s.tasks && e.id == if id in s.waits then s.waits[id] else id
    ensures e.id in s.tasks && s.tasks[e.id].key == s.tasks[id].key
  {
    if id != e.id {
      assert WaitOk(s, id);
    }
  }

  lemma OriginCarried(cfg: Config, hash: string -> nat, s: System, e: Event, id: nat, load: Option<Loaded>)
    requires (forall f :: f in s.waits ==> WaitOk(s, f)) && id in Apply(cfg, hash, s, e).1
    requires var answer := Apply(cfg, hash, s, e).1[id]; answer.Served? && answer.source == Origin
    requires e.Step? ==> Carries(s, e.id, load)
    ensures e.Step? && id in s.tasks && load.Some? && load.value.key == s.tasks[e.id].key
    ensures Apply(cfg, hash, s, e).1[id] == Served(load.value.value, Origin)
    ensures id == e.id ==> s.tasks[id].now <= load.value.at
  {
  }

  /** An answer from the origin is what the origin returned for the key, to the request itself after it began, or to the
      request whose load it waited for. */
  lemma OriginIsLoaded(cfg: Config, hash: string -> nat, es: seq<Event>, e: Event, id: nat)
    requires ValidConfig(cfg) && id in Apply(cfg, hash, Run(cfg, hash, IDLE, es), e).1
    requires var answer := Apply(cfg, hash, Run(cfg, hash, IDLE, es), e).1[id];
             answer.Served? && answer.source == Origin
    ensures var s := Run(cfg, hash, IDLE, es);
            var load := LoadOf(cfg, hash, IDLE, es, if id in s.waits then s.waits[id] else id, None);
            && id in s.tasks && load.Some? && load.value.key == s.tasks[id].key
            && Apply(cfg, hash, s, e).1[id] == Served(load.value.value, Origin)
            && (id !in s.waits ==> s.tasks[id].now <= load.value.at)
  {
    var s := Run(cfg, hash, IDLE, es);
    RunOk(cfg, hash, IDLE, es);
    AnsweredBy(cfg, hash, s, e, id);
    RunCarries(cfg, hash, IDLE, es, e.id, None);
    OriginCarried(cfg, hash, s, e, id, LoadOf(cfg, hash, IDLE, es, e.id, None));
  }

  /** A load that fails gives those who waited for it no value: each is answered with the stale value that it read
      itself, if there is one and that is allowed, and otherwise fails as well. */
  lemma FailureIsEachOnesOwn(cfg: Config, hash: string -> nat, es: seq<Event>, id: nat, world: World, f: nat)
    requires ValidConfig(cfg) && Enabled(cfg, Run(cfg, hash, IDLE, es), Step(id, world))
    requires var s := Run(cfg, hash, IDLE, es); s.tasks[id].Loading? && world.loaded.None? && f in Followers(s, id)
    ensures var s := Run(cfg, hash, IDLE, es);
            var answers := Apply(cfg, hash, s, Step(id, world)).1;
            && f in s.tasks && s.tasks[f].Loading? && f in answers
            && match s.tasks[f].stale
               case None => answers[f] == Failed
               case Some(value) =>
                 answers[f] == if value != [] && cfg.allowStaleOnError then Served(value, Stale) else Failed
  {
    RunOk(cfg, hash, IDLE, es);
    assert WaitOk(Run(cfg, hash, IDLE, es), f);
  }

  // ------------------------------------------------------------------------------------------------------------
  // The first level alone
  // ------------------------------------------------------------------------------------------------------------

  /** A value set is found until it expires, whatever had to be given up for it. */
  lemma SetThenGet(entries: Entries, max: nat, key: string, value: Bytes, expiresAt: int, now: int, order: seq<string>,
                   entries': Entries, t: int)
    requires Sets(entries, max, key, value, expiresAt, now, order, entries')
    ensures Looked(entries', key, t).1 == if t < expiresAt then Some(value) else None
    ensures t >= expiresAt ==> key !in Looked(entries', key, t).0
  {
  }

  /** A lookup that finds its key renews the last access and nothing else; one that finds it expired removes it. */
  lemma GetTouches(entries: Entries, key: string, now: int)
    ensures var (entries', value) := Looked(entries, key, now);
            && (value.Some? <==> key in entries && now < entries[key].expiresAt)
            && (value.Some? ==> key in entries' && entries'[key].value == entries[key].value == value.value
                                && entries'[key].expiresAt == entries[key].expiresAt && entries'[key].lastAccess == now)
            && (value.None? ==> key !in entries')
            && (forall other :: other != key ==> (other in entries' <==> other in entries))
            && (forall other :: other != key && other in entries ==> entries'[other] == entries[other])
  {
  }

  /** So an entry just looked up outlives an eviction as long as another one was last used earlier. */
  lemma LookedUpSurvives(entries: Entries, max: nat, key: string, now: int, added: string, value: Bytes,
                         expiresAt: int, at: int, order: seq<string>, entries': Entries, older: string)
    requires max > 0 && |entries| <= max && "" !in entries && added != "" && added != key
    requires Looked(entries, key, now).1.Some?
    requires older in entries && older != key && entries[older].lastAccess < now
    requires Sets(Looked(entries, key, now).0, max, added, value, expiresAt, at, order, entries')
    ensures key in entries' && entries'[key].value == entries[key].value
  {
    var touched := Looked(entries, key, now).0;
    assert touched.Keys == entries.Keys;
    assert |touched| == |touched.Keys| == |entries|;
    SetKeepsBound(touched, max, added, value, expiresAt, at, order, entries');
    assert touched[older].lastAccess < touched[key].lastAccess;
  }

  // ------------------------------------------------------------------------------------------------------------
  // One request after another
  // ------------------------------------------------------------------------------------------------------------

  /** A request that runs alone. */
  ghost function Request(cfg: Config, hash: string -> nat, st: State, key: string, now: int, world: World)
      : (State, Answer) {
    RunTask(cfg, hash, st, LookingUp(key, now), world)
  }

  predicate InL1(cfg: Config, st: State, key: string, now: int) {
    cfg.enableL1 && key in st.l1 && now < st.l1[key].expiresAt
  }

  predicate InL2(cfg: Config, st: State, key: string, now: int, world: World) {
    cfg.enableL2 && !world.readFails && key in st.l2 && Millis(now) < st.l2[key].hardExpiresAt
  }

  /** The value is in the first level until `until`. */
  predicate HoldsL1(cfg: Config, st: State, key: string, value: Bytes, until: int) {
    cfg.enableL1 ==> key in st.l1 && st.l1[key].value == value && st.l1[key].expiresAt == until
  }

  lemma SetHolds(cfg: Config, l1: Entries, key: string, value: Bytes, expiresAt: int, world: World)
    requires Listing(world.order, l1.Keys)
    ensures var l1' := SetL1(cfg, l1, key, value, expiresAt, world);
            && (cfg.enableL1 ==> key in l1' && l1'[key] == Entry(value, expiresAt, world.clock))
            && (!cfg.enableL1 ==> l1' == l1)
            && (forall other :: other != key && other in l1' ==> other in l1 && l1'[other] == l1[other])
  {
  }

  /** A request that finds its key in the first level is answered with it, and neither the second level nor the origin
      is asked. */
  lemma FirstLevelAnswers(cfg: Config, hash: string -> nat, st: State, key: string, now: int, world: World)
    requires InL1(cfg, st, key, now)
    ensures var (st', answer) := Request(cfg, hash, st, key, now, world);
            && answer == Served(st.l1[key].value, L1) && st'.l2 == st.l2 && st'.stored == st.stored
            && HoldsL1(cfg, st', key, st.l1[key].value, st.l1[key].expiresAt)
  {
    RunOn(cfg, hash, st, LookingUp(key, now), world);
  }

  lemma LookupGoesOn(cfg: Config, hash: string -> nat, st: State, key: string, now: int, world: World)
    requires !InL1(cfg, st, key, now)
    ensures Request(cfg, hash, st, key, now, world)
            == RunTask(cfg, hash, AfterLookup(cfg, st, key, now),
                       if cfg.enableL2 then ReadingL2(key, now) else Loading(key, None, now), world)
  {
    LookupMisses(cfg, hash, st, key, now, world);
  }

  /** Otherwise a fresh value of the second level answers, and moves up to the first. */
  lemma SecondLevelAnswers(cfg: Config, hash: string -> nat, st: State, key: string, now: int, world: World)
    requires !InL1(cfg, st, key, now) && InL2(cfg, st, key, now, world) && Millis(now) < st.l2[key].softExpiresAt
    requires Listing(world.order, AfterLookup(cfg, st, key, now).l1.Keys)
    ensures var (st', answer) := Request(cfg, hash, st, key, now, world);
            && answer == Served(st.l2[key].value, L2) && st'.l2 == st.l2 && st'.stored == st.stored
            && HoldsL1(cfg, st', key, st.l2[key].value, now + cfg.l1Ttl)
  {
    LookupGoesOn(cfg, hash, st, key, now, world);
    FillRuns(cfg, hash, AfterLookup(cfg, st, key, now), key, now, world);
    SetHolds(cfg, AfterLookup(cfg, st, key, now).l1, key, st.l2[key].value, now + cfg.l1Ttl, world);
  }

  /** A stale one answers as such, if stale values may be served while they are refreshed. */
  lemma StaleAnswers(cfg: Config, hash: string -> nat, st: State, key: string, now: int, world: World)
    requires !InL1(cfg, st, key, now) && InL2(cfg, st, key, now, world) && st.l2[key].softExpiresAt <= Millis(now)
    requires cfg.staleWhileRevalidate
    ensures var (st', answer) := Request(cfg, hash, st, key, now, world);
            answer == Served(st.l2[key].value, Stale) && st'.l2 == st.l2 && st'.stored == st.stored
  {
    LookupGoesOn(cfg, hash, st, key, now, world);
    RunOn(cfg, hash, AfterLookup(cfg, st, key, now), ReadingL2(key, now), world);
  }

  /** The value that stands in when the origin fails: a stale one of the second level, if there is one. */
  function StandIn(cfg: Config, st: State, key: string, now: int, world: World): Option<Bytes> {
    if InL2(cfg, st, key, now, world) then Some(st.l2[key].value) else None
  }

  /** The origin is asked when neither level can answer. */
  predicate AsksOrigin(cfg: Config, st: State, key: string, now: int, world: World) {
    && !InL1(cfg, st, key, now)
    && (InL2(cfg, st, key, now, world) ==> st.l2[key].softExpiresAt <= Millis(now) && !cfg.staleWhileRevalidate)
  }

  /** What is left of the second level once it was read: an envelope past its hard expiry is deleted. */
  function AfterRead(cfg: Config, st: State, key: string, now: int, world: World): map<string, Envelope> {
    if cfg.enableL2 && !world.readFails && !InL2(cfg, st, key, now, world) then st.l2 - {key} else st.l2
  }

  lemma ReadGoesOn(cfg: Config, hash: string -> nat, st: State, key: string, now: int, world: World)
    requires AsksOrigin(cfg, st, key, now, world)
    ensures Request(cfg, hash, st, key, now, world)
            == RunTask(cfg, hash, AfterLookup(cfg, st, key, now).(l2 := AfterRead(cfg, st, key, now, world)),
                       Loading(key, StandIn(cfg, st, key, now, world), now), world)
  {
    LookupGoesOn(cfg, hash, st, key, now, world);
    var looked := AfterLookup(cfg, st, key, now);
    if cfg.enableL2 {
      RunOn(cfg, hash, looked, ReadingL2(key, now), world);
    }
    if key !in st.l2 {
      assert st.l2 - {key} == st.l2;
    }
    assert looked.(l2 := st.l2) == looked;
  }

  /** The loaded value is in both levels, each with its expiry, and other keys of the second level are as they were. */
  ghost predicate Kept(cfg: Config, hash: string -> nat, st: State, st': State, key: string, value: Bytes, at: int,
                       writeFails: bool) {
    && HoldsL1(cfg, st', key, value, at + cfg.l1Ttl)
    && (cfg.enableL2 && !writeFails ==>
          key in st'.l2 && st'.l2[key] == Envelope(value, Millis(at + Soft(cfg, hash, key)),
                                                   Millis(at + Hard(cfg, hash, key))))
    && (forall other :: other != key ==> (other in st'.l2 <==> other in st.l2))
    && (forall other :: other != key && other in st.l2 ==> st'.l2[other] == st.l2[other])
  }

  lemma LoadKeeps(cfg: Config, hash: string -> nat, st: State, key: string, stale: Option<Bytes>, now: int,
                  world: World)
    requires world.loaded.Some? && Listing(world.order, st.l1.Keys)
    ensures var (st', answer) := RunTask(cfg, hash, st, Loading(key, stale, now), world);
            && answer == Served(world.loaded.value, Origin)
            && Kept(cfg, hash, st, st', key, world.loaded.value, world.clock, world.writeFails)
  {
    RunOn(cfg, hash, st, Loading(key, stale, now), world);
    StoreRuns(cfg, hash, st, key, world.loaded.value, now, world.clock, world);
    SetHolds(cfg, st.l1, key, world.loaded.value, world.clock + cfg.l1Ttl, world);
  }

  /** The origin's value answers and is kept in both levels. */
  lemma OriginAnswers(cfg: Config, hash: string -> nat, st: State, key: string, now: int, world: World)
    requires AsksOrigin(cfg, st, key, now, world) && world.loaded.Some?
    requires Listing(world.order, AfterLookup(cfg, st, key, now).l1.Keys)
    ensures var (st', answer) := Request(cfg, hash, st, key, now, world);
            && answer == Served(world.loaded.value, Origin)
            && Kept(cfg, hash, st, st', key, world.loaded.value, world.clock, world.writeFails)
  {
    ReadGoesOn(cfg, hash, st, key, now, world);
    var asked := AfterLookup(cfg, st, key, now).(l2 := AfterRead(cfg, st, key, now, world));
    LoadKeeps(cfg, hash, asked, key, StandIn(cfg, st, key, now, world), now, world);
  }

  /** When the origin fails, a stale value that is not empty stands in if that is allowed, and nothing is stored. */
  lemma OriginFails(cfg: Config, hash: string -> nat, st: State, key: string, now: int, world: World)
    requires AsksOrigin(cfg, st, key, now, world) && world.loaded.None?
    ensures var (st', answer) := Request(cfg, hash, st, key, now, world);
            && answer == (if InL2(cfg, st, key, now, world) && st.l2[key].value != [] && cfg.allowStaleOnError
                          then Served(st.l2[key].value, Stale) else Failed)
            && st'.stored == st.stored && st'.l2 == AfterRead(cfg, st, key, now, world)
  {
    ReadGoesOn(cfg, hash, st, key, now, world);
    var asked := AfterLookup(cfg, st, key, now).(l2 := AfterRead(cfg, st, key, now, world));
    RunOn(cfg, hash, asked, Loading(key, StandIn(cfg, st, key, now, world), now), world);
  }

  /** The life of a value. Where it was kept at time `at`, a request for it gets it, whatever the origin now holds: from
      the first level before its expiry; after that from the second before the soft expiry, and from then to the hard
      expiry as stale if stale values may be served meanwhile. From the hard expiry on the origin is asked again. */
  lemma LifeOfAValue(cfg: Config, hash: string -> nat, before: State, st: State, key: string, value: Bytes, at: int,
                     now: int, world: World)
    requires ValidConfig(cfg) && Kept(cfg, hash, before, st, key, value, at, false) && !world.readFails
    requires Listing(world.order, AfterLookup(cfg, st, key, now).l1.Keys)
    ensures var (st', answer) := Request(cfg, hash, st, key, now, world);
            var first := cfg.enableL1 && now < at + cfg.l1Ttl;
            var soft, hard := Millis(at + Soft(cfg, hash, key)), Millis(at + Hard(cfg, hash, key));
            && (first ==> answer == Served(value, L1))
            && (!first && cfg.enableL2 && Millis(now) < soft ==> answer == Served(value, L2))
            && (!first && cfg.enableL2 && soft <= Millis(now) < hard && cfg.staleWhileRevalidate ==>
                  answer == Served(value, Stale))
            && (!first && cfg.enableL2 && hard <= Millis(now) && world.loaded.Some? ==>
                  answer == Served(world.loaded.value, Origin))
            && (!first && cfg.enableL2 && hard <= Millis(now) && world.loaded.None? ==>
                  answer == Failed && key !in st'.l2)
            && (!first && !cfg.enableL2 && world.loaded.Some? ==> answer == Served(world.loaded.value, Origin))
  {
    SoftBeforeHard(cfg, hash, key);
    if InL1(cfg, st, key, now) {
      FirstLevelAnswers(cfg, hash, st, key, now, world);
    } else if AsksOrigin(cfg, st, key, now, world) {
      if world.loaded.Some? {
        OriginAnswers(cfg, hash, st, key, now, world);
      } else {
        OriginFails(cfg, hash, st, key, now, world);
      }
    } else if Millis(now) < st.l2[key].softExpiresAt {
      SecondLevelAnswers(cfg, hash, st, key, now, world);
    } else {
      StaleAnswers(cfg, hash, st, key, now, world);
    }
  }

  // ------------------------------------------------------------------------------------------------------------
  // Settings
  // ------------------------------------------------------------------------------------------------------------

  /** Settings that make sense are kept; the others become two seconds, thirty seconds, twice the soft expiry, 200
      milliseconds and 512 entries. Without a client there is no second level. */
  lemma Defaults(cfg: Config, hasClient: bool)
    ensures var n := Normalized(cfg, hasClient);
            && n.l1Ttl == (if cfg.l1Ttl > 0 then cfg.l1Ttl else 2_000_000_000)
            && n.softTtl == (if cfg.softTtl > 0 then cfg.softTtl else 30_000_000_000)
            && n.hardTtl == (if cfg.hardTtl > n.softTtl then cfg.hardTtl else n.softTtl + n.softTtl)
            && n.operationTimeout == (if cfg.operationTimeout > 0 then cfg.operationTimeout else 200_000_000)
            && n.maxEntries == (if cfg.maxEntries > 0 then cfg.maxEntries else 512)
            && n.enableL1 == cfg.enableL1 && n.enableL2 == (cfg.enableL2 && hasClient)
            && n.staleWhileRevalidate == cfg.staleWhileRevalidate && n.allowStaleOnError == cfg.allowStaleOnError
  {
  }

  /** The jitter spreads the expiries of different keys in steps of a thousandth of the setting, by the hash of the key
      modulo 100. */
  lemma JitterSpreads(cfg: Config, hash: string -> nat, key: string)
    requires ValidConfig(cfg) && cfg.softTtl % 1000 == 0 && cfg.hardTtl % 1000 == 0
    ensures Soft(cfg, hash, key) - cfg.softTtl == cfg.softTtl / 1000 * (hash(key) % 100)
    ensures Hard(cfg, hash, key) - cfg.hardTtl == cfg.hardTtl / 1000 * (hash(key) % 100)
  {
    Hundredth(cfg.softTtl / 1000, hash(key) % 100);
    Hundredth(cfg.hardTtl / 1000, hash(key) % 100);
    assert cfg.softTtl / 10 == 100 * (cfg.softTtl / 1000) && cfg.hardTtl / 10 == 100 * (cfg.hardTtl / 1000);
  }

  lemma Hundredth(step: int, h: nat)
    ensures 100 * step * h / 100 == step * h
  {
    assert 100 * step * h == 100 * (step * h);
  }
}
