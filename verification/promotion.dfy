/** Limited-price promotions: the guards of create and update, and the rule that active windows of a product never
    overlap. Times are whole seconds, the precision of the stored columns. */
module Promotion {
  import opened Wrappers

  type ProductId = int
  type RuleId = int

  /** Both ends inclusive; a missing one is unbounded. */
  datatype Window = Window(starts: Option<int>, ends: Option<int>)

  datatype Kind = LimitedPrice | OtherKind

  datatype Rule = Rule(product: ProductId, kind: Kind, discount: int, threshold: int, window: Window, status: int)

  datatype Table = Table(rules: map<RuleId, Rule>, nextId: RuleId)

  datatype Outcome = Ok | BadRequest | NotFound | WindowConflict

  const ACTIVE := 1
  const INACTIVE := 2

  predicate ValidWindow(w: Window) {
    w.starts.None? || w.ends.None? || w.ends.value >= w.starts.value
  }

  predicate InWindow(w: Window, t: int) {
    (w.starts.None? || w.starts.value <= t) && (w.ends.None? || w.ends.value >= t)
  }

  /** The two comparisons of the conflict query, `w` being the requested window and `row` a stored one. */
  predicate Overlaps(w: Window, row: Window) {
    && (w.starts.None? || row.ends.None? || row.ends.value >= w.starts.value)
    && (w.ends.None? || row.starts.None? || row.starts.value <= w.ends.value)
  }

  predicate Counts(r: Rule, product: ProductId) {
    r.product == product && r.kind == LimitedPrice && r.status == ACTIVE
  }

  predicate HasActiveConflict(rules: map<RuleId, Rule>, product: ProductId, exclude: RuleId, w: Window) {
    exists id :: id in rules && id != exclude && Counts(rules[id], product) && Overlaps(w, rules[id].window)
  }

  /** The bound used for the conflict check and the validity check alike: the new one if given, even when it is open. */
  function Bound(current: Option<int>, next: Option<Option<int>>): Option<int> {
    if next.Some? then next.value else current
  }

  // ------------------------------------------------------------------------------------------------------------
  // Create and update as functions
  // ------------------------------------------------------------------------------------------------------------

  /** Sale prices of the products that exist. */
  type Prices = map<ProductId, int>

  datatype Request =
    | Create(product: ProductId, kind: Kind, discount: int, threshold: int, window: Window, status: int)
    | Update(id: RuleId, newProduct: Option<ProductId>, newDiscount: Option<int>, newThreshold: Option<int>,
             newStarts: Option<Option<int>>, newEnds: Option<Option<int>>, newStatus: Option<int>)

  function DefaultStatus(status: int): int {
    if status == 0 then ACTIVE else status
  }

  function Created(t: Table, prices: Prices, q: Request): (Table, Outcome)
    requires q.Create?
  {
    var status := DefaultStatus(q.status);
    if q.product <= 0 || q.discount <= 0 || q.threshold < 0 then (t, BadRequest)
    else if q.kind != LimitedPrice || (status != ACTIVE && status != INACTIVE) || !ValidWindow(q.window)
        then (t, BadRequest)
    else if q.product !in prices then (t, NotFound)
    else if q.discount > prices[q.product] then (t, BadRequest)
    else if status == ACTIVE && HasActiveConflict(t.rules, q.product, 0, q.window) then (t, WindowConflict)
    else (Inserted(t, q), Ok)
  }

  function Inserted(t: Table, q: Request): Table
    requires q.Create?
  {
    Table(t.rules[t.nextId := Rule(q.product, q.kind, q.discount, q.threshold, q.window, DefaultStatus(q.status))],
        t.nextId + 1)
  }

  predicate FieldsOk(prices: Prices, q: Request)
    requires q.Update?
  {
    && (q.newProduct.Some? ==> q.newProduct.value > 0 && q.newProduct.value in prices)
    && (q.newDiscount.Some? ==> q.newDiscount.value > 0)
    && (q.newThreshold.Some? ==> q.newThreshold.value >= 0)
    && (q.newStatus.Some? ==> q.newStatus.value == ACTIVE || q.newStatus.value == INACTIVE)
    && (q.newProduct.Some? || q.newDiscount.Some? || q.newThreshold.Some? || q.newStarts.Some? || q.newEnds.Some?
         || q.newStatus.Some?)
  }

  function Patched(r: Rule, q: Request): Rule
    requires q.Update?
  {
    Rule(q.newProduct.GetOr(r.product), r.kind, q.newDiscount.GetOr(r.discount), q.newThreshold.GetOr(r.threshold),
         Window(Bound(r.window.starts, q.newStarts), Bound(r.window.ends, q.newEnds)), q.newStatus.GetOr(r.status))
  }

  function FieldError(prices: Prices, q: Request): Outcome
    requires q.Update? && q.id > 0 && !FieldsOk(prices, q)
  {
    if q.newProduct.Some? && q.newProduct.value > 0 && q.newProduct.value !in prices then NotFound else BadRequest
  }

  function Updated(t: Table, prices: Prices, q: Request): (Table, Outcome)
    requires q.Update?
  {
    if q.id <= 0 then (t, BadRequest)
    else if !FieldsOk(prices, q) then (t, FieldError(prices, q))
    else if q.id !in t.rules then (t, NotFound)
    else
      var r := Patched(t.rules[q.id], q);
      if (q.newProduct.Some? || q.newDiscount.Some?) && (r.product !in prices || r.discount > prices[r.product])
          then (t, BadRequest)
      else if (q.newProduct.Some? || q.newStatus.Some? || q.newStarts.Some? || q.newEnds.Some?)
              && r.status == ACTIVE && HasActiveConflict(t.rules, r.product, q.id, r.window) then (t, WindowConflict)
      else if (q.newStarts.Some? || q.newEnds.Some?) && !ValidWindow(r.window) then (t, BadRequest)
      else (t.(rules := t.rules[q.id := r]), Ok)
  }

  function Apply(t: Table, prices: Prices, q: Request): (Table, Outcome) {
    if q.Create? then Created(t, prices, q) else Updated(t, prices, q)
  }

  /** Requests served one after another, product prices being whatever they are at the time. */
  function Run(t: Table, requests: seq<(Prices, Request)>): Table
    decreases |requests|
  {
    if requests == [] then t else Run(Apply(t, requests[0].0, requests[0].1).0, requests[1..])
  }

  // ------------------------------------------------------------------------------------------------------------
  // The handlers, on the table in place
  // ------------------------------------------------------------------------------------------------------------

  class PromotionTable {
    var rules: map<RuleId, Rule>
    var nextId: RuleId

    constructor ()
      ensures Value() == Table(map[], 1)
    {
      rules, nextId := map[], 1;
    }

    function Value(): Table
      reads this
    {
      Table(rules, nextId)
    }

    method CreateRule(prices: Prices, q: Request) returns (out: Outcome)
      requires q.Create?
      modifies this
      ensures (Value(), out) == Created(old(Value()), prices, q)
    {
      if q.product <= 0 || q.discount <= 0 || q.threshold < 0 {
        return BadRequest;
      }
      if q.kind != LimitedPrice {
        return BadRequest;
      }
      var status := q.status;
      if status == 0 {
        status := ACTIVE;
      }
      if status != ACTIVE && status != INACTIVE {
        return BadRequest;
      }
      if !ValidWindow(q.window) {
        return BadRequest;
      }
      if q.product !in prices {
        return NotFound;
      }
      if q.discount > prices[q.product] {
        return BadRequest;
      }
      if status == ACTIVE {
        var conflict := FindConflict(q.product, 0, q.window);
        if conflict {
          return WindowConflict;
        }
      }
      rules := rules[nextId := Rule(q.product, q.kind, q.discount, q.threshold, q.window, status)];
      nextId := nextId + 1;
      return Ok;
    }

    /** Counts the active limited-price rows that overlap, as the query does. */
    method FindConflict(product: ProductId, exclude: RuleId, w: Window) returns (conflict: bool)
      ensures conflict == HasActiveConflict(rules, product, exclude, w)
    {
      var todo, count := rules.Keys, 0;
      while todo != {}
        invariant todo <= rules.Keys && count >= 0
        invariant count > 0 <==> exists id ::
                  id in rules.Keys - todo && id != exclude && Counts(rules[id], product)
                  && Overlaps(w, rules[id].window)
      {
        NonEmpty(todo);
        var id: RuleId :| id in todo;
        if id != exclude && Counts(rules[id], product) && Overlaps(w, rules[id].window) {
          count := count + 1;
        }
        todo := todo - {id};
      }
      assert rules.Keys - todo == rules.Keys;
      return count > 0;
    }

    method UpdateRule(prices: Prices, q: Request) returns (out: Outcome)
      requires q.Update?
      modifies this
      ensures (Value(), out) == Updated(old(Value()), prices, q)
    {
      if q.id <= 0 {
        return BadRequest;
      }
      if q.newProduct.Some? {
        if q.newProduct.value <= 0 {
          return BadRequest;
        }
        if q.newProduct.value !in prices {
          return NotFound;
        }
      }
      if (q.newDiscount.Some? && q.newDiscount.value <= 0) || (q.newThreshold.Some? && q.newThreshold.value < 0) {
        return BadRequest;
      }
      if q.newStatus.Some? && q.newStatus.value != ACTIVE && q.newStatus.value != INACTIVE {
        return BadRequest;
      }
      if q.newProduct.None? && q.newDiscount.None? && q.newThreshold.None? && q.newStarts.None? && q.newEnds.None?
          && q.newStatus.None? {
        return BadRequest;
      }
      if q.id !in rules {
        return NotFound;
      }
      var r := Patched(rules[q.id], q);
      if q.newProduct.Some? || q.newDiscount.Some? {
        if r.product !in prices || r.discount > prices[r.product] {
          return BadRequest;
        }
      }
      if q.newProduct.Some? || q.newStatus.Some? || q.newStarts.Some? || q.newEnds.Some? {
        if r.status == ACTIVE {
          var conflict := FindConflict(r.product, q.id, r.window);
          if conflict {
            return WindowConflict;
          }
        }
      }
      if q.newStarts.Some? || q.newEnds.Some? {
        if !ValidWindow(r.window) {
          return BadRequest;
        }
      }
      rules := rules[q.id := r];
      return Ok;
    }
  }

  // ------------------------------------------------------------------------------------------------------------
  // Windows never overlap
  // ------------------------------------------------------------------------------------------------------------

  predicate Apart(a: Rule, b: Rule) {
    Counts(a, a.product) && Counts(b, a.product) ==> !Overlaps(a.window, b.window)
  }

  ghost predicate Inv(t: Table) {
    && (forall id :: id in t.rules ==> 0 < id < t.nextId && ValidWindow(t.rules[id].window))
    && t.nextId > 0
    && (forall a, b :: a in t.rules && b in t.rules && a != b ==> Apart(t.rules[a], t.rules[b]))
  }

  /** The comparisons of the conflict query say what they should: two windows share an instant. */
  lemma OverlapIsSharedInstant(w: Window, row: Window)
    requires ValidWindow(w) && ValidWindow(row)
    ensures Overlaps(w, row) <==> exists t :: InWindow(w, t) && InWindow(row, t)
  {
    if Overlaps(w, row) {
      var t := Later(w.starts, row.starts, Earlier(w.ends, row.ends));
      assert InWindow(w, t) && InWindow(row, t);
    }
  }

  function Earlier(a: Option<int>, b: Option<int>): int {
    if a.None? then b.GetOr(0) else if b.None? || a.value < b.value then a.value else b.value
  }

  function Later(a: Option<int>, b: Option<int>, default: int): int {
    if a.None? then b.GetOr(default) else if b.None? || a.value > b.value then a.value else b.value
  }

  lemma OverlapSymmetric(a: Window, b: Window)
    ensures Overlaps(a, b) <==> Overlaps(b, a)
  {
  }

  /** One row written that conflicts with no other. */
  lemma WriteKeeps(t: Table, id: RuleId, r: Rule, nextId: RuleId)
    requires Inv(t) && 0 < id < nextId && t.nextId <= nextId && ValidWindow(r.window)
    requires r.status == ACTIVE && r.kind == LimitedPrice ==> !HasActiveConflict(t.rules, r.product, id, r.window)
    ensures Inv(Table(t.rules[id := r], nextId))
  {
    var rules := t.rules[id := r];
    forall a, b | a in rules && b in rules && a != b
      ensures Apart(rules[a], rules[b])
    {
      OverlapSymmetric(rules[a].window, rules[b].window);
      if a != id && b != id {
        assert Apart(t.rules[a], t.rules[b]);
      }
    }
  }

  lemma ApplyKeeps(t: Table, prices: Prices, q: Request)
    requires Inv(t)
    ensures Inv(Apply(t, prices, q).0)
  {
    if Apply(t, prices, q).1 == Ok {
      if q.Create? {
        assert HasActiveConflict(t.rules, q.product, t.nextId, q.window) ==>
               HasActiveConflict(t.rules, q.product, 0, q.window);
        WriteKeeps(t, t.nextId, Inserted(t, q).rules[t.nextId], t.nextId + 1);
      } else {
        UpdateKeeps(t, prices, q);
      }
    }
  }

  lemma NoConflictAlready(t: Table, id: RuleId)
    requires Inv(t) && id in t.rules
    ensures Counts(t.rules[id], t.rules[id].product) ==>
            !HasActiveConflict(t.rules, t.rules[id].product, id, t.rules[id].window)
  {
    forall other | other in t.rules && other != id
      ensures Apart(t.rules[id], t.rules[other])
    {
    }
  }

  lemma UpdateKeeps(t: Table, prices: Prices, q: Request)
    requires Inv(t) && q.Update? && Updated(t, prices, q).1 == Ok
    ensures Inv(Updated(t, prices, q).0)
  {
    var r := Patched(t.rules[q.id], q);
    if q.newProduct.None? && q.newStatus.None? && q.newStarts.None? && q.newEnds.None? {
      NoConflictAlready(t, q.id);
    }
    WriteKeeps(t, q.id, r, t.nextId);
  }

  lemma {:induction false} RunKeeps(t: Table, requests: seq<(Prices, Request)>)
    requires Inv(t)
    ensures Inv(Run(t, requests))
    decreases |requests|
  {
    if requests != [] {
      ApplyKeeps(t, requests[0].0, requests[0].1);
      RunKeeps(Apply(t, requests[0].0, requests[0].1).0, requests[1..]);
    }
  }

  /** The rows that the snapshot's price aggregate ranges over for a product at an instant. */
  function Effective(rules: map<RuleId, Rule>, product: ProductId, now: int): set<RuleId> {
    set id | id in rules && Counts(rules[id], product) && InWindow(rules[id].window, now)
  }

  lemma NeverBoth(t: Table, a: RuleId, b: RuleId, product: ProductId, now: int)
    requires Inv(t) && a in t.rules && b in t.rules && a != b && a in Effective(t.rules, product, now)
    ensures b !in Effective(t.rules, product, now)
  {
    OverlapIsSharedInstant(t.rules[a].window, t.rules[b].window);
    assert Apart(t.rules[a], t.rules[b]);
  }

  /** After any series of requests, at any instant, at most one limited price is in force for a product. */
  lemma AtMostOnePrice(requests: seq<(Prices, Request)>, product: ProductId, now: int, a: RuleId, b: RuleId)
    requires a in Effective(Run(Table(map[], 1), requests).rules, product, now)
    requires b in Effective(Run(Table(map[], 1), requests).rules, product, now)
    ensures a == b
  {
    RunKeeps(Table(map[], 1), requests);
    if a != b {
      NeverBoth(Run(Table(map[], 1), requests), a, b, product, now);
    }
  }

  /** A valid active request is refused for conflict exactly when some instant would get two prices. */
  lemma ConflictIsExact(t: Table, product: ProductId, exclude: RuleId, w: Window)
    requires Inv(t) && ValidWindow(w)
    ensures HasActiveConflict(t.rules, product, exclude, w)
            <==> exists id, now :: id in Effective(t.rules, product, now) && id != exclude && InWindow(w, now)
  {
    if HasActiveConflict(t.rules, product, exclude, w) {
      var id :| id in t.rules && id != exclude && Counts(t.rules[id], product) && Overlaps(w, t.rules[id].window);
      OverlapIsSharedInstant(w, t.rules[id].window);
      var now :| InWindow(w, now) && InWindow(t.rules[id].window, now);
      assert id in Effective(t.rules, product, now);
    }
    if id, now :| id in Effective(t.rules, product, now) && id != exclude && InWindow(w, now) {
      OverlapIsSharedInstant(w, t.rules[id].window);
    }
  }

  /** The check and the insert are separate statements: two creates that both pass the check on the same table, then
      both insert, keep the windows apart exactly when theirs do not overlap. */
  lemma RacingCreates(t: Table, prices: Prices, q: Request, q': Request)
    requires Inv(t) && q.Create? && q'.Create? && q.product == q'.product
    requires DefaultStatus(q.status) == ACTIVE && DefaultStatus(q'.status) == ACTIVE
    requires Created(t, prices, q).1 == Ok && Created(t, prices, q').1 == Ok
    ensures Inv(Inserted(Inserted(t, q), q')) <==> !Overlaps(q.window, q'.window)
  {
    ApplyKeeps(t, prices, q);
    var t1 := Inserted(t, q);
    var t2 := Inserted(t1, q');
    OverlapSymmetric(q.window, q'.window);
    if !Overlaps(q.window, q'.window) {
      forall id | id in t1.rules && Counts(t1.rules[id], q'.product)
        ensures !Overlaps(q'.window, t1.rules[id].window)
      {
        assert id != t.nextId ==> id in t.rules && id != 0;
      }
      WriteKeeps(t1, t1.nextId, t2.rules[t1.nextId], t1.nextId + 1);
    } else {
      assert !Apart(t2.rules[t.nextId], t2.rules[t1.nextId]);
    }
  }

  /** Such a race, from the empty table: two unbounded active windows, both accepted, two prices at every instant. */
  lemma RaceReached(now: int)
    ensures var t, prices, q := Table(map[], 1), map[7 := 100], Create(7, LimitedPrice, 60, 0, Window(None, None), 1);
            && Created(t, prices, q).1 == Ok
            && Effective(Inserted(Inserted(t, q), q).rules, 7, now) == {1, 2}
  {
    var t, q := Table(map[], 1), Create(7, LimitedPrice, 60, 0, Window(None, None), 1);
    var rules := Inserted(Inserted(t, q), q).rules;
    assert rules.Keys == {1, 2};
    assert forall id :: id in Effective(rules, 7, now) <==> id == 1 || id == 2;
  }
}
