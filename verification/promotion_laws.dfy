/** What creating and updating a promotion answer and write, and what every row on file is after any series of them. */
module PromotionLaws {
  import opened Wrappers
  import opened Promotion

  // ------------------------------------------------------------------------------------------------------------
  // Creating
  // ------------------------------------------------------------------------------------------------------------

  /** Some instant of the window already has a limited price for the product, from another row. */
  ghost predicate Taken(t: Table, product: ProductId, except: RuleId, w: Window) {
    exists id, now :: id in Effective(t.rules, product, now) && id != except && InWindow(w, now)
  }

  predicate WellFormed(product: ProductId, kind: Kind, discount: int, threshold: int, window: Window, status: int) {
    && product > 0 && discount > 0 && threshold >= 0 && kind == LimitedPrice && ValidWindow(window)
    && (status == 1 || status == 2)
  }

  /** A create is accepted exactly for a well-formed rule of an existing product whose price is not above the sale price
      and, if active, is the only one at every instant; each refusal has its reason and changes nothing. A status left
      out means active. */
  lemma CreateOutcome(t: Table, prices: Prices, q: Request)
    requires Inv(t) && q.Create?
    ensures var (t', out) := Created(t, prices, q);
            var status := if q.status == 0 then 1 else q.status;
            var formed := WellFormed(q.product, q.kind, q.discount, q.threshold, q.window, status);
            var priced := q.product in prices && q.discount <= prices[q.product];
            && (out == Ok <==> formed && priced && (status == 1 ==> !Taken(t, q.product, 0, q.window)))
            && (out == WindowConflict <==> formed && priced && status == 1 && Taken(t, q.product, 0, q.window))
            && (out == NotFound <==> formed && q.product !in prices)
            && (out == BadRequest <==> !formed || (q.product in prices && !priced))
            && (out == Ok || t' == t)
  {
    if ValidWindow(q.window) {
      ConflictIsExact(t, q.product, 0, q.window);
    }
  }

  /** An accepted create adds one row, as asked, under an id never used before. */
  lemma CreateWrites(t: Table, prices: Prices, q: Request)
    requires Inv(t) && q.Create? && Created(t, prices, q).1 == Ok
    ensures var t' := Created(t, prices, q).0;
            exists id :: id !in t.rules && id > 0 && t'.rules.Keys == t.rules.Keys + {id}
                  && (forall other :: other in t.rules ==> other < id && t'.rules[other] == t.rules[other])
                  && t'.rules[id].product == q.product && t'.rules[id].discount == q.discount
                  && t'.rules[id].threshold == q.threshold && t'.rules[id].window == q.window
                  && t'.rules[id].kind == LimitedPrice && t'.rules[id].status == if q.status == 2 then 2 else 1
  {
    assert t.nextId in Created(t, prices, q).0.rules;
  }

  // ------------------------------------------------------------------------------------------------------------
  // Updating
  // ------------------------------------------------------------------------------------------------------------

  /** Every field asked for is well-formed, and there is one. */
  predicate AskedWell(prices: Prices, q: Request)
    requires q.Update?
  {
    && (q.newProduct.None? || (q.newProduct.value > 0 && q.newProduct.value in prices))
    && (q.newDiscount.None? || q.newDiscount.value > 0) && (q.newThreshold.None? || q.newThreshold.value >= 0)
    && (q.newStatus.None? || q.newStatus.value == 1 || q.newStatus.value == 2)
    && !(q.newProduct.None? && q.newDiscount.None? && q.newThreshold.None? && q.newStarts.None? && q.newEnds.None?
         && q.newStatus.None?)
  }

  /** Row `r'` is row `r` with exactly the given fields replaced; a bound can be given as open. */
  predicate Revises(r: Rule, r': Rule, q: Request)
    requires q.Update?
  {
    && r'.kind == r.kind
    && (match q.newProduct case Some(product) => r'.product == product case None => r'.product == r.product)
    && (match q.newDiscount case Some(discount) => r'.discount == discount case None => r'.discount == r.discount)
    && (match q.newThreshold
        case Some(threshold) => r'.threshold == threshold case None => r'.threshold == r.threshold)
    && (match q.newStarts case Some(starts) => r'.window.starts == starts
        case None => r'.window.starts == r.window.starts)
    && (match q.newEnds case Some(ends) => r'.window.ends == ends case None => r'.window.ends == r.window.ends)
    && (match q.newStatus case Some(status) => r'.status == status case None => r'.status == r.status)
  }

  lemma RevisedOnce(r: Rule, r': Rule, r'': Rule, q: Request)
    requires q.Update? && Revises(r, r', q) && Revises(r, r'', q)
    ensures r' == r''
  {
  }

  lemma PatchRevises(r: Rule, q: Request)
    requires q.Update?
    ensures Revises(r, Patched(r, q), q)
  {
  }

  /** The revised row is acceptable: a new product or price is within the sale price, a new window is in order, and an
      active row with a new product, status or window is the only one at every instant. */
  ghost predicate Acceptable(t: Table, prices: Prices, q: Request, r: Rule)
    requires q.Update?
  {
    && (q.newProduct.Some? || q.newDiscount.Some? ==> r.product in prices && r.discount <= prices[r.product])
    && ValidWindow(r.window)
    && (r.status == 1 && (q.newProduct.Some? || q.newStatus.Some? || q.newStarts.Some? || q.newEnds.Some?) ==>
          !Taken(t, r.product, q.id, r.window))
  }

  /** An update is accepted exactly for a known rule, well-formed fields and an acceptable revision, and then only that
      row changes, to the revision. Otherwise nothing changes. */
  lemma UpdateOutcome(t: Table, prices: Prices, q: Request, r: Rule)
    requires Inv(t) && q.Update? && (q.id in t.rules ==> Revises(t.rules[q.id], r, q))
    ensures var (t', out) := Updated(t, prices, q);
            && (out == Ok <==> q.id in t.rules && AskedWell(prices, q) && Acceptable(t, prices, q, r))
            && t' == (if out == Ok then Table(t.rules[q.id := r], t.nextId) else t)
  {
    if q.id in t.rules {
      PatchRevises(t.rules[q.id], q);
      RevisedOnce(t.rules[q.id], r, Patched(t.rules[q.id], q), q);
      if ValidWindow(r.window) {
        ConflictIsExact(t, r.product, q.id, r.window);
      }
    }
  }

  /** An update names what it does not find: the new product, or the rule itself once the fields are well-formed. */
  lemma UpdateNotFound(t: Table, prices: Prices, q: Request)
    requires q.Update?
    ensures Updated(t, prices, q).1 == NotFound <==>
            q.id > 0 && ((q.newProduct.Some? && q.newProduct.value > 0 && q.newProduct.value !in prices)
                         || (AskedWell(prices, q) && q.id !in t.rules))
  {
  }

  // ------------------------------------------------------------------------------------------------------------
  // Rows on file
  // ------------------------------------------------------------------------------------------------------------

  ghost predicate AllWellFormed(t: Table) {
    forall id :: id in t.rules ==>
      var r := t.rules[id]; WellFormed(r.product, r.kind, r.discount, r.threshold, r.window, r.status)
  }

  lemma ApplyWellFormed(t: Table, prices: Prices, q: Request)
    requires Inv(t) && AllWellFormed(t)
    ensures AllWellFormed(Apply(t, prices, q).0)
  {
    ApplyKeeps(t, prices, q);
  }

  lemma {:induction false} RunWellFormed(t: Table, requests: seq<(Prices, Request)>)
    requires Inv(t) && AllWellFormed(t)
    ensures AllWellFormed(Run(t, requests))
    decreases |requests|
  {
    if requests != [] {
      ApplyKeeps(t, requests[0].0, requests[0].1);
      ApplyWellFormed(t, requests[0].0, requests[0].1);
      RunWellFormed(Apply(t, requests[0].0, requests[0].1).0, requests[1..]);
    }
  }

  /** After any series of requests every row has a positive price, a threshold that is not negative, an ordered window,
      a known status and the limited-price kind. */
  lemma RowsAreWellFormed(requests: seq<(Prices, Request)>, id: RuleId)
    requires id in Run(Table(map[], 1), requests).rules
    ensures var r := Run(Table(map[], 1), requests).rules[id];
            WellFormed(r.product, r.kind, r.discount, r.threshold, r.window, r.status)
  {
    RunWellFormed(Table(map[], 1), requests);
  }
}
