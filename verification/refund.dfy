/** Orders and their refunds: guarded status changes, each one transaction, in any interleaving. */
module Refund {
  import opened Wrappers

  type OrderId = string
  type RefundId = string
  type UserId = int

  datatype Status = PendingPayment | Paid | Closed | Shipped | Completed | RefundRequested | Refunded {
    predicate CanRequestRefund() {
      this == Paid || this == Shipped
    }

    predicate Final() {
      this == Closed || this == Completed || this == Refunded
    }
  }

  datatype Order = Order(status: Status, userId: UserId)

  /** The status of a refund row: submitted and processing ones are open. */
  datatype RefundStatus = Submitted | Processing | Succeeded | Rejected

  datatype RefundOrder = RefundOrder(orderId: OrderId, status: RefundStatus)

  datatype LogRow = LogRow(orderId: OrderId, from: Status, to: Status)

  datatype Tables = Tables(orders: map<OrderId, Order>, refunds: map<RefundId, RefundOrder>, log: seq<LogRow>)

  datatype Outcome = Ok | BadRequest | NotFound | PermissionDenied | WrongStatus | Changed | Audited | Failed

  // ------------------------------------------------------------------------------------------------------------
  // The transactions as functions
  // ------------------------------------------------------------------------------------------------------------

  predicate Stands(t: Tables, o: OrderId, status: Status) {
    o in t.orders && t.orders[o].status == status
  }

  /** `UPDATE orders SET status = to WHERE id = o AND status = from`, with its log row. */
  function Moved(t: Tables, o: OrderId, from: Status, to: Status): Tables
    requires o in t.orders
  {
    t.(orders := t.orders[o := t.orders[o].(status := to)], log := t.log + [LogRow(o, from, to)])
  }

  function Move(t: Tables, o: OrderId, from: Status, to: Status, works: bool): (Tables, Outcome) {
    if !Stands(t, o, from) then (t, Changed) else if !works then (t, Failed) else (Moved(t, o, from, to), Ok)
  }

  /** The second half of a refund request: `seen` is the status read before the transaction began. */
  function RequestTx(t: Tables, o: OrderId, seen: Status, refundId: RefundId): (Tables, Outcome) {
    if !Stands(t, o, seen) then (t, Changed)
    else if refundId in t.refunds then (t, Failed)
    else (Moved(t, o, seen, RefundRequested).(refunds := t.refunds[refundId := RefundOrder(o, Submitted)]), Ok)
  }

  function RequestChecks(t: Tables, o: OrderId, userId: UserId): Outcome {
    if o == "" then BadRequest
    else if o !in t.orders then NotFound
    else if t.orders[o].userId != userId then PermissionDenied
    else if !t.orders[o].status.CanRequestRefund() then WrongStatus
    else Ok
  }

  /** A refund request with nothing between its checks and its transaction. */
  function Requested(t: Tables, o: OrderId, userId: UserId, refundId: RefundId): (Tables, Outcome) {
    var checked := RequestChecks(t, o, userId);
    if checked != Ok || o !in t.orders then (t, checked) else RequestTx(t, o, t.orders[o].status, refundId)
  }

  predicate Open(t: Tables, r: RefundId) {
    r in t.refunds && (t.refunds[r].status == Submitted || t.refunds[r].status == Processing)
  }

  /** The status from which the latest refund request of an order came. */
  function LastRequest(log: seq<LogRow>, o: OrderId): Option<Status> {
    if log == [] then None
    else
      var row := log[|log| - 1];
      if row.orderId == o && row.to == RefundRequested then Some(row.from) else LastRequest(log[..|log| - 1], o)
  }

  function RestoreStatus(log: seq<LogRow>, o: OrderId): Status {
    var logged := LastRequest(log, o).GetOr(Paid);
    if logged.CanRequestRefund() then logged else Paid
  }

  function AuditTx(t: Tables, r: RefundId, approve: bool, works: bool): (Tables, Outcome) {
    if r !in t.refunds || t.refunds[r].orderId !in t.orders then (t, NotFound)
    else if !Open(t, r) then (t, Audited)
    else
      var o := t.refunds[r].orderId;
      var to := if approve then Refunded else RestoreStatus(t.log, o);
      var (t', out) := Move(t, o, RefundRequested, to, works || !approve);
      if out != Ok then (t, out)
      else (t'.(refunds := t.refunds[r := RefundOrder(o, if approve then Succeeded else Rejected)]), Ok)
  }

  // ------------------------------------------------------------------------------------------------------------
  // The handlers, on the tables in place
  // ------------------------------------------------------------------------------------------------------------

  class OrderTables {
    var orders: map<OrderId, Order>
    var refunds: map<RefundId, RefundOrder>
    var log: seq<LogRow>

    constructor ()
      ensures Value() == Tables(map[], map[], [])
    {
      orders, refunds, log := map[], map[], [];
    }

    function Value(): Tables
      reads this
    {
      Tables(orders, refunds, log)
    }

    method RequestRefund(o: OrderId, userId: UserId, refundId: RefundId) returns (out: Outcome)
      modifies this
      ensures (Value(), out) == Requested(old(Value()), o, userId, refundId)
    {
      if o == "" {
        return BadRequest;
      }
      if o !in orders {
        return NotFound;
      }
      if orders[o].userId != userId {
        return PermissionDenied;
      }
      var currentStatus := orders[o].status;
      if !currentStatus.CanRequestRefund() {
        return WrongStatus;
      }
      if refundId in refunds {
        return Failed;
      }
      orders := orders[o := orders[o].(status := RefundRequested)];
      refunds := refunds[refundId := RefundOrder(o, Submitted)];
      log := log + [LogRow(o, currentStatus, RefundRequested)];
      return Ok;
    }

    method AuditRefund(r: RefundId, approve: bool, works: bool) returns (out: Outcome)
      modifies this
      ensures (Value(), out) == AuditTx(old(Value()), r, approve, works)
    {
      if r !in refunds || refunds[r].orderId !in orders {
        return NotFound;
      }
      var o := refunds[r].orderId;
      if refunds[r].status != Submitted && refunds[r].status != Processing {
        return Audited;
      }
      if orders[o].status != RefundRequested {
        return Changed;
      }
      if approve {
        if !works {
          return Failed;
        }
        refunds := refunds[r := RefundOrder(o, Succeeded)];
        orders := orders[o := orders[o].(status := Refunded)];
        log := log + [LogRow(o, RefundRequested, Refunded)];
      } else {
        var restoreStatus := FindLastRequest(o);
        if restoreStatus != Paid && restoreStatus != Shipped {
          restoreStatus := Paid;
        }
        refunds := refunds[r := RefundOrder(o, Rejected)];
        orders := orders[o := orders[o].(status := restoreStatus)];
        log := log + [LogRow(o, RefundRequested, restoreStatus)];
      }
      return Ok;
    }

    /** The newest log row of a refund request, paid when there is none. */
    method FindLastRequest(o: OrderId) returns (status: Status)
      ensures status == LastRequest(log, o).GetOr(Paid)
    {
      var i := |log|;
      assert log[..i] == log;
      while i > 0
        invariant 0 <= i <= |log|
        invariant LastRequest(log[..i], o) == LastRequest(log, o)
      {
        var row := log[i - 1];
        assert log[..i][..i - 1] == log[..i - 1];
        if row.orderId == o && row.to == RefundRequested {
          return row.from;
        }
        i := i - 1;
      }
      return Paid;
    }

    /** Shipping, closing and refunding at once: the status changes only from the one required. */
    method ChangeStatus(o: OrderId, from: Status, to: Status, works: bool) returns (out: Outcome)
      modifies this
      ensures (Value(), out) == Move(old(Value()), o, from, to, works)
    {
      if o !in orders || orders[o].status != from {
        return Changed;
      }
      if !works {
        return Failed;
      }
      orders := orders[o := orders[o].(status := to)];
      log := log + [LogRow(o, from, to)];
      return Ok;
    }
  }

  // ------------------------------------------------------------------------------------------------------------
  // Runs
  // ------------------------------------------------------------------------------------------------------------

  /** Transactions. A request and an immediate refund act on the status read earlier, which may be out of date. */
  datatype Event =
    | Place(o: OrderId, userId: UserId)
    | Pay(o: OrderId)
    | Ship(o: OrderId)
    | ConfirmReceipt(o: OrderId)
    | Close(o: OrderId, works: bool)
    | RefundNow(o: OrderId, seen: Status, works: bool)
    | RequestRefund(o: OrderId, seen: Status, r: RefundId)
    | AuditRefund(r: RefundId, approve: bool, works: bool)

  function Apply(t: Tables, e: Event): (Tables, Outcome) {
    match e
    case Place(o, userId) => if o in t.orders
        then (t, Failed) else (t.(orders := t.orders[o := Order(PendingPayment, userId)]), Ok)
    case Pay(o) => Move(t, o, PendingPayment, Paid, true)
    case Ship(o) => Move(t, o, Paid, Shipped, true)
    case ConfirmReceipt(o) => Move(t, o, Shipped, Completed, true)
    case Close(o, works) => Move(t, o, PendingPayment, Closed, works)
    case RefundNow(o, seen, works) => if seen.CanRequestRefund()
        then Move(t, o, seen, Refunded, works) else (t, WrongStatus)
    case RequestRefund(o, seen, r) => if seen.CanRequestRefund() then RequestTx(t, o, seen, r) else (t, WrongStatus)
    case AuditRefund(r, approve, works) => AuditTx(t, r, approve, works)
  }

  function Run(t: Tables, es: seq<Event>): Tables
    decreases |es|
  {
    if es == [] then t else Run(Apply(t, es[0]).0, es[1..])
  }

  const EMPTY := Tables(map[], map[], [])

  predicate OpenFor(t: Tables, r: RefundId, o: OrderId) {
    Open(t, r) && t.refunds[r].orderId == o
  }

  /** An order has an open refund exactly while one is requested, and then only one, and the log knows where it came
      from. */
  ghost predicate OrderOk(t: Tables, o: OrderId) {
    && (Stands(t, o, RefundRequested) <==> exists r :: OpenFor(t, r, o))
    && (forall r, r' :: OpenFor(t, r, o) && OpenFor(t, r', o) ==> r == r')
    && (Stands(t, o, RefundRequested) ==> LastRequest(t.log, o).Some? && LastRequest(t.log, o).value.CanRequestRefund())
  }

  ghost predicate Inv(t: Tables) {
    && (forall o :: OrderOk(t, o))
    && (forall r :: r in t.refunds ==> t.refunds[r].orderId in t.orders)
  }

  lemma LogAppend(log: seq<LogRow>, row: LogRow, o: OrderId)
    ensures LastRequest(log + [row], o) == if row.orderId == o && row.to == RefundRequested
            then Some(row.from) else LastRequest(log, o)
  {
    assert (log + [row])[..|log|] == log;
  }

  /** A status change away from, and not to, a requested refund. */
  lemma PlainMove(t: Tables, o: OrderId, from: Status, to: Status, x: OrderId)
    requires OrderOk(t, x) && Stands(t, o, from) && from != RefundRequested && to != RefundRequested
    ensures OrderOk(Moved(t, o, from, to), x)
  {
    var t' := Moved(t, o, from, to);
    LogAppend(t.log, LogRow(o, from, to), x);
    assert forall r :: OpenFor(t', r, x) <==> OpenFor(t, r, x);
  }

  lemma RequestKeeps(t: Tables, o: OrderId, seen: Status, r: RefundId, x: OrderId)
    requires Inv(t) && seen.CanRequestRefund()
    ensures OrderOk(RequestTx(t, o, seen, r).0, x)
  {
    assert OrderOk(t, x);
    if RequestTx(t, o, seen, r).1 == Ok {
      var t' := RequestTx(t, o, seen, r).0;
      LogAppend(t.log, LogRow(o, seen, RefundRequested), x);
      if x == o {
        assert OpenFor(t', r, o);
        assert forall r' :: OpenFor(t', r', o) ==> r' == r || OpenFor(t, r', o);
      } else {
        assert forall r' :: OpenFor(t', r', x) <==> OpenFor(t, r', x);
      }
    }
  }

  lemma AuditKeeps(t: Tables, r: RefundId, approve: bool, works: bool, x: OrderId)
    requires Inv(t)
    ensures OrderOk(AuditTx(t, r, approve, works).0, x)
  {
    assert OrderOk(t, x);
    if AuditTx(t, r, approve, works).1 == Ok {
      var o, t' := t.refunds[r].orderId, AuditTx(t, r, approve, works).0;
      LogAppend(t.log, LogRow(o, RefundRequested, t'.orders[o].status), x);
      if x == o {
        assert OpenFor(t, r, o);
        assert forall r' :: OpenFor(t', r', o) ==> OpenFor(t, r', o) && r' != r;
      } else {
        assert forall r' :: OpenFor(t', r', x) <==> OpenFor(t, r', x);
      }
    }
  }

  lemma PlaceKeeps(t: Tables, o: OrderId, userId: UserId, x: OrderId)
    requires Inv(t)
    ensures OrderOk(Apply(t, Place(o, userId)).0, x)
  {
    assert OrderOk(t, x);
    var t' := Apply(t, Place(o, userId)).0;
    assert forall r :: OpenFor(t', r, x) <==> OpenFor(t, r, x);
  }

  lemma ApplyKeeps(t: Tables, e: Event)
    requires Inv(t)
    ensures Inv(Apply(t, e).0)
  {
    forall x
      ensures OrderOk(Apply(t, e).0, x)
    {
      assert OrderOk(t, x);
      match e {
        case Place(o, userId) => PlaceKeeps(t, o, userId, x);
        case Pay(o) => if Apply(t, e).1 == Ok { PlainMove(t, o, PendingPayment, Paid, x); }
        case Ship(o) => if Apply(t, e).1 == Ok { PlainMove(t, o, Paid, Shipped, x); }
        case ConfirmReceipt(o) => if Apply(t, e).1 == Ok { PlainMove(t, o, Shipped, Completed, x); }
        case Close(o, _) => if Apply(t, e).1 == Ok { PlainMove(t, o, PendingPayment, Closed, x); }
        case RefundNow(o, seen, _) => if Apply(t, e).1 == Ok { PlainMove(t, o, seen, Refunded, x); }
        case RequestRefund(o, seen, r) => if seen.CanRequestRefund() { RequestKeeps(t, o, seen, r, x); }
        case AuditRefund(r, approve, works) => AuditKeeps(t, r, approve, works, x);
      }
    }
  }

  lemma {:induction false} RunKeeps(t: Tables, es: seq<Event>)
    requires Inv(t)
    ensures Inv(Run(t, es))
    decreases |es|
  {
    if es != [] {
      ApplyKeeps(t, es[0]);
      RunKeeps(Apply(t, es[0]).0, es[1..]);
    }
  }

  /** In every reachable state an order is in refund-requested exactly when it has exactly one open refund, and the
      fallback of a rejection is not needed: the log has the request, from paid or shipped. */
  lemma OneOpenRefund(es: seq<Event>, o: OrderId)
    ensures var t := Run(EMPTY, es);
            && (Stands(t, o, RefundRequested) <==>
                 exists r :: OpenFor(t, r, o) && forall r' :: OpenFor(t, r', o) ==> r' == r)
            && (Stands(t, o, RefundRequested) ==> LastRequest(t.log, o) == Some(RestoreStatus(t.log, o)))
  {
    RunKeeps(EMPTY, es);
    assert OrderOk(Run(EMPTY, es), o);
  }

  // ------------------------------------------------------------------------------------------------------------
  // What a rejection restores
  // ------------------------------------------------------------------------------------------------------------

  /** Refund `r` of order `o`, requested when the order was in status `s`, is still open; or it has been audited. */
  ghost predicate Follows(t: Tables, r: RefundId, o: OrderId, s: Status) {
    && r in t.refunds && t.refunds[r].orderId == o && o in t.orders
    && (Open(t, r) ==> Stands(t, o, RefundRequested) && LastRequest(t.log, o) == Some(s))
  }

  lemma MoveFollows(t: Tables, x: OrderId, from: Status, to: Status, r: RefundId, o: OrderId, s: Status)
    requires Follows(t, r, o, s) && Stands(t, x, from) && from != RefundRequested && to != RefundRequested
    ensures Follows(Moved(t, x, from, to), r, o, s)
  {
    LogAppend(t.log, LogRow(x, from, to), o);
  }

  lemma ApplyFollows(t: Tables, e: Event, r: RefundId, o: OrderId, s: Status)
    requires Inv(t) && Follows(t, r, o, s)
    ensures Follows(Apply(t, e).0, r, o, s)
    ensures !Open(t, r) ==> Apply(t, e).0.refunds[r] == t.refunds[r]
  {
    if Apply(t, e).1 == Ok {
      match e {
        case Place(_, _) =>
        case Pay(x) => MoveFollows(t, x, PendingPayment, Paid, r, o, s);
        case Ship(x) => MoveFollows(t, x, Paid, Shipped, r, o, s);
        case ConfirmReceipt(x) => MoveFollows(t, x, Shipped, Completed, r, o, s);
        case Close(x, _) => MoveFollows(t, x, PendingPayment, Closed, r, o, s);
        case RefundNow(x, seen, _) => MoveFollows(t, x, seen, Refunded, r, o, s);
        case RequestRefund(x, seen, _) => LogAppend(t.log, LogRow(x, seen, RefundRequested), o);
        case AuditRefund(r', approve, works) => AuditFollows(t, r', approve, works, r, o, s);
      }
    }
  }

  lemma AuditFollows(t: Tables, r': RefundId, approve: bool, works: bool, r: RefundId, o: OrderId, s: Status)
    requires Inv(t) && Follows(t, r, o, s) && AuditTx(t, r', approve, works).1 == Ok
    ensures Follows(AuditTx(t, r', approve, works).0, r, o, s)
  {
    var x, t' := t.refunds[r'].orderId, AuditTx(t, r', approve, works).0;
    LogAppend(t.log, LogRow(x, RefundRequested, t'.orders[x].status), o);
    assert OrderOk(t, o);
    assert OpenFor(t, r', x) && (Open(t, r) ==> OpenFor(t, r, o));
  }

  lemma {:induction false} RunFollows(t: Tables, es: seq<Event>, r: RefundId, o: OrderId, s: Status)
    requires Inv(t) && Follows(t, r, o, s)
    ensures Follows(Run(t, es), r, o, s) && Inv(Run(t, es))
    ensures !Open(t, r) ==> Run(t, es).refunds[r] == t.refunds[r]
    decreases |es|
  {
    if es != [] {
      ApplyFollows(t, es[0], r, o, s);
      ApplyKeeps(t, es[0]);
      RunFollows(Apply(t, es[0]).0, es[1..], r, o, s);
    }
  }

  predicate SameRefund(t: Tables, t': Tables, r: RefundId) {
    (r in t'.refunds <==> r in t.refunds) && (r in t.refunds ==> t'.refunds[r] == t.refunds[r])
  }

  predicate SameOrder(t: Tables, t': Tables, o: OrderId) {
    (o in t'.orders <==> o in t.orders) && (o in t.orders ==> t'.orders[o] == t.orders[o])
  }

  /** Whatever happens between a refund request and its audit, rejecting files the refund as rejected and restores
      exactly the status the order had when the refund was requested; approving files it as succeeded and refunds the
      order. No other refund and no other order changes, and nothing else can settle the refund. */
  lemma AuditSettles(t: Tables, o: OrderId, seen: Status, r: RefundId, es: seq<Event>, approve: bool)
    requires Inv(t) && Apply(t, RequestRefund(o, seen, r)).1 == Ok
    ensures var t' := Run(Apply(t, RequestRefund(o, seen, r)).0, es);
            var (done, out) := AuditTx(t', r, approve, true);
            && t.orders[o].status == seen
            && out == (if Open(t', r) then Ok else Audited)
            && (Open(t', r) ==> Stands(done, o, if approve then Refunded else t.orders[o].status))
            && (Open(t', r) ==> r in done.refunds && done.refunds[r]
                                                    == RefundOrder(o, if approve then Succeeded else Rejected))
            && (forall other :: other != r ==> SameRefund(t', done, other))
            && (forall other :: other != o ==> SameOrder(t', done, other))
  {
    var t1 := Apply(t, RequestRefund(o, seen, r)).0;
    LogAppend(t.log, LogRow(o, seen, RefundRequested), o);
    ApplyKeeps(t, RequestRefund(o, seen, r));
    RunFollows(t1, es, r, o, seen);
  }

  /** An audit is final: the refund row never changes again. */
  lemma AuditIsFinal(t: Tables, r: RefundId, es: seq<Event>)
    requires Inv(t) && r in t.refunds && !Open(t, r)
    ensures r in Run(t, es).refunds && Run(t, es).refunds[r] == t.refunds[r]
  {
    RunFollows(t, es, r, t.refunds[r].orderId, Paid);
  }

  /** Closed, completed and refunded orders stay as they are, whatever statuses were read before. */
  lemma {:induction false} FinalIsAbsorbing(t: Tables, o: OrderId, es: seq<Event>)
    requires o in t.orders && t.orders[o].status.Final()
    ensures o in Run(t, es).orders && Run(t, es).orders[o] == t.orders[o]
    decreases |es|
  {
    if es != [] {
      FinalStays(t, o, es[0]);
      FinalIsAbsorbing(Apply(t, es[0]).0, o, es[1..]);
    }
  }

  lemma FinalStays(t: Tables, o: OrderId, e: Event)
    requires o in t.orders && t.orders[o].status.Final()
    ensures o in Apply(t, e).0.orders && Apply(t, e).0.orders[o] == t.orders[o]
  {
  }
}
