/** What the refund transactions answer and write, case by case, and what their runs add up to: an order is refunded at
    most once and never without a reason on file, and the log tells its whole history. */
module RefundLaws {
  import opened Wrappers
  import opened Refund

  // ------------------------------------------------------------------------------------------------------------
  // Answers
  // ------------------------------------------------------------------------------------------------------------

  /** A refund request is accepted exactly from the owner of a paid or shipped order under an unused refund id; each
      refusal has its own reason and changes nothing. */
  lemma RequestOutcome(t: Tables, o: OrderId, userId: UserId, r: RefundId)
    ensures var (t', out) := Requested(t, o, userId, r);
            && (out == BadRequest <==> o == "")
            && (out == NotFound <==> o != "" && o !in t.orders)
            && (out == PermissionDenied <==> o != "" && o in t.orders && t.orders[o].userId != userId)
            && (out == WrongStatus <==> o != "" && o in t.orders && t.orders[o].userId == userId
                                        && t.orders[o].status != Paid && t.orders[o].status != Shipped)
            && (out == Failed <==> o != "" && o in t.orders && t.orders[o].userId == userId
                                   && (t.orders[o].status == Paid || t.orders[o].status == Shipped) && r in t.refunds)
            && out in {Ok, BadRequest, NotFound, PermissionDenied, WrongStatus, Failed}
            && (out == Ok || t' == t)
  {
  }

  /** An accepted request leaves the order waiting, the refund submitted and the status it came from on the log. */
  lemma RequestWrites(t: Tables, o: OrderId, userId: UserId, r: RefundId)
    requires Requested(t, o, userId, r).1 == Ok
    ensures var t' := Requested(t, o, userId, r).0;
            && o in t.orders && o in t'.orders && t'.orders[o] == Order(RefundRequested, userId)
            && r in t'.refunds && t'.refunds[r].orderId == o && t'.refunds[r].status == Submitted
            && LastRequest(t'.log, o) == Some(t.orders[o].status)
            && (forall other :: other != r ==> SameRefund(t, t', other))
            && (forall other :: other != o ==> SameOrder(t, t', other))
  {
    LogAppend(t.log, LogRow(o, t.orders[o].status, RefundRequested), o);
  }

  /** An audit is accepted exactly for an open refund of an order that waits for it, if the stock of an approved one can
      be given back; each refusal has its own reason and changes nothing. */
  lemma AuditOutcome(t: Tables, r: RefundId, approve: bool, works: bool)
    ensures var (t', out) := AuditTx(t, r, approve, works);
            var known := r in t.refunds && t.refunds[r].orderId in t.orders;
            var open := known && (t.refunds[r].status == Submitted || t.refunds[r].status == Processing);
            && (out == NotFound <==> !known)
            && (out == Audited <==> known && !open)
            && (out == Changed <==> open && t.orders[t.refunds[r].orderId].status != RefundRequested)
            && (out == Failed <==> open && t.orders[t.refunds[r].orderId].status == RefundRequested
                                   && approve && !works)
            && out in {Ok, NotFound, Audited, Changed, Failed}
            && (out == Ok || t' == t)
  {
  }

  /** A change of status happens exactly from the required one, if its side effect works, and touches no other order and
      no refund. */
  lemma MoveOutcome(t: Tables, o: OrderId, from: Status, to: Status, works: bool)
    ensures var (t', out) := Move(t, o, from, to, works);
            && (out == Ok <==> Stands(t, o, from) && works) && (out == Failed <==> Stands(t, o, from) && !works)
            && out in {Ok, Changed, Failed} && (out == Ok || t' == t)
            && (out == Ok ==> Stands(t', o, to) && t'.orders[o].userId == t.orders[o].userId)
            && t'.refunds == t.refunds && forall other :: other != o ==> SameOrder(t, t', other)
  {
  }

  /** The owner of an order never changes. */
  lemma {:induction false} OwnerStays(t: Tables, es: seq<Event>, o: OrderId)
    requires o in t.orders
    ensures o in Run(t, es).orders && Run(t, es).orders[o].userId == t.orders[o].userId
    decreases |es|
  {
    if es != [] {
      OwnerStaysOnce(t, es[0], o);
      OwnerStays(Apply(t, es[0]).0, es[1..], o);
    }
  }

  lemma OwnerStaysOnce(t: Tables, e: Event, o: OrderId)
    requires o in t.orders
    ensures o in Apply(t, e).0.orders && Apply(t, e).0.orders[o].userId == t.orders[o].userId
  {
  }

  /** So whatever happened to an order since, nobody but who placed it can request its refund. */
  lemma OnlyOwnerRequests(t: Tables, o: OrderId, placer: UserId, es: seq<Event>, userId: UserId, r: RefundId)
    requires Apply(t, Place(o, placer)).1 == Ok
    ensures var t' := Run(Apply(t, Place(o, placer)).0, es);
            Requested(t', o, userId, r).1 == Ok ==> userId == placer
  {
    OwnerStays(Apply(t, Place(o, placer)).0, es, o);
  }

  // ------------------------------------------------------------------------------------------------------------
  // Refunded once, and for a reason
  // ------------------------------------------------------------------------------------------------------------

  predicate SucceededFor(t: Tables, r: RefundId, o: OrderId) {
    r in t.refunds && t.refunds[r] == RefundOrder(o, Succeeded)
  }

  /** A succeeded refund has its order refunded, and no order has two. */
  ghost predicate PaidBack(t: Tables) {
    && (forall r :: r in t.refunds && t.refunds[r].status == Succeeded ==> Stands(t, t.refunds[r].orderId, Refunded))
    && (forall r, r', o :: SucceededFor(t, r, o) && SucceededFor(t, r', o) ==> r == r')
  }

  lemma RefundedStays(t: Tables, e: Event, o: OrderId)
    requires Stands(t, o, Refunded)
    ensures Stands(Apply(t, e).0, o, Refunded)
  {
    FinalStays(t, o, e);
  }

  /** How a refund comes to have succeeded. */
  lemma NewlySucceeded(t: Tables, e: Event, r: RefundId, o: OrderId)
    requires SucceededFor(Apply(t, e).0, r, o)
    ensures SucceededFor(t, r, o) || (e.AuditRefund? && e.r == r && e.approve && Stands(t, o, RefundRequested)
                                      && Stands(Apply(t, e).0, o, Refunded))
  {
  }

  lemma ApplyPaysBack(t: Tables, e: Event)
    requires PaidBack(t)
    ensures PaidBack(Apply(t, e).0)
  {
    var t' := Apply(t, e).0;
    forall r | r in t'.refunds && t'.refunds[r].status == Succeeded
      ensures Stands(t', t'.refunds[r].orderId, Refunded)
    {
      var o := t'.refunds[r].orderId;
      assert SucceededFor(t', r, o);
      NewlySucceeded(t, e, r, o);
      if SucceededFor(t, r, o) {
        RefundedStays(t, e, o);
      }
    }
    forall r, r', o | SucceededFor(t', r, o) && SucceededFor(t', r', o)
      ensures r == r'
    {
      NewlySucceeded(t, e, r, o);
      NewlySucceeded(t, e, r', o);
    }
  }

  /** Order `o` was refunded at once, without a request, somewhere in the run. */
  predicate RefundedAtOnce(t: Tables, es: seq<Event>, o: OrderId)
    decreases |es|
  {
    es != [] && ((es[0].RefundNow? && es[0].o == o && Apply(t, es[0]).1 == Ok)
                 || RefundedAtOnce(Apply(t, es[0]).0, es[1..], o))
  }

  ghost predicate HasSucceeded(t: Tables, o: OrderId) {
    exists r :: SucceededFor(t, r, o)
  }

  lemma NewlyRefunded(t: Tables, e: Event, o: OrderId)
    requires Stands(Apply(t, e).0, o, Refunded)
    ensures Stands(t, o, Refunded) || HasSucceeded(Apply(t, e).0, o)
            || (e.RefundNow? && e.o == o && Apply(t, e).1 == Ok)
  {
    if !Stands(t, o, Refunded) && e.AuditRefund? {
      assert Refunded != RestoreStatus(t.log, o);
      assert SucceededFor(Apply(t, e).0, e.r, o);
    }
  }

  lemma SucceededStays(t: Tables, es: seq<Event>, r: RefundId, o: OrderId)
    requires Inv(t) && SucceededFor(t, r, o)
    ensures SucceededFor(Run(t, es), r, o)
  {
    AuditIsFinal(t, r, es);
  }

  lemma {:induction false} RunPaysBack(t: Tables, es: seq<Event>, o: OrderId)
    requires Inv(t) && PaidBack(t)
    ensures PaidBack(Run(t, es))
    ensures Stands(Run(t, es), o, Refunded) ==>
              Stands(t, o, Refunded) || RefundedAtOnce(t, es, o) || HasSucceeded(Run(t, es), o)
    decreases |es|
  {
    if es != [] {
      var t1 := Apply(t, es[0]).0;
      ApplyKeeps(t, es[0]);
      ApplyPaysBack(t, es[0]);
      RunPaysBack(t1, es[1..], o);
      if Stands(t1, o, Refunded) {
        NewlyRefunded(t, es[0], o);
        if HasSucceeded(t1, o) {
          var r :| SucceededFor(t1, r, o);
          SucceededStays(t1, es[1..], r, o);
        }
      }
    }
  }

  lemma {:induction false} AtOnceIsRefunded(t: Tables, es: seq<Event>, o: OrderId)
    requires RefundedAtOnce(t, es, o)
    ensures Stands(Run(t, es), o, Refunded)
    decreases |es|
  {
    if es[0].RefundNow? && es[0].o == o && Apply(t, es[0]).1 == Ok {
      FinalIsAbsorbing(Apply(t, es[0]).0, o, es[1..]);
    } else {
      AtOnceIsRefunded(Apply(t, es[0]).0, es[1..], o);
    }
  }

  lemma {:induction false} NoneSucceeds(t: Tables, es: seq<Event>, o: OrderId)
    requires Stands(t, o, Refunded) && !HasSucceeded(t, o)
    ensures !HasSucceeded(Run(t, es), o)
    decreases |es|
  {
    if es != [] {
      RefundedStays(t, es[0], o);
      NoneYet(t, es[0], o);
      NoneSucceeds(Apply(t, es[0]).0, es[1..], o);
    }
  }

  lemma NoneYet(t: Tables, e: Event, o: OrderId)
    requires Stands(t, o, Refunded) && !HasSucceeded(t, o)
    ensures !HasSucceeded(Apply(t, e).0, o)
  {
    if HasSucceeded(Apply(t, e).0, o) {
      var r :| SucceededFor(Apply(t, e).0, r, o);
      NewlySucceeded(t, e, r, o);
      assert false;
    }
  }

  lemma {:induction false} AtOnceAlone(t: Tables, es: seq<Event>, o: OrderId)
    requires PaidBack(t) && RefundedAtOnce(t, es, o)
    ensures !HasSucceeded(Run(t, es), o)
    decreases |es|
  {
    var t1 := Apply(t, es[0]).0;
    ApplyPaysBack(t, es[0]);
    if es[0].RefundNow? && es[0].o == o && Apply(t, es[0]).1 == Ok {
      assert t1.refunds == t.refunds;
      NoneSucceeds(t1, es[1..], o);
    } else {
      AtOnceAlone(t1, es[1..], o);
    }
  }

  /** Over every run an order is refunded exactly when a refund of it succeeded or it was refunded at once; never both,
      and at most one refund of it ever succeeds. */
  lemma RefundedIffPaidBack(es: seq<Event>, o: OrderId)
    ensures var t := Run(EMPTY, es);
            && (Stands(t, o, Refunded) <==> HasSucceeded(t, o) || RefundedAtOnce(EMPTY, es, o))
            && !(HasSucceeded(t, o) && RefundedAtOnce(EMPTY, es, o))
            && (forall r, r' :: SucceededFor(t, r, o) && SucceededFor(t, r', o) ==> r == r')
  {
    RunPaysBack(EMPTY, es, o);
    if RefundedAtOnce(EMPTY, es, o) {
      AtOnceIsRefunded(EMPTY, es, o);
      AtOnceAlone(EMPTY, es, o);
    }
  }

  // ------------------------------------------------------------------------------------------------------------
  // The log is the history
  // ------------------------------------------------------------------------------------------------------------

  /** The changes of status there are. */
  predicate Legal(from: Status, to: Status) {
    match from
    case PendingPayment => to == Paid || to == Closed
    case Paid => to == Shipped || to == RefundRequested || to == Refunded
    case Shipped => to == Completed || to == RefundRequested || to == Refunded
    case RefundRequested => to == Paid || to == Shipped || to == Refunded
    case _ => false
  }

  /** The status an order is in after the changes on the log. */
  function Replayed(log: seq<LogRow>, o: OrderId): Status {
    if log == [] then PendingPayment
    else
      var row := log[|log| - 1];
      if row.orderId == o then row.to else Replayed(log[..|log| - 1], o)
  }

  /** Every change on the log is legal and begins where the one before it ended. */
  ghost predicate Chained(log: seq<LogRow>) {
    forall i :: 0 <= i < |log| ==> Legal(log[i].from, log[i].to) && log[i].from == Replayed(log[..i], log[i].orderId)
  }

  ghost predicate Logged(t: Tables) {
    && Chained(t.log)
    && (forall o :: o in t.orders ==> t.orders[o].status == Replayed(t.log, o))
    && (forall o :: o !in t.orders ==> Replayed(t.log, o) == PendingPayment)
  }

  lemma ReplayAppend(log: seq<LogRow>, row: LogRow, o: OrderId)
    ensures Replayed(log + [row], o) == if row.orderId == o then row.to else Replayed(log, o)
  {
    assert (log + [row])[..|log|] == log;
  }

  lemma ChainAppend(log: seq<LogRow>, row: LogRow)
    requires Chained(log) && Legal(row.from, row.to) && row.from == Replayed(log, row.orderId)
    ensures Chained(log + [row])
  {
    var log' := log + [row];
    forall i | 0 <= i < |log'|
      ensures Legal(log'[i].from, log'[i].to) && log'[i].from == Replayed(log'[..i], log'[i].orderId)
    {
      assert log'[..i] == log[..i];
    }
  }

  lemma MovedLogged(t: Tables, t': Tables, o: OrderId, from: Status, to: Status)
    requires Logged(t) && Stands(t, o, from) && Legal(from, to)
    requires t'.orders == Moved(t, o, from, to).orders && t'.log == Moved(t, o, from, to).log
    ensures Logged(t')
  {
    var row := LogRow(o, from, to);
    ChainAppend(t.log, row);
    forall x
      ensures Replayed(t'.log, x) == if x == o then to else Replayed(t.log, x)
    {
      ReplayAppend(t.log, row, x);
    }
  }

  lemma ApplyLogged(t: Tables, e: Event)
    requires Logged(t)
    ensures Logged(Apply(t, e).0)
  {
    if Apply(t, e).1 == Ok {
      var t' := Apply(t, e).0;
      match e {
        case Place(_, _) =>
        case Pay(o) => MovedLogged(t, t', o, PendingPayment, Paid);
        case Ship(o) => MovedLogged(t, t', o, Paid, Shipped);
        case ConfirmReceipt(o) => MovedLogged(t, t', o, Shipped, Completed);
        case Close(o, _) => MovedLogged(t, t', o, PendingPayment, Closed);
        case RefundNow(o, seen, _) => MovedLogged(t, t', o, seen, Refunded);
        case RequestRefund(o, seen, _) => MovedLogged(t, t', o, seen, RefundRequested);
        case AuditRefund(r, approve, _) =>
          var o := t.refunds[r].orderId;
          MovedLogged(t, t', o, RefundRequested, if approve then Refunded else RestoreStatus(t.log, o));
      }
    }
  }

  lemma {:induction false} RunLogged(t: Tables, es: seq<Event>)
    requires Logged(t)
    ensures Logged(Run(t, es))
    decreases |es|
  {
    if es != [] {
      ApplyLogged(t, es[0]);
      RunLogged(Apply(t, es[0]).0, es[1..]);
    }
  }

  /** In every reachable state the log alone tells each order's status: replaying it gives exactly the status on file,
      and every change on it is legal and begins where the one before it ended. */
  lemma LogIsHistory(es: seq<Event>, o: OrderId)
    ensures var t := Run(EMPTY, es);
            Chained(t.log) && (o in t.orders ==> t.orders[o].status == Replayed(t.log, o))
  {
    RunLogged(EMPTY, es);
  }
}
