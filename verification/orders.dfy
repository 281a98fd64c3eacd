/**
 * The order record of models/Order.js: an immutable identity (id, type,
 * creation time) and a three-state status lifecycle
 * PENDING -> PROCESSING -> COMPLETE, with a reset PROCESSING -> PENDING.
 * Wall-clock `Date` values are replaced by a logical clock `now`.
 */
module Orders {
  import opened Basics

  /** The priority class (`type` in the source; `type` is a Dafny keyword). */
  datatype OrderType = Normal | Vip

  datatype OrderStatus = Pending | Processing | Complete

  datatype Order = Order(
    id: nat,
    kind: OrderType,
    status: OrderStatus,
    createdAt: nat,
    processingStartTime: Option<nat>,
    completedAt: Option<nat>,
    completedByBotId: Option<nat>)

  /** The timestamps agree with the status, as every reachable order keeps them. */
  ghost predicate WellFormed(o: Order) {
    && (o.processingStartTime.Some? <==> o.status != Pending)
    && (o.completedAt.Some? <==> o.status == Complete)
    && (o.completedByBotId.Some? ==> o.status == Complete)
  }

  /** The constructor: a fresh PENDING order with no processing history. */
  function NewOrder(id: nat, kind: OrderType, now: nat): (o: Order)
    ensures o.id == id && o.kind == kind && o.createdAt == now
    ensures o.status == Pending
    ensures o.processingStartTime.None? && o.completedAt.None? && o.completedByBotId.None?
    ensures WellFormed(o)
  {
    Order(id, kind, Pending, now, None, None, None)
  }

  /** `startProcessing`: PROCESSING, stamped with the start time; nothing else moves. */
  function StartProcessing(o: Order, now: nat): (r: Order)
    ensures r.status == Processing && r.processingStartTime == Some(now)
    ensures r.id == o.id && r.kind == o.kind && r.createdAt == o.createdAt
    ensures r.completedAt == o.completedAt && r.completedByBotId == o.completedByBotId
    ensures o.status == Pending && WellFormed(o) ==> WellFormed(r)
  {
    o.(status := Processing, processingStartTime := Some(now))
  }

  /**
   * `complete(botId)`: COMPLETE, stamped with the completion time, and the
   * completing bot recorded as exactly the argument (absent when none is passed).
   */
  function MarkComplete(o: Order, botId: Option<nat>, now: nat): (r: Order)
    ensures r.status == Complete && r.completedAt == Some(now) && r.completedByBotId == botId
    ensures r.id == o.id && r.kind == o.kind && r.createdAt == o.createdAt
    ensures r.processingStartTime == o.processingStartTime
    ensures o.status == Processing && WellFormed(o) ==> WellFormed(r)
  {
    o.(status := Complete, completedAt := Some(now), completedByBotId := botId)
  }

  /** `resetToPending`: back to PENDING with the start time cleared. */
  function ResetToPending(o: Order): (r: Order)
    ensures r.status == Pending && r.processingStartTime.None?
    ensures r.id == o.id && r.kind == o.kind && r.createdAt == o.createdAt
    ensures r.completedAt == o.completedAt && r.completedByBotId == o.completedByBotId
    ensures o.status == Processing && WellFormed(o) ==> WellFormed(r)
  {
    o.(status := Pending, processingStartTime := None)
  }

  /** Resetting a freshly started order undoes the start completely. */
  lemma ResetUndoesStart(o: Order, now: nat)
    requires WellFormed(o) && o.status == Pending
    ensures ResetToPending(StartProcessing(o, now)) == o
  {
  }

  /** The three mutators of the record, as data. */
  datatype OrderOp = StartOp(startAt: nat) | CompleteOp(byBot: Option<nat>, doneAt: nat) | ResetOp

  function Apply(o: Order, op: OrderOp): Order {
    match op
    case StartOp(t) => StartProcessing(o, t)
    case CompleteOp(b, t) => MarkComplete(o, b, t)
    case ResetOp => ResetToPending(o)
  }

  function ApplyAll(o: Order, ops: seq<OrderOp>): Order
    decreases |ops|
  {
    if |ops| == 0 then o else ApplyAll(Apply(o, ops[0]), ops[1..])
  }

  /** The status an operation is meant to be applied in (the lifecycle edges). */
  predicate Legal(s: OrderStatus, op: OrderOp) {
    match op
    case StartOp(_) => s == Pending
    case CompleteOp(_, _) => s == Processing
    case ResetOp => s == Processing
  }

  /** Every operation in `ops` is applied in the status it is meant for. */
  predicate LegalRun(o: Order, ops: seq<OrderOp>)
    decreases |ops|
  {
    |ops| == 0 || (Legal(o.status, ops[0]) && LegalRun(Apply(o, ops[0]), ops[1..]))
  }

  /** No sequence of operations changes an order's id, type or creation time. */
  lemma {:induction false} IdentityNeverChanges(o: Order, ops: seq<OrderOp>)
    ensures ApplyAll(o, ops).id == o.id
    ensures ApplyAll(o, ops).kind == o.kind
    ensures ApplyAll(o, ops).createdAt == o.createdAt
    decreases |ops|
  {
    if |ops| > 0 {
      IdentityNeverChanges(Apply(o, ops[0]), ops[1..]);
    }
  }

  /** Following the lifecycle edges keeps the timestamps consistent with the status. */
  lemma {:induction false} LegalRunKeepsWellFormed(o: Order, ops: seq<OrderOp>)
    requires WellFormed(o) && LegalRun(o, ops)
    ensures WellFormed(ApplyAll(o, ops))
    decreases |ops|
  {
    if |ops| > 0 {
      LegalRunKeepsWellFormed(Apply(o, ops[0]), ops[1..]);
    }
  }

  /** COMPLETE is terminal: a legal run that starts there is empty. */
  lemma CompleteIsTerminal(o: Order, ops: seq<OrderOp>)
    requires o.status == Complete && LegalRun(o, ops)
    ensures |ops| == 0
  {
  }

  /**
   * `findIndex(o => o.id === id)`: the first position holding that id, or
   * none when no order has it.
   */
  function Find(orders: seq<Order>, id: nat): (r: Option<nat>)
    ensures r.Some? ==> r.value < |orders| && orders[r.value].id == id
    ensures r.Some? ==> forall j :: 0 <= j < r.value ==> orders[j].id != id
    ensures r.None? ==> forall j :: 0 <= j < |orders| ==> orders[j].id != id
  {
    if |orders| == 0 then None
    else if orders[0].id == id then Some(0)
    else match Find(orders[1..], id)
      case None => None
      case Some(j) => Some(j + 1)
  }

  /** No two orders share an id. */
  ghost predicate IdsDistinct(orders: seq<Order>) {
    forall j, k :: 0 <= j < k < |orders| ==> orders[j].id != orders[k].id
  }

  /** With distinct ids, the order found by id is the only one carrying it. */
  lemma FindUnique(orders: seq<Order>, id: nat, k: nat)
    requires IdsDistinct(orders) && k < |orders| && orders[k].id == id
    ensures Find(orders, id) == Some(k)
  {
  }
}
