/**
 * The controller of services/OrderController.js: an ordered sequence of
 * orders, a sequence of bots and the two id counters. Every public operation
 * is a pure transition on `Engine`; the timer firing of a bot is the explicit
 * event `Complete`.
 */
module Controller {
  import opened Basics
  import O = Orders
  import B = Bots

  datatype Engine = Engine(orders: seq<O.Order>, bots: seq<B.Bot>, nextOrderId: nat, nextBotId: nat)

  /** The constructor: no orders, no bots, both counters at 1. */
  function Init(): (e: Engine)
    ensures e.orders == [] && e.bots == [] && e.nextOrderId == 1 && e.nextBotId == 1
  {
    Engine([], [], 1, 1)
  }

  predicate IsPendingVip(o: O.Order) {
    o.kind == O.Vip && o.status == O.Pending
  }

  predicate IsPendingNormal(o: O.Order) {
    o.kind == O.Normal && o.status == O.Pending
  }

  // ---------------------------------------------------------------------------
  // Searches used by the assignment pass
  // ---------------------------------------------------------------------------

  /** `bots.find(bot => bot.isIdle())`, as a position. */
  function FirstIdle(bots: seq<B.Bot>): (r: Option<nat>)
    ensures r.Some? ==> r.value < |bots| && B.IsIdle(bots[r.value])
    ensures r.Some? ==> forall j :: 0 <= j < r.value ==> !B.IsIdle(bots[j])
    ensures r.None? ==> forall j :: 0 <= j < |bots| ==> !B.IsIdle(bots[j])
  {
    if |bots| == 0 then None
    else if B.IsIdle(bots[0]) then Some(0)
    else match FirstIdle(bots[1..])
      case None => None
      case Some(j) => Some(j + 1)
  }

  /** `orders.find(order => order.status === 'PENDING')`, as a position. */
  function FirstPending(orders: seq<O.Order>): (r: Option<nat>)
    ensures r.Some? ==> r.value < |orders| && orders[r.value].status == O.Pending
    ensures r.Some? ==> forall j :: 0 <= j < r.value ==> orders[j].status != O.Pending
    ensures r.None? ==> forall j :: 0 <= j < |orders| ==> orders[j].status != O.Pending
  {
    if |orders| == 0 then None
    else if orders[0].status == O.Pending then Some(0)
    else match FirstPending(orders[1..])
      case None => None
      case Some(j) => Some(j + 1)
  }

  // ---------------------------------------------------------------------------
  // Priority insertion
  // ---------------------------------------------------------------------------

  /** The position of the first pending NORMAL order (the length when there is none). */
  function FirstPendingNormal(orders: seq<O.Order>): (r: nat)
    ensures r <= |orders|
    ensures r < |orders| ==> IsPendingNormal(orders[r])
    ensures forall j :: 0 <= j < r ==> !IsPendingNormal(orders[j])
  {
    if |orders| == 0 then 0
    else if IsPendingNormal(orders[0]) then 0
    else 1 + FirstPendingNormal(orders[1..])
  }

  /** One past the last pending VIP among the first `n` orders (0 when there is none). */
  function EndOfLastPendingVip(orders: seq<O.Order>, n: nat): (r: nat)
    requires n <= |orders|
    ensures r <= n
    ensures r > 0 ==> IsPendingVip(orders[r - 1])
    ensures forall j :: r <= j < n ==> !IsPendingVip(orders[j])
  {
    if n == 0 then 0
    else if IsPendingVip(orders[n - 1]) then n
    else EndOfLastPendingVip(orders, n - 1)
  }

  /**
   * Where a VIP order is spliced in: just after the last pending VIP that
   * comes before the first pending NORMAL, or at the front when there is none.
   */
  function VipInsertIndex(orders: seq<O.Order>): (r: nat)
    ensures r <= FirstPendingNormal(orders) <= |orders|
    ensures forall j :: 0 <= j < r ==> !IsPendingNormal(orders[j])
    ensures r > 0 ==> IsPendingVip(orders[r - 1])
    ensures forall j :: r <= j < FirstPendingNormal(orders) ==> orders[j].status != O.Pending
  {
    EndOfLastPendingVip(orders, FirstPendingNormal(orders))
  }

  /**
   * The scan of `createOrder` as written: walk from the head, move the
   * insertion point past every pending VIP, stop at the first pending NORMAL.
   */
  method ScanVipInsertIndex(orders: seq<O.Order>) returns (insertIndex: nat)
    ensures insertIndex == VipInsertIndex(orders)
  {
    insertIndex := 0;
    var i := 0;
    while i < |orders|
      invariant 0 <= i <= FirstPendingNormal(orders)
      invariant insertIndex == EndOfLastPendingVip(orders, i)
    {
      if orders[i].kind == O.Vip && orders[i].status == O.Pending {
        insertIndex := i + 1;
      } else if orders[i].kind == O.Normal && orders[i].status == O.Pending {
        break;
      }
      i := i + 1;
    }
  }

  /** Where `createOrder` puts a new order of the given type. */
  function InsertPosition(orders: seq<O.Order>, kind: O.OrderType): (p: nat)
    ensures p <= |orders|
    ensures kind == O.Normal ==> p == |orders|
    ensures kind == O.Vip ==> p == VipInsertIndex(orders)
  {
    if kind == O.Vip then VipInsertIndex(orders) else |orders|
  }

  /** The splice / push of `createOrder`: the new order lands at `InsertPosition`, the rest keep their order. */
  function Enqueue(orders: seq<O.Order>, o: O.Order): (r: seq<O.Order>)
    ensures var p := InsertPosition(orders, o.kind);
      && |r| == |orders| + 1 && r[p] == o
      && (forall j :: 0 <= j < p ==> r[j] == orders[j])
      && (forall j :: p < j < |r| ==> r[j] == orders[j - 1])
  {
    var p := InsertPosition(orders, o.kind);
    orders[..p] + [o] + orders[p..]
  }

  // ---------------------------------------------------------------------------
  // The assignment pass
  // ---------------------------------------------------------------------------

  /**
   * `assignOrderToBot`: the first idle bot claims the first pending order,
   * when both exist; at most one pairing is made.
   */
  function Assign(e: Engine, now: nat): (r: Engine)
    ensures |r.orders| == |e.orders| && |r.bots| == |e.bots|
    ensures r.nextOrderId == e.nextOrderId && r.nextBotId == e.nextBotId
    ensures FirstIdle(e.bots).None? || FirstPending(e.orders).None? ==> r == e
    ensures FirstIdle(e.bots).Some? && FirstPending(e.orders).Some? ==>
      var i := FirstIdle(e.bots).value;
      var k := FirstPending(e.orders).value;
      && r.bots[i] == e.bots[i].(status := B.Processing, currentOrder := Some(e.orders[k].id), timerArmed := true)
      && r.orders[k] == O.StartProcessing(e.orders[k], now)
      && (forall j :: 0 <= j < |e.bots| && j != i ==> r.bots[j] == e.bots[j])
      && (forall m :: 0 <= m < |e.orders| && m != k ==> r.orders[m] == e.orders[m])
  {
    var idle := FirstIdle(e.bots);
    var pending := FirstPending(e.orders);
    if idle.Some? && pending.Some? then
      var i := idle.value;
      var k := pending.value;
      var claim := B.StartProcessing(e.bots[i], e.orders[k], now).value;
      e.(bots := e.bots[i := claim.bot], orders := e.orders[k := claim.order])
    else e
  }

  // ---------------------------------------------------------------------------
  // Public operations
  // ---------------------------------------------------------------------------

  datatype Created = Created(engine: Engine, order: O.Order)

  /**
   * `createOrder(type)`: a new PENDING order with the next id is queued by
   * priority, then one assignment pass runs; the order is returned as it
   * stands afterwards (it may already be PROCESSING).
   */
  function CreateOrder(e: Engine, kind: O.OrderType, now: nat): (r: Created)
    ensures r.engine.nextOrderId == e.nextOrderId + 1 && r.engine.nextBotId == e.nextBotId
    ensures r.order.id == e.nextOrderId && r.order.kind == kind && r.order.createdAt == now
    ensures r.order.status == O.Pending || r.order.status == O.Processing
    ensures var p := InsertPosition(e.orders, kind);
      && |r.engine.orders| == |e.orders| + 1
      && r.engine.orders[p] == r.order
      && (forall j :: 0 <= j < p ==> r.engine.orders[j].id == e.orders[j].id)
      && (forall j :: p < j < |r.engine.orders| ==> r.engine.orders[j].id == e.orders[j - 1].id)
    ensures |r.engine.bots| == |e.bots|
  {
    var o := O.NewOrder(e.nextOrderId, kind, now);
    var p := InsertPosition(e.orders, kind);
    var queued := e.(orders := Enqueue(e.orders, o), nextOrderId := e.nextOrderId + 1);
    var after := Assign(queued, now);
    Created(after, after.orders[p])
  }

  datatype Added = Added(engine: Engine, bot: B.Bot)

  /** `addBot`: a new IDLE bot with the next id is appended, then one assignment pass runs. */
  function AddBot(e: Engine, now: nat): (r: Added)
    ensures r.engine.nextBotId == e.nextBotId + 1 && r.engine.nextOrderId == e.nextOrderId
    ensures r.bot.id == e.nextBotId
    ensures |r.engine.bots| == |e.bots| + 1 && r.engine.bots[|e.bots|] == r.bot
    ensures forall i :: 0 <= i < |e.bots| ==> r.engine.bots[i].id == e.bots[i].id
    ensures |r.engine.orders| == |e.orders|
  {
    var grown := e.(bots := e.bots + [B.NewBot(e.nextBotId)], nextBotId := e.nextBotId + 1);
    var after := Assign(grown, now);
    Added(after, after.bots[|e.bots|])
  }

  /** Every bot's held order is an order of the engine. */
  ghost predicate ReferencesValid(e: Engine) {
    forall i :: 0 <= i < |e.bots| ==> B.RefersInto(e.bots[i], e.orders)
  }

  datatype Removed = Removed(engine: Engine, bot: Option<B.Bot>)

  /**
   * `removeBot`: null on an empty bot list; otherwise the last-added bot is
   * popped and stopped, its order (if any) is written back PENDING at its own
   * index, and only then one assignment pass runs.
   */
  function RemoveBot(e: Engine, now: nat): (r: Removed)
    requires ReferencesValid(e)
    ensures |e.bots| == 0 ==> r == Removed(e, None)
    ensures |e.bots| > 0 ==>
      var last := e.bots[|e.bots| - 1];
      && r.bot.Some? && r.bot.value.id == last.id
      && r.bot.value.currentOrder.None? && !r.bot.value.timerArmed
      && (B.Consistent(last) ==> r.bot.value == B.Reset(last))
      && |r.engine.bots| == |e.bots| - 1
      && (forall i :: 0 <= i < |r.engine.bots| ==> r.engine.bots[i].id == e.bots[i].id)
    ensures |r.engine.orders| == |e.orders|
    ensures forall k :: 0 <= k < |e.orders| ==>
      r.engine.orders[k].id == e.orders[k].id && r.engine.orders[k].kind == e.orders[k].kind
    ensures r.engine.nextOrderId == e.nextOrderId && r.engine.nextBotId == e.nextBotId
  {
    if |e.bots| == 0 then Removed(e, None)
    else
      var last := e.bots[|e.bots| - 1];
      var rest := e.bots[..|e.bots| - 1];
      var s := B.StopProcessing(last, e.orders);
      match s.stopped
      case None => Removed(e.(bots := rest, orders := s.heap), Some(s.bot))
      case Some(stopped) =>
        var idx := O.Find(s.heap, stopped.id);
        var orders := if idx.Some? then s.heap[idx.value := stopped] else s.heap;
        Removed(Assign(e.(bots := rest, orders := orders), now), Some(s.bot))
  }

  /** The timer of bot `i` can fire only while it is armed. */
  ghost predicate CompletionEnabled(e: Engine, i: nat) {
    i < |e.bots| && e.bots[i].timerArmed && B.RefersInto(e.bots[i], e.orders)
  }

  /**
   * The timer of bot `i` fires: the bot completes its order and, through the
   * `onComplete` callback, one assignment pass runs.
   */
  function Complete(e: Engine, i: nat, now: nat): (r: Engine)
    requires CompletionEnabled(e, i)
    ensures |r.orders| == |e.orders| && |r.bots| == |e.bots|
    ensures forall k :: 0 <= k < |e.orders| ==>
      r.orders[k].id == e.orders[k].id && r.orders[k].kind == e.orders[k].kind
    ensures forall j :: 0 <= j < |e.bots| ==> r.bots[j].id == e.bots[j].id
    ensures r.nextOrderId == e.nextOrderId && r.nextBotId == e.nextBotId
  {
    var c := B.CompleteOrder(e.bots[i], e.orders, now);
    var freed := e.(bots := e.bots[i := c.bot], orders := c.heap);
    if c.completed.Some? then Assign(freed, now) else freed
  }

  // ---------------------------------------------------------------------------
  // Queries
  // ---------------------------------------------------------------------------

  /** `orders.filter(order => order.status === st)`. */
  function WithStatus(orders: seq<O.Order>, st: O.OrderStatus): (r: seq<O.Order>)
    ensures |r| <= |orders|
    ensures forall j :: 0 <= j < |r| ==> r[j].status == st
  {
    if |orders| == 0 then []
    else (if orders[0].status == st then [orders[0]] else []) + WithStatus(orders[1..], st)
  }

  /** The view holds exactly the orders of that status. */
  lemma {:induction false} WithStatusMembers(orders: seq<O.Order>, st: O.OrderStatus)
    ensures forall x :: x in WithStatus(orders, st) <==> x in orders && x.status == st
  {
    if |orders| > 0 {
      WithStatusMembers(orders[1..], st);
      assert orders == [orders[0]] + orders[1..];
    }
  }

  function PendingOrders(e: Engine): seq<O.Order> { WithStatus(e.orders, O.Pending) }

  function ProcessingOrders(e: Engine): seq<O.Order> { WithStatus(e.orders, O.Processing) }

  function CompletedOrders(e: Engine): seq<O.Order> { WithStatus(e.orders, O.Complete) }

  /** `bots.filter(bot => bot.isIdle() === idle)`. */
  function BotsWhereIdle(bots: seq<B.Bot>, idle: bool): (r: seq<B.Bot>)
    ensures |r| <= |bots|
    ensures forall b :: b in r <==> b in bots && B.IsIdle(b) == idle
  {
    if |bots| == 0 then []
    else (if B.IsIdle(bots[0]) == idle then [bots[0]] else []) + BotsWhereIdle(bots[1..], idle)
  }

  datatype BotSummary = BotSummary(id: nat, status: B.BotStatus, currentOrderId: Option<nat>)

  /** `getBotStatus`: one summary per bot, in bot order. */
  function BotStatusView(e: Engine): (r: seq<BotSummary>)
    ensures |r| == |e.bots|
    ensures forall i :: 0 <= i < |r| ==>
      r[i].id == e.bots[i].id && r[i].status == e.bots[i].status
      && r[i].currentOrderId == e.bots[i].currentOrder
    ensures (forall i :: 0 <= i < |e.bots| ==> B.Consistent(e.bots[i])) ==>
      forall i :: 0 <= i < |r| ==> (r[i].currentOrderId.None? <==> r[i].status == B.Idle)
  {
    seq(|e.bots|, i requires 0 <= i < |e.bots| =>
      BotSummary(e.bots[i].id, e.bots[i].status, e.bots[i].currentOrder))
  }

  datatype Stats = Stats(
    totalOrders: nat, pendingOrders: nat, processingOrders: nat, completedOrders: nat,
    totalBots: nat, idleBots: nat, processingBots: nat)

  /** Every order is in exactly one of the three status views. */
  lemma {:induction false} StatusViewsPartition(orders: seq<O.Order>)
    ensures |WithStatus(orders, O.Pending)| + |WithStatus(orders, O.Processing)|
            + |WithStatus(orders, O.Complete)| == |orders|
  {
    if |orders| > 0 {
      StatusViewsPartition(orders[1..]);
    }
  }

  /** Every bot is either idle or not. */
  lemma {:induction false} BotViewsPartition(bots: seq<B.Bot>)
    ensures |BotsWhereIdle(bots, true)| + |BotsWhereIdle(bots, false)| == |bots|
  {
    if |bots| > 0 {
      BotViewsPartition(bots[1..]);
    }
  }

  /** `getStats`: the totals are exact sums of the sub-counts. */
  function GetStats(e: Engine): (r: Stats)
    ensures r.totalOrders == |e.orders| && r.totalBots == |e.bots|
    ensures r.totalOrders == r.pendingOrders + r.processingOrders + r.completedOrders
    ensures r.totalBots == r.idleBots + r.processingBots
    ensures r.pendingOrders == |PendingOrders(e)| && r.processingOrders == |ProcessingOrders(e)|
    ensures r.completedOrders == |CompletedOrders(e)|
    ensures r.idleBots == |BotsWhereIdle(e.bots, true)| && r.processingBots == |BotsWhereIdle(e.bots, false)|
  {
    StatusViewsPartition(e.orders);
    BotViewsPartition(e.bots);
    Stats(|e.orders|, |PendingOrders(e)|, |ProcessingOrders(e)|, |CompletedOrders(e)|,
          |e.bots|, |BotsWhereIdle(e.bots, true)|, |BotsWhereIdle(e.bots, false)|)
  }
}
