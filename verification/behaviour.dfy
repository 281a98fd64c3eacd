/**
 * Properties of single controller operations on a valid engine: what
 * `removeBot` does to the order it releases, that queuing keeps every other
 * order in place, and what the invariant says about holdings and idle bots.
 */
module Behaviour {
  import opened Basics
  import O = Orders
  import B = Bots
  import opened Controller
  import opened Invariants
  import Preservation
  import Priority

  /** Taking the new order back out of the queue gives the old queue. */
  lemma EnqueueThenRemove(orders: seq<O.Order>, o: O.Order)
    ensures var p := InsertPosition(orders, o.kind);
      var q := Enqueue(orders, o);
      q[..p] + q[p + 1..] == orders
  {
    var p := InsertPosition(orders, o.kind);
    var q := Enqueue(orders, o);
    assert q[..p] == orders[..p];
    assert q[p + 1..] == orders[p..];
    assert orders == orders[..p] + orders[p..];
  }

  /**
   * `removeBot` on a last bot that holds an order: the order stays at its own
   * index and becomes PENDING with its start time cleared; when an idle bot
   * remains, the follow-up pass hands it straight to the first idle one.
   * Every other order is untouched.
   */
  lemma RemoveBotReleasesInPlace(e: Engine, now: nat) returns (k: nat)
    requires Valid(e) && |e.bots| > 0 && e.bots[|e.bots| - 1].currentOrder.Some?
    ensures ReferencesValid(e)
    ensures k < |e.orders| && e.orders[k].id == e.bots[|e.bots| - 1].currentOrder.value
    ensures e.orders[k].status == O.Processing
    ensures var r := RemoveBot(e, now).engine;
      var rest := e.bots[..|e.bots| - 1];
      && |r.orders| == |e.orders|
      && (forall m :: 0 <= m < |e.orders| && m != k ==> r.orders[m] == e.orders[m])
      && (FirstIdle(rest).None? ==> r.orders[k] == O.ResetToPending(e.orders[k]) && r.bots == rest)
      && (FirstIdle(rest).Some? ==>
            && r.orders[k] == O.StartProcessing(O.ResetToPending(e.orders[k]), now)
            && r.bots[FirstIdle(rest).value].currentOrder == Some(e.orders[k].id)
            && |r.bots| == |rest|
            && (forall j :: 0 <= j < |rest| && j != FirstIdle(rest).value ==> r.bots[j] == rest[j]))
  {
    k := Preservation.RemoveBotUnfolds(e, now);
    var rest := e.bots[..|e.bots| - 1];
    var rel := e.(bots := rest, orders := e.orders[k := O.ResetToPending(e.orders[k])]);
    if FirstIdle(rest).Some? {
      var j := FirstIdle(rest).value;
      assert B.IsIdle(e.bots[j]);
      forall m | 0 <= m < |rel.orders| && m != k
        ensures rel.orders[m].status != O.Pending
      {
        assert rel.orders[m] == e.orders[m];
      }
      assert FirstPending(rel.orders) == Some(k);
    }
  }

  /** `removeBot` on a last bot that holds nothing only pops it. */
  lemma RemoveIdleBotOnlyPops(e: Engine, now: nat)
    requires Valid(e) && |e.bots| > 0 && B.IsIdle(e.bots[|e.bots| - 1])
    ensures ReferencesValid(e)
    ensures RemoveBot(e, now) == Removed(e.(bots := e.bots[..|e.bots| - 1]), Some(e.bots[|e.bots| - 1]))
  {
    Preservation.RemoveBotKeepsValid(e, now);
    assert B.Consistent(e.bots[|e.bots| - 1]);
  }

  /**
   * On a valid engine each PROCESSING bot holds exactly one PROCESSING order,
   * that order is held by no other bot, and each PROCESSING order has a bot.
   */
  lemma HoldingIsOneToOne(e: Engine, i: nat, j: nat, k: nat)
    requires Valid(e) && i < |e.bots| && j < |e.bots| && k < |e.orders|
    ensures e.bots[i].status == B.Processing <==> e.bots[i].currentOrder.Some?
    ensures e.bots[i].currentOrder == Some(e.orders[k].id) ==> e.orders[k].status == O.Processing
    ensures e.bots[i].currentOrder.Some? && e.bots[i].currentOrder == e.bots[j].currentOrder ==> i == j
    ensures e.orders[k].status == O.Processing ==> IsHeld(e.bots, e.orders[k].id)
  {
    assert B.Consistent(e.bots[i]);
    if e.bots[i].currentOrder == Some(e.orders[k].id) {
      var m := HeldOrderIndex(e, i);
      assert m == k;
    }
    if e.bots[i].currentOrder.Some? && e.bots[i].currentOrder == e.bots[j].currentOrder && i != j {
      // HoldersDistinct, applied to the pair (i, j) or (j, i), whichever is ordered
      assert false;
    }
  }

  /** On a valid engine the assignment pass has nothing to do. */
  lemma SettledAssignIsNoOp(e: Engine, now: nat)
    requires Valid(e)
    ensures FirstIdle(e.bots).None? || PendingOrders(e) == []
    ensures Assign(e, now) == e
  {
    if FirstIdle(e.bots).Some? {
      if FirstPending(e.orders).Some? {
        assert false;
      }
      Priority.WithStatusNone(e.orders, O.Pending);
    }
  }

  /** A new bot's id is larger than every id in the bot list, so ids are never reused. */
  lemma AddBotIdFresh(e: Engine, now: nat)
    requires Valid(e)
    ensures forall i :: 0 <= i < |e.bots| ==> e.bots[i].id < AddBot(e, now).bot.id
    ensures BotIdsIncreasing(AddBot(e, now).engine.bots)
  {
    Preservation.AddBotKeepsValid(e, now);
  }

  // ---------------------------------------------------------------------------
  // COMPLETE orders are never touched again
  // ---------------------------------------------------------------------------

  /** A timer firing on a valid engine leaves every COMPLETE order as it was. */
  lemma CompleteKeepsCompleted(e: Engine, i: nat, now: nat)
    requires Valid(e) && CompletionEnabled(e, i)
    ensures forall m :: 0 <= m < |e.orders| && e.orders[m].status == O.Complete ==>
      Complete(e, i, now).orders[m] == e.orders[m]
  {
    assert B.Consistent(e.bots[i]);
    var k := HeldOrderIndex(e, i);
    var c := B.CompleteOrder(e.bots[i], e.orders, now);
    assert forall m :: 0 <= m < |e.orders| && m != k ==> c.heap[m] == e.orders[m];
  }

  /**
   * A timer firing on a valid engine completes the order the bot holds, in
   * place and with no completing bot recorded; the follow-up pass never
   * touches a COMPLETE order.
   */
  lemma CompleteMarksHeldOrder(e: Engine, i: nat, now: nat) returns (k: nat)
    requires Valid(e) && CompletionEnabled(e, i)
    ensures k < |e.orders| && e.orders[k].id == e.bots[i].currentOrder.value
    ensures Complete(e, i, now).orders[k] == O.MarkComplete(e.orders[k], None, now)
  {
    assert B.Consistent(e.bots[i]);
    k := HeldOrderIndex(e, i);
  }

  /** `removeBot` on a valid engine leaves every COMPLETE order as it was. */
  lemma RemoveBotKeepsCompleted(e: Engine, now: nat)
    requires Valid(e)
    ensures ReferencesValid(e)
    ensures forall m :: 0 <= m < |e.orders| && e.orders[m].status == O.Complete ==>
      RemoveBot(e, now).engine.orders[m] == e.orders[m]
  {
    ValidReferences(e);
    if |e.bots| > 0 {
      assert B.Consistent(e.bots[|e.bots| - 1]);
      if e.bots[|e.bots| - 1].currentOrder.Some? {
        var k := RemoveBotReleasesInPlace(e, now);
      } else {
        RemoveIdleBotOnlyPops(e, now);
      }
    }
  }

  /**
   * `createOrder` leaves every COMPLETE order as it was, at its index shifted
   * past the insertion position.
   */
  lemma CreateOrderKeepsCompleted(e: Engine, kind: O.OrderType, now: nat)
    ensures var p := InsertPosition(e.orders, kind);
      var r := CreateOrder(e, kind, now).engine;
      forall j :: 0 <= j < |e.orders| && e.orders[j].status == O.Complete ==>
        r.orders[if j < p then j else j + 1] == e.orders[j]
  {
    var o := O.NewOrder(e.nextOrderId, kind, now);
    var q := e.(orders := Enqueue(e.orders, o), nextOrderId := e.nextOrderId + 1);
    Preservation.CreateOrderUnfolds(e, kind, now);
    var p := InsertPosition(e.orders, kind);
    forall j | 0 <= j < |e.orders| && e.orders[j].status == O.Complete
      ensures Assign(q, now).orders[if j < p then j else j + 1] == e.orders[j]
    {
      Preservation.EnqueueShift(e.orders, o, j);
    }
  }
}
