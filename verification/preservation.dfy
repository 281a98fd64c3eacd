/**
 * Every public operation of the controller, and every timer firing, takes a
 * valid engine to a valid engine. Each proof shows that the state just before
 * the operation's assignment pass is coherent and pairable, so that the pass
 * settles it.
 */
module Preservation {
  import opened Basics
  import O = Orders
  import B = Bots
  import opened Controller
  import opened Invariants

  // ---------------------------------------------------------------------------
  // Queuing a fresh order (createOrder before its assignment pass)
  // ---------------------------------------------------------------------------

  /** Where each old order sits after queuing. */
  lemma EnqueueShift(orders: seq<O.Order>, o: O.Order, j: nat)
    requires j < |orders|
    ensures var p := InsertPosition(orders, o.kind);
      var j' := if j < p then j else j + 1;
      j' < |Enqueue(orders, o)| && Enqueue(orders, o)[j'] == orders[j]
  {
  }

  /** Ids and timestamps of the order sequence after queuing a fresh order. */
  lemma EnqueueKeepsOrderFacts(orders: seq<O.Order>, o: O.Order, next: nat)
    requires forall k :: 0 <= k < |orders| ==> O.WellFormed(orders[k]) && orders[k].id < next
    requires O.IdsDistinct(orders)
    requires o.id == next && O.WellFormed(o)
    ensures var q := Enqueue(orders, o);
      && (forall k :: 0 <= k < |q| ==> O.WellFormed(q[k]) && q[k].id < next + 1)
      && O.IdsDistinct(q)
  {
  }

  /** Queuing keeps every VIP ahead of every NORMAL. */
  lemma EnqueueKeepsVipsFirst(orders: seq<O.Order>, o: O.Order)
    requires VipsFirst(orders)
    ensures VipsFirst(Enqueue(orders, o))
  {
    var q := Enqueue(orders, o);
    var p := InsertPosition(orders, o.kind);
    if o.kind == O.Vip && p > 0 {
      assert IsPendingVip(orders[p - 1]);
    }
    forall a, b | 0 <= a < b < |q|
      ensures !(q[a].kind == O.Normal && q[b].kind == O.Vip)
    {
      if a != p && b != p {
        var a' := if a < p then a else a - 1;
        var b' := if b < p then b else b - 1;
        assert q[a] == orders[a'] && q[b] == orders[b'];
      } else if b == p && o.kind == O.Vip && p > 0 {
        assert q[a] == orders[a];
      }
    }
  }

  /** Queuing keeps NORMAL orders in id order: the new one has the largest id. */
  lemma EnqueueKeepsNormalOrder(orders: seq<O.Order>, o: O.Order)
    requires NormalsInIdOrder(orders)
    requires forall k :: 0 <= k < |orders| ==> orders[k].id < o.id
    ensures NormalsInIdOrder(Enqueue(orders, o))
  {
    var q := Enqueue(orders, o);
    var p := InsertPosition(orders, o.kind);
    forall a, b | 0 <= a < b < |q| && q[a].kind == O.Normal && q[b].kind == O.Normal
      ensures q[a].id < q[b].id
    {
      if a != p && b != p {
        var a' := if a < p then a else a - 1;
        var b' := if b < p then b else b - 1;
        assert q[a] == orders[a'] && q[b] == orders[b'];
      }
    }
  }

  /** The holding relation survives the index shift of queuing a fresh PENDING order. */
  lemma EnqueueKeepsHolding(e: Engine, q: Engine, o: O.Order)
    requires HeldAreProcessing(e) && ProcessingAreHeld(e)
    requires o.status == O.Pending
    requires q.bots == e.bots && q.orders == Enqueue(e.orders, o)
    ensures HeldAreProcessing(q) && ProcessingAreHeld(q)
  {
    var p := InsertPosition(e.orders, o.kind);
    forall i | 0 <= i < |q.bots| && q.bots[i].currentOrder.Some?
      ensures HasProcessing(q.orders, q.bots[i].currentOrder.value)
    {
      assert HasProcessing(e.orders, e.bots[i].currentOrder.value);
      var m :| 0 <= m < |e.orders| && e.orders[m].id == e.bots[i].currentOrder.value
        && e.orders[m].status == O.Processing;
      EnqueueShift(e.orders, o, m);
    }
    forall m | 0 <= m < |q.orders| && q.orders[m].status == O.Processing
      ensures IsHeld(q.bots, q.orders[m].id)
    {
      var old_m := if m < p then m else m - 1;
      assert e.orders[old_m] == q.orders[m];
    }
  }

  /** With an idle bot around, the freshly queued order is the only pending one. */
  lemma EnqueuePairable(e: Engine, q: Engine, o: O.Order)
    requires Settled(e) && q.bots == e.bots && q.orders == Enqueue(e.orders, o)
    ensures Pairable(q)
  {
    var p := InsertPosition(e.orders, o.kind);
    if i :| 0 <= i < |e.bots| && B.IsIdle(e.bots[i]) {
      forall k | 0 <= k < |q.orders| && q.orders[k].status == O.Pending
        ensures k == p
      {
        if k != p {
          assert false;
        }
      }
      assert AtMostOnePending(q.orders);
    } else {
      assert Settled(q);
    }
  }

  /** The state `createOrder` hands to its assignment pass is coherent and pairable. */
  lemma QueuedReady(e: Engine, o: O.Order)
    requires Valid(e) && o == O.NewOrder(e.nextOrderId, o.kind, o.createdAt)
    ensures var q := e.(orders := Enqueue(e.orders, o), nextOrderId := e.nextOrderId + 1);
      Coherent(q) && Pairable(q)
  {
    var q := e.(orders := Enqueue(e.orders, o), nextOrderId := e.nextOrderId + 1);
    EnqueueKeepsOrderFacts(e.orders, o, e.nextOrderId);
    EnqueueKeepsVipsFirst(e.orders, o);
    EnqueueKeepsNormalOrder(e.orders, o);
    EnqueueKeepsHolding(e, q, o);
    EnqueuePairable(e, q, o);
    assert OrdersWellFormed(q);
  }

  /** `createOrder` is the queuing step followed by one assignment pass. */
  lemma CreateOrderUnfolds(e: Engine, kind: O.OrderType, now: nat)
    ensures var o := O.NewOrder(e.nextOrderId, kind, now);
      CreateOrder(e, kind, now).engine == Assign(e.(orders := Enqueue(e.orders, o), nextOrderId := e.nextOrderId + 1), now)
  {
  }

  /** `createOrder` keeps the engine valid. */
  lemma CreateOrderKeepsValid(e: Engine, kind: O.OrderType, now: nat)
    requires Valid(e)
    ensures Valid(CreateOrder(e, kind, now).engine)
  {
    var o := O.NewOrder(e.nextOrderId, kind, now);
    QueuedReady(e, o);
    AssignKeepsValid(e.(orders := Enqueue(e.orders, o), nextOrderId := e.nextOrderId + 1), now);
    CreateOrderUnfolds(e, kind, now);
  }

  // ---------------------------------------------------------------------------
  // Adding a bot
  // ---------------------------------------------------------------------------

  /** Appending a fresh idle bot keeps the engine coherent and pairable. */
  lemma AppendBotKeepsCoherent(e: Engine)
    requires Valid(e)
    ensures var g := e.(bots := e.bots + [B.NewBot(e.nextBotId)], nextBotId := e.nextBotId + 1);
      Coherent(g) && Pairable(g)
  {
    var n := |e.bots|;
    var g := e.(bots := e.bots + [B.NewBot(e.nextBotId)], nextBotId := e.nextBotId + 1);
    assert forall i :: 0 <= i < n ==> g.bots[i] == e.bots[i];
    assert g.bots[n] == B.NewBot(e.nextBotId);
    forall m | 0 <= m < |g.orders| && g.orders[m].status == O.Processing
      ensures IsHeld(g.bots, g.orders[m].id)
    {
      assert IsHeld(e.bots, e.orders[m].id);
      var j :| 0 <= j < n && e.bots[j].currentOrder == Some(e.orders[m].id);
      assert g.bots[j] == e.bots[j];
    }
    assert BotsWellFormed(g);
    assert BotIdsIncreasing(g.bots);
    assert HeldAreProcessing(g);
    assert HoldersDistinct(g.bots);
    if k :| 0 <= k < |e.orders| && e.orders[k].status == O.Pending {
      forall a, b | 0 <= a < |g.bots| && 0 <= b < |g.bots| && B.IsIdle(g.bots[a]) && B.IsIdle(g.bots[b])
        ensures a == b
      {
        if a != n || b != n {
          assert false;
        }
      }
      assert AtMostOneIdle(g.bots);
    } else {
      assert Settled(g);
    }
  }

  /** `addBot` keeps the engine valid. */
  lemma AddBotKeepsValid(e: Engine, now: nat)
    requires Valid(e)
    ensures Valid(AddBot(e, now).engine)
  {
    AppendBotKeepsCoherent(e);
    AssignKeepsValid(e.(bots := e.bots + [B.NewBot(e.nextBotId)], nextBotId := e.nextBotId + 1), now);
    AddBotUnfolds(e, now);
  }

  /** `addBot` is the append followed by one assignment pass. */
  lemma AddBotUnfolds(e: Engine, now: nat)
    ensures AddBot(e, now).engine == Assign(e.(bots := e.bots + [B.NewBot(e.nextBotId)], nextBotId := e.nextBotId + 1), now)
  {
  }

  // ---------------------------------------------------------------------------
  // A bot letting go of its order (completion, or stop before removal)
  // ---------------------------------------------------------------------------

  /**
   * Bot `i` gives up order `k` (which it held), and the order leaves
   * PROCESSING: the holding relation stays one-to-one.
   */
  lemma UnclaimKeepsHolding(e: Engine, f: Engine, i: nat, k: nat)
    requires HeldAreProcessing(e) && ProcessingAreHeld(e) && HoldersDistinct(e.bots) && O.IdsDistinct(e.orders)
    requires i < |e.bots| && k < |e.orders| && e.bots[i].currentOrder == Some(e.orders[k].id)
    requires |f.bots| == |e.bots| && |f.orders| == |e.orders|
    requires f.bots[i].currentOrder.None? && f.orders[k].status != O.Processing
    requires forall j :: 0 <= j < |e.bots| && j != i ==> f.bots[j] == e.bots[j]
    requires forall m :: 0 <= m < |e.orders| && m != k ==> f.orders[m] == e.orders[m]
    ensures HeldAreProcessing(f) && ProcessingAreHeld(f) && HoldersDistinct(f.bots)
  {
    forall j | 0 <= j < |f.bots| && f.bots[j].currentOrder.Some?
      ensures HasProcessing(f.orders, f.bots[j].currentOrder.value)
    {
      var y := e.bots[j].currentOrder.value;
      assert y != e.orders[k].id;
      assert HasProcessing(e.orders, y);
      var m :| 0 <= m < |e.orders| && e.orders[m].id == y && e.orders[m].status == O.Processing;
      assert f.orders[m] == e.orders[m];
    }
    forall m | 0 <= m < |f.orders| && f.orders[m].status == O.Processing
      ensures IsHeld(f.bots, f.orders[m].id)
    {
      assert IsHeld(e.bots, e.orders[m].id);
      var j :| 0 <= j < |e.bots| && e.bots[j].currentOrder == Some(e.orders[m].id);
      assert j != i;
      assert f.bots[j] == e.bots[j];
    }
  }

  /** The state right after bot `i`'s timer fired, before the callback's assignment pass. */
  ghost function Freed(e: Engine, i: nat, now: nat): Engine
    requires CompletionEnabled(e, i)
  {
    var c := B.CompleteOrder(e.bots[i], e.orders, now);
    e.(bots := e.bots[i := c.bot], orders := c.heap)
  }

  /** Completion keeps the engine coherent. */
  lemma FreedCoherent(e: Engine, i: nat, now: nat)
    requires Valid(e) && CompletionEnabled(e, i)
    ensures Coherent(Freed(e, i, now))
    ensures B.CompleteOrder(e.bots[i], e.orders, now).completed.Some?
  {
    assert B.Consistent(e.bots[i]);
    var k := HeldOrderIndex(e, i);
    var f := Freed(e, i, now);
    assert f.orders == e.orders[k := O.MarkComplete(e.orders[k], None, now)];
    assert forall m :: 0 <= m < |e.orders| ==> f.orders[m].id == e.orders[m].id && f.orders[m].kind == e.orders[m].kind;
    SameOrderShape(e.orders, f.orders);
    assert forall j :: 0 <= j < |e.bots| ==> f.bots[j].id == e.bots[j].id;
    SameBotIds(e.bots, f.bots);
    UnclaimKeepsHolding(e, f, i, k);
    assert OrdersWellFormed(f);
    assert BotsWellFormed(f);
  }

  /** After a completion with pending work left, the freed bot is the only idle one. */
  lemma FreedPairable(e: Engine, i: nat, now: nat)
    requires Valid(e) && CompletionEnabled(e, i)
    ensures Pairable(Freed(e, i, now))
  {
    assert B.Consistent(e.bots[i]);
    var k := HeldOrderIndex(e, i);
    var f := Freed(e, i, now);
    if m :| 0 <= m < |f.orders| && f.orders[m].status == O.Pending {
      assert m != k && e.orders[m].status == O.Pending;
      forall a, b | 0 <= a < |f.bots| && 0 <= b < |f.bots| && B.IsIdle(f.bots[a]) && B.IsIdle(f.bots[b])
        ensures a == b
      {
        if a != i || b != i {
          assert false;
        }
      }
      assert AtMostOneIdle(f.bots);
    } else {
      assert Settled(f);
    }
  }

  /** The timer of a PROCESSING bot firing (completion plus callback) keeps the engine valid. */
  lemma CompleteKeepsValid(e: Engine, i: nat, now: nat)
    requires Valid(e) && CompletionEnabled(e, i)
    ensures Valid(Complete(e, i, now))
  {
    FreedCoherent(e, i, now);
    FreedPairable(e, i, now);
    AssignKeepsValid(Freed(e, i, now), now);
  }

  // ---------------------------------------------------------------------------
  // Removing the last bot
  // ---------------------------------------------------------------------------

  /** Popping a last bot that holds nothing keeps a coherent engine coherent, and settled ones settled. */
  lemma DropIdleKeepsCoherent(e: Engine)
    requires Coherent(e) && |e.bots| > 0 && e.bots[|e.bots| - 1].currentOrder.None?
    ensures Coherent(e.(bots := e.bots[..|e.bots| - 1]))
    ensures Settled(e) ==> Settled(e.(bots := e.bots[..|e.bots| - 1]))
  {
    var n := |e.bots|;
    var d := e.(bots := e.bots[..n - 1]);
    forall m | 0 <= m < |d.orders| && d.orders[m].status == O.Processing
      ensures IsHeld(d.bots, d.orders[m].id)
    {
      assert IsHeld(e.bots, e.orders[m].id);
      var j :| 0 <= j < n && e.bots[j].currentOrder == Some(e.orders[m].id);
      assert j < n - 1;
      assert d.bots[j] == e.bots[j];
    }
  }

  /** The state after the last bot released order `k`, before the pop. */
  ghost function Released(e: Engine, k: nat): Engine
    requires |e.bots| > 0 && k < |e.orders|
  {
    var n := |e.bots|;
    e.(bots := e.bots[n - 1 := B.Reset(e.bots[n - 1])],
       orders := e.orders[k := O.ResetToPending(e.orders[k])])
  }

  /** Releasing the last bot's order keeps the engine coherent. */
  lemma ReleasedCoherent(e: Engine, k: nat)
    requires Coherent(e) && |e.bots| > 0
    requires k < |e.orders| && e.orders[k].status == O.Processing
    requires e.bots[|e.bots| - 1].currentOrder == Some(e.orders[k].id)
    ensures Coherent(Released(e, k))
  {
    var n := |e.bots|;
    var u := Released(e, k);
    assert forall m :: 0 <= m < |e.orders| ==> u.orders[m].id == e.orders[m].id && u.orders[m].kind == e.orders[m].kind;
    SameOrderShape(e.orders, u.orders);
    assert forall j :: 0 <= j < |e.bots| ==> u.bots[j].id == e.bots[j].id;
    SameBotIds(e.bots, u.bots);
    UnclaimKeepsHolding(e, u, n - 1, k);
    assert OrdersWellFormed(u);
    assert BotsWellFormed(u);
  }

  /** With an idle bot left after the pop, the released order is the only pending one. */
  lemma ReleasedPairable(e: Engine, k: nat)
    requires Settled(e) && |e.bots| > 0 && k < |e.orders|
    ensures var r := e.(bots := e.bots[..|e.bots| - 1], orders := e.orders[k := O.ResetToPending(e.orders[k])]);
      Pairable(r)
  {
    var r := e.(bots := e.bots[..|e.bots| - 1], orders := e.orders[k := O.ResetToPending(e.orders[k])]);
    if j :| 0 <= j < |r.bots| && B.IsIdle(r.bots[j]) {
      assert B.IsIdle(e.bots[j]);
      forall a, b | 0 <= a < |r.orders| && 0 <= b < |r.orders|
        && r.orders[a].status == O.Pending && r.orders[b].status == O.Pending
        ensures a == b
      {
        if a != k || b != k {
          assert false;
        }
      }
      assert AtMostOnePending(r.orders);
    } else {
      assert Settled(r);
    }
  }

  /** What `removeBot` computes on a valid engine whose last bot holds order `k`. */
  lemma RemoveBotUnfolds(e: Engine, now: nat) returns (k: nat)
    requires Valid(e) && |e.bots| > 0 && e.bots[|e.bots| - 1].currentOrder.Some?
    ensures k < |e.orders| && e.orders[k].status == O.Processing
    ensures e.orders[k].id == e.bots[|e.bots| - 1].currentOrder.value
    ensures ReferencesValid(e)
    ensures RemoveBot(e, now).engine ==
      Assign(e.(bots := e.bots[..|e.bots| - 1], orders := e.orders[k := O.ResetToPending(e.orders[k])]), now)
  {
    ValidReferences(e);
    var n := |e.bots|;
    k := HeldOrderIndex(e, n - 1);
    var s := B.StopProcessing(e.bots[n - 1], e.orders);
    assert s.heap == e.orders[k := O.ResetToPending(e.orders[k])];
    assert s.stopped == Some(s.heap[k]);
    assert forall m :: 0 <= m < |e.orders| ==> s.heap[m].id == e.orders[m].id && s.heap[m].kind == e.orders[m].kind;
    SameOrderShape(e.orders, s.heap);
    O.FindUnique(s.heap, s.heap[k].id, k);
    assert s.heap[k := s.heap[k]] == s.heap;
  }

  /** `removeBot` of a last bot that holds nothing: only the pop happens. */
  lemma RemoveIdleKeepsValid(e: Engine, now: nat)
    requires Valid(e) && |e.bots| > 0 && e.bots[|e.bots| - 1].currentOrder.None?
    ensures ReferencesValid(e) && Valid(RemoveBot(e, now).engine)
  {
    ValidReferences(e);
    DropIdleKeepsCoherent(e);
    assert B.Consistent(e.bots[|e.bots| - 1]);
    assert RemoveBot(e, now).engine == e.(bots := e.bots[..|e.bots| - 1]);
  }

  /** After releasing order `k` and popping the last bot, one assignment pass suffices. */
  lemma PoppedReady(e: Engine, k: nat)
    requires Coherent(e) && Settled(e) && |e.bots| > 0
    requires k < |e.orders| && e.orders[k].status == O.Processing
    requires e.bots[|e.bots| - 1].currentOrder == Some(e.orders[k].id)
    ensures var popped := e.(bots := e.bots[..|e.bots| - 1], orders := e.orders[k := O.ResetToPending(e.orders[k])]);
      Coherent(popped) && Pairable(popped)
  {
    var n := |e.bots|;
    ReleasedCoherent(e, k);
    var u := Released(e, k);
    DropIdleKeepsCoherent(u);
    assert u.bots[..n - 1] == e.bots[..n - 1];
    ReleasedPairable(e, k);
  }

  /** `removeBot` of a last bot that holds an order: release, pop, one assignment pass. */
  lemma RemoveHoldingKeepsValid(e: Engine, now: nat)
    requires Valid(e) && |e.bots| > 0 && e.bots[|e.bots| - 1].currentOrder.Some?
    ensures ReferencesValid(e) && Valid(RemoveBot(e, now).engine)
  {
    var k := RemoveBotUnfolds(e, now);
    PoppedReady(e, k);
    AssignKeepsValid(e.(bots := e.bots[..|e.bots| - 1], orders := e.orders[k := O.ResetToPending(e.orders[k])]), now);
  }

  /** `removeBot` keeps the engine valid. */
  lemma RemoveBotKeepsValid(e: Engine, now: nat)
    requires Valid(e)
    ensures ReferencesValid(e) && Valid(RemoveBot(e, now).engine)
  {
    ValidReferences(e);
    if |e.bots| > 0 {
      if e.bots[|e.bots| - 1].currentOrder.None? {
        RemoveIdleKeepsValid(e, now);
      } else {
        RemoveHoldingKeepsValid(e, now);
      }
    }
  }
}
