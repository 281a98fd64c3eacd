/**
 * The invariant the controller keeps across every public operation and every
 * timer firing: well-formed records, distinct and monotone ids, a one-to-one
 * holding between PROCESSING bots and PROCESSING orders, all VIP orders ahead
 * of all NORMAL orders, and never an idle bot beside a pending order.
 */
module Invariants {
  import opened Basics
  import O = Orders
  import B = Bots
  import opened Controller

  ghost predicate OrdersWellFormed(e: Engine) {
    forall k :: 0 <= k < |e.orders| ==> O.WellFormed(e.orders[k]) && e.orders[k].id < e.nextOrderId
  }

  ghost predicate BotsWellFormed(e: Engine) {
    forall i :: 0 <= i < |e.bots| ==> B.Consistent(e.bots[i]) && e.bots[i].id < e.nextBotId
  }

  /** Bots appear in the order they were added: their ids strictly increase. */
  ghost predicate BotIdsIncreasing(bots: seq<B.Bot>) {
    forall i, j :: 0 <= i < j < |bots| ==> bots[i].id < bots[j].id
  }

  ghost predicate HasProcessing(orders: seq<O.Order>, id: nat) {
    exists k :: 0 <= k < |orders| && orders[k].id == id && orders[k].status == O.Processing
  }

  /** Every order a bot holds is a PROCESSING order of the engine. */
  ghost predicate HeldAreProcessing(e: Engine) {
    forall i :: 0 <= i < |e.bots| && e.bots[i].currentOrder.Some? ==>
      HasProcessing(e.orders, e.bots[i].currentOrder.value)
  }

  ghost predicate IsHeld(bots: seq<B.Bot>, id: nat) {
    exists i :: 0 <= i < |bots| && bots[i].currentOrder == Some(id)
  }

  /** Every PROCESSING order is held by some bot. */
  ghost predicate ProcessingAreHeld(e: Engine) {
    forall k :: 0 <= k < |e.orders| && e.orders[k].status == O.Processing ==> IsHeld(e.bots, e.orders[k].id)
  }

  /** No order is held by two bots. */
  ghost predicate HoldersDistinct(bots: seq<B.Bot>) {
    forall i, j :: 0 <= i < j < |bots| && bots[i].currentOrder.Some? ==>
      bots[i].currentOrder != bots[j].currentOrder
  }

  /** No NORMAL order comes before a VIP order, whatever their status. */
  ghost predicate VipsFirst(orders: seq<O.Order>) {
    forall i, j :: 0 <= i < j < |orders| ==> !(orders[i].kind == O.Normal && orders[j].kind == O.Vip)
  }

  /** NORMAL orders stand in submission (id) order. */
  ghost predicate NormalsInIdOrder(orders: seq<O.Order>) {
    forall i, j :: 0 <= i < j < |orders| && orders[i].kind == O.Normal && orders[j].kind == O.Normal ==>
      orders[i].id < orders[j].id
  }

  /** Everything but the "no idle bot beside a pending order" part. */
  ghost predicate Coherent(e: Engine) {
    && OrdersWellFormed(e)
    && O.IdsDistinct(e.orders)
    && BotsWellFormed(e)
    && BotIdsIncreasing(e.bots)
    && HeldAreProcessing(e)
    && ProcessingAreHeld(e)
    && HoldersDistinct(e.bots)
    && VipsFirst(e.orders)
    && NormalsInIdOrder(e.orders)
  }

  /** Never both an idle bot and a pending order. */
  ghost predicate Settled(e: Engine) {
    forall i, k :: 0 <= i < |e.bots| && 0 <= k < |e.orders| ==>
      !(B.IsIdle(e.bots[i]) && e.orders[k].status == O.Pending)
  }

  ghost predicate Valid(e: Engine) {
    Coherent(e) && Settled(e)
  }

  ghost predicate AtMostOneIdle(bots: seq<B.Bot>) {
    forall i, j :: 0 <= i < |bots| && 0 <= j < |bots| && B.IsIdle(bots[i]) && B.IsIdle(bots[j]) ==> i == j
  }

  ghost predicate AtMostOnePending(orders: seq<O.Order>) {
    forall k, m ::
      0 <= k < |orders| && 0 <= m < |orders| && orders[k].status == O.Pending && orders[m].status == O.Pending
      ==> k == m
  }

  /** One assignment pass is enough to settle the engine. */
  ghost predicate Pairable(e: Engine) {
    Settled(e) || AtMostOneIdle(e.bots) || AtMostOnePending(e.orders)
  }

  /** The initial engine satisfies the invariant. */
  lemma InitValid()
    ensures Valid(Init())
  {
  }

  /** A valid engine's bots never refer outside its order sequence. */
  lemma ValidReferences(e: Engine)
    requires Coherent(e)
    ensures ReferencesValid(e)
  {
    forall i | 0 <= i < |e.bots| && e.bots[i].currentOrder.Some?
      ensures O.Find(e.orders, e.bots[i].currentOrder.value).Some?
    {
      assert HasProcessing(e.orders, e.bots[i].currentOrder.value);
    }
  }

  /** The order a bot holds is found by id exactly where it is PROCESSING. */
  lemma HeldOrderIndex(e: Engine, i: nat) returns (k: nat)
    requires Coherent(e) && i < |e.bots| && e.bots[i].currentOrder.Some?
    ensures k < |e.orders| && O.Find(e.orders, e.bots[i].currentOrder.value) == Some(k)
    ensures e.orders[k].id == e.bots[i].currentOrder.value && e.orders[k].status == O.Processing
  {
    assert HasProcessing(e.orders, e.bots[i].currentOrder.value);
    k :| 0 <= k < |e.orders| && e.orders[k].id == e.bots[i].currentOrder.value && e.orders[k].status == O.Processing;
    O.FindUnique(e.orders, e.orders[k].id, k);
  }

  /** Properties of the order sequence that depend only on ids and types. */
  lemma SameOrderShape(a: seq<O.Order>, b: seq<O.Order>)
    requires |a| == |b|
    requires forall k :: 0 <= k < |a| ==> a[k].id == b[k].id && a[k].kind == b[k].kind
    ensures O.IdsDistinct(a) ==> O.IdsDistinct(b)
    ensures VipsFirst(a) ==> VipsFirst(b)
    ensures NormalsInIdOrder(a) ==> NormalsInIdOrder(b)
  {
  }

  lemma SameBotIds(a: seq<B.Bot>, b: seq<B.Bot>)
    requires |a| == |b|
    requires forall i :: 0 <= i < |a| ==> a[i].id == b[i].id
    ensures BotIdsIncreasing(a) ==> BotIdsIncreasing(b)
  {
  }

  // ---------------------------------------------------------------------------
  // The assignment pass
  // ---------------------------------------------------------------------------

  /** A PENDING order is held by no bot. */
  lemma PendingUnheld(e: Engine, k: nat)
    requires HeldAreProcessing(e) && O.IdsDistinct(e.orders)
    requires k < |e.orders| && e.orders[k].status == O.Pending
    ensures forall j :: 0 <= j < |e.bots| ==> e.bots[j].currentOrder != Some(e.orders[k].id)
  {
    forall j | 0 <= j < |e.bots| && e.bots[j].currentOrder.Some?
      ensures e.bots[j].currentOrder != Some(e.orders[k].id)
    {
      assert HasProcessing(e.orders, e.bots[j].currentOrder.value);
      var m :| 0 <= m < |e.orders| && e.orders[m].id == e.bots[j].currentOrder.value
        && e.orders[m].status == O.Processing;
      assert m != k;
    }
  }

  /** The pairing made by the pass keeps the holding relation one-to-one. */
  lemma AssignKeepsHolding(e: Engine, now: nat)
    requires HeldAreProcessing(e) && ProcessingAreHeld(e) && HoldersDistinct(e.bots) && O.IdsDistinct(e.orders)
    requires FirstIdle(e.bots).Some? && FirstPending(e.orders).Some?
    requires B.Consistent(e.bots[FirstIdle(e.bots).value])
    ensures var r := Assign(e, now);
      HeldAreProcessing(r) && ProcessingAreHeld(r) && HoldersDistinct(r.bots)
  {
    var r := Assign(e, now);
    var i := FirstIdle(e.bots).value;
    var k := FirstPending(e.orders).value;
    var x := e.orders[k].id;
    PendingUnheld(e, k);
    forall j | 0 <= j < |r.bots| && r.bots[j].currentOrder.Some?
      ensures HasProcessing(r.orders, r.bots[j].currentOrder.value)
    {
      if j == i {
        assert r.orders[k].id == x && r.orders[k].status == O.Processing;
      } else {
        assert HasProcessing(e.orders, e.bots[j].currentOrder.value);
        var m :| 0 <= m < |e.orders| && e.orders[m].id == e.bots[j].currentOrder.value
          && e.orders[m].status == O.Processing;
        assert r.orders[m] == e.orders[m];
      }
    }
    forall m | 0 <= m < |r.orders| && r.orders[m].status == O.Processing
      ensures IsHeld(r.bots, r.orders[m].id)
    {
      if m == k {
        assert r.bots[i].currentOrder == Some(x);
      } else {
        assert IsHeld(e.bots, e.orders[m].id);
        var j :| 0 <= j < |e.bots| && e.bots[j].currentOrder == Some(e.orders[m].id);
        assert j != i;
        assert r.bots[j] == e.bots[j];
      }
    }
  }

  /** The pass keeps every record well formed and every id where it was. */
  lemma AssignKeepsRecords(e: Engine, now: nat)
    requires OrdersWellFormed(e) && BotsWellFormed(e)
    requires FirstIdle(e.bots).Some? && FirstPending(e.orders).Some?
    ensures var r := Assign(e, now);
      && OrdersWellFormed(r) && BotsWellFormed(r)
      && (forall m :: 0 <= m < |e.orders| ==> r.orders[m].id == e.orders[m].id && r.orders[m].kind == e.orders[m].kind)
      && (forall j :: 0 <= j < |e.bots| ==> r.bots[j].id == e.bots[j].id)
  {
  }

  /** The assignment pass keeps the engine coherent: the claimed pair is fresh on both sides. */
  lemma AssignKeepsCoherent(e: Engine, now: nat)
    requires Coherent(e)
    ensures Coherent(Assign(e, now))
  {
    var r := Assign(e, now);
    if FirstIdle(e.bots).Some? && FirstPending(e.orders).Some? {
      assert B.Consistent(e.bots[FirstIdle(e.bots).value]);
      AssignKeepsRecords(e, now);
      SameOrderShape(e.orders, r.orders);
      SameBotIds(e.bots, r.bots);
      AssignKeepsHolding(e, now);
    }
  }

  /** After one pass an engine that was pairable has no idle bot beside a pending order. */
  lemma AssignSettles(e: Engine, now: nat)
    requires Pairable(e)
    ensures Settled(Assign(e, now))
  {
    var r := Assign(e, now);
    if FirstIdle(e.bots).Some? && FirstPending(e.orders).Some? {
      var i := FirstIdle(e.bots).value;
      var k := FirstPending(e.orders).value;
      forall j, m | 0 <= j < |r.bots| && 0 <= m < |r.orders|
        ensures !(B.IsIdle(r.bots[j]) && r.orders[m].status == O.Pending)
      {
        if B.IsIdle(r.bots[j]) && r.orders[m].status == O.Pending {
          assert false;
        }
      }
    }
  }

  lemma AssignKeepsValid(e: Engine, now: nat)
    requires Coherent(e) && Pairable(e)
    ensures Valid(Assign(e, now))
  {
    AssignKeepsCoherent(e, now);
    AssignSettles(e, now);
  }
}
