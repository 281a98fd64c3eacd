/**
 * Concrete runs of the controller. The first is a basic walkthrough of
 * priority insertion, assignment and release; the second shows that
 * re-queuing on `removeBot` can put a stopped VIP order behind a younger
 * VIP order.
 */
module Scenarios {
  import opened Basics
  import O = Orders
  import B = Bots
  import opened Controller
  import Priority

  /** The ids of a list of orders, in list order. */
  function Ids(s: seq<O.Order>): (r: seq<nat>)
    ensures |r| == |s| && forall i :: 0 <= i < |s| ==> r[i] == s[i].id
  {
    if |s| == 0 then [] else [s[0].id] + Ids(s[1..])
  }

  // ---------------------------------------------------------------------------
  // Walkthrough: NORMAL #1, VIP #2, addBot, removeBot
  // ---------------------------------------------------------------------------

  const N1: O.Order := O.NewOrder(1, O.Normal, 0)
  const V2: O.Order := O.NewOrder(2, O.Vip, 1)
  const W1: Engine := Engine([N1], [], 2, 1)
  const W2: Engine := Engine([V2, N1], [], 3, 1)
  const W3: Engine := Engine([O.StartProcessing(V2, 2), N1], [B.Bot(1, B.Processing, Some(2), true)], 3, 2)
  const W4: Engine := Engine([V2, N1], [], 3, 2)

  lemma WalkCreateNormal()
    ensures CreateOrder(Init(), O.Normal, 0).engine == W1
  {
    assert Enqueue([], N1) == [N1];
  }

  lemma WalkCreateVip()
    ensures CreateOrder(W1, O.Vip, 1).engine == W2
  {
    assert FirstPendingNormal([N1]) == 0;
    assert Enqueue([N1], V2) == [V2, N1];
  }

  lemma WalkAddBot()
    ensures AddBot(W2, 2).engine == W3
  {
    assert FirstIdle([B.NewBot(1)]) == Some(0);
    assert FirstPending([V2, N1]) == Some(0);
  }

  lemma WalkRemoveBot()
    ensures ReferencesValid(W3) && RemoveBot(W3, 3).engine == W4
  {
    assert O.Find(W3.orders, 2) == Some(0);
    O.ResetUndoesStart(V2, 2);
  }

  lemma WalkViews()
    ensures Ids(PendingOrders(W2)) == [2, 1]
    ensures Ids(ProcessingOrders(W3)) == [2] && Ids(PendingOrders(W3)) == [1]
    ensures Ids(PendingOrders(W4)) == [2, 1] && GetStats(W4).totalBots == 0
  {
    assert WithStatus([N1], O.Pending) == [N1];
    assert PendingOrders(W2) == [V2, N1];
    assert WithStatus([N1], O.Processing) == [];
    assert ProcessingOrders(W3) == [O.StartProcessing(V2, 2)];
    assert PendingOrders(W3) == [N1];
  }

  /**
   * NORMAL #1, then VIP #2 jumps ahead of it; a bot added afterwards takes
   * the VIP; removing that bot puts the VIP back at the front of the queue.
   */
  lemma WalkthroughScenario()
    ensures CreateOrder(Init(), O.Normal, 0).engine == W1
    ensures CreateOrder(W1, O.Vip, 1).engine == W2
    ensures AddBot(W2, 2).engine == W3
    ensures ReferencesValid(W3) && RemoveBot(W3, 3).engine == W4
    ensures RemoveBot(W3, 3).bot == Some(B.NewBot(1))
    ensures Ids(PendingOrders(W2)) == [2, 1]
    ensures Ids(ProcessingOrders(W3)) == [2] && Ids(PendingOrders(W3)) == [1]
    ensures Ids(PendingOrders(W4)) == [2, 1] && GetStats(W4).totalBots == 0
  {
    WalkCreateNormal();
    WalkCreateVip();
    WalkAddBot();
    WalkRemoveBot();
    WalkViews();
  }

  // ---------------------------------------------------------------------------
  // Two bots; removeBot re-queues a VIP behind a younger VIP
  // ---------------------------------------------------------------------------

  const M1: O.Order := O.NewOrder(1, O.Normal, 1)
  const U2: O.Order := O.NewOrder(2, O.Vip, 2)
  const U3: O.Order := O.NewOrder(3, O.Vip, 3)
  const Busy1: B.Bot := B.Bot(1, B.Processing, Some(1), true)
  const Busy2: B.Bot := B.Bot(2, B.Processing, Some(2), true)
  const F0: Engine := Engine([], [B.NewBot(1), B.NewBot(2)], 1, 3)
  const F1: Engine := Engine([O.StartProcessing(M1, 1)], [Busy1, B.NewBot(2)], 2, 3)
  const F2: Engine := Engine([O.StartProcessing(U2, 2), O.StartProcessing(M1, 1)], [Busy1, Busy2], 3, 3)
  const F3: Engine := Engine([U3, O.StartProcessing(U2, 2), O.StartProcessing(M1, 1)], [Busy1, Busy2], 4, 3)
  const F4: Engine := Engine([U3, U2, O.StartProcessing(M1, 1)], [Busy1], 4, 3)

  lemma FifoAddBots()
    ensures AddBot(AddBot(Init(), 0).engine, 0).engine == F0
  {
  }

  lemma FifoCreateNormal()
    ensures CreateOrder(F0, O.Normal, 1).engine == F1
  {
    assert Enqueue([], M1) == [M1];
  }

  lemma FifoCreateFirstVip()
    ensures CreateOrder(F1, O.Vip, 2).engine == F2
  {
    assert VipInsertIndex(F1.orders) == 0;
    assert Enqueue(F1.orders, U2) == [U2, O.StartProcessing(M1, 1)];
    assert FirstIdle(F1.bots) == Some(1);
  }

  lemma FifoCreateSecondVip()
    ensures CreateOrder(F2, O.Vip, 3).engine == F3
  {
    assert VipInsertIndex(F2.orders) == 0;
    assert Enqueue(F2.orders, U3) == F3.orders;
    assert FirstIdle(F2.bots) == None;
  }

  lemma FifoRemoveBot()
    ensures ReferencesValid(F3) && RemoveBot(F3, 4).engine == F4
  {
    assert O.Find(F3.orders, 2) == Some(1);
    O.FindUnique(F3.orders, 1, 2);
    O.ResetUndoesStart(U2, 2);
    assert FirstIdle([Busy1]) == None;
  }

  lemma FifoViews()
    ensures Ids(PendingOrders(F3)) == [3]
    ensures Ids(PendingOrders(F4)) == [3, 2]
    ensures !Priority.FifoWithinClass(PendingOrders(F4))
  {
    var tail := [O.StartProcessing(M1, 1)];
    assert WithStatus(tail, O.Pending) == [];
    assert F3.orders[1..] == [O.StartProcessing(U2, 2)] + tail;
    assert WithStatus(F3.orders[1..], O.Pending) == [];
    assert PendingOrders(F3) == [U3];
    assert F4.orders[1..] == [U2] + tail;
    assert F4.orders[1..][1..] == tail;
    assert WithStatus(F4.orders[1..], O.Pending) == [U2];
    assert PendingOrders(F4) == [U3, U2];
    var P := PendingOrders(F4);
    assert P[0].kind == P[1].kind && !(P[0].id < P[1].id);
  }

  /**
   * Two bots; NORMAL #1 and VIP #2 are taken at once; VIP #3 waits; the bot
   * holding #2 is removed. Both VIPs now wait with #3 ahead of the older #2,
   * so submission order within the VIP class does not survive `removeBot`.
   */
  lemma RemoveBotCanBreakVipFifo()
    ensures AddBot(AddBot(Init(), 0).engine, 0).engine == F0
    ensures CreateOrder(F0, O.Normal, 1).engine == F1
    ensures CreateOrder(F1, O.Vip, 2).engine == F2
    ensures CreateOrder(F2, O.Vip, 3).engine == F3
    ensures ReferencesValid(F3) && RemoveBot(F3, 4).engine == F4
    ensures Ids(PendingOrders(F3)) == [3] && Ids(PendingOrders(F4)) == [3, 2]
    ensures !Priority.FifoWithinClass(PendingOrders(F4))
  {
    FifoAddBots();
    FifoCreateNormal();
    FifoCreateFirstVip();
    FifoCreateSecondVip();
    FifoRemoveBot();
    FifoViews();
  }
}
