/**
 * The bot of models/Bot.js: a two-state machine IDLE <-> PROCESSING that
 * holds at most one order. The bot refers to its order by id; the order
 * records themselves live in the controller's order sequence (`heap`), which
 * is how the source's shared JavaScript object is modelled. The 10-second
 * `setTimeout` is the flag `timerArmed`; its firing is the controller's
 * completion event, and `clearTimeout` clears the flag.
 */
module Bots {
  import opened Basics
  import O = Orders

  datatype BotStatus = Idle | Processing

  datatype Bot = Bot(id: nat, status: BotStatus, currentOrder: Option<nat>, timerArmed: bool)

  datatype BotError = AlreadyProcessing

  /** IDLE exactly when no order is held, and the timer runs exactly while PROCESSING. */
  ghost predicate Consistent(b: Bot) {
    && (b.status == Idle <==> b.currentOrder.None?)
    && (b.timerArmed <==> b.status == Processing)
  }

  /** The bot's held order, if any, is an order of `heap`. */
  ghost predicate RefersInto(b: Bot, heap: seq<O.Order>) {
    b.currentOrder.Some? ==> O.Find(heap, b.currentOrder.value).Some?
  }

  /** The constructor: an IDLE bot with no order and no timer. */
  function NewBot(id: nat): (b: Bot)
    ensures b.id == id && b.status == Idle && b.currentOrder.None? && !b.timerArmed
    ensures Consistent(b)
  {
    Bot(id, Idle, None, false)
  }

  /** `isIdle`; on a consistent bot it holds exactly when no order is held. */
  function IsIdle(b: Bot): (r: bool)
    ensures Consistent(b) ==> (r <==> b.currentOrder.None?)
  {
    b.status == Idle
  }

  /** The bot holding `order` after a successful `startProcessing`, and the order itself. */
  datatype Claim = Claim(bot: Bot, order: O.Order)

  /**
   * `startProcessing(order, onComplete)`: throws on a bot that is not idle;
   * otherwise the bot becomes PROCESSING, holds the order, arms its timer,
   * and the order is started.
   */
  function StartProcessing(b: Bot, order: O.Order, now: nat): (r: Result<Claim, BotError>)
    ensures r.Err? <==> !IsIdle(b)
    ensures r.Ok? ==> r.value.bot.id == b.id && r.value.bot.status == Processing
    ensures r.Ok? ==> r.value.bot.currentOrder == Some(order.id) && r.value.bot.timerArmed
    ensures r.Ok? ==> Consistent(r.value.bot)
    ensures r.Ok? ==> r.value.order == O.StartProcessing(order, now)
    ensures r.Ok? ==> r.value.order.status == O.Processing && r.value.order.id == order.id
  {
    if !IsIdle(b) then Err(AlreadyProcessing)
    else Ok(Claim(b.(status := Processing, currentOrder := Some(order.id), timerArmed := true),
                  O.StartProcessing(order, now)))
  }

  /** `reset`: IDLE, no order, no timer; the id is kept. */
  function Reset(b: Bot): (r: Bot)
    ensures r.id == b.id && r.status == Idle && r.currentOrder.None? && !r.timerArmed
    ensures Consistent(r)
  {
    b.(status := Idle, currentOrder := None, timerArmed := false)
  }

  /** The bot and the order records after the timer fired, and what `onComplete` received. */
  datatype Completion = Completion(bot: Bot, heap: seq<O.Order>, completed: Option<O.Order>)

  /**
   * `completeOrder(onComplete)`: a held order is marked COMPLETE (with no bot
   * id, as the source passes none), the bot is reset, and `onComplete` is
   * called once with the order; with no order held nothing happens.
   */
  function CompleteOrder(b: Bot, heap: seq<O.Order>, now: nat): (r: Completion)
    requires RefersInto(b, heap)
    ensures b.currentOrder.None? ==> r == Completion(b, heap, None)
    ensures b.currentOrder.Some? ==>
      var k := O.Find(heap, b.currentOrder.value).value;
      && |r.heap| == |heap|
      && r.heap[k] == O.MarkComplete(heap[k], None, now)
      && (forall j :: 0 <= j < |heap| && j != k ==> r.heap[j] == heap[j])
      && r.completed == Some(r.heap[k])
      && r.bot == Reset(b)
  {
    match b.currentOrder
    case None => Completion(b, heap, None)
    case Some(x) =>
      var k := O.Find(heap, x).value;
      var done := O.MarkComplete(heap[k], None, now);
      Completion(Reset(b), heap[k := done], Some(done))
  }

  /** The bot and the order records after `stopProcessing`, and the order it returned. */
  datatype Stop = Stop(bot: Bot, heap: seq<O.Order>, stopped: Option<O.Order>)

  /**
   * `stopProcessing`: the timer is cleared; a held order is reset to PENDING
   * and returned, and the bot is reset; with no order held it returns null.
   */
  function StopProcessing(b: Bot, heap: seq<O.Order>): (r: Stop)
    requires RefersInto(b, heap)
    ensures !r.bot.timerArmed && r.bot.id == b.id
    ensures b.currentOrder.None? ==> r == Stop(b.(timerArmed := false), heap, None)
    ensures Consistent(b) && IsIdle(b) ==> r == Stop(b, heap, None)
    ensures b.currentOrder.Some? ==>
      var k := O.Find(heap, b.currentOrder.value).value;
      && |r.heap| == |heap|
      && r.heap[k] == O.ResetToPending(heap[k])
      && (forall j :: 0 <= j < |heap| && j != k ==> r.heap[j] == heap[j])
      && r.stopped == Some(r.heap[k])
      && r.bot == Reset(b)
  {
    var disarmed := b.(timerArmed := false);
    match disarmed.currentOrder
    case None => Stop(disarmed, heap, None)
    case Some(x) =>
      var k := O.Find(heap, x).value;
      var reset := O.ResetToPending(heap[k]);
      Stop(Reset(disarmed), heap[k := reset], Some(reset))
  }

  /** A second `stopProcessing` returns null and changes nothing. */
  lemma StopTwiceIsNoOp(b: Bot, heap: seq<O.Order>)
    requires RefersInto(b, heap)
    ensures var s := StopProcessing(b, heap);
      RefersInto(s.bot, s.heap) && StopProcessing(s.bot, s.heap) == Stop(s.bot, s.heap, None)
  {
  }

  /** Once stopped, the claim can no longer complete: the timer is off and no order is held. */
  lemma NoCompletionAfterStop(b: Bot, heap: seq<O.Order>, now: nat)
    requires RefersInto(b, heap)
    ensures var s := StopProcessing(b, heap);
      && !s.bot.timerArmed
      && RefersInto(s.bot, s.heap)
      && CompleteOrder(s.bot, s.heap, now).completed.None?
  {
  }

  /** Both ways out of PROCESSING leave a consistent IDLE bot behind. */
  lemma TransitionsKeepConsistent(b: Bot, heap: seq<O.Order>, now: nat)
    requires Consistent(b) && RefersInto(b, heap)
    ensures Consistent(CompleteOrder(b, heap, now).bot)
    ensures Consistent(StopProcessing(b, heap).bot)
    ensures IsIdle(CompleteOrder(b, heap, now).bot) && IsIdle(StopProcessing(b, heap).bot)
  {
  }
}
