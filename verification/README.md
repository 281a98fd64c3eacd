# Order dispatch engine of mcd-oms, in Dafny

This project models the order-dispatch core of a small order management system:
- `OrderController` queues customer orders by priority (VIP ahead of NORMAL) and hands them to cooking bots.
- Each `Bot` is a two-state machine (IDLE, PROCESSING) that holds at most one order and finishes it after a timer.
- Each `Order` is a record with a PENDING → PROCESSING → COMPLETE lifecycle. There is also a reset from PROCESSING back to PENDING, used when a bot is removed.

The model is functional:
- Records are immutable datatypes.
- Every controller method is a pure transition `Engine → Engine` (plus whatever the method returns).
- The bot's 10-second timer becomes an explicit engine event, `Controller.Complete(e, i, now)`. It is only enabled while bot `i` has its timer armed (`CompletionEnabled`).
- A bot holds the *id* of its order. The engine's `orders` sequence stands for the JavaScript objects that the bot and the controller share. The bot-level operations that touch an order take that sequence and find the order by id.
- Wall-clock `Date` values are replaced by a logical clock `now: nat` that each operation receives.

Modules, one file each:
- `Basics` (`basics.dfy`): `Option`, `Result`.
- `Orders` (`orders.dfy`): the order record and its lifecycle (models/Order.js).
- `Bots` (`bots.dfy`): the bot state machine (models/Bot.js).
- `Controller` (`controller.dfy`): the engine state, the public operations and the query views (services/OrderController.js).
- `Invariants` (`invariants.dfy`): the engine invariant `Valid`, and the proof that the assignment pass re-establishes it.
- `Preservation` (`preservation.dfy`): `Valid` is kept by `createOrder`, `addBot`, `removeBot` and a timer firing.
- `Priority` (`priority.dfy`): where a new order lands in the pending view, and priority ordering of that view.
- `Behaviour` (`behaviour.dfy`): single-operation facts on valid engines: release in place, one-to-one holding, fresh ids.
- `Scenarios` (`scenarios.dfy`): two concrete runs, including one where `removeBot` breaks submission order among VIP orders.

The invariant `Valid` combines:
- every order is well formed, and its id is distinct and below `nextOrderId`;
- every bot is consistent (IDLE exactly when it holds no order and its timer is off), and bot ids are below `nextBotId` and strictly increasing;
- every held order is PROCESSING, every PROCESSING order is held, and no order is held twice;
- every VIP order comes before every NORMAL order in `orders`, and NORMAL orders stay in id order;
- there is never an idle bot while an order is pending.

The `orders` array keeps VIPs ahead of NORMALs whatever their status. Because of this, the pending view keeps VIP-before-NORMAL priority after `removeBot` too (`Priority.ValidPendingPriority`). What `removeBot` can break is submission order *among* VIP orders. `Scenarios.RemoveBotCanBreakVipFifo` exhibits such a run. This matches the code as written: the released order is written back at its old index.

## Model

| member | source | states |
|---|---|---|
| Orders.NewOrder | models/Order.js:2-10 | A new order is PENDING with the given id, type and creation time, with no start time, no completion time and no completing bot; it is well formed |
| Orders.StartProcessing | models/Order.js:12-15 | Status becomes PROCESSING and the start time is recorded; id, type, creation time and completion fields are unchanged; a well-formed PENDING order stays well formed |
| Orders.MarkComplete | models/Order.js:17-21 | Status becomes COMPLETE, the completion time is recorded, and the completing bot is exactly the argument; the start time and the identity are untouched |
| Orders.ResetToPending | models/Order.js:23-26 | Status becomes PENDING and the start time is cleared; id, type, creation time and completion fields are unchanged |
| Orders.ResetUndoesStart | models/Order.js:12-26 | Resetting a freshly started, well-formed PENDING order gives back exactly the original order |
| Orders.IdentityNeverChanges | models/Order.js:2-26 | No sequence of order operations changes the order's id, type or creation time |
| Orders.LegalRunKeepsWellFormed | models/Order.js:12-26 | Operations applied along the lifecycle edges (start from PENDING, complete or reset from PROCESSING) keep the status and the timestamps in agreement |
| Orders.CompleteIsTerminal | models/Order.js:17-21 | Along the lifecycle edges nothing leaves COMPLETE: a run of legal operations that starts there is empty (the engine-level counterpart is in the `Behaviour.*KeepsCompleted` rows) |
| Orders.Find | services/OrderController.js:57 | `findIndex` by id: the first index with that id, or none when no order has it |
| Orders.FindUnique | services/OrderController.js:57 | With distinct ids, the lookup by id returns exactly the index of the order carrying that id |
| Bots.NewBot | models/Bot.js:2-7 | A new bot is IDLE with the given id, holds no order, has no timer, and is consistent |
| Bots.IsIdle | models/Bot.js:9-11 | On a consistent bot, idle holds exactly when no order is held |
| Bots.StartProcessing | models/Bot.js:13-26 | Fails exactly when the bot is not idle; otherwise the bot is PROCESSING, holds the given order, has its timer armed and is consistent, and the order is started |
| Bots.Reset | models/Bot.js:53-57 | The bot is IDLE with no order and no timer, keeps its id, and is consistent |
| Bots.CompleteOrder | models/Bot.js:28-36 | With no order held, nothing changes and no completion is reported; otherwise only the held order is marked COMPLETE (with no bot id), the bot is reset, and that order is reported once |
| Bots.StopProcessing | models/Bot.js:38-51 | The timer is always cleared; with no order held, nothing else changes and none is returned; otherwise only the held order is reset to PENDING and returned, and the bot is reset |
| Bots.StopTwiceIsNoOp | models/Bot.js:38-51 | A second stop returns nothing and changes nothing |
| Bots.NoCompletionAfterStop | models/Bot.js:28-51 | After a stop the timer is off and a completion would report nothing, so a cancelled claim cannot complete |
| Bots.TransitionsKeepConsistent | models/Bot.js:28-57 | Completing and stopping both leave a consistent, idle bot |
| Controller.Init | services/OrderController.js:5-10 | The engine starts with no orders, no bots, and both id counters at 1 |
| Controller.FirstIdle | services/OrderController.js:70 | The first idle bot in list order, or none when no bot is idle |
| Controller.FirstPending | services/OrderController.js:71 | The first PENDING order in list order, or none when no order is pending |
| Controller.VipInsertIndex | services/OrderController.js:16-26 | The VIP insertion point is no later than the first pending NORMAL, and it is directly after a pending VIP or at the front; there is no pending order between it and the first pending NORMAL |
| Controller.ScanVipInsertIndex | services/OrderController.js:17-25 | The scanning loop with its early `break` computes exactly the insertion point `VipInsertIndex` |
| Controller.Enqueue | services/OrderController.js:16-29 | The new order lands at its insertion position (the tail for NORMAL); the orders before it are unchanged and those after it move up by one |
| Controller.Assign | services/OrderController.js:69-79 | When an idle bot and a pending order both exist, the first idle bot takes the first pending order, which becomes PROCESSING, and nothing else changes; otherwise the engine is unchanged |
| Controller.CreateOrder | services/OrderController.js:12-34 | Exactly one order is added, with id equal to the old `nextOrderId`; the counter goes up by one; the returned order is PENDING or already PROCESSING; the other orders keep their relative order |
| Controller.AddBot | services/OrderController.js:36-43 | A bot with id equal to the old `nextBotId` is appended; the counter goes up by one; earlier bots keep their ids; the orders keep their count |
| Controller.RemoveBot | services/OrderController.js:45-67 | An empty bot list gives null and an unchanged engine; otherwise the last bot is removed and returned with no order and no timer, and every order keeps its index, id and type |
| Controller.Complete | models/Bot.js:23-25 | A timer firing keeps the number, ids and types of the orders, the bot ids, and the counters |
| Controller.WithStatus | services/OrderController.js:81-91 | `orders.filter` by status, the body of `PendingOrders`, `ProcessingOrders` and `CompletedOrders`: never longer than the input, and every element has the requested status |
| Controller.BotsWhereIdle | services/OrderController.js:108-109 | `bots.filter` by `isIdle()` or its negation: never longer than the input, and a bot is in it exactly when it is in the list and its idleness is the requested one |
| Controller.WithStatusMembers | services/OrderController.js:81-91 | A status view holds exactly the orders of that status |
| Controller.BotStatusView | services/OrderController.js:93-99 | One summary per bot, in bot order, copying id, status and held order id; when all bots are consistent, `currentOrderId` is null exactly when the bot is IDLE |
| Controller.StatusViewsPartition | services/OrderController.js:81-91 | Every order appears in exactly one of the pending, processing and completed views, by count |
| Controller.BotViewsPartition | services/OrderController.js:108-109 | Every bot appears in exactly one of the idle and non-idle bot views, by count |
| Controller.GetStats | services/OrderController.js:101-111 | Each count is the length of its view: the pending, processing and completed order filters and the idle and non-idle bot filters. Total orders = pending + processing + completed and total bots = idle + processing bots, through `StatusViewsPartition` and `BotViewsPartition` |
| Invariants.InitValid | services/OrderController.js:5-10 | The initial engine satisfies the invariant |
| Invariants.HeldOrderIndex | services/OrderController.js:57 | On a coherent engine, a bot's held order is found by id at an index where it is PROCESSING |
| Invariants.AssignKeepsCoherent | services/OrderController.js:69-79 | The assignment pass keeps every part of the invariant except settledness |
| Invariants.AssignSettles | services/OrderController.js:69-79 | If only one idle bot or only one pending order can be left unpaired, one pass leaves no idle bot beside a pending order |
| Invariants.AssignKeepsHolding | services/OrderController.js:69-79 | The pairing made by the pass keeps every held order PROCESSING, every PROCESSING order held, and no order held twice |
| Invariants.AssignKeepsValid | services/OrderController.js:69-79 | From a coherent engine in which one pass can settle everything, the pass yields a valid engine |
| Preservation.CreateOrderKeepsValid | services/OrderController.js:12-34 | `createOrder` keeps the invariant, including distinct ids below `nextOrderId` and no idle bot beside a pending order |
| Preservation.AddBotKeepsValid | services/OrderController.js:36-43 | `addBot` keeps the invariant, including strictly increasing bot ids |
| Preservation.CompleteKeepsValid | services/OrderController.js:74-77 | A timer firing followed by its assignment pass keeps the invariant |
| Preservation.RemoveBotKeepsValid | services/OrderController.js:45-67 | `removeBot` keeps the invariant, whether or not the removed bot held an order |
| Priority.LeadingVips | services/OrderController.js:16-26 | Length of the leading run of VIP orders: all before it are VIP, and the next one (if any) is NORMAL |
| Priority.VipEnqueuePendingView | services/OrderController.js:16-26 | In the pending view, a new VIP order appears directly after the leading run of pending VIPs, and the other pending orders keep their order |
| Priority.NormalEnqueuePendingView | services/OrderController.js:27-29 | In the pending view, a new NORMAL order is appended at the end |
| Priority.AssignPendingView | services/OrderController.js:69-79 | The assignment pass removes exactly the head of the pending view when it pairs, and leaves the view alone otherwise |
| Priority.CreateOrderKeepsPendingPriority | services/OrderController.js:12-34 | If pending VIPs precede pending NORMALs and each class is in submission order before `createOrder`, both hold afterwards |
| Priority.ValidPendingPriority | services/OrderController.js:16-60 | On every valid engine, so also after `removeBot`, pending VIPs precede pending NORMALs and pending NORMALs are in submission order |
| Behaviour.EnqueueThenRemove | services/OrderController.js:26-28 | Taking the new order back out of the queue gives the old queue, so existing orders keep their relative order |
| Behaviour.RemoveBotReleasesInPlace | services/OrderController.js:45-67 | The removed bot's order stays at its index and becomes PENDING with its start time cleared, or is restarted by the first remaining idle bot, which is the only remaining bot that changes; every other order is unchanged |
| Behaviour.RemoveIdleBotOnlyPops | services/OrderController.js:51-55 | Removing a bot that holds nothing only pops it from the bot list |
| Behaviour.HoldingIsOneToOne | services/OrderController.js:69-79 | On a valid engine a bot is PROCESSING exactly when it holds an order, a held order is PROCESSING, no two bots hold the same order, and every PROCESSING order is held |
| Behaviour.SettledAssignIsNoOp | services/OrderController.js:31-77 | On a valid engine there is no idle bot or no pending order, so another assignment pass does nothing |
| Behaviour.AddBotIdFresh | services/OrderController.js:37-38 | A new bot's id is larger than every existing bot id, so bot ids are never reused |
| Behaviour.CompleteMarksHeldOrder | models/Bot.js:28-35 | On a valid engine a timer firing leaves the bot's held order at its index completed at the firing time with no completing bot recorded, even after the follow-up pass |
| Behaviour.CompleteKeepsCompleted | services/OrderController.js:74-77 | On a valid engine a timer firing, with its assignment pass, leaves every COMPLETE order unchanged at its index |
| Behaviour.RemoveBotKeepsCompleted | services/OrderController.js:45-67 | On a valid engine `removeBot` leaves every COMPLETE order unchanged at its index |
| Behaviour.CreateOrderKeepsCompleted | services/OrderController.js:12-34 | `createOrder` leaves every COMPLETE order unchanged, at its index shifted by one when it stood at or after the insertion position |
| Scenarios.WalkthroughScenario | services/OrderController.js:12-67 | NORMAL #1 then VIP #2 gives pending [2, 1]; a new bot takes #2; removing it gives pending [2, 1] and no bots |
| Scenarios.RemoveBotCanBreakVipFifo | services/OrderController.js:45-67 | With two bots, after NORMAL #1, VIP #2 and VIP #3, removing the bot holding #2 leaves pending [3, 2], out of submission order within the VIP class |

## Left out

- cli/CLI.js: readline input, console rendering and monitoring are presentation only; they just read the controller's views.
- app.js: the entry point and module exports carry no logic.
- Real timers and `Date` values: `setTimeout`/`clearTimeout` become the armed flag `timerArmed` and the `Controller.Complete` event, and timestamps come from a logical clock passed into each operation. No ordering between timestamps is claimed.
- The unused `botId` parameter of `createOrder` is not modelled.
- The `type = 'NORMAL'` default argument of `createOrder` (services/OrderController.js:12) and of the `Order` constructor (models/Order.js:2) is not modelled: the model always takes an explicit type.
- Order `type` values other than `'VIP'` and `'NORMAL'` are not modelled. The source would push such an order like a NORMAL one, and its scan would skip it.
- The `throw` of `Bot.startProcessing` is modelled as an `Err` result that leaves the bot unchanged. The controller only calls it on an idle bot.
- Bots.CompleteOrder: the completing bot is not recorded on the order. The source calls `complete()` with no argument, so `completedByBotId` stays empty.
- The `onComplete` callback is not a value: its one effect (one assignment pass) is inlined in `Controller.Complete`.
- Controller.Complete: its own contract states only what the firing keeps. On valid engines its effect on the held order is stated by `Behaviour.CompleteMarksHeldOrder`, the effect on the bot by `Bots.CompleteOrder`, and the invariant by `Preservation.CompleteKeepsValid`.
- Controller.RemoveBot: its contract states shapes and ids. The per-order effect is stated on valid engines by `Behaviour.RemoveBotReleasesInPlace`.
- Submission order among pending VIP orders is proved for `createOrder` only, because `removeBot` can break it (`Scenarios.RemoveBotCanBreakVipFifo`).
