# Tea robot, modelled in Dafny

A model of the order-processing core of a tea-making kiosk (`tea_robot.py`).
A user orders a tea by name. The robot admits only teas that have a brewing
temperature. It queues them first in, first out, and drains the queue. Each
order checks the stock, heats the boiler to the tea's temperature, and
dispenses one unit.

Two modules:

- `TeaModel` (`tea_model.dfy`) covers the catalog and the state as values.
  - The two constant tables (`TeaTemperatures`, `InitialStock`) and the boiler's
    starting temperature of 25 are here (tea_robot.py:4-17, 21).
  - The stock invariant `StockValid` says no count is negative and every stocked
    tea has a temperature.
  - The functions `Available`, `Dispensed`, `Prepare` and `Drain` say what one
    order and a whole drain do to the stock and the boiler.
  - The lemmas about `Drain` state what a drain does overall.
- `TeaRobot` (`tea_robot.dfy`) holds one class per class of the source:
  `WaterBoiler`, `TeaDispenser`, `OrderQueue`, `TeaMaker` (the source's
  `Tea_Maker`) and `Robot`.
  - Each keeps the fields the source updates in place: an `int` temperature,
    a `map<string, int>` stock table and a `seq<string>` queue.
  - `TeaDispenser.Dispense`, `TeaMaker.PrepareTea` and `Robot.ProcessOrders`
    are proved against the `TeaModel` functions `Dispensed`, `Prepare` and
    `Drain`; the other methods state their new state directly.
  - `Robot.Valid()` is the controller's invariant. The tea maker shares the
    robot's boiler and dispenser, the stock is valid, and every queued order
    names a tea that has a temperature.
  - Four scenario methods (`RejectedScenario`, `GreenScenario`,
    `ChamomileScenario`, `MintThenBlackScenario`) derive concrete runs of a fresh
    robot from the contracts alone.

The Python `process_orders` prints one "complete" or "failed" line per order and
returns nothing. `Robot.ProcessOrders` returns those outcomes instead, as a
sequence of `Outcome(tea, success)`.

Modelling notes:

- `dispense` (tea_robot.py:35-41) returns nothing, so `TeaDispenser.Dispense`
  has no result.
- `prepare_tea` looks up the temperature without a guard (tea_robot.py:73).
  That lookup would raise for a stocked tea with no temperature. The model rules
  this out with the stock invariant `StockValid`, which holds for the initial
  tables and is kept by every operation. `PrepareTea` therefore needs no
  precondition on the tea's name.

## Model

| member | source | states |
|---|---|---|
| TeaModel.Available | tea_robot.py:32-33 | a tea is available exactly when it is in the stock table with a count above zero; a tea missing from the table is never available |
| TeaModel.Dispensed | tea_robot.py:35-41 | dispensing an available tea lowers its count by exactly 1 and leaves every other entry and the key set unchanged; an unavailable tea leaves the whole table unchanged; a valid (non-negative) table stays valid |
| TeaModel.Prepare | tea_robot.py:66-81 | preparing succeeds exactly when the tea is available; on failure boiler and stock are untouched; on success the tea has a temperature entry, the boiler holds that temperature and the tea's count is one lower; stock stays valid |
| TeaModel.Drain | tea_robot.py:98-109 | draining yields one outcome per order, in submission order, whatever each order's success; only teas with a temperature succeed; stock stays valid (never negative) |
| TeaModel.DrainStock | tea_robot.py:98-109 | after a drain each tea's count has dropped by exactly the number of its orders that succeeded |
| TeaModel.DrainServedCount | tea_robot.py:66-70 | the number of successful orders for a tea is the smaller of how many times it was ordered and its stock at the start |
| TeaModel.DrainSuccess | tea_robot.py:98-109 | the i-th order succeeds exactly when fewer earlier orders for the same tea have succeeded than that tea's stock at the start |
| TeaModel.DrainTemperature | tea_robot.py:98-109 | after a drain the boiler holds the temperature of the last order that succeeded, or its previous temperature when none did |
| TeaRobot.WaterBoiler.constructor | tea_robot.py:20-21 | a new boiler starts at 25 degrees |
| TeaRobot.WaterBoiler.HeatTo | tea_robot.py:23-24 | the temperature becomes the target, whatever integer it is |
| TeaRobot.TeaDispenser.constructor | tea_robot.py:29-30 | a new dispenser holds the initial stock table, which is valid |
| TeaRobot.TeaDispenser.CheckAvailability | tea_robot.py:32-33 | true exactly when the dispenser's count for the tea is above zero; unknown teas are unavailable |
| TeaRobot.TeaDispenser.Dispense | tea_robot.py:35-41 | an available tea's count drops by exactly 1 with all else unchanged; an unavailable tea leaves the table unchanged; stock stays valid |
| TeaRobot.OrderQueue.constructor | tea_robot.py:45-46 | a new queue is empty |
| TeaRobot.OrderQueue.AddOrder | tea_robot.py:48-50 | the order is appended at the tail |
| TeaRobot.OrderQueue.GetNextOrder | tea_robot.py:52-55 | on a non-empty queue the head is removed and returned; on an empty queue None is returned and nothing changes |
| TeaRobot.OrderQueue.HasOrders | tea_robot.py:57-58 | true exactly when the queue is non-empty |
| TeaRobot.TeaMaker.constructor | tea_robot.py:62-64 | the tea maker works on the boiler and dispenser it is given |
| TeaRobot.TeaMaker.PrepareTea | tea_robot.py:66-81 | returns whether the tea was available; with zero stock it changes neither boiler nor stock; otherwise the boiler ends at the tea's temperature and its count is one lower; agrees with Prepare |
| TeaRobot.Robot.constructor | tea_robot.py:86-90 | a new robot has an empty queue, the initial stock, a boiler at 25 degrees and a tea maker sharing its boiler and dispenser |
| TeaRobot.Robot.TakeOrder | tea_robot.py:92-96 | a tea with a temperature entry is appended to the queue; any other tea leaves the queue unchanged, so repeated rejections change nothing; the invariant that queued teas have temperatures is kept |
| TeaRobot.Robot.ProcessOrders | tea_robot.py:98-109 | the loop ends with the queue empty; the outcomes and the final boiler and stock are those of Drain on the queue as it was, so orders are served in FIFO order |

## Left out

- The console loop `main()` and its call (tea_robot.py:112-134) are not modelled. They read input, trim it and stop at "exit". This is I/O.
- All `print` calls are not modelled. They have no effect on state. The per-order "complete"/"failed" result is returned by `Robot.ProcessOrders` as an outcome list.
- `TeaDispenser.available` shares the module-level `tea_stock` dict in the source (tea_robot.py:30). The model gives the dispenser its own copy of the initial table. Python reference sharing does not matter with a single robot.
- The `KeyError` at tea_robot.py:73 for a stocked tea that has no temperature entry is not modelled as an error path. It cannot arise under the stock invariant `StockValid`, which the initial tables satisfy.
