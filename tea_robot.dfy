// The tea robot's objects: the boiler, the dispenser, the order queue, the
// tea maker that combines boiler and dispenser, and the robot controller.
// Each class keeps the fields the robot updates in place. Dispense, PrepareTea
// and ProcessOrders are proved against the functions of module TeaModel.

module TeaRobot {

  import opened TeaModel

  /** Holds the current water temperature. */
  class WaterBoiler {
    var temperature: int

    constructor ()
      ensures temperature == InitialTemperature
    {
      temperature := InitialTemperature;
    }

    /** Overwrites the temperature with `target`; any integer is accepted. */
    method HeatTo(target: int)
      modifies this
      ensures temperature == target
    {
      temperature := target;
    }
  }

  /** Owns the stock table and hands out one unit of tea at a time. */
  class TeaDispenser {
    var available: map<Tea, int>

    ghost predicate Valid()
      reads this
    {
      StockValid(available)
    }

    constructor ()
      ensures Valid() && available == InitialStock
    {
      available := InitialStock;
    }

    /** True exactly when the stock of `teaType` is positive; an unknown tea is
        unavailable. */
    predicate CheckAvailability(teaType: Tea)
      reads this
      ensures CheckAvailability(teaType) <==> teaType in available && available[teaType] > 0
    {
      Available(available, teaType)
    }

    /** Decrements the count of an available tea by one; an unavailable tea
        leaves the stock as it is. */
    method Dispense(teaType: Tea)
      requires Valid()
      modifies this
      ensures Valid()
      ensures available == Dispensed(old(available), teaType)
      ensures old(CheckAvailability(teaType)) ==>
                available == old(available)[teaType := old(available)[teaType] - 1]
      ensures !old(CheckAvailability(teaType)) ==> available == old(available)
    {
      if CheckAvailability(teaType) {
        available := available[teaType := available[teaType] - 1];
      }
    }
  }

  /** Pending orders, served first in, first out. */
  class OrderQueue {
    var queue: seq<Tea>

    constructor ()
      ensures queue == []
    {
      queue := [];
    }

    /** Appends `order` at the tail. */
    method AddOrder(order: Tea)
      modifies this
      ensures queue == old(queue) + [order]
    {
      queue := queue + [order];
    }

    /** Removes and returns the head; on an empty queue returns None and
        changes nothing. */
    method GetNextOrder() returns (order: Option<Tea>)
      modifies this
      ensures old(queue) == [] ==> order == None && queue == []
      ensures old(queue) != [] ==> order == Some(old(queue)[0]) && queue == old(queue)[1..]
    {
      if queue != [] {
        order := Some(queue[0]);
        queue := queue[1..];
      } else {
        order := None;
      }
    }

    /** True exactly when some order is waiting. */
    predicate HasOrders()
      reads this
      ensures HasOrders() <==> queue != []
    {
      |queue| > 0
    }
  }

  /** Prepares one cup with a boiler and a dispenser it shares with its owner. */
  class TeaMaker {
    const boiler: WaterBoiler
    const dispenser: TeaDispenser

    constructor (boiler: WaterBoiler, dispenser: TeaDispenser)
      ensures this.boiler == boiler && this.dispenser == dispenser
    {
      this.boiler := boiler;
      this.dispenser := dispenser;
    }

    ghost function State(): Machine
      reads boiler, dispenser
    {
      Machine(dispenser.available, boiler.temperature)
    }

    /** Fails, changing nothing, when the tea is out of stock; otherwise heats
        the boiler to the tea's temperature, dispenses one unit and succeeds. */
    method PrepareTea(teaType: Tea) returns (success: bool)
      requires dispenser.Valid()
      modifies boiler, dispenser
      ensures dispenser.Valid()
      ensures Prepared(success, State()) == Prepare(old(State()), teaType)
      ensures success == old(dispenser.CheckAvailability(teaType))
      ensures !success ==> boiler.temperature == old(boiler.temperature)
                           && dispenser.available == old(dispenser.available)
      ensures success ==> teaType in TeaTemperatures
                          && boiler.temperature == TeaTemperatures[teaType]
                          && dispenser.available
                             == old(dispenser.available)[teaType := old(dispenser.available)[teaType] - 1]
    {
      if !dispenser.CheckAvailability(teaType) {
        return false;
      }
      var desiredTemp := TeaTemperatures[teaType];
      boiler.HeatTo(desiredTemp);
      dispenser.Dispense(teaType);
      return true;
    }
  }

  /** The controller: admits orders for known teas and drains the queue. */
  class Robot {
    const queue: OrderQueue
    const boiler: WaterBoiler
    const dispenser: TeaDispenser
    const teaMaker: TeaMaker

    /** The tea maker works on this robot's own boiler and dispenser, the stock
        is valid, and every queued order names a tea with a temperature. */
    ghost predicate Valid()
      reads queue, dispenser
    {
      && teaMaker.boiler == boiler
      && teaMaker.dispenser == dispenser
      && dispenser.Valid()
      && forall i :: 0 <= i < |queue.queue| ==> queue.queue[i] in TeaTemperatures
    }

    ghost function State(): Machine
      reads boiler, dispenser
    {
      Machine(dispenser.available, boiler.temperature)
    }

    constructor ()
      ensures Valid() && fresh(queue) && fresh(boiler) && fresh(dispenser) && fresh(teaMaker)
      ensures queue.queue == []
      ensures State() == Machine(InitialStock, InitialTemperature)
    {
      var q := new OrderQueue();
      var b := new WaterBoiler();
      var d := new TeaDispenser();
      queue := q;
      boiler := b;
      dispenser := d;
      teaMaker := new TeaMaker(b, d);
    }

    /** Queues `teaType` when it has a brewing temperature; otherwise rejects it
        and changes nothing. */
    method TakeOrder(teaType: Tea)
      requires Valid()
      modifies queue
      ensures Valid()
      ensures teaType in TeaTemperatures ==> queue.queue == old(queue.queue) + [teaType]
      ensures teaType !in TeaTemperatures ==> queue.queue == old(queue.queue)
    {
      if teaType in TeaTemperatures {
        queue.AddOrder(teaType);
      }
    }

    /** Serves every queued order in submission order through the tea maker,
        leaving the queue empty; returns one outcome per order served. */
    method ProcessOrders() returns (log: seq<Outcome>)
      requires Valid()
      modifies queue, boiler, dispenser
      ensures Valid()
      ensures queue.queue == []
      ensures Drained(log, State()) == Drain(old(State()), old(queue.queue))
    {
      log := [];
      ghost var initial, orders := State(), queue.queue;
      while queue.HasOrders()
        invariant Valid()
        // Implied by Valid(); stated on its own so that the solver need not
        // unfold Valid() to meet Drain's precondition.
        invariant StockValid(State().stock)
        invariant Drain(initial, orders).log == log + Drain(State(), queue.queue).log
        invariant Drain(initial, orders).after == Drain(State(), queue.queue).after
        decreases |queue.queue|
      {
        ghost var before, pending := State(), queue.queue;
        var nextOrder := queue.GetNextOrder();
        var success := teaMaker.PrepareTea(nextOrder.value);
        DrainStep(before, pending, success, State());
        ghost var rest := Drain(State(), queue.queue);
        assert log + ([Outcome(pending[0], success)] + rest.log)
               == (log + [Outcome(pending[0], success)]) + rest.log;
        log := log + [Outcome(nextOrder.value, success)];
      }
    }
  }

  /** An unknown tea is turned away however often it is ordered. */
  method RejectedScenario() {
    var robot := new Robot();
    robot.TakeOrder("Oolong");
    robot.TakeOrder("Oolong");
    assert robot.queue.queue == [];
    var log := robot.ProcessOrders();
    assert log == [];
    assert robot.State() == Machine(InitialStock, InitialTemperature);
  }

  /** A stocked tea is prepared at its temperature and its stock drops by one. */
  method GreenScenario() {
    var robot := new Robot();
    robot.TakeOrder("Green");
    var log := robot.ProcessOrders();
    DrainStep(Machine(InitialStock, InitialTemperature), ["Green"], true,
              Machine(InitialStock["Green" := 1], 80));
    assert log == [Outcome("Green", true)];
    assert robot.boiler.temperature == 80;
    assert robot.dispenser.available["Green"] == 1;
  }

  /** A tea out of stock fails and nothing changes. */
  method ChamomileScenario() {
    var robot := new Robot();
    robot.TakeOrder("Chamomile");
    var log := robot.ProcessOrders();
    DrainStep(Machine(InitialStock, InitialTemperature), ["Chamomile"], false,
              Machine(InitialStock, InitialTemperature));
    assert log == [Outcome("Chamomile", false)];
    assert robot.State() == Machine(InitialStock, InitialTemperature);
  }

  /** Two orders are served in the order they were taken: the boiler ends at
      the second tea's temperature. */
  method MintThenBlackScenario() {
    var robot := new Robot();
    robot.TakeOrder("Mint");
    robot.TakeOrder("Black");
    var log := robot.ProcessOrders();
    var afterMint := Machine(InitialStock["Mint" := 4], 90);
    DrainStep(Machine(InitialStock, InitialTemperature), ["Mint", "Black"], true, afterMint);
    DrainStep(afterMint, ["Black"], true, Machine(afterMint.stock["Black" := 7], 95));
    assert log == [Outcome("Mint", true), Outcome("Black", true)];
    assert robot.boiler.temperature == 95;
  }
}
