// The tea robot's catalog and a value-level account of what preparing one
// order, and draining a whole queue of orders, does to the stock table and the
// boiler. The classes in module TeaRobot are proved against these functions.

module TeaModel {

  type Tea = string

  datatype Option<T> = None | Some(value: T)

  /** Ideal brewing temperature of each tea, in degrees Celsius. */
  const TeaTemperatures: map<Tea, int> :=
    map["Mint" := 90, "Green" := 80, "Black" := 95, "Chamomile" := 93]

  /** The stock table the dispenser starts with. */
  const InitialStock: map<Tea, int> :=
    map["Mint" := 5, "Green" := 2, "Black" := 8, "Chamomile" := 0]

  /** The boiler's temperature before anything has been heated. */
  const InitialTemperature: int := 25

  /** A stock table the robot can work from: no count is negative, and every
      tea that has a count also has a brewing temperature. */
  predicate StockValid(stock: map<Tea, int>) {
    forall t :: t in stock ==> t in TeaTemperatures && stock[t] >= 0
  }

  /** The count of a tea, a tea missing from the table counting as 0. */
  function StockOf(stock: map<Tea, int>, t: Tea): int {
    if t in stock then stock[t] else 0
  }

  /** A tea is available when its count is positive. */
  predicate Available(stock: map<Tea, int>, t: Tea)
    ensures Available(stock, t) <==> t in stock && stock[t] > 0
    ensures t !in stock ==> !Available(stock, t)
  {
    StockOf(stock, t) > 0
  }

  /** The stock table after one unit of tea `t` has been dispensed; an
      unavailable tea leaves the table as it is. */
  function Dispensed(stock: map<Tea, int>, t: Tea): (r: map<Tea, int>)
    ensures r.Keys == stock.Keys
    ensures Available(stock, t) ==> r[t] == stock[t] - 1
    ensures !Available(stock, t) ==> r == stock
    ensures forall u :: u in stock && u != t ==> r[u] == stock[u]
    ensures StockValid(stock) ==> StockValid(r)
  {
    if Available(stock, t) then stock[t := stock[t] - 1] else stock
  }

  /** What the robot's state consists of: the stock table and the boiler's
      temperature. */
  datatype Machine = Machine(stock: map<Tea, int>, temperature: int)

  /** The result of preparing one cup: whether it succeeded, and the state
      afterwards. */
  datatype Prepared = Prepared(success: bool, after: Machine)

  /** Preparing a cup of tea `t`: fails without touching anything when `t` is
      unavailable; otherwise heats the boiler to the tea's temperature and
      dispenses one unit. */
  function Prepare(m: Machine, t: Tea): (r: Prepared)
    requires StockValid(m.stock)
    ensures r.success <==> Available(m.stock, t)
    ensures !r.success ==> r.after == m
    ensures r.success ==>
              && t in TeaTemperatures
              && r.after.temperature == TeaTemperatures[t]
              && r.after.stock == m.stock[t := m.stock[t] - 1]
    ensures StockValid(r.after.stock)
  {
    if !Available(m.stock, t) then Prepared(false, m)
    else
      var heated := Machine(m.stock, TeaTemperatures[t]);
      Prepared(true, Machine(Dispensed(heated.stock, t), heated.temperature))
  }

  /** One processed order: the tea asked for and whether it was prepared. */
  datatype Outcome = Outcome(tea: Tea, success: bool)

  /** The result of draining a queue: one outcome per order, and the final state. */
  datatype Drained = Drained(log: seq<Outcome>, after: Machine)

  /** Serving `orders` front to back, each through Prepare, whatever the
      success of the ones before it. */
  function Drain(m: Machine, orders: seq<Tea>): (r: Drained)
    requires StockValid(m.stock)
    ensures StockValid(r.after.stock)
    ensures |r.log| == |orders|
    ensures forall i :: 0 <= i < |orders| ==> r.log[i].tea == orders[i]
    ensures forall i :: 0 <= i < |r.log| && r.log[i].success ==> r.log[i].tea in TeaTemperatures
    decreases |orders|
  {
    if orders == [] then Drained([], m)
    else
      var p := Prepare(m, orders[0]);
      var rest := Drain(p.after, orders[1..]);
      Drained([Outcome(orders[0], p.success)] + rest.log, rest.after)
  }

  /** Draining a non-empty queue is preparing its head and draining the rest. */
  lemma DrainStep(m: Machine, orders: seq<Tea>, success: bool, after: Machine)
    requires StockValid(m.stock) && orders != []
    requires Prepare(m, orders[0]) == Prepared(success, after)
    ensures StockValid(after.stock)
    ensures Drain(m, orders)
            == Drained([Outcome(orders[0], success)] + Drain(after, orders[1..]).log,
                       Drain(after, orders[1..]).after)
  {
  }

  /** The number of successful outcomes for tea `t` in `log`. */
  function CountServed(log: seq<Outcome>, t: Tea): nat {
    if log == [] then 0
    else (if log[0].tea == t && log[0].success then 1 else 0) + CountServed(log[1..], t)
  }

  /** The number of orders for tea `t` in `orders`. */
  function Occurrences(orders: seq<Tea>, t: Tea): nat {
    if orders == [] then 0
    else (if orders[0] == t then 1 else 0) + Occurrences(orders[1..], t)
  }

  function Min(a: int, b: int): int {
    if a <= b then a else b
  }

  /** The temperature of the last successfully prepared tea in `log`, or
      `initial` when none succeeded. */
  function LastServedTemperature(log: seq<Outcome>, initial: int): int {
    if log == [] then initial
    else
      var last := log[|log| - 1];
      if last.success && last.tea in TeaTemperatures then TeaTemperatures[last.tea]
      else LastServedTemperature(log[..|log| - 1], initial)
  }

  /** After a drain, each tea's count has dropped by exactly the number of its
      orders that succeeded. */
  lemma {:induction false} DrainStock(m: Machine, orders: seq<Tea>, t: Tea)
    requires StockValid(m.stock)
    ensures StockOf(Drain(m, orders).after.stock, t)
            == StockOf(m.stock, t) - CountServed(Drain(m, orders).log, t)
    decreases |orders|
  {
    if orders != [] {
      var p := Prepare(m, orders[0]);
      var rest := Drain(p.after, orders[1..]);
      DrainStock(p.after, orders[1..], t);
      var log := Drain(m, orders).log;
      assert log[1..] == rest.log;
    }
  }

  /** Stock never runs out from under an order: the number of successful
      orders for a tea is the smaller of how often it was ordered and how much
      of it was in stock. */
  lemma {:induction false} DrainServedCount(m: Machine, orders: seq<Tea>, t: Tea)
    requires StockValid(m.stock)
    ensures CountServed(Drain(m, orders).log, t)
            == Min(Occurrences(orders, t), StockOf(m.stock, t))
    decreases |orders|
  {
    if orders != [] {
      var p := Prepare(m, orders[0]);
      var rest := Drain(p.after, orders[1..]);
      DrainServedCount(p.after, orders[1..], t);
      var log := Drain(m, orders).log;
      assert log[1..] == rest.log;
    }
  }

  /** The i-th order succeeds exactly when fewer earlier orders for the same
      tea succeeded than that tea had in stock at the start. */
  lemma {:induction false} DrainSuccess(m: Machine, orders: seq<Tea>, i: nat)
    requires StockValid(m.stock)
    requires i < |orders|
    ensures Drain(m, orders).log[i].success
            <==> CountServed(Drain(m, orders).log[..i], orders[i]) < StockOf(m.stock, orders[i])
    decreases i
  {
    var log := Drain(m, orders).log;
    var p := Prepare(m, orders[0]);
    var rest := Drain(p.after, orders[1..]);
    assert log[1..] == rest.log;
    if i > 0 {
      DrainSuccess(p.after, orders[1..], i - 1);
      assert log[..i][1..] == rest.log[..i - 1];
    }
  }

  /** Adding an outcome at the front only changes the starting temperature
      that LastServedTemperature falls back to. */
  lemma {:induction false} LastServedTemperatureCons(e: Outcome, log: seq<Outcome>, initial: int)
    ensures LastServedTemperature([e] + log, initial)
            == LastServedTemperature(log, if e.success && e.tea in TeaTemperatures
                                          then TeaTemperatures[e.tea] else initial)
    decreases |log|
  {
    if log != [] {
      var all := [e] + log;
      assert all[..|all| - 1] == [e] + log[..|log| - 1];
      LastServedTemperatureCons(e, log[..|log| - 1], initial);
    }
  }

  /** After a drain the boiler holds the temperature of the last order that
      succeeded, or its old temperature when none did. */
  lemma {:induction false} DrainTemperature(m: Machine, orders: seq<Tea>)
    requires StockValid(m.stock)
    ensures Drain(m, orders).after.temperature
            == LastServedTemperature(Drain(m, orders).log, m.temperature)
    decreases |orders|
  {
    if orders != [] {
      var p := Prepare(m, orders[0]);
      var rest := Drain(p.after, orders[1..]);
      DrainTemperature(p.after, orders[1..]);
      LastServedTemperatureCons(Outcome(orders[0], p.success), rest.log, m.temperature);
    }
  }
}
