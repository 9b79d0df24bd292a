/** Timers advance once per evaluation, not once per tick. A pass re-evaluates
    the target of every non-damaged connection whose two ends resolve; a
    connection with a dangling end is skipped. In the example below, one cable
    from a dead grid feed into a generator controller, the controller is
    therefore re-evaluated once per pass, five times per tick: it counts
    5 x 20 ms = 100 ms per 20 ms tick and raises its trigger on the 30th tick,
    not the 150th. */
module Scenario {
  import opened Types
  import opened Archetypes
  import opened Flow
  import opened Engine
  import opened TickFacts

  /** A grid feed (component 0) wired from `out-1` to the monitor input
      `in-1` of a healthy generator controller (component 1), and nothing else. */
  predicate Watched(n: Net)
  {
    // Bound to a name so that the verifier checks it as one fact.
    var watched :=
      && |n.comps| == 2 && |n.conns| == 1
      && n.comps[0].id != n.comps[1].id
      && Shapes(n.comps[0].ports) == Shapes(ArchetypePorts(TP))
      && Shapes(n.comps[1].ports) == Shapes(ArchetypePorts(DguAvr))
      && n.comps[0].kind == TP
      && n.comps[1].kind == DguAvr && !n.comps[1].isFaulty
      && n.conns[0].fromId == n.comps[0].id && n.conns[0].fromPortId == "out-1"
      && n.conns[0].toId == n.comps[1].id && n.conns[0].toPortId == "in-1"
      && !n.conns[0].isDamaged;
    watched
  }

  /** The feed's output and the controller's monitor input are both dead. */
  predicate Dark(n: Net)
  {
    && |n.comps| == 2
    && |n.comps[0].ports| > 0 && !n.comps[0].ports[0].isPowered
    && |n.comps[1].ports| > 0 && !n.comps[1].ports[0].isPowered
  }

  /** The controller's `internalTimer || 0`. */
  function Timer(n: Net): int
    requires |n.comps| == 2
  {
    OrDefault(n.comps[1].internalTimer, 0)
  }

  lemma WatchedLookups(n: Net)
    requires Watched(n)
    ensures FindComp(n.comps, n.comps[0].id) == Some(0)
    ensures FindComp(n.comps, n.comps[1].id) == Some(1)
    ensures FindPort(n.comps[0].ports, "out-1") == Some(0)
    ensures FindPort(n.comps[1].ports, "in-1") == Some(0)
    ensures FindInput(n.comps[1].ports, "in-1") == Some(0)
  {
    assert CompIds(n.comps) == [n.comps[0].id, n.comps[1].id];
    assert IdsOf(Shapes(n.comps[0].ports)) == ["out-1"];
    assert IdsOf(Shapes(n.comps[1].ports)) == ["in-1", "out-1"];
    assert KeysOf(Shapes(n.comps[1].ports)) == [(Input, "in-1"), (Output, "out-1")];
  }

  /** Relaying the one connection from a dead feed only re-evaluates the
      controller and records that the connection did not conduct. */
  lemma RelayRoutes(n: Net, gridDown: bool, now: int)
    requires Watched(n) && Dark(n)
    ensures RelayOf(Step(gridDown, now))(n, 0)
      == Net(n.comps[1 := Evaluate(n.comps[1], gridDown, now)], n.conns[0 := n.conns[0].(isActive := false)])
  {
    WatchedLookups(n);
  }

  /** A controller whose monitor input is dead counts one more step. */
  lemma DarkControllerCounts(c: Component, gridDown: bool, now: int)
    requires c.kind == DguAvr && !c.isFaulty
    requires Shapes(c.ports) == Shapes(ArchetypePorts(DguAvr)) && !c.ports[0].isPowered
    ensures var r := Evaluate(c, gridDown, now);
      && r.id == c.id && r.kind == DguAvr && !r.isFaulty && Shapes(r.ports) == Shapes(c.ports)
      && !r.ports[0].isPowered
      && r.internalTimer == Some(OrDefault(c.internalTimer, 0) + SimStep)
      && r.state == (if OrDefault(c.internalTimer, 0) + SimStep >= MonitorThreshold then Running else Warning)
  {
    assert IdsOf(Shapes(c.ports)) == ["in-1", "out-1"];
    assert KeysOf(Shapes(c.ports)) == [(Input, "in-1"), (Output, "out-1")];
    assert Evaluate(c, gridDown, now) == EvalController(c);
    assert MonitorLost(c);
  }

  /** The one connection, relayed once: the feed is dead, so the monitor
      stays dark and the controller counts one more evaluation. */
  lemma RelayCounts(n: Net, gridDown: bool, now: int)
    requires Watched(n) && Dark(n)
    ensures var r := RelayOf(Step(gridDown, now))(n, 0);
      && Watched(r) && Dark(r)
      && r.comps[1].internalTimer == Some(Timer(n) + SimStep)
      && r.comps[1].state == (if Timer(n) + SimStep >= MonitorThreshold then Running else Warning)
  {
    RelayRoutes(n, gridDown, now);
    DarkControllerCounts(n.comps[1], gridDown, now);
    var r := RelayOf(Step(gridDown, now))(n, 0);
    assert r.comps[0] == n.comps[0];
    assert r.comps[1] == Evaluate(n.comps[1], gridDown, now);
    assert r.conns[0] == n.conns[0].(isActive := false);
  }

  /** What one pass followed by `p` more passes adds up to. */
  predicate Counted(n: Net, r: Net, passes: nat)
  {
    var counted :=
      && |n.comps| == 2 && Watched(r) && Dark(r)
      && Timer(r) == Timer(n) + SimStep * passes
      && (passes > 0 ==> r.comps[1].state == (if Timer(r) >= MonitorThreshold then Running else Warning));
    counted
  }

  lemma CountedTrans(n: Net, m: Net, r: Net, passes: nat, p: nat)
    requires passes == p + 1 && Watched(n)
    requires Counted(n, m, 1) && Counted(m, r, p)
    requires p == 0 ==> r == m
    ensures Counted(n, r, passes)
  {
  }

  /** One pass over the single connection is one evaluation of the controller. */
  lemma SweepCounts(n: Net, gridDown: bool, now: int)
    requires Watched(n) && Dark(n)
    ensures Counted(n, Sweep(n, 0, |n.conns|, RelayOf(Step(gridDown, now))), 1)
  {
    var relay := RelayOf(Step(gridDown, now));
    RelayCounts(n, gridDown, now);
    assert Sweep(n, 0, 1, relay) == Sweep(relay(n, 0), 1, 1, relay) == relay(n, 0);
  }

  /** Every pass re-evaluates the controller once more. */
  lemma {:induction false} RelaxCounts(n: Net, passes: nat, gridDown: bool, now: int)
    requires Watched(n) && Dark(n)
    ensures Counted(n, Relax(n, passes, RelayOf(Step(gridDown, now))), passes)
    decreases passes
  {
    if passes > 0 {
      var relay := RelayOf(Step(gridDown, now));
      var p: nat := passes - 1;
      var m := Sweep(n, 0, |n.conns|, relay);
      RelaxStep(n, passes, p, relay);
      SweepCounts(n, gridDown, now);
      RelaxCounts(m, p, gridDown, now);
      CountedTrans(n, m, Relax(m, p, relay), passes, p);
    }
  }

  /** The state the editor holds: grid down, and the feed watched by the controller. */
  predicate WatchedState(s: SimState)
  {
    s.isGridDown && Watched(Net(s.components, s.connections))
  }

  lemma SeedIsDark(s: SimState, now: int)
    requires WatchedState(s)
    ensures Watched(Net(Seed(s.components, s.isGridDown, now), s.connections))
    ensures Dark(Net(Seed(s.components, s.isGridDown, now), s.connections))
    ensures Timer(Net(Seed(s.components, s.isGridDown, now), s.connections)) == Timer(Net(s.components, s.connections))
  {
    var seeded := Seed(s.components, s.isGridDown, now);
    var feed := s.components[0];
    var z := ResetPorts(feed);
    assert seeded[0] == Evaluate(z, true, now);
    assert seeded[1] == ResetPorts(s.components[1]);
    assert DirsOf(Shapes(z.ports)) == [Output];
    assert FirstOutput(z.ports) == Some(0);
    if !feed.isFaulty {
      assert Evaluate(z, true, now) == EvalFeed(z, true);
    }
  }

  /** What `k` ticks from `s` add up to: the controller has counted `100 * k` ms
      and, once it has ticked at all, shows the state that count calls for. */
  predicate Ticked(s: SimState, r: SimState, k: nat)
  {
    // Bound to a name so that the verifier checks it as one fact.
    var ticked :=
      && |s.components| == 2 && WatchedState(r)
      && OrDefault(r.components[1].internalTimer, 0) == OrDefault(s.components[1].internalTimer, 0) + Passes * SimStep * k
      && (k > 0 ==>
            r.components[1].state == (if OrDefault(r.components[1].internalTimer, 0) >= MonitorThreshold then Running else Warning));
    ticked
  }

  lemma TickedTrans(s: SimState, m: SimState, r: SimState, k: nat)
    requires k > 0 && WatchedState(s)
    requires Ticked(s, m, 1) && Ticked(m, r, k - 1)
    requires k == 1 ==> r == m
    ensures Ticked(s, r, k)
  {
  }

  /** One tick moves the controller's timer by 100 ms: five passes, one evaluation each. */
  lemma TickCounts(s: SimState, now: int)
    requires WatchedState(s)
    ensures Ticked(s, Tick(s, now), 1)
  {
    var n0 := Net(Seed(s.components, s.isGridDown, now), s.connections);
    SeedIsDark(s, now);
    RelaxCounts(n0, Passes, s.isGridDown, now);
    TickUnfold(s, now);
  }

  /** `k` steps in a row, one every `SimStep` = 20 ms: the first reads the
      clock at `start + 20`, the next at `start + 40`, and so on. */
  function Run(step: (SimState, int) -> SimState, s: SimState, k: nat, start: int): SimState
    decreases k
  {
    if k == 0 then s else Run(step, step(s, start + SimStep), k - 1, start + SimStep)
  }

  /** `k` ticks of the simulation loop, as the interval timer fires them. */
  function Ticks(s: SimState, k: nat, start: int): (r: SimState)
    ensures r.isGridDown == s.isGridDown && |r.components| == |s.components|
  {
    RunKeeps(Tick, s, k, start);
    Run(Tick, s, k, start)
  }

  /** A step that keeps the grid flag and the component count keeps them over any run. */
  lemma {:induction false} RunKeeps(step: (SimState, int) -> SimState, s: SimState, k: nat, start: int)
    requires forall t, now :: step(t, now).isGridDown == t.isGridDown && |step(t, now).components| == |t.components|
    ensures Run(step, s, k, start).isGridDown == s.isGridDown
    ensures |Run(step, s, k, start).components| == |s.components|
    decreases k
  {
    if k > 0 {
      RunKeeps(step, step(s, start + SimStep), k - 1, start + SimStep);
    }
  }

  /** A step that counts one tick from every watched state counts `k` over `k` steps. */
  lemma {:induction false} RunCounts(step: (SimState, int) -> SimState, s: SimState, k: nat, start: int)
    requires forall t, now :: WatchedState(t) ==> Ticked(t, step(t, now), 1)
    requires WatchedState(s)
    ensures Ticked(s, Run(step, s, k, start), k)
    decreases k
  {
    if k > 0 {
      var next := step(s, start + SimStep);
      var r := Run(step, next, k - 1, start + SimStep);
      assert Ticked(s, next, 1);
      RunCounts(step, next, k - 1, start + SimStep);
      TickedTrans(s, next, r, k);
    }
  }

  /** After `k` ticks the controller has counted `100 * k` ms. */
  lemma TicksCount(s: SimState, k: nat, start: int)
    requires WatchedState(s)
    ensures Ticked(s, Ticks(s, k, start), k)
  {
    forall t, now | WatchedState(t)
      ensures Ticked(t, Tick(t, now), 1)
    {
      TickCounts(t, now);
    }
    RunCounts(Tick, s, k, start);
  }

  /** With its timer at zero, the controller shows WARNING for the first 29
      ticks and RUNNING from the 30th on. */
  lemma ControllerTrips(s: SimState, k: nat, start: int)
    requires WatchedState(s) && OrDefault(s.components[1].internalTimer, 0) == 0 && k > 0
    ensures Ticks(s, k, start).components[1].state == (if k < 30 then Warning else Running)
  {
    TicksCount(s, k, start);
    var t := OrDefault(Ticks(s, k, start).components[1].internalTimer, 0);
    assert t == 100 * k;
    assert t >= MonitorThreshold <==> k >= 30;
  }

  /** With its timer at zero, the controller raises the generator's start
      signal on the 30th tick (600 ms of simulated time), not after 3 s. */
  lemma ControllerTripsOnThirtiethTick(s: SimState, start: int)
    requires WatchedState(s) && OrDefault(s.components[1].internalTimer, 0) == 0
    ensures Ticks(s, 29, start).components[1].state == Warning
    ensures Ticks(s, 30, start).components[1].state == Running
  {
    ControllerTrips(s, 29, start);
    ControllerTrips(s, 30, start);
  }
}
