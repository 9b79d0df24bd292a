/** Power reaching a load through a switch. A grid feed wired through a
    static transfer switch into a single-PSU rack keeps the rack up: with the
    grid on, every tick lights the feed, the first relaxation pass carries
    the power through the switch (committing it to `in-1` at once) into the
    rack, and the tick counts the rack's load. */
module Supply {
  import opened Types
  import opened Archetypes
  import opened Flow
  import opened Engine

  /** The port list of a grid feed: one OUTPUT `out-1`. */
  predicate FeedPortsOk(ps: seq<Port>)
  {
    |ps| == 1 && ps[0].id == "out-1" && ps[0].dir == Output
  }

  /** The port list of a switch: INPUTs `in-1` and `in-2`, then OUTPUT `out-1`. */
  predicate SwitchPortsOk(ps: seq<Port>)
  {
    && |ps| == 3
    && ps[0].id == "in-1" && ps[0].dir == Input
    && ps[1].id == "in-2" && ps[1].dir == Input
    && ps[2].id == "out-1" && ps[2].dir == Output
  }

  /** The port list of a single-PSU rack: one INPUT `in-1`. */
  predicate RackPortsOk(ps: seq<Port>)
  {
    |ps| == 1 && ps[0].id == "in-1" && ps[0].dir == Input
  }

  /** The editor's grid feed, switches and single-PSU rack have those port lists. */
  lemma ArchetypesFit()
    ensures FeedPortsOk(ArchetypeOf(TP).ports)
    ensures SwitchPortsOk(ArchetypeOf(STS).ports)
    ensures RackPortsOk(ArchetypeOf(RackSingle).ports)
  {
  }

  /** The port lists depend only on the ports' shapes. */
  lemma PortsOkByShape(a: seq<Port>, b: seq<Port>)
    requires Shapes(a) == Shapes(b)
    ensures FeedPortsOk(a) ==> FeedPortsOk(b)
    ensures SwitchPortsOk(a) ==> SwitchPortsOk(b)
    ensures RackPortsOk(a) ==> RackPortsOk(b)
  {
    assert |a| == |Shapes(a)| == |Shapes(b)| == |b|;
    forall j | 0 <= j < |a|
      ensures a[j].id == b[j].id && a[j].dir == b[j].dir
    {
      assert Shapes(a)[j] == Shapes(b)[j];
    }
  }

  /** Component 0 is a grid feed, component 1 a static transfer switch and
      component 2 a single-PSU rack, with the port lists above and no
      fault. Connection 0 runs from the feed's `out-1` to the switch's
      `in-1`, connection 1 from the switch's `out-1` to the rack's `in-1`,
      and neither is damaged. */
  predicate Chain(n: Net)
  {
    // Bound to a name so that the verifier checks it as one fact.
    var chain :=
      && |n.comps| == 3 && |n.conns| == 2
      && n.comps[0].id != n.comps[1].id && n.comps[0].id != n.comps[2].id && n.comps[1].id != n.comps[2].id
      && n.comps[0].kind == TP && n.comps[1].kind == STS && n.comps[2].kind == RackSingle
      && FeedPortsOk(n.comps[0].ports) && SwitchPortsOk(n.comps[1].ports) && RackPortsOk(n.comps[2].ports)
      && !n.comps[0].isFaulty && !n.comps[1].isFaulty && !n.comps[2].isFaulty
      && n.conns[0].fromId == n.comps[0].id && n.conns[0].fromPortId == "out-1"
      && n.conns[0].toId == n.comps[1].id && n.conns[0].toPortId == "in-1"
      && n.conns[1].fromId == n.comps[1].id && n.conns[1].fromPortId == "out-1"
      && n.conns[1].toId == n.comps[2].id && n.conns[1].toPortId == "in-1"
      && !n.conns[0].isDamaged && !n.conns[1].isDamaged;
    chain
  }

  /** The switch commits to a newly powered input within one evaluation:
      its transfer delay is no more than its switching timer plus one step
      (true of the STS archetype, whose delay is 0). */
  predicate Commits(c: Component)
  {
    SwitchDelay(c) <= OrDefault(c.switchingTimer, 0) + SimStep
  }

  /** The switch is on `in-1` or commits to it at once, and the rack has no
      outage on record and is not rebooting. */
  predicate Primed(comps: seq<Component>)
    requires |comps| == 3
  {
    && (comps[1].activeInputId == Some("in-1") || Commits(comps[1]))
    && comps[2].lastPowerLostAt == Cleared && comps[2].state != Rebooting
  }

  /** A chain ready for a relaxation pass: primed, with the feed's output lit. */
  predicate Ready(n: Net)
  {
    && Chain(n) && Primed(n.comps)
    && n.comps[0].ports[0].isPowered
  }

  /** The switch is fed on `in-1`, committed to it and passing power on, NORMAL. */
  predicate SwitchUp(c: Component)
  {
    && |c.ports| == 3
    && c.ports[0].isPowered && c.ports[2].isPowered
    && c.activeInputId == Some("in-1") && c.switchingTimer == Some(0)
    && c.state == Normal
  }

  /** The rack is fed, NORMAL, with no outage on record. */
  predicate RackUp(c: Component)
  {
    && |c.ports| == 1 && c.ports[0].isPowered
    && c.state == Normal && c.lastPowerLostAt == Cleared
  }

  /** Power has reached the rack: both connections conducted and both loads are up. */
  predicate Up(n: Net)
  {
    // Bound to a name so that the verifier checks it as one fact.
    var up :=
      && Ready(n)
      && SwitchUp(n.comps[1]) && RackUp(n.comps[2])
      && n.conns[0].isActive && n.conns[1].isActive;
    up
  }

  lemma ChainLookups(n: Net)
    requires Chain(n)
    ensures FindComp(n.comps, n.comps[0].id) == Some(0)
    ensures FindComp(n.comps, n.comps[1].id) == Some(1)
    ensures FindComp(n.comps, n.comps[2].id) == Some(2)
    ensures FindPort(n.comps[0].ports, "out-1") == Some(0)
    ensures FindPort(n.comps[1].ports, "in-1") == Some(0)
    ensures FindPort(n.comps[1].ports, "out-1") == Some(2)
    ensures FindPort(n.comps[2].ports, "in-1") == Some(0)
  {
    assert CompIds(n.comps) == [n.comps[0].id, n.comps[1].id, n.comps[2].id];
    assert IdsOf(Shapes(n.comps[0].ports)) == ["out-1"];
    SwitchLookups(n.comps[1].ports);
    assert IdsOf(Shapes(n.comps[2].ports)) == ["in-1"];
  }

  /** A healthy switch powered on `in-1` commits to it and passes power on. */
  lemma SwitchCarries(c: Component, gridDown: bool, now: int)
    requires c.kind == STS && !c.isFaulty && SwitchPortsOk(c.ports)
    requires c.activeInputId == Some("in-1") || Commits(c)
    ensures var r := Evaluate(PowerPort(c, 0), gridDown, now);
      && r.id == c.id && r.kind == STS && !r.isFaulty && r.transferDelay == c.transferDelay
      && SwitchPortsOk(r.ports)
      && SwitchUp(r)
  {
    var p := PowerPort(c, 0);
    var r := Evaluate(p, gridDown, now);
    assert r == EvalSwitch(p);
    PortsOkByShape(c.ports, p.ports);
    PortsOkByShape(p.ports, r.ports);
    SwitchLookups(p.ports);
    SwitchLookups(r.ports);
    assert InputPowered(p.ports, "in-1");
    assert r.activeInputId == Some("in-1") && r.switchingTimer == Some(0);
    assert ActiveInputPowered(r);
  }

  lemma SwitchLookups(ps: seq<Port>)
    requires SwitchPortsOk(ps)
    ensures FindInput(ps, "in-1") == Some(0) && FirstOutput(ps) == Some(2)
    ensures FindPort(ps, "in-1") == Some(0) && FindPort(ps, "out-1") == Some(2)
  {
    assert KeysOf(Shapes(ps)) == [(Input, "in-1"), (Input, "in-2"), (Output, "out-1")];
    assert DirsOf(Shapes(ps)) == [Input, Input, Output];
    assert IdsOf(Shapes(ps)) == ["in-1", "in-2", "out-1"];
    assert "in-1"[0] != "out-1"[0] && "in-2"[0] != "out-1"[0];
  }

  /** A healthy rack with no outage on record, powered on `in-1`, is NORMAL. */
  lemma RackCarries(c: Component, gridDown: bool, now: int)
    requires c.kind == RackSingle && !c.isFaulty && RackPortsOk(c.ports)
    requires c.lastPowerLostAt == Cleared && c.state != Rebooting
    ensures var r := Evaluate(PowerPort(c, 0), gridDown, now);
      && r.id == c.id && r.kind == RackSingle && !r.isFaulty && r.load == c.load
      && RackPortsOk(r.ports)
      && RackUp(r)
  {
    var p := PowerPort(c, 0);
    PortsOkByShape(c.ports, p.ports);
    assert Evaluate(p, gridDown, now) == EvalRack(p, now);
    assert AnyInputPowered(p.ports) by {
      assert p.ports[0].dir == Input && p.ports[0].isPowered;
    }
  }

  /** Connection 0 carries the lit feed into the switch. */
  lemma RelayIntoSwitch(n: Net, gridDown: bool, now: int)
    requires Ready(n)
    ensures var r := RelayOf(Step(gridDown, now))(n, 0);
      && Chain(r) && Primed(r.comps) && r.comps[0] == n.comps[0] && r.comps[2] == n.comps[2]
      && SwitchUp(r.comps[1])
      && r.conns[0].isActive && r.conns[1] == n.conns[1]
  {
    var eval := Step(gridDown, now);
    ChainLookups(n);
    RelayConducts(n, 0, eval, 0, 0, 1, 0);
    SwitchCarries(n.comps[1], gridDown, now);
    var r := RelayOf(eval)(n, 0);
    assert r == Net(n.comps[1 := Evaluate(PowerPort(n.comps[1], 0), gridDown, now)],
                    n.conns[0 := n.conns[0].(isActive := true)]);
  }

  /** Connection 1 carries the switch's output into the rack. */
  lemma RelayIntoRack(n: Net, gridDown: bool, now: int)
    requires Chain(n) && Primed(n.comps) && n.comps[0].ports[0].isPowered
    requires SwitchUp(n.comps[1]) && n.conns[0].isActive
    ensures Up(RelayOf(Step(gridDown, now))(n, 1))
  {
    var eval := Step(gridDown, now);
    ChainLookups(n);
    RelayConducts(n, 1, eval, 1, 2, 2, 0);
    RackCarries(n.comps[2], gridDown, now);
    var r := RelayOf(eval)(n, 1);
    assert r == Net(n.comps[2 := Evaluate(PowerPort(n.comps[2], 0), gridDown, now)],
                    n.conns[1 := n.conns[1].(isActive := true)]);
  }

  /** One pass over both connections, in list order, brings power to the rack. */
  lemma SweepSupplies(n: Net, gridDown: bool, now: int)
    requires Ready(n)
    ensures Up(Sweep(n, 0, |n.conns|, RelayOf(Step(gridDown, now))))
  {
    var relay := RelayOf(Step(gridDown, now));
    var m := relay(n, 0);
    RelayIntoSwitch(n, gridDown, now);
    RelayIntoRack(m, gridDown, now);
    assert Sweep(n, 0, 2, relay) == Sweep(m, 1, 2, relay) == Sweep(relay(m, 1), 2, 2, relay);
  }

  /** Every pass finds the power up again, so any positive number of passes ends up. */
  lemma {:induction false} RelaxSupplies(n: Net, passes: nat, gridDown: bool, now: int)
    requires Ready(n) && passes > 0
    ensures Up(Relax(n, passes, RelayOf(Step(gridDown, now))))
    decreases passes
  {
    var relay := RelayOf(Step(gridDown, now));
    var p: nat := passes - 1;
    var m := Sweep(n, 0, |n.conns|, relay);
    RelaxStep(n, passes, p, relay);
    SweepSupplies(n, gridDown, now);
    if p > 0 {
      RelaxSupplies(m, p, gridDown, now);
    }
  }

  /** The editor's state: grid on, the chain wired and primed. */
  predicate Supplied(s: SimState)
  {
    && !s.isGridDown
    && Chain(Net(s.components, s.connections))
    && Primed(s.components)
  }

  /** Seeding a supplied state lights the feed and keeps the rest of the chain. */
  lemma SeedReady(s: SimState, now: int)
    requires Supplied(s)
    ensures Ready(Net(Seed(s.components, s.isGridDown, now), s.connections))
  {
    var seeded := Seed(s.components, s.isGridDown, now);
    var z := ResetPorts(s.components[0]);
    assert seeded[0] == Evaluate(z, false, now) == EvalFeed(z, false);
    assert seeded[1] == ResetPorts(s.components[1]);
    assert seeded[2] == ResetPorts(s.components[2]);
    PortsOkByShape(s.components[0].ports, z.ports);
    PortsOkByShape(z.ports, seeded[0].ports);
    PortsOkByShape(s.components[1].ports, seeded[1].ports);
    PortsOkByShape(s.components[2].ports, seeded[2].ports);
    assert DirsOf(Shapes(z.ports)) == [Output];
    assert FirstOutput(z.ports) == Some(0);
  }

  lemma TotalLoadOfThree(comps: seq<Component>)
    requires |comps| == 3
    ensures TotalLoad(comps) == RackLoad(comps[0]) + RackLoad(comps[1]) + RackLoad(comps[2])
  {
    assert TotalLoad(comps) == RackLoad(comps[0]) + TotalLoad(comps[1..]);
    assert TotalLoad(comps[1..]) == RackLoad(comps[1]) + TotalLoad(comps[2..]);
    assert comps[1..][1..] == comps[2..] && comps[2..][1..] == [];
    assert TotalLoad(comps[2..]) == RackLoad(comps[2]);
  }

  /** A tick is five relaxation passes over the seeded components, then the load total. */
  lemma TickIsRelax(s: SimState, now: int)
    ensures var n := Relax(Net(Seed(s.components, s.isGridDown, now), s.connections), Passes,
                           RelayOf(Step(s.isGridDown, now)));
      Tick(s, now) == SimState(s.isGridDown, TotalLoad(n.comps), n.comps, n.conns)
  {
  }

  /** Relaxation keeps every component's load. */
  lemma RelaxKeepsLoad(n: Net, gridDown: bool, now: int, i: nat)
    requires i < |n.comps|
    ensures var r := Relax(n, Passes, RelayOf(Step(gridDown, now)));
      i < |r.comps| && r.comps[i].load == n.comps[i].load
  {
    EvaluateSound(gridDown, now);
    RelayOfSound(Step(gridDown, now));
  }

  /** The state a tick stores once relaxation has brought the power up. */
  lemma UpIsSupplied(s: SimState, n: Net)
    requires !s.isGridDown && Up(n)
    ensures var r := SimState(s.isGridDown, TotalLoad(n.comps), n.comps, n.conns);
      && Supplied(r)
      && r.connections[0].isActive && r.connections[1].isActive
      && r.components[1].state == Normal && r.components[1].activeInputId == Some("in-1")
      && r.components[2].state == Normal
      && r.totalLoad == OrDefault(n.comps[2].load, 0)
  {
    TotalLoadOfThree(n.comps);
  }

  /** With the grid on, a tick powers the rack through the switch: both
      connections end active, the switch and the rack end NORMAL, the total
      load is the rack's `load || 0` (5 for a rack as the editor creates
      it), and the state stays supplied for the next tick. */
  lemma TickSupplies(s: SimState, now: int)
    requires Supplied(s)
    ensures var r := Tick(s, now);
      && Supplied(r)
      && r.connections[0].isActive && r.connections[1].isActive
      && r.components[1].state == Normal && r.components[1].activeInputId == Some("in-1")
      && r.components[2].state == Normal
      && r.totalLoad == OrDefault(s.components[2].load, 0)
  {
    var n0 := Net(Seed(s.components, s.isGridDown, now), s.connections);
    var n := Relax(n0, Passes, RelayOf(Step(s.isGridDown, now)));
    SeedReady(s, now);
    RelaxSupplies(n0, Passes, s.isGridDown, now);
    TickIsRelax(s, now);
    UpIsSupplied(s, n);
    RelaxKeepsLoad(n0, s.isGridDown, now, 2);
    assert n0.comps[2] == ResetPorts(s.components[2]);
  }

  /** The editor's default grid feed, static transfer switch and single-PSU
      rack, freshly placed and wired feed to switch to rack, with the grid on. */
  function FreshChain(feed: string, sw: string, rack: string): SimState
  {
    SimState(false, 0,
      [NewComponent(TP, feed, "TP"), NewComponent(STS, sw, "STS"), NewComponent(RackSingle, rack, "Rack")],
      [Connection("c0", feed, "out-1", sw, "in-1", false, false),
       Connection("c1", sw, "out-1", rack, "in-1", false, false)])
  }

  /** The first tick of a freshly wired chain brings the rack up: the switch
      and the rack are NORMAL, both connections conduct, and the total load is
      the rack's default 5. */
  lemma FreshChainDrawsFive(feed: string, sw: string, rack: string, now: int)
    requires feed != sw && feed != rack && sw != rack
    ensures var r := Tick(FreshChain(feed, sw, rack), now);
      && r.components[1].state == Normal && r.components[2].state == Normal
      && r.connections[0].isActive && r.connections[1].isActive
      && r.totalLoad == 5
  {
    var s := FreshChain(feed, sw, rack);
    ArchetypesFit();
    PortsOkByShape(ArchetypeOf(TP).ports, s.components[0].ports);
    PortsOkByShape(ArchetypeOf(STS).ports, s.components[1].ports);
    PortsOkByShape(ArchetypeOf(RackSingle).ports, s.components[2].ports);
    assert Supplied(s);
    TickSupplies(s, now);
  }
}
