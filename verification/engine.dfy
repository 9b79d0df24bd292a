/** One simulation tick (the body of App.tsx's `setInterval` callback) as a
    pure function of the previous state and the wall clock: reset every
    port, evaluate the grid feeds, run five relaxation passes over the
    connection list, then total the load of the racks that are up. */
module Engine {
  import opened Types
  import opened Seqs
  import opened Archetypes
  import opened Flow

  const Passes := 5

  function CompIds(comps: seq<Component>): seq<string>
  {
    seq(|comps|, i requires 0 <= i < |comps| => comps[i].id)
  }

  /** `components.find(c => c.id === id)`. */
  function FindComp(comps: seq<Component>, id: string): (r: Option<nat>)
    ensures r.Some? ==> r.value < |comps| && comps[r.value].id == id
    ensures r.Some? ==> forall j :: 0 <= j < r.value ==> comps[j].id != id
    ensures r.None? ==> forall j :: 0 <= j < |comps| ==> comps[j].id != id
  {
    var r := IndexOf(CompIds(comps), id);
    assert forall j :: 0 <= j < |comps| ==> CompIds(comps)[j] == comps[j].id;
    r
  }

  /** `ports.find(p => p.id === id)`: the first port with that id, whatever its direction. */
  function FindPort(ports: seq<Port>, id: string): (r: Option<nat>)
    ensures r.Some? ==> r.value < |ports| && ports[r.value].id == id
    ensures r.Some? ==> forall j :: 0 <= j < r.value ==> ports[j].id != id
    ensures r.None? ==> forall j :: 0 <= j < |ports| ==> ports[j].id != id
  {
    var r := IndexOf(IdsOf(Shapes(ports)), id);
    assert forall j :: 0 <= j < |ports| ==> IdsOf(Shapes(ports))[j] == ports[j].id;
    r
  }

  /** The start of a tick: a copy of the component with every port unpowered. */
  function ResetPorts(c: Component): (r: Component)
    ensures r == c.(ports := r.ports)
    ensures Shapes(r.ports) == Shapes(c.ports)
    ensures forall j :: 0 <= j < |r.ports| ==> !r.ports[j].isPowered
  {
    var ports := seq(|c.ports|, j requires 0 <= j < |c.ports| => c.ports[j].(isPowered := false));
    assert Shapes(ports) == Shapes(c.ports);
    c.(ports := ports)
  }

  /** Reset one component and, if it is a grid feed, evaluate it. */
  function SeedOne(c: Component, gridDown: bool, now: int): (r: Component)
    ensures r.id == c.id && r.kind == c.kind && r.isFaulty == c.isFaulty
    ensures Shapes(r.ports) == Shapes(c.ports)
    ensures forall j :: 0 <= j < |r.ports| && r.ports[j].dir == Input ==> !r.ports[j].isPowered
    ensures c.kind != TP ==> r == ResetPorts(c)
    ensures StateOk(c) ==> StateOk(r)
  {
    var z := ResetPorts(c);
    if c.kind == TP then
      EvaluateKeepsStateOk(z, gridDown, now);
      Evaluate(z, gridDown, now)
    else z
  }

  /** Reset every port, then evaluate the grid feeds: no input is powered yet. */
  function Seed(comps: seq<Component>, gridDown: bool, now: int): (r: seq<Component>)
    ensures |r| == |comps|
    ensures forall i :: 0 <= i < |comps| ==> r[i] == SeedOne(comps[i], gridDown, now)
  {
    seq(|comps|, i requires 0 <= i < |comps| => SeedOne(comps[i], gridDown, now))
  }

  /** The components and connections while a tick is in progress. */
  datatype Net = Net(comps: seq<Component>, conns: seq<Connection>)

  /** What a step of relaxation may do to one component: identity, kind,
      fault flag, parameters and port shapes stay, powered inputs stay
      powered, and the state invariant is kept. */
  predicate Kept(x: Component, y: Component)
  {
    // Bound to a name so that the verifier checks it as one fact, not clause by clause.
    var kept :=
      && y.id == x.id && y.kind == x.kind && y.name == x.name && y.isFaulty == x.isFaulty
      && y.capacity == x.capacity && y.load == x.load && y.transferDelay == x.transferDelay
      && Shapes(y.ports) == Shapes(x.ports)
      && (forall j :: 0 <= j < |x.ports| && x.ports[j].dir == Input && x.ports[j].isPowered ==> y.ports[j].isPowered)
      && (StateOk(x) ==> StateOk(y));
    kept
  }

  /** What relaxation may do to the whole network: every component is `Kept`
      in place, and connections change in nothing but `isActive`. */
  predicate Evolves(a: Net, b: Net)
  {
    var evolves :=
      && |b.comps| == |a.comps| && |b.conns| == |a.conns|
      && CompIds(b.comps) == CompIds(a.comps)
      && (forall i :: 0 <= i < |a.comps| ==> Kept(a.comps[i], b.comps[i]))
      && (forall k :: 0 <= k < |a.conns| ==> b.conns[k] == a.conns[k].(isActive := b.conns[k].isActive));
    evolves
  }

  lemma KeptTrans(x: Component, y: Component, z: Component)
    requires Kept(x, y) && Kept(y, z)
    ensures Kept(x, z)
  {
    forall j | 0 <= j < |x.ports| && x.ports[j].dir == Input && x.ports[j].isPowered
      ensures z.ports[j].isPowered
    {
      assert Shapes(x.ports)[j] == Shapes(y.ports)[j];
    }
  }

  lemma EvolvesTrans(a: Net, b: Net, c: Net)
    requires Evolves(a, b) && Evolves(b, c)
    ensures Evolves(a, c)
  {
    forall i | 0 <= i < |a.comps|
      ensures Kept(a.comps[i], c.comps[i])
    {
      KeptTrans(a.comps[i], b.comps[i], c.comps[i]);
    }
  }

  lemma EvolvesRefl(a: Net)
    ensures Evolves(a, a)
  {
  }

  /** `toPort.isPowered = true`. */
  function PowerPort(c: Component, j: nat): (r: Component)
    requires j < |c.ports|
    ensures r.(ports := c.ports) == c && Kept(c, r)
    ensures Shapes(r.ports) == Shapes(c.ports) && r.ports[j].isPowered
    ensures forall m :: 0 <= m < |c.ports| && m != j ==> r.ports[m] == c.ports[m]
  {
    var r := c.(ports := c.ports[j := c.ports[j].(isPowered := true)]);
    assert Shapes(r.ports) == Shapes(c.ports);
    r
  }

  /** What the relaxation engine needs of the per-component step: it never
      touches an INPUT port and only evolves the component. */
  ghost predicate StepSound(eval: Component -> Component)
  {
    forall c: Component :: InputsKept(c.ports, eval(c).ports) && Kept(c, eval(c))
  }

  /** One evaluation at this grid flag and wall clock. */
  function Step(gridDown: bool, now: int): Component -> Component
  {
    c => Evaluate(c, gridDown, now)
  }

  /** `updateComponentInternalFlow` is a sound step. */
  lemma EvaluateSound(gridDown: bool, now: int)
    ensures StepSound(Step(gridDown, now))
  {
    forall c: Component
      ensures InputsKept(c.ports, Step(gridDown, now)(c).ports) && Kept(c, Step(gridDown, now)(c))
    {
      var r := Evaluate(c, gridDown, now);
      EvaluateKeepsStateOk(c, gridDown, now);
      forall j | 0 <= j < |c.ports| && c.ports[j].dir == Input && c.ports[j].isPowered
        ensures r.ports[j].isPowered
      {
      }
    }
  }

  /** The target end of a conducting connection: powered if the source is
      live, then re-evaluated. A sound evaluation never touches inputs, so
      the target input ends powered exactly when it was already powered or
      the source is live (the source only ever sets the flag). */
  function Feed(c: Component, live: bool, j: nat, eval: Component -> Component): (r: Component)
    requires j < |c.ports|
    ensures StepSound(eval) ==> Kept(c, r)
    ensures StepSound(eval) && c.ports[j].dir == Input ==>
      r.ports[j].isPowered == (c.ports[j].isPowered || live)
  {
    var fed := if live then PowerPort(c, j) else c;
    assert StepSound(eval) ==> Kept(c, eval(fed)) && InputsKept(fed.ports, eval(fed).ports) by {
      if StepSound(eval) {
        KeptTrans(c, fed, eval(fed));
      }
    }
    eval(fed)
  }

  /** One relaxation step over connection `k`: a damaged connection is marked
      inactive and skipped; a connection with a dangling end is skipped;
      otherwise a live source powers the target port (never unpowers it),
      the connection records whether it conducted, and the target component
      is re-evaluated. */
  function Relay(n: Net, k: nat, eval: Component -> Component): (r: Net)
    requires k < |n.conns|
    ensures |r.comps| == |n.comps| && |r.conns| == |n.conns|
    ensures !n.conns[k].isDamaged && !Resolves(n, k) ==> r == n
  {
    var conn := n.conns[k];
    if conn.isDamaged then
      n.(conns := n.conns[k := conn.(isActive := false)])
    else
      match (FindComp(n.comps, conn.fromId), FindComp(n.comps, conn.toId))
      case (Some(f), Some(t)) =>
        (match (FindPort(n.comps[f].ports, conn.fromPortId), FindPort(n.comps[t].ports, conn.toPortId))
         case (Some(fp), Some(tp)) =>
           var live := n.comps[f].ports[fp].isPowered;
           Net(n.comps[t := Feed(n.comps[t], live, tp, eval)], n.conns[k := conn.(isActive := live)])
         case _ => n)
      case _ => n
  }

  /** Connection `k` runs from port `fp` of component `f` to port `tp` of
      component `t`: the first component with each end's id, and on it the
      first port with that end's port id. */
  predicate Routes(n: Net, k: nat, f: nat, fp: nat, t: nat, tp: nat)
  {
    && k < |n.conns|
    && FindComp(n.comps, n.conns[k].fromId) == Some(f)
    && FindComp(n.comps, n.conns[k].toId) == Some(t)
    && FindPort(n.comps[f].ports, n.conns[k].fromPortId) == Some(fp)
    && FindPort(n.comps[t].ports, n.conns[k].toPortId) == Some(tp)
  }

  /** Both ends of connection `k` name an existing component and port. */
  predicate Resolves(n: Net, k: nat)
    requires k < |n.conns|
  {
    var conn := n.conns[k];
    match (FindComp(n.comps, conn.fromId), FindComp(n.comps, conn.toId))
    case (Some(f), Some(t)) =>
      FindPort(n.comps[f].ports, conn.fromPortId).Some? && FindPort(n.comps[t].ports, conn.toPortId).Some?
    case _ => false
  }

  /** A non-damaged connection conducts: it is marked active exactly when its
      source port is powered, and a powered source powers the target INPUT
      port, which stays powered if it already was. */
  lemma RelayConducts(n: Net, k: nat, eval: Component -> Component, f: nat, fp: nat, t: nat, tp: nat)
    requires Routes(n, k, f, fp, t, tp) && !n.conns[k].isDamaged
    ensures var r := Relay(n, k, eval);
      var live := n.comps[f].ports[fp].isPowered;
      && Resolves(n, k)
      && r.conns[k].isActive == live
      && r.comps[t] == Feed(n.comps[t], live, tp, eval)
      && (StepSound(eval) ==>
            && Shapes(r.comps[t].ports) == Shapes(n.comps[t].ports)
            && (n.comps[t].ports[tp].dir == Input ==>
                  r.comps[t].ports[tp].isPowered == (n.comps[t].ports[tp].isPowered || live)))
  {
  }

  /** A relay step changes no connection but `k`; when `k` is damaged it
      changes no component and marks `k` inactive; and it changes no
      component but the one `k` targets. */
  lemma RelayFrame(n: Net, k: nat, eval: Component -> Component)
    requires k < |n.conns|
    ensures var r := Relay(n, k, eval);
      && (forall j :: 0 <= j < |n.conns| && j != k ==> r.conns[j] == n.conns[j])
      && (n.conns[k].isDamaged ==> r.comps == n.comps && !r.conns[k].isActive)
      && (forall i :: 0 <= i < |n.comps| && n.conns[k].toId != n.comps[i].id ==> r.comps[i] == n.comps[i])
  {
  }

  /** Replacing one component by a `Kept` one and flipping one connection's
      flag only evolves the network. */
  lemma ReplaceEvolves(n: Net, t: nat, x: Component, k: nat, live: bool)
    requires t < |n.comps| && k < |n.conns| && Kept(n.comps[t], x)
    ensures Evolves(n, Net(n.comps[t := x], n.conns[k := n.conns[k].(isActive := live)]))
  {
    var r := Net(n.comps[t := x], n.conns[k := n.conns[k].(isActive := live)]);
    assert CompIds(r.comps) == CompIds(n.comps);
  }

  /** Flipping one connection's flag only evolves the network. */
  lemma FlagEvolves(n: Net, k: nat, live: bool)
    requires k < |n.conns|
    ensures Evolves(n, n.(conns := n.conns[k := n.conns[k].(isActive := live)]))
  {
  }

  /** A relay step only evolves the network. */
  lemma RelayEvolves(n: Net, k: nat, eval: Component -> Component)
    requires k < |n.conns| && StepSound(eval)
    ensures Evolves(n, Relay(n, k, eval))
  {
    var conn := n.conns[k];
    EvolvesRefl(n);
    if conn.isDamaged {
      FlagEvolves(n, k, false);
    }
    if !conn.isDamaged && FindComp(n.comps, conn.fromId).Some? && FindComp(n.comps, conn.toId).Some? {
      var f := FindComp(n.comps, conn.fromId).value;
      var t := FindComp(n.comps, conn.toId).value;
      if FindPort(n.comps[f].ports, conn.fromPortId).Some? && FindPort(n.comps[t].ports, conn.toPortId).Some? {
        var fp := FindPort(n.comps[f].ports, conn.fromPortId).value;
        var tp := FindPort(n.comps[t].ports, conn.toPortId).value;
        var live := n.comps[f].ports[fp].isPowered;
        ReplaceEvolves(n, t, Feed(n.comps[t], live, tp, eval), k, live);
      }
    }
  }

  // ---------------------------------------------------------------------------
  // Relaxation, for any relay step that behaves like `Relay`.

  /** What a relay step over connection `k` may do, as `Relay` does: evolve
      the network, touch no other connection, leave everything but `k`'s
      flag alone when `k` is damaged and mark it inactive, and re-evaluate
      nothing but the component `k` targets. */
  predicate Relayed(n: Net, k: nat, r: Net)
    requires k < |n.conns|
  {
    // Bound to a name so that the verifier checks it as one fact.
    var relayed :=
      && Evolves(n, r)
      && (forall j :: 0 <= j < |n.conns| && j != k ==> r.conns[j] == n.conns[j])
      && (n.conns[k].isDamaged ==> r.comps == n.comps && !r.conns[k].isActive)
      && (forall i :: 0 <= i < |n.comps| && n.conns[k].toId != n.comps[i].id ==> r.comps[i] == n.comps[i]);
    relayed
  }

  ghost predicate RelaySound(relay: (Net, nat) -> Net)
  {
    forall n: Net, k: nat :: k < |n.conns| ==> Relayed(n, k, relay(n, k))
  }

  /** `Relay` as a step of the engine: an index past the end does nothing. */
  function RelayOf(eval: Component -> Component): (Net, nat) -> Net
  {
    (n: Net, k: nat) => if k < |n.conns| then Relay(n, k, eval) else n
  }

  /** `Relay` over a sound evaluation is a sound relay step. */
  lemma RelayOfSound(eval: Component -> Component)
    requires StepSound(eval)
    ensures RelaySound(RelayOf(eval))
  {
    forall n: Net, k: nat | k < |n.conns|
      ensures Relayed(n, k, RelayOf(eval)(n, k))
    {
      RelayEvolves(n, k, eval);
      RelayFrame(n, k, eval);
    }
  }

  /** One relaxation pass over connections `k` up to `end`, in list order.
      Over a sound relay step the pass only evolves the network. */
  function Sweep(n: Net, k: nat, end: nat, relay: (Net, nat) -> Net): (r: Net)
    ensures end <= |n.conns| && RelaySound(relay) ==> Evolves(n, r)
    decreases end - k
  {
    if k >= end then
      EvolvesRefl(n);
      n
    else
      var m := relay(n, k);
      var r := Sweep(m, k + 1, end, relay);
      assert end <= |n.conns| && RelaySound(relay) ==> Evolves(n, r) by {
        if end <= |n.conns| && RelaySound(relay) {
          assert Relayed(n, k, m);
          EvolvesTrans(n, m, r);
        }
      }
      r
  }

  /** `passes` relaxation passes, each over the whole connection list. Over a
      sound relay step they only evolve the network. */
  function Relax(n: Net, passes: nat, relay: (Net, nat) -> Net): (r: Net)
    ensures RelaySound(relay) ==> Evolves(n, r)
    decreases passes
  {
    if passes == 0 then
      EvolvesRefl(n);
      n
    else
      var m := Sweep(n, 0, |n.conns|, relay);
      var r := Relax(m, passes - 1, relay);
      assert RelaySound(relay) ==> Evolves(n, r) by {
        if RelaySound(relay) {
          EvolvesTrans(n, m, r);
        }
      }
      r
  }

  /** One pass of relaxation, peeled off the front. */
  lemma RelaxStep(n: Net, passes: nat, p: nat, relay: (Net, nat) -> Net)
    requires passes == p + 1
    ensures Relax(n, passes, relay) == Relax(Sweep(n, 0, |n.conns|, relay), p, relay)
  {
  }

  /** A pass leaves the connections before `k` alone, and every damaged
      connection from `k` up to `end` ends inactive. */
  lemma {:induction false} SweepDeactivates(n: Net, k: nat, end: nat, relay: (Net, nat) -> Net)
    requires end <= |n.conns| && RelaySound(relay)
    ensures var r := Sweep(n, k, end, relay);
      && |r.conns| == |n.conns|
      && (forall j :: 0 <= j < k && j < |n.conns| ==> r.conns[j] == n.conns[j])
      && (forall j :: k <= j < end && n.conns[j].isDamaged ==> !r.conns[j].isActive)
    decreases end - k
  {
    if k < end {
      var m := relay(n, k);
      assert Relayed(n, k, m);
      var r := Sweep(m, k + 1, end, relay);
      SweepDeactivates(m, k + 1, end, relay);
      forall j | k <= j < end && n.conns[j].isDamaged
        ensures !r.conns[j].isActive
      {
        if j > k {
          assert m.conns[j] == n.conns[j];
        }
      }
    }
  }

  /** After at least one pass every damaged connection is inactive. */
  lemma {:induction false} RelaxDeactivates(n: Net, passes: nat, relay: (Net, nat) -> Net)
    requires RelaySound(relay)
    ensures passes > 0 ==> forall k :: 0 <= k < |n.conns| && n.conns[k].isDamaged ==> !Relax(n, passes, relay).conns[k].isActive
    decreases passes
  {
    if passes > 0 {
      var m := Sweep(n, 0, |n.conns|, relay);
      SweepDeactivates(n, 0, |n.conns|, relay);
      RelaxDeactivates(m, passes - 1, relay);
    }
  }

  /** `load || 0` of a rack that is up, else nothing. */
  function RackLoad(c: Component): (w: int)
    ensures w != 0 ==> IsRack(c.kind) && c.state == Normal
    ensures IsRack(c.kind) && c.state == Normal ==> w == OrDefault(c.load, 0)
  {
    if IsRack(c.kind) && c.state == Normal then OrDefault(c.load, 0) else 0
  }

  /** `totalLoad`: the summed load of the racks whose state is NORMAL. */
  function TotalLoad(comps: seq<Component>): (r: int)
    ensures (forall i :: 0 <= i < |comps| ==> RackLoad(comps[i]) == 0) ==> r == 0
    ensures (forall i :: 0 <= i < |comps| ==> RackLoad(comps[i]) >= 0) ==> r >= 0
  {
    if |comps| == 0 then 0 else RackLoad(comps[0]) + TotalLoad(comps[1..])
  }

  lemma SeedThenRelax(comps: seq<Component>, seeded: seq<Component>, relaxed: seq<Component>, gridDown: bool, now: int)
    requires seeded == Seed(comps, gridDown, now)
    requires |relaxed| == |seeded| && forall i :: 0 <= i < |seeded| ==> Kept(seeded[i], relaxed[i])
    ensures forall i :: 0 <= i < |comps| ==>
      && relaxed[i].kind == comps[i].kind
      && relaxed[i].isFaulty == comps[i].isFaulty
      && Shapes(relaxed[i].ports) == Shapes(comps[i].ports)
      && (WellFormed(comps[i]) ==> WellFormed(relaxed[i]))
  {
    forall i | 0 <= i < |comps|
      ensures relaxed[i].kind == comps[i].kind
      ensures relaxed[i].isFaulty == comps[i].isFaulty
      ensures Shapes(relaxed[i].ports) == Shapes(comps[i].ports)
      ensures WellFormed(comps[i]) ==> WellFormed(relaxed[i])
    {
      var x := SeedOne(comps[i], gridDown, now);
      assert seeded[i] == x;
    }
  }

  /** One 20 ms tick. The wall clock `now` replaces `Date.now()`. */
  function Tick(s: SimState, now: int): (r: SimState)
    ensures r.isGridDown == s.isGridDown
    ensures |r.components| == |s.components| && CompIds(r.components) == CompIds(s.components)
    ensures forall i :: 0 <= i < |s.components| ==>
      && r.components[i].kind == s.components[i].kind
      && r.components[i].isFaulty == s.components[i].isFaulty
      && Shapes(r.components[i].ports) == Shapes(s.components[i].ports)
      && (WellFormed(s.components[i]) ==> WellFormed(r.components[i]))
    ensures |r.connections| == |s.connections|
    ensures forall k :: 0 <= k < |s.connections| ==>
      r.connections[k] == s.connections[k].(isActive := r.connections[k].isActive)
    ensures forall k :: 0 <= k < |s.connections| && s.connections[k].isDamaged ==> !r.connections[k].isActive
    ensures r.totalLoad == TotalLoad(r.components)
  {
    var seeded := Seed(s.components, s.isGridDown, now);
    assert CompIds(seeded) == CompIds(s.components);
    var relay := RelayOf(Step(s.isGridDown, now));
    var n := Relax(Net(seeded, s.connections), Passes, relay);
    EvaluateSound(s.isGridDown, now);
    RelayOfSound(Step(s.isGridDown, now));
    RelaxDeactivates(Net(seeded, s.connections), Passes, relay);
    SeedThenRelax(s.components, seeded, n.comps, s.isGridDown, now);
    SimState(s.isGridDown, TotalLoad(n.comps), n.comps, n.conns)
  }
}
