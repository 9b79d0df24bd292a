/** What one tick guarantees about the network as a whole. */
module TickFacts {
  import opened Types
  import opened Archetypes
  import opened Flow
  import opened Engine

  /** No non-damaged connection ends at component `i`'s id. */
  predicate Untargeted(comps: seq<Component>, conns: seq<Connection>, i: nat)
    requires i < |comps|
  {
    forall k :: 0 <= k < |conns| && !conns[k].isDamaged ==> conns[k].toId != comps[i].id
  }

  /** Some non-damaged connection resolves to port `j` of component `i`. */
  predicate Fed(comps: seq<Component>, conns: seq<Connection>, i: nat, j: nat)
    requires i < |comps|
  {
    exists k :: 0 <= k < |conns| && !conns[k].isDamaged
      && FindComp(comps, conns[k].toId) == Some(i)
      && FindPort(comps[i].ports, conns[k].toPortId) == Some(j)
  }

  /** Every powered INPUT port has a connection that could have powered it. */
  predicate InputsFed(n: Net)
  {
    forall i, j ::
      (0 <= i < |n.comps| && 0 <= j < |n.comps[i].ports|
       && n.comps[i].ports[j].dir == Input && n.comps[i].ports[j].isPowered) ==> Fed(n.comps, n.conns, i, j)
  }

  lemma UntargetedStable(a: Net, b: Net, i: nat)
    requires Evolves(a, b) && i < |a.comps|
    ensures Untargeted(a.comps, a.conns, i) <==> Untargeted(b.comps, b.conns, i)
  {
    assert CompIds(a.comps)[i] == CompIds(b.comps)[i];
  }

  lemma FedStable(a: Net, b: Net, i: nat, j: nat)
    requires Evolves(a, b) && i < |a.comps|
    requires Fed(a.comps, a.conns, i, j)
    ensures Fed(b.comps, b.conns, i, j)
  {
    var k :| 0 <= k < |a.conns| && !a.conns[k].isDamaged
      && FindComp(a.comps, a.conns[k].toId) == Some(i)
      && FindPort(a.comps[i].ports, a.conns[k].toPortId) == Some(j);
    assert b.conns[k].toId == a.conns[k].toId && b.conns[k].toPortId == a.conns[k].toPortId;
    assert FindComp(b.comps, b.conns[k].toId) == Some(i);
    assert Kept(a.comps[i], b.comps[i]);
    assert FindPort(b.comps[i].ports, b.conns[k].toPortId) == Some(j);
  }

  // ---------------------------------------------------------------------------
  // Untargeted components are never re-evaluated.

  /** A pass leaves an untargeted component alone. */
  lemma {:induction false} SweepSpares(n: Net, k: nat, end: nat, relay: (Net, nat) -> Net, i: nat)
    requires end <= |n.conns| && i < |n.comps| && RelaySound(relay)
    requires Untargeted(n.comps, n.conns, i)
    ensures var r := Sweep(n, k, end, relay); i < |r.comps| && r.comps[i] == n.comps[i]
    decreases end - k
  {
    if k < end {
      var m := relay(n, k);
      assert Relayed(n, k, m);
      if !n.conns[k].isDamaged {
        assert n.conns[k].toId != n.comps[i].id;
      }
      UntargetedStable(n, m, i);
      SweepSpares(m, k + 1, end, relay, i);
    }
  }

  /** A whole pass spares an untargeted component, which stays untargeted. */
  lemma PassSpares(n: Net, relay: (Net, nat) -> Net, i: nat)
    requires i < |n.comps| && RelaySound(relay)
    requires Untargeted(n.comps, n.conns, i)
    ensures var m := Sweep(n, 0, |n.conns|, relay);
      i < |m.comps| && m.comps[i] == n.comps[i] && Untargeted(m.comps, m.conns, i)
  {
    var m := Sweep(n, 0, |n.conns|, relay);
    SweepSpares(n, 0, |n.conns|, relay, i);
    UntargetedStable(n, m, i);
  }

  lemma {:induction false} RelaxSpares(n: Net, passes: nat, relay: (Net, nat) -> Net, i: nat)
    requires i < |n.comps| && RelaySound(relay)
    requires Untargeted(n.comps, n.conns, i)
    ensures var r := Relax(n, passes, relay); i < |r.comps| && r.comps[i] == n.comps[i]
    decreases passes
  {
    if passes > 0 {
      var m := Sweep(n, 0, |n.conns|, relay);
      PassSpares(n, relay, i);
      RelaxSpares(m, passes - 1, relay, i);
      RelaxStep(n, passes, passes - 1, relay);
    }
  }

  /** A component that no non-damaged connection targets is only reset by a
      tick: a grid feed is evaluated once, anything else keeps every field
      but its (now unpowered) ports. */
  lemma TickSparesUntargeted(s: SimState, now: int, i: nat)
    requires i < |s.components|
    requires Untargeted(s.components, s.connections, i)
    ensures s.components[i].kind != TP ==> Tick(s, now).components[i] == ResetPorts(s.components[i])
    ensures s.components[i].kind == TP ==>
      Tick(s, now).components[i] == Evaluate(ResetPorts(s.components[i]), s.isGridDown, now)
  {
    var seeded := Seed(s.components, s.isGridDown, now);
    assert CompIds(seeded) == CompIds(s.components);
    assert CompIds(seeded)[i] == CompIds(s.components)[i];
    EvaluateSound(s.isGridDown, now);
    RelayOfSound(Step(s.isGridDown, now));
    RelaxSpares(Net(seeded, s.connections), Passes, RelayOf(Step(s.isGridDown, now)), i);
    TickUnfold(s, now);
  }

  /** A grid feed nobody feeds is OFF with its output dead exactly when the grid is down. */
  lemma TickFeedFollowsGrid(s: SimState, now: int, i: nat)
    requires i < |s.components| && s.components[i].kind == TP && !s.components[i].isFaulty
    requires Untargeted(s.components, s.connections, i)
    ensures Tick(s, now).components[i].state == (if s.isGridDown then Off else Normal)
    ensures FirstOutput(s.components[i].ports).Some? ==>
      (OutputOn(Tick(s, now).components[i].ports) <==> !s.isGridDown)
  {
    TickSparesUntargeted(s, now, i);
    var z := ResetPorts(s.components[i]);
    assert FirstOutput(z.ports) == FirstOutput(s.components[i].ports);
    assert Evaluate(z, s.isGridDown, now) == EvalFeed(z, s.isGridDown);
  }

  // ---------------------------------------------------------------------------
  // Power never appears out of nowhere.

  lemma RelayKeepsInputsFed(n: Net, k: nat, eval: Component -> Component)
    requires k < |n.conns| && InputsFed(n) && StepSound(eval)
    ensures InputsFed(Relay(n, k, eval))
  {
    var r := Relay(n, k, eval);
    RelayEvolves(n, k, eval);
    RelayFrame(n, k, eval);
    forall i, j | 0 <= i < |r.comps| && 0 <= j < |r.comps[i].ports|
      && r.comps[i].ports[j].dir == Input && r.comps[i].ports[j].isPowered
      ensures Fed(r.comps, r.conns, i, j)
    {
      var conn := n.conns[k];
      assert Kept(n.comps[i], r.comps[i]);
      assert Shapes(n.comps[i].ports)[j] == Shapes(r.comps[i].ports)[j];
      if r.comps[i] == n.comps[i] {
        FedStable(n, r, i, j);
      } else {
        var t := FindComp(n.comps, conn.toId).value;
        var f := FindComp(n.comps, conn.fromId).value;
        var fp := FindPort(n.comps[f].ports, conn.fromPortId).value;
        var tp := FindPort(n.comps[t].ports, conn.toPortId).value;
        var live := n.comps[f].ports[fp].isPowered;
        var fed := if live then PowerPort(n.comps[t], tp) else n.comps[t];
        assert i == t && r.comps[t] == eval(fed);
        assert InputsKept(fed.ports, eval(fed).ports);
        assert Shapes(fed.ports)[j] == Shapes(n.comps[t].ports)[j];
        assert r.comps[t].ports[j] == fed.ports[j];
        if live && j == tp {
          assert r.conns[k].toId == conn.toId && r.conns[k].toPortId == conn.toPortId;
          assert FindComp(r.comps, conn.toId) == Some(t);
          assert FindPort(r.comps[t].ports, conn.toPortId) == Some(tp);
        } else {
          assert n.comps[t].ports[j] == fed.ports[j];
          FedStable(n, r, i, j);
        }
      }
    }
  }

  /** A relay step that never powers an input without a connection to it. */
  ghost predicate KeepsFed(relay: (Net, nat) -> Net)
  {
    forall n: Net, k: nat :: InputsFed(n) ==> InputsFed(relay(n, k))
  }

  lemma RelayOfKeepsFed(eval: Component -> Component)
    requires StepSound(eval)
    ensures KeepsFed(RelayOf(eval))
  {
    forall n: Net, k: nat | InputsFed(n)
      ensures InputsFed(RelayOf(eval)(n, k))
    {
      if k < |n.conns| {
        RelayKeepsInputsFed(n, k, eval);
      }
    }
  }

  lemma {:induction false} SweepKeepsInputsFed(n: Net, k: nat, end: nat, relay: (Net, nat) -> Net)
    requires InputsFed(n) && KeepsFed(relay)
    ensures InputsFed(Sweep(n, k, end, relay))
    decreases end - k
  {
    if k < end {
      SweepKeepsInputsFed(relay(n, k), k + 1, end, relay);
    }
  }

  lemma {:induction false} RelaxKeepsInputsFed(n: Net, passes: nat, relay: (Net, nat) -> Net)
    requires InputsFed(n) && KeepsFed(relay)
    ensures InputsFed(Relax(n, passes, relay))
    decreases passes
  {
    if passes > 0 {
      SweepKeepsInputsFed(n, 0, |n.conns|, relay);
      RelaxKeepsInputsFed(Sweep(n, 0, |n.conns|, relay), passes - 1, relay);
    }
  }

  /** `Fed` depends only on ids, port shapes and the damage flags, so it
      also transfers backwards along relaxation. */
  lemma FedBack(a: Net, b: Net, i: nat, j: nat)
    requires Evolves(a, b) && i < |a.comps|
    requires Fed(b.comps, b.conns, i, j)
    ensures Fed(a.comps, a.conns, i, j)
  {
    var k :| 0 <= k < |b.conns| && !b.conns[k].isDamaged
      && FindComp(b.comps, b.conns[k].toId) == Some(i)
      && FindPort(b.comps[i].ports, b.conns[k].toPortId) == Some(j);
    assert b.conns[k].toId == a.conns[k].toId && b.conns[k].toPortId == a.conns[k].toPortId;
    assert FindComp(a.comps, a.conns[k].toId) == Some(i);
    assert Kept(a.comps[i], b.comps[i]);
    assert FindPort(a.comps[i].ports, a.conns[k].toPortId) == Some(j);
  }

  lemma FedSeeded(comps: seq<Component>, conns: seq<Connection>, gridDown: bool, now: int, i: nat, j: nat)
    requires i < |comps|
    requires Fed(Seed(comps, gridDown, now), conns, i, j)
    ensures Fed(comps, conns, i, j)
  {
    var seeded := Seed(comps, gridDown, now);
    var k :| 0 <= k < |conns| && !conns[k].isDamaged
      && FindComp(seeded, conns[k].toId) == Some(i)
      && FindPort(seeded[i].ports, conns[k].toPortId) == Some(j);
    assert CompIds(seeded) == CompIds(comps);
    assert Shapes(seeded[i].ports) == Shapes(comps[i].ports);
    assert FindComp(comps, conns[k].toId) == Some(i);
    assert FindPort(comps[i].ports, conns[k].toPortId) == Some(j);
  }

  /** A tick is relaxation of the seeded components over the old connection list. */
  lemma TickUnfold(s: SimState, now: int)
    ensures Tick(s, now).components
      == Relax(Net(Seed(s.components, s.isGridDown, now), s.connections), Passes, RelayOf(Step(s.isGridDown, now))).comps
  {
  }

  lemma SeedInputsFed(comps: seq<Component>, conns: seq<Connection>, gridDown: bool, now: int)
    ensures InputsFed(Net(Seed(comps, gridDown, now), conns))
  {
  }

  /** After a tick, a powered INPUT port is the target of some non-damaged
      connection: nothing else powers an input. */
  lemma TickPoweredInputIsFed(s: SimState, now: int, i: nat, j: nat)
    requires i < |s.components|
    requires j < |Tick(s, now).components[i].ports|
    requires Tick(s, now).components[i].ports[j].dir == Input
    requires Tick(s, now).components[i].ports[j].isPowered
    ensures Fed(s.components, s.connections, i, j)
  {
    var n0 := Net(Seed(s.components, s.isGridDown, now), s.connections);
    var relay := RelayOf(Step(s.isGridDown, now));
    EvaluateSound(s.isGridDown, now);
    RelayOfSound(Step(s.isGridDown, now));
    RelayOfKeepsFed(Step(s.isGridDown, now));
    SeedInputsFed(s.components, s.connections, s.isGridDown, now);
    RelaxKeepsInputsFed(n0, Passes, relay);
    var n := Relax(n0, Passes, relay);
    TickUnfold(s, now);
    assert Fed(n.comps, n.conns, i, j);
    FedBack(n0, n, i, j);
    FedSeeded(s.components, s.connections, s.isGridDown, now, i, j);
  }

  /** An input port whose every incoming connection is damaged ends the tick unpowered. */
  lemma TickDamageIsolates(s: SimState, now: int, i: nat, j: nat)
    requires i < |s.components| && j < |s.components[i].ports| && s.components[i].ports[j].dir == Input
    requires forall k ::
      (0 <= k < |s.connections|
       && FindComp(s.components, s.connections[k].toId) == Some(i)
       && FindPort(s.components[i].ports, s.connections[k].toPortId) == Some(j)) ==> s.connections[k].isDamaged
    ensures !Tick(s, now).components[i].ports[j].isPowered
  {
    var r := Tick(s, now);
    assert Shapes(r.components[i].ports)[j] == Shapes(s.components[i].ports)[j];
    if r.components[i].ports[j].isPowered {
      TickPoweredInputIsFed(s, now, i, j);
    }
  }
}
