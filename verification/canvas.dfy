/** The logic inside the canvas (components/Canvas.tsx): wiring two ports by
    clicking them in turn, damaging and repairing a connection from its
    context menu, and the status badge drawn over a switch or a generator. */
module Canvas {
  import opened Types
  import opened Seqs
  import opened Archetypes
  import opened Flow
  import opened Engine
  import opened Topology

  /** The half-made connection: the first port clicked. */
  datatype Endpoint = Endpoint(compId: string, portId: string, dir: Direction)

  /** What a finished pair of clicks asks the editor to add. */
  datatype Link = Link(fromId: string, fromPortId: string, toId: string, toPortId: string)

  datatype ClickOutcome = ClickOutcome(pending: Option<Endpoint>, link: Option<Link>)

  /** `handlePortClick`. With nothing pending the click only records its port.
      Otherwise the pending port is always dropped, and a link is made when
      the two ports differ in direction and belong to different components,
      oriented from the OUTPUT end to the INPUT end. */
  function PortClick(pending: Option<Endpoint>, compId: string, port: Port): (r: ClickOutcome)
    ensures pending.None? ==> r == ClickOutcome(Some(Endpoint(compId, port.id, port.dir)), None)
    ensures pending.Some? ==> r.pending.None?
    ensures pending.Some? ==> (r.link.Some? <==> pending.value.dir != port.dir && pending.value.compId != compId)
  {
    match pending
    case None => ClickOutcome(Some(Endpoint(compId, port.id, port.dir)), None)
    case Some(p) =>
      if p.dir != port.dir && p.compId != compId then
        var here := Endpoint(compId, port.id, port.dir);
        var from := if p.dir == Output then p else here;
        var to := if p.dir == Input then p else here;
        ClickOutcome(None, Some(Link(from.compId, from.portId, to.compId, to.portId)))
      else ClickOutcome(None, None)
  }

  /** A click on `port` of component `compId`. */
  datatype Click = Click(compId: string, port: Port)

  /** Two clicks in a row, starting with nothing pending. */
  function TwoClicks(a: Click, b: Click): Option<Link>
  {
    PortClick(PortClick(None, a.compId, a.port).pending, b.compId, b.port).link
  }

  /** The order of the two clicks does not matter. */
  lemma TwoClicksSymmetric(a: Click, b: Click)
    ensures TwoClicks(a, b) == TwoClicks(b, a)
  {
  }

  /** Whatever the order, the link runs from the OUTPUT port clicked to the INPUT port clicked. */
  lemma TwoClicksOrient(a: Click, b: Click)
    requires a.port.dir == Output && b.port.dir == Input && a.compId != b.compId
    ensures TwoClicks(a, b) == Some(Link(a.compId, a.port.id, b.compId, b.port.id))
    ensures TwoClicks(b, a) == Some(Link(a.compId, a.port.id, b.compId, b.port.id))
  {
  }

  /** Two ports of the same direction, or two ports of one component, are never linked. */
  lemma TwoClicksRefuse(a: Click, b: Click)
    ensures TwoClicks(a, b).Some? <==> a.port.dir != b.port.dir && a.compId != b.compId
  {
  }

  /** Clicking a third port after a refused or finished pair starts a new pair. */
  lemma ThirdClickStartsOver(a: Click, b: Click, c: Click)
    ensures var after := PortClick(PortClick(None, a.compId, a.port).pending, b.compId, b.port).pending;
      PortClick(after, c.compId, c.port) == ClickOutcome(Some(Endpoint(c.compId, c.port.id, c.port.dir)), None)
  {
  }

  /** A grid feed has only OUTPUT ports, so it can only ever be the source of a link. */
  lemma FeedNeverTargeted(a: Click, b: Click)
    requires b.port in ArchetypeOf(TP).ports
    ensures TwoClicks(a, b).Some? ==> TwoClicks(a, b).value.fromId == b.compId
    ensures TwoClicks(b, a).Some? ==> TwoClicks(b, a).value.fromId == b.compId
  {
  }

  /** A link drawn on a component with unique port ids resolves, at its target
      end, to the INPUT port that was clicked. */
  lemma LinkTargetResolves(comps: seq<Component>, a: Click, b: Click, i: nat)
    requires i < |comps| && FindComp(comps, b.compId) == Some(i)
    requires b.port in comps[i].ports && b.port.dir == Input
    requires UniqueIds(PortIds(comps[i].ports))
    requires TwoClicks(a, b).Some?
    ensures var l := TwoClicks(a, b).value;
      && FindComp(comps, l.toId) == Some(i)
      && FindPort(comps[i].ports, l.toPortId).Some?
      && comps[i].ports[FindPort(comps[i].ports, l.toPortId).value] == b.port
  {
    var ports := comps[i].ports;
    var j :| 0 <= j < |ports| && ports[j] == b.port;
    assert IdsOf(Shapes(ports))[j] == b.port.id;
    var f := FindPort(ports, b.port.id).value;
    assert PortIds(ports)[f] == PortIds(ports)[j];
  }

  // ---------------------------------------------------------------------------
  // The connection context menu.

  function FindConn(conns: seq<Connection>, id: string): (r: Option<nat>)
    ensures r.Some? ==> r.value < |conns| && conns[r.value].id == id
    ensures r.Some? ==> forall k :: 0 <= k < r.value ==> conns[k].id != id
    ensures r.None? ==> forall k :: 0 <= k < |conns| ==> conns[k].id != id
    decreases |conns|
  {
    if |conns| == 0 then None
    else if conns[0].id == id then Some(0)
    else match FindConn(conns[1..], id)
      case None => None
      case Some(k) => Some(k + 1)
  }

  /** "Damage" / "Repair": flip `isDamaged` on the connection with this id
      (every one, should ids repeat); nothing happens if it is gone. */
  function ToggleDamage(conns: seq<Connection>, id: string): (r: seq<Connection>)
    ensures |r| == |conns|
    ensures forall k :: 0 <= k < |conns| && conns[k].id != id ==> r[k] == conns[k]
    ensures forall k :: 0 <= k < |conns| && conns[k].id == id ==>
      r[k] == conns[k].(isDamaged := !conns[k].isDamaged)
  {
    match FindConn(conns, id)
    case None => conns
    case Some(_) =>
      seq(|conns|, k requires 0 <= k < |conns| =>
        if conns[k].id == id then conns[k].(isDamaged := !conns[k].isDamaged) else conns[k])
  }

  /** Damaging and then repairing a connection restores the list. */
  lemma ToggleDamageInvolution(conns: seq<Connection>, id: string)
    ensures ToggleDamage(ToggleDamage(conns, id), id) == conns
  {
    var r := ToggleDamage(ToggleDamage(conns, id), id);
    assert forall k :: 0 <= k < |conns| ==> r[k] == conns[k];
  }

  /** Toggling damage never changes which connections exist or what they join. */
  lemma ToggleDamageKeepsWiring(conns: seq<Connection>, id: string)
    ensures forall k :: 0 <= k < |conns| ==>
      ToggleDamage(conns, id)[k].(isDamaged := conns[k].isDamaged) == conns[k]
  {
  }

  /** "Delete" removes the connection whether or not it was damaged first. */
  lemma DeleteIgnoresDamage(s: SimState, id: string)
    ensures RemoveConnection(s.(connections := ToggleDamage(s.connections, id)), id) == RemoveConnection(s, id)
  {
    FilterIgnoresDropped(s.connections, ToggleDamage(s.connections, id), (c: Connection) => c.id != id);
  }

  datatype MenuItem = DamageItem | RepairItem

  /** The menu offers "Repair" exactly when the chosen connection is damaged. */
  function MenuLabel(conns: seq<Connection>, id: string): (m: MenuItem)
    ensures m == RepairItem <==>
      exists k :: 0 <= k < |conns| && conns[k].id == id && conns[k].isDamaged
        && forall j :: 0 <= j < k ==> conns[j].id != id
  {
    match FindConn(conns, id)
    case Some(k) => if conns[k].isDamaged then RepairItem else DamageItem
    case None => DamageItem
  }

  /** After a toggle the menu offers the opposite action. */
  lemma ToggleFlipsMenu(conns: seq<Connection>, id: string)
    requires FindConn(conns, id).Some?
    ensures MenuLabel(ToggleDamage(conns, id), id) != MenuLabel(conns, id)
  {
    var k := FindConn(conns, id).value;
    var r := ToggleDamage(conns, id);
    assert forall m :: 0 <= m < |r| ==> r[m].id == conns[m].id;
    assert FindConn(r, id) == Some(k);
  }

  // ---------------------------------------------------------------------------
  // Status badges.

  datatype Badge = MainActive | ReserveActive | BypassActive | GeneratorActive | NoBadge

  /** `ports.find(p => p.id === 'in-bypass')?.isPowered`: the first port named
      `in-bypass`, whatever its direction, exists and is powered. */
  predicate BypassLit(c: Component)
  {
    var j := FindPort(c.ports, "in-bypass");
    j.Some? && c.ports[j.value].isPowered
  }

  /** The badge over a component: a switch shows which input it has selected;
      a generator shows "bypass" whenever its bypass port is powered, and
      otherwise "generator" while latched on. */
  function StatusBadge(c: Component): (b: Badge)
    ensures IsSwitch(c.kind) ==> (b == MainActive <==> c.activeInputId == Some("in-1"))
    ensures IsSwitch(c.kind) ==> (b == ReserveActive <==> c.activeInputId == Some("in-2"))
    ensures b == BypassActive || b == GeneratorActive ==> c.kind == DGU
    ensures c.kind == DGU ==> (b == BypassActive <==> BypassLit(c))
    ensures c.kind == DGU ==> (b == GeneratorActive <==> !BypassLit(c) && c.isOn)
    ensures c.kind == DGU ==> (b == NoBadge <==> !BypassLit(c) && !c.isOn)
    ensures !IsSwitch(c.kind) && c.kind != DGU ==> b == NoBadge
  {
    if IsSwitch(c.kind) then
      if c.activeInputId == Some("in-1") then MainActive
      else if c.activeInputId == Some("in-2") then ReserveActive
      else NoBadge
    else if c.kind == DGU then
      if BypassLit(c) then BypassActive
      else if c.isOn then GeneratorActive
      else NoBadge
    else NoBadge
  }

  lemma GeneratorPortsResolve(c: Component)
    requires Shapes(c.ports) == Shapes(ArchetypeOf(DGU).ports)
    ensures FindPort(c.ports, "in-bypass") == Some(1)
    ensures FindInput(c.ports, "in-bypass") == Some(1)
  {
    var sh := Shapes(c.ports);
    assert sh == [("in-start", Input, "START"), ("in-bypass", Input, "BYPASS"), ("out-power", Output, "LOAD")];
    assert IdsOf(sh) == ["in-start", "in-bypass", "out-power"];
    assert KeysOf(sh) == [(Input, "in-start"), (Input, "in-bypass"), (Output, "out-power")];
    assert "in-start"[3] != "in-bypass"[3];
  }

  /** On an evaluated generator the badge tells the state: "bypass" exactly
      when NORMAL, "generator" exactly when RUNNING, none when STARTING or OFF. */
  lemma GeneratorBadgeMatchesState(c: Component, gridDown: bool, now: int)
    requires c.kind == DGU && WellFormed(c) && !c.isFaulty
    ensures var r := Evaluate(c, gridDown, now);
      && (StatusBadge(r) == BypassActive <==> r.state == Normal)
      && (StatusBadge(r) == GeneratorActive <==> r.state == Running)
      && (StatusBadge(r) == NoBadge <==> r.state == Starting || r.state == Off)
  {
    var r := Evaluate(c, gridDown, now);
    assert r == EvalGenerator(c);
    GeneratorPortsResolve(c);
    GeneratorPortsResolve(r);
    assert r.ports[1] == c.ports[1];
  }

  /** A fault touches neither a generator's inputs nor its latch, so its badge survives it. */
  lemma FaultKeepsGeneratorBadge(c: Component, gridDown: bool, now: int)
    requires c.kind == DGU && c.isFaulty
    requires Shapes(c.ports) == Shapes(ArchetypeOf(DGU).ports)
    ensures StatusBadge(Evaluate(c, gridDown, now)) == StatusBadge(c)
  {
    var r := Evaluate(c, gridDown, now);
    GeneratorPortsResolve(c);
    GeneratorPortsResolve(r);
    assert r.ports[1] == c.ports[1];
  }

  /** On an evaluated switch a NORMAL state shows "main", a WARNING state
      shows "reserve", and no badge means the output is OFF. */
  lemma SwitchBadgeMatchesState(c: Component, gridDown: bool, now: int)
    requires IsSwitch(c.kind) && WellFormed(c) && !c.isFaulty
    ensures var r := Evaluate(c, gridDown, now);
      && (r.state == Normal ==> StatusBadge(r) == MainActive)
      && (r.state == Warning ==> StatusBadge(r) == ReserveActive)
      && (StatusBadge(r) == NoBadge ==> r.state == Off)
  {
    var r := Evaluate(c, gridDown, now);
    EvaluateKeepsWellFormed(c, gridDown, now);
    assert r == EvalSwitch(c);
  }
}
