/** Default ports and fields per component kind (constants.ts), and how the
    editor turns an archetype into a fresh component (App.tsx `addComponent`). */
module Archetypes {
  import opened Types

  /** `Partial<ComponentInstance>`: every field an archetype may leave out is optional. */
  datatype Archetype = Archetype(
    ports: seq<Port>,
    capacity: Option<int> := None,
    isOn: Option<bool> := None,
    load: Option<int> := None,
    batteryLevel: Option<int> := None,
    transferDelay: Option<int> := None,
    state: Option<State> := None,
    startCountdown: Option<int> := None,
    internalTimer: Option<int> := None,
    rebootProgress: Option<int> := None,
    isAlarmActive: Option<bool> := None)

  function In(id: string, name: string): Port { Port(id, Input, name, false) }

  function Out(id: string, name: string): Port { Port(id, Output, name, false) }

  /** The two-input, one-output port set shared by AVR, STS and ATS. */
  function SwitchPorts(a: string, b: string, out: string): seq<Port>
  {
    [In("in-1", a), In("in-2", b), Out("out-1", out)]
  }

  /** The `ports` list of each entry of `COMPONENT_ARCHETYPES`, all unpowered:
      racks have only inputs, the grid feed only outputs, everything else
      lists its inputs first and its output last. */
  function ArchetypePorts(k: Kind): (ps: seq<Port>)
    ensures forall j :: 0 <= j < |ps| ==> !ps[j].isPowered
    ensures |ps| > 0
    ensures IsRack(k) ==> forall j :: 0 <= j < |ps| ==> ps[j].dir == Input
    ensures !IsRack(k) ==> ps[|ps| - 1].dir == Output
    ensures k == TP ==> forall j :: 0 <= j < |ps| ==> ps[j].dir == Output
    ensures k != TP ==> ps[0].dir == Input
  {
    match k
    case TP => [Out("out-1", "L1")]
    case DGU => [In("in-start", "START"), In("in-bypass", "BYPASS"), Out("out-power", "LOAD")]
    case DguAvr => [In("in-1", "Monitor"), Out("out-1", "Trigger")]
    case AVR => SwitchPorts("Main", "Backup", "Load")
    case UPS => [In("in-1", "In"), Out("out-1", "Out")]
    case STS => SwitchPorts("A", "B", "Out")
    case ATS => SwitchPorts("A", "B", "Out")
    case RackSingle => [In("in-1", "PSU1")]
    case RackDual => [In("in-1", "PSU1"), In("in-2", "PSU2")]
  }

  /** `COMPONENT_ARCHETYPES`. Battery level and reboot progress are in hundredths
      of a percent. Only the grid feed leaves its state to the editor's default;
      only the generator and the three switches have a transfer delay. */
  function ArchetypeOf(k: Kind): (a: Archetype)
    ensures forall j :: 0 <= j < |a.ports| ==> !a.ports[j].isPowered
    ensures |a.ports| > 0
    ensures IsRack(k) ==> forall j :: 0 <= j < |a.ports| ==> a.ports[j].dir == Input
    ensures !IsRack(k) ==> a.ports[|a.ports| - 1].dir == Output
    ensures k == TP ==> forall j :: 0 <= j < |a.ports| ==> a.ports[j].dir == Output
    ensures k != TP ==> a.ports[0].dir == Input
    ensures a.state.None? <==> k == TP
    ensures a.transferDelay.Some? <==> k == DGU || IsSwitch(k)
    ensures a.load.Some? <==> IsRack(k)
    ensures a.batteryLevel.Some? <==> k == UPS
  {
    var ports := ArchetypePorts(k);
    match k
    case TP => Archetype(ports, capacity := Some(2000), isOn := Some(true))
    case DGU =>
      Archetype(ports, capacity := Some(2000), isOn := Some(false), transferDelay := Some(30000),
                state := Some(Off), startCountdown := Some(0))
    case DguAvr => Archetype(ports, isOn := Some(true), internalTimer := Some(0), state := Some(Normal))
    case AVR => Archetype(ports, transferDelay := Some(100), isOn := Some(true), state := Some(Normal))
    case UPS =>
      Archetype(ports, batteryLevel := Some(10000), capacity := Some(500), isOn := Some(true), state := Some(Normal))
    case STS => Archetype(ports, transferDelay := Some(0), isOn := Some(true), state := Some(Normal))
    case ATS => Archetype(ports, transferDelay := Some(5000), isOn := Some(true), state := Some(Normal))
    case RackSingle =>
      Archetype(ports, load := Some(5), isOn := Some(true), state := Some(Normal),
                rebootProgress := Some(10000), isAlarmActive := Some(false))
    case RackDual =>
      Archetype(ports, load := Some(5), isOn := Some(true), state := Some(Normal),
                rebootProgress := Some(10000), isAlarmActive := Some(false))
  }

  function PortIds(ports: seq<Port>): seq<string>
  {
    seq(|ports|, j requires 0 <= j < |ports| => ports[j].id)
  }

  /** Port ids, directions and labels: everything about a port except its power flag. */
  function Shapes(ports: seq<Port>): seq<(string, Direction, string)>
  {
    seq(|ports|, j requires 0 <= j < |ports| => (ports[j].id, ports[j].dir, ports[j].name))
  }

  predicate UniqueIds(ids: seq<string>)
  {
    forall i, j :: 0 <= i < j < |ids| ==> ids[i] != ids[j]
  }

  predicate HasPort(ports: seq<Port>, id: string, dir: Direction)
  {
    exists j :: 0 <= j < |ports| && ports[j].id == id && ports[j].dir == dir
  }

  /** The archetype's ports with every power flag cleared. */
  function FreshPorts(ports: seq<Port>): (r: seq<Port>)
    ensures Shapes(r) == Shapes(ports)
    ensures forall j :: 0 <= j < |r| ==> !r[j].isPowered
  {
    var r := seq(|ports|, j requires 0 <= j < |ports| => ports[j].(isPowered := false));
    assert Shapes(r) == Shapes(ports);
    r
  }

  /** Port ids are unique within every archetype, so a port id names one port. */
  lemma ArchetypeIdsUnique(k: Kind)
    ensures UniqueIds(PortIds(ArchetypeOf(k).ports))
  {
    var ids := PortIds(ArchetypePorts(k));
    assert ArchetypeOf(k).ports == ArchetypePorts(k);
    match k
    case TP => assert ids == ["out-1"];
    case DGU =>
      assert ids == ["in-start", "in-bypass", "out-power"];
      assert ids[0][3] != ids[1][3] && ids[0][0] != ids[2][0] && ids[1][0] != ids[2][0];
    case DguAvr =>
      assert ids == ["in-1", "out-1"];
      assert ids[0][0] != ids[1][0];
    case UPS =>
      assert ids == ["in-1", "out-1"];
      assert ids[0][0] != ids[1][0];
    case RackSingle => assert ids == ["in-1"];
    case RackDual =>
      assert ids == ["in-1", "in-2"];
      assert ids[0][3] != ids[1][3];
    case _ =>
      assert ids == ["in-1", "in-2", "out-1"];
      assert ids[0][3] != ids[1][3] && ids[0][0] != ids[2][0] && ids[1][0] != ids[2][0];
  }

  /** The port lists of constants.ts: ids in order, with their directions. */
  lemma ArchetypePortLists(k: Kind)
    ensures ArchetypeOf(k).ports == ArchetypePorts(k)
    ensures var ps := ArchetypePorts(k);
      && (k == TP ==> PortIds(ps) == ["out-1"] && ps[0].dir == Output)
      && (k == DGU ==>
            PortIds(ps) == ["in-start", "in-bypass", "out-power"]
            && ps[0].dir == Input && ps[1].dir == Input && ps[2].dir == Output)
      && (k == DguAvr || k == UPS ==> PortIds(ps) == ["in-1", "out-1"] && ps[0].dir == Input && ps[1].dir == Output)
      && (IsSwitch(k) ==>
            PortIds(ps) == ["in-1", "in-2", "out-1"]
            && ps[0].dir == Input && ps[1].dir == Input && ps[2].dir == Output)
      && (k == RackSingle ==> PortIds(ps) == ["in-1"] && ps[0].dir == Input)
      && (k == RackDual ==> PortIds(ps) == ["in-1", "in-2"] && ps[0].dir == Input && ps[1].dir == Input)
  {
  }

  /** A component freshly dropped on the canvas: the archetype's fields, then
      the editor's overrides (a missing state becomes OFF, a missing `isOn`
      becomes true, every component gets a null outage stamp, no alarm and a
      full reboot progress). Coordinates are not modelled and the label is a parameter. */
  function NewComponent(k: Kind, id: string, name: string): (c: Component)
    ensures c.id == id && c.kind == k && c.name == name && !c.isFaulty
    ensures Shapes(c.ports) == Shapes(ArchetypeOf(k).ports)
    ensures forall p :: p in c.ports ==> !p.isPowered
    ensures k == TP ==> c.state == Off && c.isOn
    ensures k == DGU ==> c.transferDelay == Some(30000) && !c.isOn && c.startCountdown == Some(0) && c.state == Off
    ensures k == DguAvr ==> c.internalTimer == Some(0) && c.state == Normal
    ensures k == AVR ==> c.transferDelay == Some(100)
    ensures k == STS ==> c.transferDelay == Some(0)
    ensures k == ATS ==> c.transferDelay == Some(5000)
    ensures IsSwitch(k) ==> c.activeInputId == None && c.switchingTimer == None && c.state == Normal
    ensures k == UPS ==> c.batteryLevel == Some(10000) && c.state == Normal
    ensures IsRack(k) ==> c.load == Some(5) && !c.isAlarmActive && c.state == Normal
    ensures c.rebootProgress == Some(10000) && c.lastPowerLostAt == Cleared
  {
    var a := ArchetypeOf(k);
    Component(
      id := id,
      kind := k,
      name := name,
      isFaulty := false,
      isOn := match a.isOn case Some(b) => b case None => true,
      capacity := a.capacity,
      load := a.load,
      batteryLevel := a.batteryLevel,
      ports := FreshPorts(a.ports),
      transferDelay := a.transferDelay,
      internalTimer := a.internalTimer,
      startCountdown := a.startCountdown,
      state := match a.state case Some(s) => s case None => Off,
      activeInputId := None,
      switchingTimer := None,
      lastPowerLostAt := Cleared,
      rebootProgress := Some(10000),
      isAlarmActive := false)
  }
}
