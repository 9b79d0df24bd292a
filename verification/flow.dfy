/** One evaluation of one component (App.tsx `updateComponentInternalFlow`):
    given the component's current port flags, the global grid flag and the
    wall clock, compute its outputs, its display state and its counters.

    Percentages are scaled to hundredths: a battery level of 10000 is 100 %,
    a charge step of 20 is the source's 0.2 %, a drain step of 4 its 0.04 %
    and a reboot step of 40 its 0.4 %. Times are in ms. */
module Flow {
  import opened Types
  import opened Seqs
  import opened Archetypes

  const SimStep := 20             // one evaluation advances every timer by 20 ms
  const MonitorThreshold := 3000  // generator controller: 3 s without mains
  const DefaultStartDelay := 30000
  const RackInertia := 20         // outages up to 20 ms do not reboot a rack
  const BatteryFull := 10000
  const ChargeStep := 20
  const DrainStep := 4
  const RebootDone := 10000
  const RebootStep := 40

  function Min(a: int, b: int): int { if a <= b then a else b }

  function Max(a: int, b: int): int { if a >= b then a else b }

  // ---------------------------------------------------------------------------
  // Port lookups. All of them depend only on the ports' shapes, so anything
  // that keeps the shapes keeps every lookup.

  function DirsOf(shapes: seq<(string, Direction, string)>): seq<Direction>
  {
    seq(|shapes|, j requires 0 <= j < |shapes| => shapes[j].1)
  }

  function KeysOf(shapes: seq<(string, Direction, string)>): seq<(Direction, string)>
  {
    seq(|shapes|, j requires 0 <= j < |shapes| => (shapes[j].1, shapes[j].0))
  }

  function IdsOf(shapes: seq<(string, Direction, string)>): seq<string>
  {
    seq(|shapes|, j requires 0 <= j < |shapes| => shapes[j].0)
  }

  /** `inputMap.get(id)`: the map is built from the INPUT ports in order, so the last one with that id wins. */
  function FindInput(ports: seq<Port>, id: string): (r: Option<nat>)
    ensures r.Some? ==> r.value < |ports| && ports[r.value].dir == Input && ports[r.value].id == id
    ensures r.Some? ==> forall j :: r.value < j < |ports| ==> !(ports[j].dir == Input && ports[j].id == id)
    ensures r.None? ==> !HasPort(ports, id, Input)
  {
    var r := LastIndexOf(KeysOf(Shapes(ports)), (Input, id));
    assert forall j :: 0 <= j < |ports| ==> KeysOf(Shapes(ports))[j] == (ports[j].dir, ports[j].id);
    r
  }

  /** `outputPorts[0]`: the first OUTPUT port. */
  function FirstOutput(ports: seq<Port>): (r: Option<nat>)
    ensures r.Some? ==> r.value < |ports| && ports[r.value].dir == Output
    ensures r.Some? ==> forall j :: 0 <= j < r.value ==> ports[j].dir == Input
    ensures r.None? ==> forall j :: 0 <= j < |ports| ==> ports[j].dir == Input
  {
    var r := IndexOf(DirsOf(Shapes(ports)), Output);
    assert forall j :: 0 <= j < |ports| ==> DirsOf(Shapes(ports))[j] == ports[j].dir;
    r
  }

  /** `inputMap.get(id)?.isPowered`, with a missing port reading as unpowered. */
  predicate InputPowered(ports: seq<Port>, id: string)
  {
    var i := FindInput(ports, id);
    i.Some? && ports[i.value].isPowered
  }

  /** The first OUTPUT port exists and is powered. */
  predicate OutputOn(ports: seq<Port>)
  {
    var o := FirstOutput(ports);
    o.Some? && ports[o.value].isPowered
  }

  predicate AnyInputPowered(ports: seq<Port>)
  {
    exists j :: 0 <= j < |ports| && ports[j].dir == Input && ports[j].isPowered
  }

  /** Same shapes and every INPUT port untouched: what an evaluation may do to its ports. */
  predicate InputsKept(a: seq<Port>, b: seq<Port>)
  {
    && Shapes(a) == Shapes(b)
    && forall j :: 0 <= j < |a| && a[j].dir == Input ==> b[j] == a[j]
  }

  /** `if (outPort) outPort.isPowered = on`. */
  function DriveOutput(ports: seq<Port>, on: bool): (r: seq<Port>)
    ensures InputsKept(ports, r)
    ensures FirstOutput(ports).Some? ==> (OutputOn(r) <==> on)
    ensures FirstOutput(ports).None? ==> r == ports
  {
    match FirstOutput(ports)
    case None => ports
    case Some(o) =>
      var r := ports[o := ports[o].(isPowered := on)];
      assert Shapes(r) == Shapes(ports);
      r
  }

  /** `ports.forEach(p => { if (p.type === 'OUTPUT') p.isPowered = false })`. */
  function AllOutputsOff(ports: seq<Port>): (r: seq<Port>)
    ensures InputsKept(ports, r)
    ensures forall j :: 0 <= j < |r| && r[j].dir == Output ==> !r[j].isPowered
  {
    var r := seq(|ports|, j requires 0 <= j < |ports| =>
      if ports[j].dir == Output then ports[j].(isPowered := false) else ports[j]);
    assert Shapes(r) == Shapes(ports);
    r
  }

  // ---------------------------------------------------------------------------
  // Per-kind behaviour.

  /** Grid feed: its output follows the global grid flag. */
  function EvalFeed(c: Component, gridDown: bool): (r: Component)
    ensures r == c.(ports := r.ports, state := r.state)
    ensures InputsKept(c.ports, r.ports)
    ensures r.state == Off <==> gridDown
    ensures r.state == Normal <==> !gridDown
    ensures FirstOutput(c.ports).Some? ==> (OutputOn(r.ports) <==> !gridDown)
  {
    c.(ports := DriveOutput(c.ports, !gridDown), state := if gridDown then Off else Normal)
  }

  /** The controller's monitor input exists and carries no power. */
  predicate MonitorLost(c: Component)
  {
    FindInput(c.ports, "in-1").Some? && !InputPowered(c.ports, "in-1")
  }

  /** Generator controller: counts how long the monitored feed has been lost
      and raises its trigger after 3 s. */
  function EvalController(c: Component): (r: Component)
    ensures r == c.(internalTimer := r.internalTimer, ports := r.ports, state := r.state)
    ensures InputsKept(c.ports, r.ports)
    ensures MonitorLost(c) ==> r.internalTimer == Some(OrDefault(c.internalTimer, 0) + SimStep)
    ensures MonitorLost(c) && r.internalTimer.value >= MonitorThreshold ==>
      r.state == Running && (FirstOutput(c.ports).Some? ==> OutputOn(r.ports))
    ensures MonitorLost(c) && r.internalTimer.value < MonitorThreshold ==>
      r.state == Warning && r.ports == c.ports
    ensures !MonitorLost(c) ==> r.internalTimer == Some(0) && r.state == Normal && !OutputOn(r.ports)
  {
    if MonitorLost(c) then
      var t := OrDefault(c.internalTimer, 0) + SimStep;
      if t >= MonitorThreshold then
        c.(internalTimer := Some(t), ports := DriveOutput(c.ports, true), state := Running)
      else
        c.(internalTimer := Some(t), state := Warning)
    else
      c.(internalTimer := Some(0), ports := DriveOutput(c.ports, false), state := Normal)
  }

  /** `transferDelay || 30000`: a missing or zero delay means 30 s. */
  function StartDelay(c: Component): int
  {
    OrDefault(c.transferDelay, DefaultStartDelay)
  }

  /** `startCountdown && startCountdown > 0`. */
  predicate Counting(c: Component)
  {
    c.startCountdown.Some? && c.startCountdown.value > 0
  }

  /** Generator latch: counts while the start signal is held and latches on at
      the start delay; losing the start signal clears both at once. */
  function Latch(c: Component): (r: Component)
    ensures r == c.(isOn := r.isOn, startCountdown := r.startCountdown)
    ensures !InputPowered(c.ports, "in-start") ==> !r.isOn && r.startCountdown == Some(0)
    ensures InputPowered(c.ports, "in-start") && c.isOn ==> r == c
    ensures InputPowered(c.ports, "in-start") && !c.isOn ==>
      && r.startCountdown == Some(OrDefault(c.startCountdown, 0) + SimStep)
      && (r.isOn <==> r.startCountdown.value >= StartDelay(c))
    ensures r.isOn && !c.isOn ==> OrDefault(r.startCountdown, 0) >= StartDelay(c)
  {
    if InputPowered(c.ports, "in-start") then
      if !c.isOn then
        var cd := OrDefault(c.startCountdown, 0) + SimStep;
        c.(startCountdown := Some(cd), isOn := cd >= StartDelay(c))
      else c
    else c.(isOn := false, startCountdown := Some(0))
  }

  /** Diesel generator: the latch, then the output by precedence bypass, running, starting, off. */
  function EvalGenerator(c: Component): (r: Component)
    ensures r == c.(isOn := r.isOn, startCountdown := r.startCountdown, ports := r.ports, state := r.state)
    ensures InputsKept(c.ports, r.ports)
    ensures !InputPowered(c.ports, "in-start") ==> !r.isOn && r.startCountdown == Some(0)
    ensures InputPowered(c.ports, "in-start") && c.isOn ==> r.isOn && r.startCountdown == c.startCountdown
    ensures InputPowered(c.ports, "in-start") && !c.isOn ==>
      && r.startCountdown == Some(OrDefault(c.startCountdown, 0) + SimStep)
      && (r.isOn <==> r.startCountdown.value >= StartDelay(c))
    ensures InputPowered(c.ports, "in-bypass") ==> r.state == Normal
    ensures !InputPowered(c.ports, "in-bypass") && r.isOn ==> r.state == Running
    ensures !InputPowered(c.ports, "in-bypass") && !r.isOn && Counting(r) ==> r.state == Starting
    ensures !InputPowered(c.ports, "in-bypass") && !r.isOn && !Counting(r) ==> r.state == Off
    ensures FirstOutput(c.ports).Some? ==> (OutputOn(r.ports) <==> InputPowered(c.ports, "in-bypass") || r.isOn)
  {
    var l := Latch(c);
    if InputPowered(c.ports, "in-bypass") then l.(ports := DriveOutput(l.ports, true), state := Normal)
    else if l.isOn then l.(ports := DriveOutput(l.ports, true), state := Running)
    else if Counting(l) then l.(ports := DriveOutput(l.ports, false), state := Starting)
    else l.(ports := DriveOutput(l.ports, false), state := Off)
  }

  /** `transferDelay || 0`. */
  function SwitchDelay(c: Component): int
  {
    OrDefault(c.transferDelay, 0)
  }

  /** The port `activeInputId` names (`activeInputId ? inputMap.get(activeInputId) : null`,
      an empty id being falsy) exists and is powered. */
  predicate ActiveInputPowered(c: Component)
  {
    match c.activeInputId
    case None => false
    case Some(id) => id != "" && InputPowered(c.ports, id)
  }

  /** Moving to input `want`: count the switching timer up to the delay, then commit. */
  function Select(c: Component, want: string): Component
  {
    if c.activeInputId != Some(want) then
      var t := OrDefault(c.switchingTimer, 0) + SimStep;
      if t >= SwitchDelay(c) then c.(activeInputId := Some(want), switchingTimer := Some(0))
      else c.(switchingTimer := Some(t))
    else c.(switchingTimer := Some(0))
  }

  /** Selection rule for input `want` when it is the highest-priority powered input. */
  predicate SelectsTo(c: Component, r: Component, want: string)
  {
    && (c.activeInputId == Some(want) ==> r.activeInputId == c.activeInputId && r.switchingTimer == Some(0))
    && (c.activeInputId != Some(want) ==>
          var t := OrDefault(c.switchingTimer, 0) + SimStep;
          && (t >= SwitchDelay(c) ==> r.activeInputId == Some(want) && r.switchingTimer == Some(0))
          && (t < SwitchDelay(c) ==> r.activeInputId == c.activeInputId && r.switchingTimer == Some(t)))
  }

  /** Which input a switch is on after one evaluation: prefer `in-1`, fall
      back to `in-2`, and forget the selection when neither is powered. */
  function SelectInput(c: Component): (r: Component)
    ensures r == c.(activeInputId := r.activeInputId, switchingTimer := r.switchingTimer)
    ensures InputPowered(c.ports, "in-1") ==> SelectsTo(c, r, "in-1")
    ensures !InputPowered(c.ports, "in-1") && InputPowered(c.ports, "in-2") ==> SelectsTo(c, r, "in-2")
    ensures !InputPowered(c.ports, "in-1") && !InputPowered(c.ports, "in-2") ==>
      r.activeInputId == None && r.switchingTimer == Some(0)
  {
    if InputPowered(c.ports, "in-1") then Select(c, "in-1")
    else if InputPowered(c.ports, "in-2") then Select(c, "in-2")
    else c.(activeInputId := None, switchingTimer := Some(0))
  }

  /** AVR, ATS and STS: the selection, then the output, held off while a
      transfer is pending. */
  function EvalSwitch(c: Component): (r: Component)
    ensures r == SelectInput(c).(ports := r.ports, state := r.state)
    ensures InputsKept(c.ports, r.ports)
    ensures FirstOutput(c.ports).Some? ==>
      (OutputOn(r.ports) <==> ActiveInputPowered(r) && r.switchingTimer == Some(0))
    ensures r.state == Normal <==> ActiveInputPowered(r) && r.switchingTimer == Some(0) && r.activeInputId == Some("in-1")
    ensures r.state == Warning <==> ActiveInputPowered(r) && r.switchingTimer == Some(0) && r.activeInputId != Some("in-1")
    ensures r.state == Off <==> !(ActiveInputPowered(r) && r.switchingTimer == Some(0))
  {
    var s := SelectInput(c);
    var on := ActiveInputPowered(s) && s.switchingTimer == Some(0);
    var r := s.(ports := DriveOutput(s.ports, on),
                state := if !on then Off else if s.activeInputId == Some("in-1") then Normal else Warning);
    assert ActiveInputPowered(r) == ActiveInputPowered(s) by {
      if s.activeInputId.Some? {
        var id := s.activeInputId.value;
        assert FindInput(r.ports, id) == FindInput(s.ports, id);
      }
    }
    r
  }

  /** UPS: charges while fed, otherwise carries the load from its battery until it is empty. */
  function EvalUps(c: Component): (r: Component)
    ensures r == c.(batteryLevel := r.batteryLevel, ports := r.ports, state := r.state)
    ensures InputsKept(c.ports, r.ports)
    ensures r.batteryLevel.Some?
    ensures 0 <= OrDefault(c.batteryLevel, 0) <= BatteryFull ==> 0 <= r.batteryLevel.value <= BatteryFull
    ensures InputPowered(c.ports, "in-1") ==>
      && r.batteryLevel == Some(Min(BatteryFull, OrDefault(c.batteryLevel, 0) + ChargeStep))
      && r.state == Normal
      && (FirstOutput(c.ports).Some? ==> OutputOn(r.ports))
    ensures !InputPowered(c.ports, "in-1") ==>
      && r.batteryLevel == Some(Max(0, OrDefault(c.batteryLevel, 0) - DrainStep))
      && (r.state == Warning <==> r.batteryLevel.value > 0)
      && (r.state == Off <==> r.batteryLevel.value == 0)
      && (FirstOutput(c.ports).Some? ==> (OutputOn(r.ports) <==> r.batteryLevel.value > 0))
  {
    var b := OrDefault(c.batteryLevel, 0);
    if InputPowered(c.ports, "in-1") then
      c.(ports := DriveOutput(c.ports, true), batteryLevel := Some(Min(BatteryFull, b + ChargeStep)), state := Normal)
    else
      var nb := Max(0, b - DrainStep);
      if nb > 0 then c.(ports := DriveOutput(c.ports, true), batteryLevel := Some(nb), state := Warning)
      else c.(ports := DriveOutput(c.ports, false), batteryLevel := Some(nb), state := Off)
  }

  /** Power came back after an outage that began more than the inertia window ago.
      An absent (`undefined`) stamp gives a NaN downtime, which never exceeds it. */
  predicate OutageExceeded(c: Component, now: int)
  {
    c.lastPowerLostAt.At? && now - c.lastPowerLostAt.ms > RackInertia
  }

  /** Server rack: a terminal load that records the start of an outage and
      reboots if the outage outlasted the inertia window. */
  function EvalRack(c: Component, now: int): (r: Component)
    ensures r == c.(lastPowerLostAt := r.lastPowerLostAt, state := r.state,
                    rebootProgress := r.rebootProgress, isAlarmActive := r.isAlarmActive)
    ensures c.isAlarmActive ==> r.isAlarmActive
    ensures !AnyInputPowered(c.ports) ==>
      && r.state == Fault
      && r.rebootProgress == c.rebootProgress && r.isAlarmActive == c.isAlarmActive
      && r.lastPowerLostAt == (if c.lastPowerLostAt == Cleared then At(now) else c.lastPowerLostAt)
    ensures AnyInputPowered(c.ports) ==> r.lastPowerLostAt == Cleared
    ensures AnyInputPowered(c.ports) && OutageExceeded(c, now) ==>
      r.isAlarmActive && r.rebootProgress == Some(RebootStep) && r.state == Rebooting
    ensures AnyInputPowered(c.ports) && !OutageExceeded(c, now) && c.state != Rebooting ==>
      r.state == Normal && r.rebootProgress == c.rebootProgress && r.isAlarmActive == c.isAlarmActive
    ensures AnyInputPowered(c.ports) && !OutageExceeded(c, now) && c.state == Rebooting ==>
      var p := OrDefault(c.rebootProgress, 0) + RebootStep;
      && r.rebootProgress == Some(p) && r.isAlarmActive == c.isAlarmActive
      && (r.state == Normal <==> p >= RebootDone)
      && (r.state == Rebooting <==> p < RebootDone)
  {
    if AnyInputPowered(c.ports) then
      var back :=
        if c.lastPowerLostAt == Cleared then c
        else if OutageExceeded(c, now) then
          c.(isAlarmActive := true, state := Rebooting, rebootProgress := Some(0), lastPowerLostAt := Cleared)
        else c.(lastPowerLostAt := Cleared);
      if back.state == Rebooting then
        var p := OrDefault(back.rebootProgress, 0) + RebootStep;
        back.(rebootProgress := Some(p), state := if p >= RebootDone then Normal else Rebooting)
      else back.(state := Normal)
    else
      c.(lastPowerLostAt := if c.lastPowerLostAt == Cleared then At(now) else c.lastPowerLostAt,
         state := Fault)
  }

  // ---------------------------------------------------------------------------
  // The invariant every component keeps, and the dispatcher.

  predicate RackProgressOk(c: Component)
  {
    && c.rebootProgress.Some?
    && 0 <= c.rebootProgress.value <= RebootDone
    && c.rebootProgress.value % RebootStep == 0
    && (c.state == Rebooting ==> c.rebootProgress.value < RebootDone)
  }

  /** What the engine keeps true of every component's state: a UPS battery
      stays within 0..100 %, a running generator has held its start signal
      for the start delay, a switch only ever selects `in-1` or `in-2`, and a
      rack's reboot progress moves in whole 0.4 % steps within 0..100 %. */
  predicate StateOk(c: Component)
  {
    && (c.kind == UPS ==> c.batteryLevel.Some? && 0 <= c.batteryLevel.value <= BatteryFull)
    && (c.kind == DGU && c.isOn ==> OrDefault(c.startCountdown, 0) >= StartDelay(c))
    && (IsSwitch(c.kind) ==> c.activeInputId == None || c.activeInputId == Some("in-1") || c.activeInputId == Some("in-2"))
    && (IsRack(c.kind) ==> RackProgressOk(c))
  }

  /** A well-formed component has the ports its archetype defines and a state
      that is `StateOk`. */
  predicate WellFormed(c: Component)
  {
    Shapes(c.ports) == Shapes(ArchetypeOf(c.kind).ports) && StateOk(c)
  }

  /** `updateComponentInternalFlow`: a fault overrides everything; otherwise dispatch on the kind. */
  function Evaluate(c: Component, gridDown: bool, now: int): (r: Component)
    ensures r.id == c.id && r.kind == c.kind && r.name == c.name && r.isFaulty == c.isFaulty
    ensures r.capacity == c.capacity && r.load == c.load && r.transferDelay == c.transferDelay
    ensures InputsKept(c.ports, r.ports)
    ensures c.isFaulty ==> r == c.(state := Fault, ports := r.ports)
    ensures c.isFaulty ==> forall j :: 0 <= j < |r.ports| && r.ports[j].dir == Output ==> !r.ports[j].isPowered
    ensures !c.isFaulty && IsRack(c.kind) ==> r.ports == c.ports
  {
    if c.isFaulty then c.(state := Fault, ports := AllOutputsOff(c.ports))
    else match c.kind
      case TP => EvalFeed(c, gridDown)
      case DguAvr => EvalController(c)
      case DGU => EvalGenerator(c)
      case AVR => EvalSwitch(c)
      case ATS => EvalSwitch(c)
      case STS => EvalSwitch(c)
      case UPS => EvalUps(c)
      case RackSingle => EvalRack(c, now)
      case RackDual => EvalRack(c, now)
  }

  lemma UpsKeepsStateOk(c: Component)
    requires StateOk(c) && c.kind == UPS
    ensures StateOk(EvalUps(c))
  {
  }

  lemma GeneratorKeepsStateOk(c: Component)
    requires StateOk(c) && c.kind == DGU
    ensures StateOk(EvalGenerator(c))
  {
    assert StartDelay(EvalGenerator(c)) == StartDelay(c);
  }

  lemma SwitchKeepsStateOk(c: Component)
    requires StateOk(c) && IsSwitch(c.kind)
    ensures StateOk(EvalSwitch(c))
  {
  }

  lemma RackKeepsStateOk(c: Component, now: int)
    requires StateOk(c) && IsRack(c.kind)
    ensures StateOk(EvalRack(c, now))
  {
    assert OrDefault(c.rebootProgress, 0) == c.rebootProgress.value;
  }

  /** One evaluation never breaks a component's state invariant. */
  lemma EvaluateKeepsStateOk(c: Component, gridDown: bool, now: int)
    ensures StateOk(c) ==> StateOk(Evaluate(c, gridDown, now))
  {
    if StateOk(c) && !c.isFaulty {
      match c.kind
      case UPS => UpsKeepsStateOk(c);
      case DGU => GeneratorKeepsStateOk(c);
      case RackSingle => RackKeepsStateOk(c, now);
      case RackDual => RackKeepsStateOk(c, now);
      case AVR => SwitchKeepsStateOk(c);
      case ATS => SwitchKeepsStateOk(c);
      case STS => SwitchKeepsStateOk(c);
      case _ =>
    }
  }

  /** One evaluation never breaks a component's invariant. */
  lemma EvaluateKeepsWellFormed(c: Component, gridDown: bool, now: int)
    ensures WellFormed(c) ==> WellFormed(Evaluate(c, gridDown, now))
  {
    EvaluateKeepsStateOk(c, gridDown, now);
  }
}
