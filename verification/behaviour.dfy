/** How each kind of component behaves over many evaluations with its inputs
    held steady: how long a controller waits before starting the generator,
    how long a generator takes to latch on, how a switch transfers, how a
    UPS drains, and how long a rack takes to reboot. Every evaluation is
    20 ms of the component's own clock. */
module Behaviour {
  import opened Types
  import opened Archetypes
  import opened Flow

  /** Evaluate `c` `n` times in a row without touching its inputs. */
  function Iterate(c: Component, n: nat, gridDown: bool, now: int): (r: Component)
    ensures r.id == c.id && r.kind == c.kind && r.isFaulty == c.isFaulty && r.transferDelay == c.transferDelay
    ensures InputsKept(c.ports, r.ports)
    decreases n
  {
    if n == 0 then c
    else
      var prev := Iterate(c, n - 1, gridDown, now);
      var r := Evaluate(prev, gridDown, now);
      InputsKeptTrans(c.ports, prev.ports, r.ports);
      r
  }

  lemma InputsKeptTrans(a: seq<Port>, b: seq<Port>, c: seq<Port>)
    requires InputsKept(a, b) && InputsKept(b, c)
    ensures InputsKept(a, c)
  {
    forall j | 0 <= j < |a| && a[j].dir == Input
      ensures c[j] == a[j]
    {
      assert Shapes(a)[j] == Shapes(b)[j];
    }
  }

  /** Every input lookup gives the same answer on ports whose inputs were kept. */
  lemma InputsKeptLookups(a: seq<Port>, b: seq<Port>, id: string)
    requires InputsKept(a, b)
    ensures FindInput(b, id) == FindInput(a, id)
    ensures InputPowered(b, id) == InputPowered(a, id)
    ensures FirstOutput(b) == FirstOutput(a)
    ensures AnyInputPowered(b) == AnyInputPowered(a)
  {
    if AnyInputPowered(a) {
      var j :| 0 <= j < |a| && a[j].dir == Input && a[j].isPowered;
      assert b[j] == a[j];
    }
    if AnyInputPowered(b) {
      var j :| 0 <= j < |b| && b[j].dir == Input && b[j].isPowered;
      assert Shapes(a)[j] == Shapes(b)[j];
    }
  }

  /** The last of `n` evaluations. */
  lemma IterateStep(c: Component, n: nat, m: nat, gridDown: bool, now: int)
    requires n == m + 1
    ensures Iterate(c, n, gridDown, now) == Evaluate(Iterate(c, m, gridDown, now), gridDown, now)
  {
  }

  // ---------------------------------------------------------------------------
  // Generator controller.

  /** With the monitored feed lost, the controller's timer gains 20 ms per
      evaluation; it shows WARNING until the timer reaches 3 s and RUNNING from then on. */
  lemma {:induction false} ControllerCounts(c: Component, n: nat, gridDown: bool, now: int)
    requires c.kind == DguAvr && !c.isFaulty && MonitorLost(c)
    ensures var r := Iterate(c, n, gridDown, now);
      && OrDefault(r.internalTimer, 0) == OrDefault(c.internalTimer, 0) + SimStep * n
      && (n > 0 ==> r.internalTimer.Some?)
      && (n > 0 ==> (r.state == Running <==> OrDefault(c.internalTimer, 0) + SimStep * n >= MonitorThreshold))
      && (n > 0 ==> (r.state == Warning <==> OrDefault(c.internalTimer, 0) + SimStep * n < MonitorThreshold))
    decreases n
  {
    if n > 0 {
      var m: nat := n - 1;
      ControllerCounts(c, m, gridDown, now);
      IterateStep(c, n, m, gridDown, now);
      var prev := Iterate(c, m, gridDown, now);
      InputsKeptLookups(c.ports, prev.ports, "in-1");
      assert MonitorLost(prev);
      assert Evaluate(prev, gridDown, now) == EvalController(prev);
    }
  }

  /** A freshly placed controller that never sees mains raises its trigger on
      the 150th evaluation (3 s), and not before. */
  lemma ControllerTakesThreeSeconds(id: string, name: string, gridDown: bool, now: int)
    ensures Iterate(NewComponent(DguAvr, id, name), 149, gridDown, now).state == Warning
    ensures Iterate(NewComponent(DguAvr, id, name), 150, gridDown, now).state == Running
  {
    var c := NewComponent(DguAvr, id, name);
    assert FindInput(c.ports, "in-1") == Some(0) by {
      assert KeysOf(Shapes(c.ports)) == [(Input, "in-1"), (Output, "out-1")];
    }
    ControllerCounts(c, 149, gridDown, now);
    ControllerCounts(c, 150, gridDown, now);
  }

  // ---------------------------------------------------------------------------
  // Generator.

  /** With the start signal held and the generator not yet on, its countdown
      gains 20 ms per evaluation; it stays off while the countdown is short of
      the start delay and latches on at the evaluation that reaches it. */
  lemma {:induction false} GeneratorCounts(c: Component, n: nat, gridDown: bool, now: int)
    requires c.kind == DGU && !c.isFaulty && !c.isOn && InputPowered(c.ports, "in-start")
    requires n > 0 ==> OrDefault(c.startCountdown, 0) + SimStep * (n - 1) < StartDelay(c)
    ensures var r := Iterate(c, n, gridDown, now);
      && OrDefault(r.startCountdown, 0) == OrDefault(c.startCountdown, 0) + SimStep * n
      && (n > 0 ==> (r.isOn <==> OrDefault(c.startCountdown, 0) + SimStep * n >= StartDelay(c)))
    decreases n
  {
    if n > 0 {
      var m: nat := n - 1;
      ControllerGap(OrDefault(c.startCountdown, 0), m, StartDelay(c));
      GeneratorCounts(c, m, gridDown, now);
      IterateStep(c, n, m, gridDown, now);
      var prev := Iterate(c, m, gridDown, now);
      InputsKeptLookups(c.ports, prev.ports, "in-start");
      assert !prev.isOn;
      assert StartDelay(prev) == StartDelay(c);
      assert Evaluate(prev, gridDown, now) == EvalGenerator(prev);
    }
  }

  lemma ControllerGap(t: int, m: nat, limit: int)
    requires t + SimStep * m < limit
    ensures m > 0 ==> t + SimStep * (m - 1) < limit
  {
  }

  /** Once on, a generator stays on for as long as the start signal is held,
      and delivers power. */
  lemma {:induction false} GeneratorStaysOn(c: Component, n: nat, gridDown: bool, now: int)
    requires c.kind == DGU && !c.isFaulty && c.isOn && InputPowered(c.ports, "in-start")
    ensures var r := Iterate(c, n, gridDown, now);
      && r.isOn && r.startCountdown == c.startCountdown
      && (n > 0 && FirstOutput(c.ports).Some? ==> OutputOn(r.ports))
    decreases n
  {
    if n > 0 {
      var m: nat := n - 1;
      GeneratorStaysOn(c, m, gridDown, now);
      IterateStep(c, n, m, gridDown, now);
      var prev := Iterate(c, m, gridDown, now);
      InputsKeptLookups(c.ports, prev.ports, "in-start");
      InputsKeptLookups(c.ports, prev.ports, "in-bypass");
      assert Evaluate(prev, gridDown, now) == EvalGenerator(prev);
    }
  }

  /** With the default 30 s delay a generator started from rest latches on at
      the 1500th evaluation with the start signal held. */
  lemma GeneratorTakesThirtySeconds(c: Component, gridDown: bool, now: int)
    requires c.kind == DGU && !c.isFaulty && !c.isOn && InputPowered(c.ports, "in-start")
    requires c.startCountdown == Some(0) && c.transferDelay == Some(30000)
    ensures !Iterate(c, 1499, gridDown, now).isOn
    ensures Iterate(c, 1500, gridDown, now).isOn
  {
    GeneratorCounts(c, 1499, gridDown, now);
    GeneratorCounts(c, 1500, gridDown, now);
  }

  // ---------------------------------------------------------------------------
  // Transfer switches.

  /** One evaluation of a switch that is on a dead `in-1` while `in-2` is live. */
  lemma SwitchWaitStep(c: Component, gridDown: bool, now: int)
    requires IsSwitch(c.kind) && !c.isFaulty
    requires !InputPowered(c.ports, "in-1") && InputPowered(c.ports, "in-2")
    requires c.activeInputId == Some("in-1")
    ensures var r := Evaluate(c, gridDown, now);
      var t := OrDefault(c.switchingTimer, 0) + SimStep;
      && (t < SwitchDelay(c) ==> r.activeInputId == Some("in-1") && r.switchingTimer == Some(t) && r.state == Off)
      && (t >= SwitchDelay(c) ==> r.activeInputId == Some("in-2") && r.switchingTimer == Some(0) && r.state == Warning)
  {
    var r := Evaluate(c, gridDown, now);
    assert r == EvalSwitch(c);
    InputsKeptLookups(c.ports, r.ports, "in-1");
    InputsKeptLookups(c.ports, r.ports, "in-2");
  }

  /** A switch on `in-1` that loses it while `in-2` is live waits out its
      transfer delay with the output dead, then commits to `in-2` and powers
      the load again (with a WARNING state). */
  lemma {:induction false} SwitchTransfers(c: Component, n: nat, gridDown: bool, now: int)
    requires IsSwitch(c.kind) && !c.isFaulty
    requires !InputPowered(c.ports, "in-1") && InputPowered(c.ports, "in-2")
    requires c.activeInputId == Some("in-1")
    requires n > 0 ==> OrDefault(c.switchingTimer, 0) + SimStep * (n - 1) < SwitchDelay(c)
    ensures var r := Iterate(c, n, gridDown, now);
      var t := OrDefault(c.switchingTimer, 0) + SimStep * n;
      && (t < SwitchDelay(c) ==> r.activeInputId == Some("in-1") && OrDefault(r.switchingTimer, 0) == t)
      && (n > 0 && t < SwitchDelay(c) ==> r.state == Off)
      && (n > 0 && t >= SwitchDelay(c) ==> r.activeInputId == Some("in-2") && r.switchingTimer == Some(0) && r.state == Warning)
    decreases n
  {
    if n > 0 {
      var m: nat := n - 1;
      ControllerGap(OrDefault(c.switchingTimer, 0), m, SwitchDelay(c));
      SwitchTransfers(c, m, gridDown, now);
      IterateStep(c, n, m, gridDown, now);
      var prev := Iterate(c, m, gridDown, now);
      InputsKeptLookups(c.ports, prev.ports, "in-1");
      InputsKeptLookups(c.ports, prev.ports, "in-2");
      assert SwitchDelay(prev) == SwitchDelay(c);
      SwitchWaitStep(prev, gridDown, now);
    }
  }

  /** An ATS at its default 5 s delay needs 250 evaluations to move to the reserve. */
  lemma AtsTakesFiveSeconds(c: Component, gridDown: bool, now: int)
    requires c.kind == ATS && !c.isFaulty && c.transferDelay == Some(5000)
    requires !InputPowered(c.ports, "in-1") && InputPowered(c.ports, "in-2")
    requires c.activeInputId == Some("in-1") && c.switchingTimer == Some(0)
    ensures Iterate(c, 249, gridDown, now).state == Off
    ensures Iterate(c, 250, gridDown, now).activeInputId == Some("in-2")
  {
    SwitchTransfers(c, 249, gridDown, now);
    SwitchTransfers(c, 250, gridDown, now);
  }

  // ---------------------------------------------------------------------------
  // UPS.

  /** Without input a UPS loses 0.04 % per evaluation down to exactly 0, and
      carries its load for as long as charge remains. */
  lemma {:induction false} UpsDrains(c: Component, n: nat, gridDown: bool, now: int)
    requires c.kind == UPS && !c.isFaulty && !InputPowered(c.ports, "in-1")
    requires c.batteryLevel.Some? && c.batteryLevel.value >= 0
    ensures var r := Iterate(c, n, gridDown, now);
      && r.batteryLevel == Some(Max(0, c.batteryLevel.value - DrainStep * n))
      && (n > 0 && FirstOutput(c.ports).Some? ==> (OutputOn(r.ports) <==> c.batteryLevel.value - DrainStep * n > 0))
    decreases n
  {
    if n > 0 {
      var m: nat := n - 1;
      UpsDrains(c, m, gridDown, now);
      IterateStep(c, n, m, gridDown, now);
      var prev := Iterate(c, m, gridDown, now);
      InputsKeptLookups(c.ports, prev.ports, "in-1");
      assert Evaluate(prev, gridDown, now) == EvalUps(prev);
    }
  }

  /** A full UPS carries its load for 2499 evaluations (just under 50 s) and is empty on the 2500th. */
  lemma FullUpsLastsFiftySeconds(c: Component, gridDown: bool, now: int)
    requires c.kind == UPS && !c.isFaulty && !InputPowered(c.ports, "in-1")
    requires c.batteryLevel == Some(BatteryFull) && FirstOutput(c.ports).Some?
    ensures OutputOn(Iterate(c, 2499, gridDown, now).ports)
    ensures !OutputOn(Iterate(c, 2500, gridDown, now).ports)
    ensures Iterate(c, 2500, gridDown, now).batteryLevel == Some(0)
  {
    UpsDrains(c, 2499, gridDown, now);
    UpsDrains(c, 2500, gridDown, now);
  }

  // ---------------------------------------------------------------------------
  // Racks.

  /** One evaluation of a powered rack part-way through a reboot. */
  lemma RebootStep1(c: Component, now: int)
    requires IsRack(c.kind) && !c.isFaulty && AnyInputPowered(c.ports)
    requires c.lastPowerLostAt == Cleared && c.state == Rebooting && c.rebootProgress.Some?
    ensures var r := Evaluate(c, false, now);
      var p := c.rebootProgress.value + RebootStep;
      && r.rebootProgress == Some(p) && r.lastPowerLostAt == Cleared && r.isAlarmActive == c.isAlarmActive
      && r.ports == c.ports
      && (p < RebootDone ==> r.state == Rebooting)
      && (p >= RebootDone ==> r.state == Normal)
  {
    assert Evaluate(c, false, now) == EvalRack(c, now);
  }

  /** A powered rack that is rebooting gains 0.4 % per evaluation and comes
      back to NORMAL at the evaluation that reaches 100 %. */
  lemma {:induction false} RackReboots(c: Component, n: nat, gridDown: bool, now: int)
    requires IsRack(c.kind) && !c.isFaulty && AnyInputPowered(c.ports)
    requires c.lastPowerLostAt == Cleared && c.state == Rebooting && c.rebootProgress.Some?
    requires n > 0 ==> c.rebootProgress.value + RebootStep * (n - 1) < RebootDone
    ensures var r := Iterate(c, n, gridDown, now);
      var p := c.rebootProgress.value + RebootStep * n;
      && r.rebootProgress == Some(p) && r.lastPowerLostAt == Cleared && r.ports == c.ports
      && r.isAlarmActive == c.isAlarmActive
      && (p < RebootDone ==> r.state == Rebooting)
      && (n > 0 && p >= RebootDone ==> r.state == Normal)
    decreases n
  {
    if n > 0 {
      var m: nat := n - 1;
      ControllerGap(c.rebootProgress.value, m, RebootDone);
      RackReboots(c, m, gridDown, now);
      IterateStep(c, n, m, gridDown, now);
      var prev := Iterate(c, m, gridDown, now);
      RackIgnoresGrid(prev, gridDown, now);
      RebootStep1(prev, now);
    }
  }

  /** A rack's evaluation does not depend on the grid flag. */
  lemma RackIgnoresGrid(c: Component, gridDown: bool, now: int)
    requires IsRack(c.kind)
    ensures Evaluate(c, gridDown, now) == Evaluate(c, false, now)
  {
  }

  /** Power returning after a long outage starts a reboot and raises the alarm. */
  lemma RebootBegins(c: Component, now: int)
    requires IsRack(c.kind) && !c.isFaulty && AnyInputPowered(c.ports) && OutageExceeded(c, now)
    ensures var r := Evaluate(c, false, now);
      && r.rebootProgress == Some(RebootStep) && r.lastPowerLostAt == Cleared && r.isAlarmActive
      && r.state == Rebooting && r.ports == c.ports && r.kind == c.kind && !r.isFaulty
  {
    assert Evaluate(c, false, now) == EvalRack(c, now);
  }

  /** After power returns from a long outage, the rack is REBOOTING for the
      first 249 evaluations and NORMAL at the 250th, with the alarm raised throughout. */
  lemma RackRecovers(c: Component, n: nat, gridDown: bool, now: int)
    requires IsRack(c.kind) && !c.isFaulty && AnyInputPowered(c.ports) && OutageExceeded(c, now)
    requires 1 <= n <= RebootDone / RebootStep
    ensures Iterate(c, n, gridDown, now).isAlarmActive
    ensures Iterate(c, n, gridDown, now).state == (if n < RebootDone / RebootStep then Rebooting else Normal)
  {
    var m: nat := n - 1;
    RackIgnoresGrid(c, gridDown, now);
    RebootBegins(c, now);
    var first := Evaluate(c, gridDown, now);
    IterateShift(c, m, gridDown, now);
    RackReboots(first, m, gridDown, now);
  }

  /** Power returning after an outage longer than 20 ms raises the alarm and
      costs the rack 250 evaluations (5 s) of REBOOTING before it is NORMAL again. */
  lemma RackRebootTakesFiveSeconds(c: Component, gridDown: bool, now: int)
    requires IsRack(c.kind) && !c.isFaulty && AnyInputPowered(c.ports) && OutageExceeded(c, now)
    ensures Iterate(c, 1, gridDown, now).isAlarmActive
    ensures Iterate(c, 249, gridDown, now).state == Rebooting
    ensures Iterate(c, 250, gridDown, now).state == Normal
  {
    RackRecovers(c, 1, gridDown, now);
    RackRecovers(c, 249, gridDown, now);
    RackRecovers(c, 250, gridDown, now);
  }

  /** `n + 1` evaluations are one evaluation followed by `n` more. */
  lemma {:induction false} IterateShift(c: Component, n: nat, gridDown: bool, now: int)
    ensures Iterate(c, n + 1, gridDown, now) == Iterate(Evaluate(c, gridDown, now), n, gridDown, now)
    decreases n
  {
    IterateStep(c, 1, 0, gridDown, now);
    if n > 0 {
      var m: nat := n - 1;
      IterateShift(c, m, gridDown, now);
      IterateStep(c, n + 1, n, gridDown, now);
      IterateStep(Evaluate(c, gridDown, now), n, m, gridDown, now);
    }
  }

  /** A rack whose outage stamp is absent (rather than null) never records a
      new one while unpowered, so when power returns it does not reboot. */
  lemma {:induction false} UnsetStampNeverReboots(c: Component, n: nat, gridDown: bool, now: int)
    requires IsRack(c.kind) && !c.isFaulty && !AnyInputPowered(c.ports)
    requires c.lastPowerLostAt == Unset
    ensures Iterate(c, n, gridDown, now).lastPowerLostAt == Unset
    ensures !OutageExceeded(Iterate(c, n, gridDown, now), now)
    decreases n
  {
    if n > 0 {
      var m: nat := n - 1;
      UnsetStampNeverReboots(c, m, gridDown, now);
      IterateStep(c, n, m, gridDown, now);
      var prev := Iterate(c, m, gridDown, now);
      InputsKeptLookups(c.ports, prev.ports, "in-1");
      assert Evaluate(prev, gridDown, now) == EvalRack(prev, now);
    }
  }
}
