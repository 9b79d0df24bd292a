/** Data model of the power-distribution simulator: ports, components,
    connections and the whole simulation state (types.ts). Optional fields
    of the source (`field?: number`) are `Option`s; floating-point
    percentages are scaled integers (see Flow). */
module Types {

  datatype Option<+T> = None | Some(value: T)

  /** JavaScript `x || d` on an optional number: `undefined` and `0` are
      falsy, so both give the default. */
  function OrDefault(x: Option<int>, d: int): (r: int)
    ensures x.Some? && x.value != 0 ==> r == x.value
    ensures x.None? || x.value == 0 ==> r == d
  {
    match x
    case Some(v) => if v != 0 then v else d
    case None => d
  }

  /** The closed set of component kinds (`ComponentType`). */
  datatype Kind =
    | TP          // transformer substation: the grid feed
    | DGU         // diesel generator
    | DguAvr      // generator controller that watches a feed
    | AVR | STS | ATS
    | UPS
    | RackSingle | RackDual

  predicate IsSwitch(k: Kind) { k == AVR || k == ATS || k == STS }

  predicate IsRack(k: Kind) { k == RackSingle || k == RackDual }

  datatype Direction = Input | Output

  datatype Port = Port(id: string, dir: Direction, name: string, isPowered: bool)

  datatype State = Normal | Warning | Fault | Off | Starting | Running | Rebooting

  /** `lastPowerLostAt?: number | null`: absent, explicitly null, or a timestamp in ms. */
  datatype LostAt = Unset | Cleared | At(ms: int)

  /** `ComponentInstance` without its canvas coordinates (`label` is a Dafny keyword, so the
      display label is `name` here and in `Port`). Battery level and
      reboot progress are in hundredths of a percent; timers and delays are in ms. */
  datatype Component = Component(
    id: string,
    kind: Kind,
    name: string,
    isFaulty: bool,
    isOn: bool,
    capacity: Option<int>,
    load: Option<int>,
    batteryLevel: Option<int>,
    ports: seq<Port>,
    transferDelay: Option<int>,
    internalTimer: Option<int>,
    startCountdown: Option<int>,
    state: State,
    activeInputId: Option<string>,
    switchingTimer: Option<int>,
    lastPowerLostAt: LostAt,
    rebootProgress: Option<int>,
    isAlarmActive: bool)

  /** A directed edge from an OUTPUT port to an INPUT port. */
  datatype Connection = Connection(
    id: string,
    fromId: string,
    fromPortId: string,
    toId: string,
    toPortId: string,
    isActive: bool,
    isDamaged: bool)

  datatype SimState = SimState(
    isGridDown: bool,
    totalLoad: int,
    components: seq<Component>,
    connections: seq<Connection>)
}
