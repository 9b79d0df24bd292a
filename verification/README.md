# Data-centre power-flow simulator, modelled in Dafny

The simulator is a browser editor. On a canvas you place power equipment:
- a transformer substation (the grid feed);
- a diesel generator and its controller;
- AVR, ATS and STS transfer switches;
- a UPS;
- single- and dual-PSU server racks.

You wire OUTPUT ports to INPUT ports. Every 20 ms a tick propagates power through the wiring. Each tick:
1. unpowers every port;
2. evaluates the grid feeds;
3. makes five relaxation passes over the connection list in order.

A pass handles each connection in turn:
- A damaged connection is marked inactive.
- A connection with an end that names no component or no port is skipped.
- Otherwise the connection is marked active exactly when its source port is powered, a powered source powers the target port, and the target component is re-evaluated by `updateComponentInternalFlow`.

The tick then sums the load of the racks that are up. The status bar shows:
- how many racks are up out of how many;
- a site-health percentage, coloured green, amber or red.

The model is a set of pure functions over immutable data:
- `Types` holds the data model.
- `Archetypes` holds the default component of each kind and how the editor instantiates one.
- `Flow` holds one evaluation of one component.
- `Engine` holds the tick.
- `Topology` holds the editing actions.
- `Canvas` holds the click-to-wire rule, the damage/repair/delete menu and the status badges.
- `Metrics` holds the status bar.
- `Behaviour` covers how each kind behaves over many evaluations.
- `TickFacts` covers what a tick guarantees about the whole network.
- `Scenario` covers one complete wired example followed through many ticks.
- `Supply` covers power reaching a rack through a transfer switch in a tick.

Scaled integers replace the source's fractional percentages:
- A battery level or a reboot progress of 10000 is 100 %.
- A UPS charges by 20 per evaluation and drains by 4.
- A reboot advances by 40 per evaluation.

The relaxation passes are defined over any relay step that satisfies `Engine.RelaySound`: it only evolves the network and touches only the component its connection targets. The tick instantiates the passes with the concrete step `Engine.Relay`, and `Engine.RelayOfSound` shows that this step qualifies.

Two worked examples are proved about the whole tick:
- `Supply`: a grid feed wired through a static transfer switch into a single-PSU rack. With the grid on, every tick powers the switch's `in-1`, commits the switch to it, powers the rack, leaves the rack NORMAL and counts its load. A freshly placed chain of the editor's default components draws 5 after its first tick.
- `Scenario`: one cable from a grid feed into a generator controller, with the grid down. A pass re-evaluates the target of every non-damaged connection whose two ends resolve; a connection with a dangling end is skipped (App.tsx:282-288). So the controller is re-evaluated once per pass, five times per tick, and its 20 ms timer advances 100 ms per tick. It raises the start signal on the 30th tick (600 ms of simulated time), not after the 3 s its threshold names.

## Model

| member | source | states |
|---|---|---|
| Types.OrDefault | App.tsx:99 | `x \|\| d`: a missing or zero number gives the default, any other number gives itself |
| Seqs.IndexOf | App.tsx:282-283 | `find` returns the first position holding the value, and nothing exactly when the value is absent |
| Seqs.LastIndexOf | App.tsx:80 | a Map built from a list keeps the last entry per key: the last position holding the value, and nothing exactly when it is absent |
| Seqs.Filter | App.tsx:337-338 | `filter` keeps exactly the elements that pass, in their original order, each as many times as it occurs in the input |
| Seqs.FilterAppend | App.tsx:337-338 | filtering distributes over concatenation |
| Seqs.FilterKeepsAll | App.tsx:337-338 | a list whose every element passes the filter is returned unchanged |
| Seqs.FilterIdempotent | App.tsx:346 | filtering twice by the same test is filtering once |
| Seqs.FilterIgnoresDropped | App.tsx:346 | rewriting only elements that the filter drops does not change what it returns |
| Archetypes.ArchetypeIdsUnique | constants.ts:4-94 | within every archetype the port ids are pairwise distinct, so an id names one port |
| Archetypes.ArchetypePortLists | constants.ts:4-94 | the port ids of each archetype, in order, and which ports are inputs and which outputs |
| Archetypes.ArchetypePorts | constants.ts:4-94 | every archetype has ports, all unpowered: racks only inputs, the grid feed only outputs, every other kind its inputs first and an output last |
| Archetypes.ArchetypeOf | constants.ts:4-94 | every archetype's ports start unpowered, racks have only inputs and the grid feed only outputs. Only the grid feed leaves its state unset; exactly the generator and the three switches have a transfer delay, exactly the racks a load, exactly the UPS a battery |
| Archetypes.FreshPorts | App.tsx:326 | the new ports have the archetype's ids, directions and labels, position for position, and every one is unpowered |
| Archetypes.NewComponent | App.tsx:312-332 | a new component has the archetype's ports, all unpowered. It has the archetype's start delay, switch delays, battery, load and timer. A missing state becomes OFF and a missing `isOn` becomes true. It gets a null outage stamp, no alarm and full reboot progress |
| Flow.FindInput | App.tsx:80 | the INPUT port with that id that the input map keeps, which is the last one in the list, or none exactly when there is no INPUT port with that id |
| Flow.FirstOutput | App.tsx:81 | the first OUTPUT port: every port before it is an input, and none means there are no outputs |
| Flow.DriveOutput | App.tsx:85-90 | setting the first output's power leaves every input and every port shape alone, and the output reads as set |
| Flow.AllOutputsOff | App.tsx:74-78 | a faulty component has every output dead and its inputs untouched |
| Flow.EvalFeed | App.tsx:84-94 | a grid feed is OFF with a dead output exactly when the grid is down, and NORMAL with a live output otherwise |
| Flow.EvalController | App.tsx:95-112 | with the monitored feed lost the timer grows by 20 ms. It shows RUNNING and raises the trigger from 3 s on, and WARNING before that. With the feed present the timer is reset, the trigger dropped and the state is NORMAL |
| Flow.Latch | App.tsx:118-129 | with the start signal held, an off generator counts 20 ms and latches on exactly once the count reaches the start delay, and an on one is left alone. Losing the signal turns it off and zeroes the count. It only ever switches on after reaching the delay |
| Flow.EvalGenerator | App.tsx:113-147 | the start signal makes the countdown grow until it reaches the delay and latches the generator on. Losing the signal clears both. The output is live exactly when bypass is powered or the generator is on. The state follows bypass, then running, then starting, then off |
| Flow.SelectInput | App.tsx:156-180 | the switch prefers `in-1`, then `in-2`. It moves to the preferred input only once the switching timer reaches the delay, and forgets the selection when neither input is powered |
| Flow.EvalSwitch | App.tsx:148-192 | the output is live exactly when the selected input is powered and no transfer is pending. NORMAL means that is `in-1`, WARNING another input, OFF neither |
| Flow.EvalUps | App.tsx:193-211 | when fed, the UPS charges to at most full and carries the load. Otherwise it drains to at least empty and carries the load exactly while charge remains (WARNING), going OFF when empty. A level that starts within 0..100 % stays there |
| Flow.EvalRack | App.tsx:212-245 | an unpowered rack is FAULT and stamps the start of the outage once. A powered rack clears the stamp. A return after more than 20 ms raises the alarm and starts a reboot. A reboot advances until it reaches 100 % and then the rack is NORMAL |
| Flow.Evaluate | App.tsx:73-256 | a fault overrides everything. No evaluation changes the id, kind, label, parameters, port shapes or any input port, and a rack never changes its own ports |
| Flow.UpsKeepsStateOk | App.tsx:193-211 | a UPS battery level stays within 0..100 % |
| Flow.GeneratorKeepsStateOk | App.tsx:113-147 | a generator is only ever on after its countdown has reached the start delay |
| Flow.SwitchKeepsStateOk | App.tsx:148-192 | a switch only ever selects `in-1`, `in-2` or nothing |
| Flow.RackKeepsStateOk | App.tsx:212-245 | reboot progress stays within 0..100 % in whole 0.4 % steps, and a rebooting rack is below 100 % |
| Flow.EvaluateKeepsStateOk | App.tsx:73-256 | one evaluation of any kind preserves the state invariant |
| Flow.EvaluateKeepsWellFormed | App.tsx:73-256 | one evaluation preserves the archetype's port shapes together with the state invariant |
| Engine.FindComp | App.tsx:282-283 | the first component with the id, or none exactly when no component has it |
| Engine.FindPort | App.tsx:286-287 | the first port with the id, whatever its direction, or none exactly when no port has it |
| Engine.ResetPorts | App.tsx:263-266 | the copy at the start of a tick has every port unpowered and otherwise equals the component |
| Engine.SeedOne | App.tsx:269-273 | after seeding no input is powered. Components other than grid feeds are only reset, and the state invariant is kept |
| Engine.Seed | App.tsx:263-273 | seeding treats each component on its own and keeps the list's length |
| Engine.PowerPort | App.tsx:290-291 | the target port ends powered; every other port and every other field of the component is unchanged |
| Engine.EvaluateSound | App.tsx:297 | re-evaluating a component never touches an input port and only evolves the component |
| Engine.Feed | App.tsx:290-297 | with an evaluation that never touches inputs, the target only evolves, and a target INPUT port ends powered exactly when it already was or the source is live |
| Engine.Relay | App.tsx:277-298 | one connection's step keeps the numbers of components and connections, and a non-damaged connection with an end that does not resolve changes nothing |
| Engine.RelayConducts | App.tsx:282-297 | a non-damaged connection whose ends resolve is marked active exactly when its source port is powered. Its target is fed and re-evaluated, and a target INPUT port ends powered exactly when it already was or the source is powered |
| Engine.RelayFrame | App.tsx:277-298 | one connection's step changes no other connection. A damaged one changes no component and ends inactive. No component but the one it targets changes |
| Engine.RelayEvolves | App.tsx:277-298 | one connection's step keeps every id, kind, fault flag, parameter, port shape, powered input and invariant, and every connection's endpoints and damage flag |
| Engine.RelayOfSound | App.tsx:277-298 | the engine's connection step satisfies what relaxation needs of a step |
| Engine.Sweep | App.tsx:277-298 | over a sound relay step a whole pass over the connections only evolves the network |
| Engine.SweepDeactivates | App.tsx:277-281 | a pass leaves earlier connections alone, and every damaged connection it reaches ends inactive |
| Engine.Relax | App.tsx:276-299 | over a sound relay step the passes only evolve the network |
| Engine.RelaxDeactivates | App.tsx:276-281 | after at least one pass every damaged connection is inactive |
| Engine.TotalLoad | App.tsx:301-303 | with no rack up the total is zero, and with non-negative loads it is non-negative |
| Engine.RackLoad | App.tsx:301-303 | a NORMAL rack contributes `load \|\| 0`; any other component, or a rack in any other state, contributes nothing |
| Engine.SeedThenRelax | App.tsx:263-299 | seeding then relaxing keeps each component's kind, fault flag, port shapes and well-formedness |
| Engine.Tick | App.tsx:258-307 | a tick keeps the grid flag, the component ids in order, their kinds, fault flags, port shapes and well-formedness. It changes no connection except its active flag, leaves every damaged connection inactive, and stores the load of the racks that are up |
| TickFacts.UntargetedStable | App.tsx:277-298 | whether a component is the target of a non-damaged connection does not change during relaxation |
| TickFacts.FedStable | App.tsx:277-298 | a powered input's feeding connection is still there after relaxation |
| TickFacts.FedBack | App.tsx:277-298 | a feeding connection after relaxation was already a feeding connection before it |
| TickFacts.FedSeeded | App.tsx:263-273 | a feeding connection of the seeded network is a feeding connection of the original one |
| TickFacts.SweepSpares | App.tsx:277-298 | a pass leaves a component that no non-damaged connection targets untouched |
| TickFacts.RelaxSpares | App.tsx:276-299 | the five passes leave a component that no non-damaged connection targets untouched |
| TickFacts.TickSparesUntargeted | App.tsx:258-307 | a component no non-damaged connection targets is only reset by a tick, and a grid feed is evaluated once |
| TickFacts.TickFeedFollowsGrid | App.tsx:258-307 | an unfed grid feed ends the tick OFF with a dead output exactly when the grid is down |
| TickFacts.RelayKeepsInputsFed | App.tsx:290-297 | after one connection's step every powered input still has a non-damaged connection resolving to it |
| TickFacts.RelayOfKeepsFed | App.tsx:277-298 | the engine's step never powers an input that has no connection to it |
| TickFacts.SweepKeepsInputsFed | App.tsx:277-298 | a pass never powers an input that has no connection to it |
| TickFacts.RelaxKeepsInputsFed | App.tsx:276-299 | the five passes never power an input that has no connection to it |
| TickFacts.TickUnfold | App.tsx:258-307 | a tick's components are the seeded components relaxed five times over the old connection list |
| TickFacts.SeedInputsFed | App.tsx:263-273 | after seeding no input is powered, so every powered input trivially has a feeder |
| TickFacts.TickPoweredInputIsFed | App.tsx:258-307 | after a tick every powered input is the target of some non-damaged connection |
| TickFacts.TickDamageIsolates | App.tsx:258-307 | an input whose every incoming connection is damaged ends the tick unpowered |
| Behaviour.Iterate | App.tsx:73-256 | repeated evaluation keeps the id, kind, fault flag, delay, port shapes and every input |
| Behaviour.InputsKeptTrans | App.tsx:73-256 | keeping the inputs across two evaluations keeps them across both |
| Behaviour.InputsKeptLookups | App.tsx:80-81 | every input and output lookup gives the same answer after an evaluation |
| Behaviour.IterateStep | App.tsx:73-256 | `n` evaluations end with one evaluation of the result of `n - 1` |
| Behaviour.ControllerCounts | App.tsx:95-112 | with the feed lost, after `n` evaluations the timer has gained `20 n` ms. The state is RUNNING exactly from 3 s on, and WARNING before |
| Behaviour.ControllerTakesThreeSeconds | App.tsx:95-112 | a new controller that never sees mains shows WARNING after 149 evaluations and RUNNING after 150 |
| Behaviour.GeneratorCounts | App.tsx:118-129 | with the start signal held, the countdown gains 20 ms per evaluation, and the generator is on exactly once it reaches the start delay |
| Behaviour.GeneratorStaysOn | App.tsx:118-145 | once on, a generator with its start signal held stays on and keeps its output live |
| Behaviour.GeneratorTakesThirtySeconds | constants.ts:12-23 | at the default 30 s delay the generator is off after 1499 evaluations and on after 1500 |
| Behaviour.SwitchWaitStep | App.tsx:167-190 | one evaluation of a switch on a dead `in-1` with a live `in-2` either keeps waiting with the output dead or commits to `in-2` with WARNING |
| Behaviour.SwitchTransfers | App.tsx:167-190 | the switch waits out its transfer delay with the output dead, then commits to `in-2` and powers the load with WARNING |
| Behaviour.AtsTakesFiveSeconds | constants.ts:63-72 | an ATS at its 5 s default is still OFF after 249 evaluations and on `in-2` after 250 |
| Behaviour.UpsDrains | App.tsx:200-209 | an unfed UPS loses 0.04 % per evaluation down to exactly 0, and carries its load exactly while charge remains |
| Behaviour.FullUpsLastsFiftySeconds | App.tsx:200-209 | a full UPS carries its load for 2499 evaluations and is empty and dark at the 2500th |
| Behaviour.RebootStep1 | App.tsx:229-233 | one powered evaluation of a rebooting rack adds 0.4 % and ends the reboot at 100 % |
| Behaviour.RackReboots | App.tsx:229-233 | a powered rebooting rack gains 0.4 % per evaluation, stays REBOOTING below 100 % and is NORMAL at 100 % |
| Behaviour.RackIgnoresGrid | App.tsx:212-245 | a rack's evaluation does not depend on the grid flag |
| Behaviour.RebootBegins | App.tsx:217-236 | power returning after more than 20 ms raises the alarm and starts a reboot at its first step |
| Behaviour.RackRecovers | App.tsx:217-236 | after a long outage the rack is REBOOTING for 249 evaluations and NORMAL at the 250th, with the alarm raised throughout |
| Behaviour.RackRebootTakesFiveSeconds | App.tsx:217-236 | after an outage of more than 20 ms the rack is alarmed, still rebooting after 249 evaluations and NORMAL after 250 |
| Behaviour.IterateShift | App.tsx:73-256 | `n + 1` evaluations are one evaluation followed by `n` |
| Behaviour.UnsetStampNeverReboots | App.tsx:237-243 | a rack whose outage stamp is absent rather than null never records an outage, so it never reboots |
| Scenario.WatchedLookups | App.tsx:282-288 | in the feed-to-controller example every lookup resolves to the one cable's two ports |
| Scenario.RelayRoutes | App.tsx:277-298 | relaying the dead cable only re-evaluates the controller and marks the cable inactive |
| Scenario.DarkControllerCounts | App.tsx:95-105 | a controller with a dead monitor counts one more 20 ms step and shows WARNING or RUNNING by the 3 s threshold |
| Scenario.RelayCounts | App.tsx:277-298 | one relay step of the example adds one step to the controller's timer |
| Scenario.CountedTrans | App.tsx:276-299 | one pass followed by `p` more adds up to `p + 1` passes |
| Scenario.SweepCounts | App.tsx:277-298 | one pass over the example is one evaluation of the controller |
| Scenario.RelaxCounts | App.tsx:276-299 | each of the passes evaluates the controller once more |
| Scenario.SeedIsDark | App.tsx:263-273 | with the grid down, seeding leaves the feed and the monitor dead and the timer unchanged |
| Scenario.TickCounts | App.tsx:258-307 | one tick with the grid down adds 100 ms to the controller's timer and leaves it showing the state that count calls for |
| Scenario.TickedTrans | App.tsx:258-307 | one tick followed by `k - 1` more adds up to `k` ticks |
| Scenario.RunKeeps | App.tsx:258-307 | a step that keeps the grid flag and the number of components keeps them over any number of steps |
| Scenario.RunCounts | App.tsx:258-307 | a step that counts 100 ms from every watched state counts `100 k` ms over `k` steps, the clock advancing 20 ms per step |
| Scenario.Ticks | App.tsx:258-307 | repeated ticks, the clock advancing 20 ms per tick as the interval timer fires, keep the grid flag and the number of components |
| Scenario.TicksCount | App.tsx:258-307 | after `k` ticks the controller has counted `100 k` ms |
| Scenario.ControllerTrips | App.tsx:258-307 | starting from zero, the controller shows WARNING for the first 29 ticks and RUNNING from the 30th |
| Scenario.ControllerTripsOnThirtiethTick | App.tsx:95-112 | the 3 s controller threshold is crossed on the 30th tick, not the 150th |
| Supply.ArchetypesFit | constants.ts:4-94 | the editor's grid feed, switches and single-PSU rack have the port lists the example needs |
| Supply.PortsOkByShape | App.tsx:263-266 | those port lists depend only on port ids and directions, which resetting and evaluation keep |
| Supply.ChainLookups | App.tsx:282-288 | in the feed-switch-rack example every lookup resolves each connection end to its component and port |
| Supply.SwitchLookups | App.tsx:80-81 | on a switch's ports `in-1` is the first port and the first output is `out-1` |
| Supply.SwitchCarries | App.tsx:148-192 | a healthy switch powered on `in-1` that is on it or commits at once ends on `in-1`, with no transfer pending, its output live and NORMAL |
| Supply.RackCarries | App.tsx:212-245 | a healthy rack with no outage on record and not rebooting, once powered, is NORMAL and stays without an outage stamp |
| Supply.RelayIntoSwitch | App.tsx:282-297 | relaying the feed-to-switch connection from a lit feed marks it active and brings the switch up, changing nothing else |
| Supply.RelayIntoRack | App.tsx:282-297 | relaying the switch-to-rack connection from a live switch marks it active and brings the rack up |
| Supply.SweepSupplies | App.tsx:277-298 | one pass in list order carries the power from the feed through the switch into the rack |
| Supply.RelaxSupplies | App.tsx:276-299 | any positive number of passes ends with the power at the rack |
| Supply.SeedReady | App.tsx:263-273 | with the grid on, seeding lights the feed's output and keeps the rest of the chain ready |
| Supply.TotalLoadOfThree | App.tsx:301-303 | the total load of three components is the sum of their three contributions |
| Supply.TickIsRelax | App.tsx:258-307 | a tick stores the relaxed components and connections and their load total, with the grid flag unchanged |
| Supply.RelaxKeepsLoad | App.tsx:276-299 | relaxation keeps every component's load |
| Supply.UpIsSupplied | App.tsx:301-306 | once power has reached the rack the stored state counts the rack's load and is ready for the next tick |
| Supply.TickSupplies | App.tsx:258-307 | with the grid on, a tick leaves both connections active, the switch NORMAL on `in-1`, the rack NORMAL, the total load equal to the rack's `load \|\| 0`, and the chain ready for the next tick |
| Supply.FreshChainDrawsFive | App.tsx:258-307 | the first tick of a freshly placed and wired chain of default components brings the rack up and counts a load of 5 |
| Topology.InCompIds | App.tsx:337-338 | an id is among the component ids exactly when some component has it |
| Topology.AddComponent | App.tsx:312-332 | the component `NewComponent` builds for the kind, id and label is appended, and nothing else changes |
| Topology.NewComponentWellFormed | App.tsx:312-332 | every freshly added component is well-formed |
| Topology.AddComponentKeepsWellFormed | App.tsx:312-332 | adding a component keeps every component well-formed |
| Topology.RemoveComponent | App.tsx:334-341 | removal keeps exactly the other components and the connections that do not touch the id, in order and with their multiplicities, so no connection mentions it |
| Topology.RemoveComponentKeepsResolved | App.tsx:334-341 | removing a component never leaves a dangling connection |
| Topology.AddThenRemoveComponent | App.tsx:312-341 | removing a just-added, unwired component restores the state |
| Topology.AddConnection | App.tsx:351-365 | a new inactive, undamaged connection is appended, and nothing else changes |
| Topology.RemoveConnection | App.tsx:343-349 | removal keeps exactly the connections with another id, in order and with their multiplicities |
| Topology.RemoveConnectionIdempotent | App.tsx:343-349 | removing a connection twice is removing it once |
| Topology.RemoveConnectionKeepsResolved | App.tsx:343-349 | removing a connection keeps every remaining connection resolved |
| Topology.AddThenRemoveConnection | App.tsx:343-365 | removing a just-added connection under a fresh id restores the state |
| Canvas.PortClick | components/Canvas.tsx:110-123 | the first click only records its port. The second always clears it, and makes a link exactly when the two ports differ in direction and belong to different components |
| Canvas.TwoClicksSymmetric | components/Canvas.tsx:110-123 | the order of the two clicks does not matter |
| Canvas.TwoClicksOrient | components/Canvas.tsx:115-119 | in either order the link runs from the OUTPUT port clicked to the INPUT port clicked |
| Canvas.TwoClicksRefuse | components/Canvas.tsx:115 | two clicks make a link exactly when the ports differ in direction and in component |
| Canvas.ThirdClickStartsOver | components/Canvas.tsx:121 | after any second click the next click starts a new pair |
| Canvas.FeedNeverTargeted | components/Canvas.tsx:115-119 | a link involving a grid-feed port always starts at the feed |
| Canvas.LinkTargetResolves | components/Canvas.tsx:115-119 | the target end of a drawn link resolves in the tick to the INPUT port that was clicked |
| Canvas.FindConn | components/Canvas.tsx:354 | the first connection with the id, or none exactly when no connection has it |
| Canvas.ToggleDamage | components/Canvas.tsx:353-362 | every connection with the id has its damage flag flipped, and every other connection is unchanged |
| Canvas.ToggleDamageInvolution | components/Canvas.tsx:353-362 | damaging then repairing restores the connection list |
| Canvas.ToggleDamageKeepsWiring | components/Canvas.tsx:353-362 | toggling damage changes nothing but damage flags |
| Canvas.DeleteIgnoresDamage | components/Canvas.tsx:367-375 | deleting a connection gives the same list whether or not it was toggled first |
| Canvas.ToggleFlipsMenu | components/Canvas.tsx:365 | after a toggle the menu offers the opposite action |
| Canvas.MenuLabel | components/Canvas.tsx:365 | the menu offers Repair exactly when the first connection with the id exists and is damaged, and Damage otherwise |
| Canvas.StatusBadge | components/Canvas.tsx:245-252 | a switch shows MAIN exactly on `in-1` and RESERVE exactly on `in-2`. A generator shows BYPASS exactly when its first `in-bypass` port is powered, otherwise GENERATOR exactly when it is on, otherwise nothing. Other kinds show nothing |
| Canvas.GeneratorPortsResolve | components/Canvas.tsx:249 | on a generator's ports the badge's `find` and the input map both resolve `in-bypass` to the same port |
| Canvas.GeneratorBadgeMatchesState | components/Canvas.tsx:248-252 | after an evaluation a generator shows BYPASS exactly when NORMAL, GENERATOR exactly when RUNNING, and nothing exactly when STARTING or OFF |
| Canvas.FaultKeepsGeneratorBadge | components/Canvas.tsx:248-252 | a fault evaluation of a generator kills its output but leaves its badge as it was, since the badge reads the bypass input and `isOn` |
| Canvas.SwitchBadgeMatchesState | components/Canvas.tsx:245-247 | after an evaluation a NORMAL switch shows MAIN, a WARNING one shows RESERVE, and no badge means OFF |
| Metrics.FilterWeaker | components/MetricsPanel.tsx:12-19 | a stricter filter keeps no more elements |
| Metrics.ActiveRacks | components/MetricsPanel.tsx:12-15 | the racks-up count is at most the number of components, and zero exactly when no rack is NORMAL |
| Metrics.TotalRacks | components/MetricsPanel.tsx:17-19 | the rack count is at most the number of components, and zero exactly when there is no rack |
| Metrics.RackCounts | components/MetricsPanel.tsx:12-19 | racks up ≤ racks ≤ components |
| Metrics.HealthScore | components/MetricsPanel.tsx:21 | no racks gives 100. Otherwise it is `100 * active / total` rounded half up, within 0..100: 100 when all are up and 0 when none are |
| Metrics.RoundsUnique | components/MetricsPanel.tsx:21 | the rounding has exactly one answer |
| Metrics.SiteHealth | components/MetricsPanel.tsx:12-21 | the displayed health is the rounded share of racks that are NORMAL, and 100 with no racks |
| Metrics.HealthMonotone | components/MetricsPanel.tsx:21 | more racks up never lowers the score |
| Metrics.BandOf | components/MetricsPanel.tsx:51 | green exactly above 90, amber exactly from 51 to 90, red exactly at 50 or below |
| Metrics.GreenThreshold | components/MetricsPanel.tsx:21-51 | the figure is green exactly when there are no racks or at least 90.5 % are up |
| Metrics.RedThreshold | components/MetricsPanel.tsx:21-51 | the figure is red exactly when there are racks and fewer than 50.5 % are up |
| Metrics.ActiveRacksCons | components/MetricsPanel.tsx:12-15 | counting racks up splits off the first component |
| Metrics.TotalLoadUniform | App.tsx:301-303 | when every rack draws the same load, the tick's total is that load times the number of racks up that the status bar counts |
| Metrics.TotalLoadStep | App.tsx:301-303 | one more component adds the uniform rack load to the total exactly when it adds a rack that is up to the count |

## Left out

- Rendering, canvas coordinates, dragging, zoom, selection, hover, the language switch and translated labels are not modelled. Components carry no position, and the new component's display label is a parameter.
- Wall-clock ids (`comp-${Date.now()}`, `conn-${Date.now()}`) are parameters of `Topology.AddComponent` and `Topology.AddConnection`.
- The source reads `Date.now()` separately in every rack evaluation. The model uses one clock value `now` per tick.
- `setInterval`, React's state updates and the timer's start and stop are not modelled. A tick is a function from one state to the next.
- The source mutates the previous state's connection objects in place. The model returns new connections with the same effect.
- The `default` branch of `updateComponentInternalFlow` (App.tsx:246-254) is not modelled. Every kind has its own branch, so it cannot be reached.
- `isGenRunning` and `language` on the simulation state are not read by the modelled code and are not modelled.
- JSON export and import, the side bar and the control panel are not modelled. `ControlPanel.tsx` and `Sidebar.tsx` are not part of this model.
- The tick's relaxation is stated over any relay step satisfying `Engine.RelaySound`. The tick uses it only with `Engine.Relay`.
- Engine.RelayConducts: states the target port's final flag only for an INPUT target. For a connection drawn into an OUTPUT port, which the canvas never creates, the re-evaluation may overwrite the flag the relay set.
- `activeInputId` that is `undefined` or `null` is one value, `None`: the code never tells them apart. An `isDamaged` or `isAlarmActive` that is `undefined` is `false`. `lastPowerLostAt` keeps all three values (absent, null, a time), because the code treats absent and null differently.
- An absent `lastPowerLostAt` behaves like null only when power returns. An unpowered rack records an outage only over null, so an absent stamp is never recorded. `Behaviour.UnsetStampNeverReboots` states this. The model follows the code here.
- Behaviour.FullUpsLastsFiftySeconds: counts in exact hundredths of a percent. The source's binary floating point accumulates 0.04 and 0.2 steps with rounding error, so the real count can differ by one evaluation.
- Behaviour.RackRebootTakesFiveSeconds: counts in exact 0.4 % steps. The source's floating-point sum of 0.4 steps may reach 100 one evaluation later.
- Metrics.HealthScore: rounds the exact ratio. The source computes `activeRacks / totalRacks * 100` in floating point before `Math.round`, which can differ at an exact half.
