# MachineLib in Dafny

A model of the mechanism simulation in MachineLib. It covers:

- The **machine** calls its components in order and owns the physics world and the contact table.
- The **rotation graph** carries rotation from hamsters through pulleys to conveyors and plain bodies.
- Each **component** has its own rules: the hamster motor's state machine, the pulley's gear
  integration and belt oscillator, the goal's score and scoreboard text, and the conveyor's
  speed transfer to the bodies touching it.
- The **machine system** seeks the machine to an animation frame.
- The **adapter** maps a timeline frame to a machine frame with a start offset.

The C++ classes whose fields change become Dafny classes with those fields, and their methods
keep the source's loops. The arithmetic each component performs lives in pure rule modules,
where the properties the source relies on are proved.

## Layout

| file | module | what it holds |
|---|---|---|
| physics.dfy | Physics | stand-ins for the rigid-body engine: body handles `BodyId(generation, index)`, contact-list entries, the world (a generation, a log of steps, a body counter, velocity tables), a contact |
| numeric.dfy | Numeric | the absolute value of a double, shared by the pulley and hamster rules |
| pulley_rules.dfy | PulleyRules | the gear step and its integration over many inputs (the gear law); the belt rocking oscillator and its band |
| hamster_rules.dfy | HamsterRules | wheel advance with its reset past one turn, and the image-index arithmetic |
| goal_rules.dfy | GoalRules | score evolution under baskets and resets, and the scoreboard text |
| conveyor_rules.dfy | ConveyorRules | the velocity table after walking a conveyor body's contact list |
| seek_rules.dfy | SeekRules | what a seek to a frame does: whether it resets, and how many updates it runs |
| machine_lib.dfy | MachineLib | components, rotation sources and sinks, the contact listener, and the machine |
| machine_system.dfy | MachineSystem | the frame controller `MachineSystemActual` |
| machine_adapter.dfy | CanadianExperience | the frame-offset mapping of `MachineAdapter` |

### How the C++ structure is rendered

- **Inheritance.** Component inheritance becomes a tagged variant
  `Component = HamsterPart | PulleyPart | ConveyorPart | GoalPart | BodyPart`. The C++ base class
  `IRotationSink` becomes `Sink = PulleySink | ConveyorSink | BodySink`.
- **Virtual calls.** A call through a virtual function becomes a `match`:
  - `UpdatePart` is the default no-op `Update` for every component except the hamster.
  - `InstallPart` is `InstallPhysics` followed by `AddContact`, which is a no-op for pulleys and bodies.
  - `DrawPart` draws one component.
- **Back-reference.** The machine back-reference every component inherits is a `ComponentBase`
  object held by each component.
- **Reference identity.** Components are class instances, so they have the reference identity
  that the disabled copy constructors enforce in C++.
- **Effects of a call.** Each call is described by the state it leaves behind:
  - `Holds(k, r, s, w)` is what a `Rotate(r, s)` call leaves in sink `k` itself. For a pulley,
    its own source holds (r, s). For a conveyor, it runs at s and every body touching its belt
    moves at the belt velocity. For a body, it spins at s.
  - `Downstream(Graph(u), k, bound)` is every sink a `Rotate` call on `k` reaches. That is `k`
    itself and, for a pulley, whatever the sinks of its own source reach in turn, at any depth.
  - `Reached(k, gears, r, s, w)` is `Holds` plus, for a pulley, the gear step on r taken from
    its gear state in `gears`. `gears` is the snapshot `Gears(u)` taken before the propagation
    started. An undriven pulley therefore ends with rotation r.
  - `Deliver`, `UpdateSinks`, `Turn`, `Pulley.Rotate` and `Hamster.Update` ensure `Reached` for
    every sink downstream of the sinks they call. `DriveChain` shows this on a hamster, two
    pulleys and a conveyor: the conveyor runs at the speed the hamster sends.
  - `Spread` says that a propagation of the pair (r, s) writes nothing but that pair. Below the
    caller's rank, each source keeps its pair or holds (r, s), and each pulley keeps its gear
    state or has the gear step from `gears`. Each conveyor keeps its speed or runs at s, and
    each velocity entry keeps its value or takes the one s gives.
  - Because of `Spread`, the sinks an `UpdateSinks` loop has already reached are still
    `Reached` after the later ones. `GearsKept` covers a pulley reached twice: the second step
    on the same value adds nothing (`PulleyRules.GearStepTwice`).
  - `Turned` and `Drawn` count how often each hamster was updated and each pulley drawn. The
    count is `Occurrences` of the component in the list, so a component added twice acts twice.
  - `StateOf(c) == Reinstalled(old(StateOf(c)))` is what installing leaves, and
    `ReinstalledKeeps` spells out the fields that stay.

### Modelling preconditions

- **Acyclic drive graph.** Rotation propagation is plain recursion through `Rotate` and
  `UpdateSinks`. The model gives every rotation source a ghost rank. `Wired(u)` demands that a
  pulley sink's own source ranks below the source that drives it. That is the acyclicity the
  layouts have: one driver per pulley, fed from a hamster.
- **Distinct components.** `Machine.Reset` requires the components to be distinct objects. In
  C++ an object added twice would be installed twice.
- **Built machines.** The layout factories are not part of this model. `MachineSystemActual`
  and `MachineAdapter.SetMachineNumber` take the built machine as a parameter. `Built` states
  what a factory must hand over: distinct components in a wired graph, each keeping its own
  invariant. `BuildDriveChain` assembles the drive chain of the second layout through the
  model's own constructors, `Drive`, `AddSink` and `AddComponent`, and proves it `Built`.

### Where the code departs from the documented design

- **Downstream speed.** A driven pulley forwards the rotation and speed it receives unscaled
  (MachineLib/Pulley.cpp:157-158). Conveyors downstream of a gear therefore run at the speed
  the hamster sends, -speed, and not at a gear-scaled one. `DriveChain` states this for two
  pulleys in a row; only the pulley's own rotation is scaled.
- **Frame rate.** `SetFrameRate` does nothing, so the frame rate stays 30
  (MachineLib/MachineSystemActual.cpp:88-91).
- **Replay state.** Replay is not fully deterministic.
  - Installing a hamster keeps its wheel rotation.
  - Installing a pulley keeps its last received value.
  - `SetMachineNumber` keeps the frame counter while resetting the machine.

  The model keeps all three. `Machine.Reset` states the first two through `Reinstalled`. It
  also states that a goal's score is cleared and that a hamster not set to run goes to sleep.
  In `MachineSystemActual`, the ghost field `startFrame` records the frame of the last reset, so
  the invariant says that the world has taken one frame step per frame since then.

## Model

| member | source | states |
|---|---|---|
| Physics.RepeatAppend | MachineLib/MachineSystemActual.cpp:74-77 | n + m updates of a frame's step are n of them followed by m of them, which is how two runs of the stepping loop compose |
| PulleyRules.Telescoping | MachineLib/Pulley.cpp:141-152 | when no received magnitude is smaller than the one before it, the integrated rotation grows by the last value minus the starting previous value, and previous ends at the last value |
| PulleyRules.GearLawFromRest | MachineLib/Pulley.cpp:141-152 | starting from rotation = previous = 0, a run without a wrap ends at the last received value |
| PulleyRules.ScaledAll | MachineLib/Pulley.cpp:141 | each received driver rotation is scaled to rotation * driverRadius / ownRadius, element by element |
| PulleyRules.GearLaw | MachineLib/Pulley.cpp:133-159 | a driven pulley at rest that receives driver rotations of non-decreasing magnitude ends at the last driver rotation times driverRadius / ownRadius |
| PulleyRules.ScaledMonotone | MachineLib/Pulley.cpp:141-143 | scaling by the radius ratio keeps the order of magnitudes, so the wrap test sees the driver's order |
| PulleyRules.ForwardNeverBack | MachineLib/Pulley.cpp:141-152 | with a non-negative previous value, a non-negative scaled input never turns the wheel back, on either side of the wrap test, and previous becomes that input |
| PulleyRules.RockStepInBand | MachineLib/Pulley.cpp:94-111 | one belt's two tests keep the divisor inside (BeltRockMin - BeltRockDecrement, BeltRockMax + BeltRockIncrement) |
| PulleyRules.RockStepsInBand | MachineLib/Pulley.cpp:49-111 | after any number of belts the divisor is still in the band and positive, so the divisions at lines 70-84 are defined |
| PulleyRules.RockStepsAdd | MachineLib/Pulley.cpp:49-111 | a belts and then b more belts advance the oscillator as a + b belts do, so the draws of one pulley compose |
| HamsterRules.Advance | MachineLib/Hamster.cpp:116-124 | a running hamster moves the rotation by -speed * elapsed; a magnitude above one turn becomes 0 rather than being wrapped, and the result is within one turn |
| HamsterRules.SleepingKeepsRotation | MachineLib/Hamster.cpp:116-124 | a sleeping hamster leaves a rotation within one turn unchanged |
| HamsterRules.AdvanceTimes | MachineLib/Hamster.cpp:116-124 | n updates of the wheel: none leaves the rotation, one is one Advance, and after any positive number the rotation is within one turn |
| HamsterRules.SleepingStays | MachineLib/Hamster.cpp:116-124 | any number of updates of a sleeping hamster leave a rotation within one turn unchanged |
| HamsterRules.FoldIndex | MachineLib/Hamster.cpp:136-152 | a raw index from 1 to 17 folds to an image from 1 to 3; from 1 to 16 it follows the cycle 1, 2, 3, 2 |
| HamsterRules.RawIndex | MachineLib/Hamster.cpp:132 | the raw index is the integer part of abs(rotation) * 16 + 1, between 1 and 17 within one turn |
| HamsterRules.ImageIndex | MachineLib/Hamster.cpp:132-152 | the image after an update is 1, 2 or 3, a valid index into the four images (line 79) |
| HamsterRules.ImageCycle | MachineLib/Hamster.cpp:132-152 | inside one turn the image steps through 1, 2, 3, 2 every sixteenth of a turn |
| HamsterRules.FullTurnImage | MachineLib/Hamster.cpp:132-152 | a full turn either way shows image 2 |
| GoalRules.NatToString | MachineLib/Goal.cpp:94 | stream insertion of a non-negative score gives decimal digits without a leading zero, two or more exactly from ten up |
| GoalRules.ParsePrinted | MachineLib/Goal.cpp:94 | reading the printed digits back gives the number |
| GoalRules.ParseLeadingZero | MachineLib/Goal.cpp:90-93 | the extra leading "0" does not change the value shown |
| GoalRules.ScoreText | MachineLib/Goal.cpp:89-94 | the scoreboard text of a non-negative score is digits reading back as the score; below 100 it has two characters; from ten up it is the plain decimal |
| GoalRules.Baskets | MachineLib/Goal.cpp:143-146 | the number of baskets is at most the number of events |
| GoalRules.SinceReset | MachineLib/Goal.cpp:116-123 | the position after the last reset: every later event is a basket |
| GoalRules.BasketsAppend | MachineLib/Goal.cpp:143-146 | one more basket adds one to the count, any other event adds nothing |
| GoalRules.ScoreCountsBaskets | MachineLib/Goal.cpp:116-146 | the score is two points for every basket since the last reset |
| GoalRules.ScoreEven | MachineLib/Goal.h:33 | every score a goal reaches is even and non-negative |
| ConveyorRules.Transport | MachineLib/Conveyor.cpp:89-98 | every body on the other side of a touching contact gets velocity (-speed, 0); every other body keeps its velocity; no other body gains one |
| ConveyorRules.TransportIdempotent | MachineLib/Conveyor.cpp:84-98 | rotating a conveyor twice at the same speed leaves the same velocities as once |
| ConveyorRules.NothingTouchingNoEffect | MachineLib/Conveyor.cpp:92-95 | with no touching contact no velocity changes |
| SeekRules.SeekPlan | MachineLib/MachineSystemActual.cpp:66-77 | a seek resets exactly when the frame is before the current one; it then runs frame - current updates forward, frame updates after a reset, and none for a negative frame |
| SeekRules.FrameAfter | MachineLib/MachineSystemActual.cpp:66-77 | after a seek the frame counter is the frame, or 0 for a negative frame |
| SeekRules.SeekSameFrame | MachineLib/MachineSystemActual.cpp:66-77 | seeking to the current frame neither resets nor updates |
| SeekRules.SeekIdempotent | MachineLib/MachineSystemActual.cpp:66-77 | repeating a seek runs no updates, and resets only for a negative frame |
| SeekRules.SeekForwardCompose | MachineLib/MachineSystemActual.cpp:74-77 | two forward seeks run as many updates as one seek to the later frame, and neither resets |
| SeekRules.MachineTime | MachineLib/MachineSystemActual.cpp:125-128 | the machine time of a frame is non-negative and times the frame rate gives the frame |
| MachineLib.Deliver | MachineLib/IRotationSink.h:14-24 | one Rotate call on a sink: every sink downstream of it, at any depth, is Reached with the pair. Each pulley reached has the gear step on the rotation from its state before the propagation, and its own source holds the pair; each conveyor reached runs at the speed with its bodies at the belt velocity; each body reached spins at the speed. A conveyor sink's velocities are Transport of its contact list. Below the caller's rank only the pair was written (Spread), and a gear state already stepped stays stepped (GearsKept) |
| MachineLib.ComponentBase.constructor | MachineLib/Component.h:25 | the machine back-reference starts null |
| MachineLib.ComponentBase.SetMachine | MachineLib/Component.cpp:14-17 | the back-reference becomes exactly the given machine |
| MachineLib.RotationSource.constructor | MachineLib/RotationSource.h:16-31 | a new source has no sinks |
| MachineLib.RotationSource.AddSink | MachineLib/RotationSource.cpp:14-18 | the sink is appended at the end and nothing else changes, so order is kept and duplicates are allowed |
| MachineLib.RotationSource.SetRotation | MachineLib/RotationSource.cpp:34-38 | both values are stored and no sink is called |
| MachineLib.RotationSource.UpdateSinks | MachineLib/RotationSource.cpp:21-27 | every sink downstream of every sink of the source, at any depth, is Reached with the stored pair afterwards; what the earlier sinks reached is still Reached once the later ones have been called. The stored pair is unchanged, below the source's rank only the pair was written (Spread), and stepped gear states stay stepped (GearsKept) |
| MachineLib.RotationSource.DeliverAt | MachineLib/RotationSource.cpp:23-26 | the Rotate call on sink i: everything downstream of sink i is then Reached with the stored pair, and everything downstream of the earlier sinks still is |
| MachineLib.RotationSource.Turn | MachineLib/Pulley.cpp:157-158 | SetRotation then UpdateSinks: the source holds (r, s) and every sink downstream of its sinks, at any depth, is Reached with (r, s); below its rank only that pair was written |
| MachineLib.DownstreamIn | MachineLib/RotationSource.cpp:21-27 | in a wired graph every sink a Rotate call reaches is in the machine, and every pulley reached ranks below the calling source, so the recursion ends |
| MachineLib.DriveChain | MachineLib/Pulley.cpp:133-159 | when a source drives pulley p1, p1 drives p2 and p2 drives conveyor c, reaching the source's sinks leaves c running at the source's speed and p2's source holding the source's pair; an undriven p1 takes the source's rotation |
| MachineLib.Pulley.constructor | MachineLib/Pulley.h:31-47 | rotation and previous start at 0, no connections or driver, rocking 2.0 and increasing |
| MachineLib.Pulley.Rotate | MachineLib/Pulley.cpp:133-159 | undriven: the rotation becomes r and previous is unchanged. Driven: rotation and previous take one gear step on r * driverRadius / ownRadius. Either way the own source holds (r, s) unscaled and every sink downstream of it, at any depth, is Reached with (r, s); below the source's rank only that pair was written |
| MachineLib.Pulley.Step | MachineLib/Pulley.cpp:135-153 | the gear step alone: it leaves the pulley in the gear step on r from its state before the propagation, even when it had already taken that step, and changes no sink list |
| MachineLib.Pulley.Drive | MachineLib/Pulley.cpp:165-170 | p is appended to the connections, its driver becomes this pulley, and it is appended as a sink of this pulley's source |
| MachineLib.Pulley.SetDriver | MachineLib/Pulley.cpp:195-198 | the driver becomes the given pulley |
| MachineLib.Pulley.InstallPhysics | MachineLib/Pulley.cpp:186-189 | the rotation becomes 0 and no other field may change |
| MachineLib.Pulley.Draw | MachineLib/Pulley.cpp:46-126 | when the pulley turns, the rocking pair advances one oscillator step per connection, otherwise it is unchanged; the divisor stays in its band |
| MachineLib.Conveyor.constructor | MachineLib/Conveyor.h:26-30 | speed and rotation start at 0 |
| MachineLib.Conveyor.Rotate | MachineLib/Conveyor.cpp:84-99 | the speed becomes s, the rotation is ignored, and the velocities are Transport of the contact list at speed s |
| MachineLib.Conveyor.PreSolve | MachineLib/Conveyor.cpp:132-135 | the contact's tangent speed is the conveyor's current speed |
| MachineLib.Conveyor.SetInitialRotation | MachineLib/Conveyor.cpp:141-145 | the conveyor's rotation is stored |
| MachineLib.Conveyor.InstallPhysics | MachineLib/Conveyor.cpp:74-77 | one new body in the world becomes the belt body |
| MachineLib.Conveyor.AddContact | MachineLib/Conveyor.cpp:122-125 | the belt body is routed to this conveyor |
| MachineLib.Body.Rotate | MachineLib/Body.cpp:93-96 | the speed becomes the body's angular velocity |
| MachineLib.Body.InstallPhysics | MachineLib/Body.cpp:83-86 | one new body in the world becomes this body's handle |
| MachineLib.Hamster.constructor | MachineLib/Hamster.h:32-51 | speed 0.6, rotation 0, index 0, not running; the image invariant holds |
| MachineLib.Hamster.SetSpeed | MachineLib/Hamster.cpp:93-96 | the speed is stored |
| MachineLib.Hamster.BeginContact | MachineLib/Hamster.cpp:102-107 | the hamster runs with image 1 and keeps its invariant |
| MachineLib.Hamster.Update | MachineLib/Hamster.cpp:113-160 | the rotation advances. An awake hamster sends (rotation, -speed) and takes the image for the new rotation; a sleeping one sends (0, 0) and stays at image 0. Every sink downstream of its source's sinks, at any depth, is then Reached with the pair sent. The index is 0 exactly when not running, and the rotation stays within one turn |
| MachineLib.Hamster.InstallPhysics | MachineLib/Hamster.cpp:202-214 | creates the cage body; a hamster not set to run initially stops with image 0, the rotation is never reset |
| MachineLib.Hamster.SetInitiallyRunning | MachineLib/Hamster.cpp:220-225 | whatever the argument, the hamster runs, is marked initially running, and shows image 1 |
| MachineLib.Hamster.AddContact | MachineLib/Hamster.cpp:240-243 | the cage body is routed to this hamster |
| MachineLib.Hamster.Draw | MachineLib/Hamster.cpp:166-185 | the image drawn is the index, one of the four, the sleeping one exactly when not running; the wheel is drawn at the rotation; mirrored exactly when the speed is negative |
| MachineLib.Goal.constructor | MachineLib/Goal.h:33 | the score starts at 0 |
| MachineLib.Goal.BeginContact | MachineLib/Goal.cpp:143-146 | the score rises by exactly 2, recorded as one more basket |
| MachineLib.Goal.PreSolve | MachineLib/Goal.cpp:155-158 | the contact is disabled and no goal state changes |
| MachineLib.Goal.InstallPhysics | MachineLib/Goal.cpp:116-123 | creates the target body and then the post body, and the score becomes 0, recorded as a reset |
| MachineLib.Goal.AddContact | MachineLib/Goal.cpp:164-167 | only the target body is routed to this goal |
| MachineLib.Goal.Draw | MachineLib/Goal.cpp:89-94 | the text is ScoreText of the score: digits that read back as the score, two of them below 100 |
| MachineLib.UpdatePart | MachineLib/Machine.cpp:54 | a hamster part acts as Hamster.Update states: wheel advanced, image following it when running, its source holding (rotation, -speed) when running and (0, 0) otherwise, and every sink downstream Reached with that pair. No other hamster's wheel moves. Any other part has the empty Update of Component.h:55 and changes no source, pulley, conveyor or world. Every hamster keeps its invariant |
| MachineLib.UpdateAt | MachineLib/Machine.cpp:52-55 | one pass of the loop: the update count of a hamster grows by one exactly when part i is that hamster |
| MachineLib.UpdateParts | MachineLib/Machine.cpp:52-55 | each hamster has advanced its wheel once per occurrence in the list, with the image following when it runs; every hamster keeps its invariant |
| MachineLib.DrawParts | MachineLib/Machine.cpp:40-43 | each pulley's oscillator has advanced once per belt for every occurrence in the list while it turns, and every divisor stays in its band |
| MachineLib.DrawPart | MachineLib/Machine.cpp:42 | drawing a pulley advances its oscillator once per belt while it turns; no other pulley's oscillator moves; every divisor stays in its band |
| MachineLib.DrawAt | MachineLib/Machine.cpp:40-43 | one pass of the loop: the draw count of a pulley grows by one exactly when part i is that pulley |
| MachineLib.InstallPart | MachineLib/Machine.cpp:76-77 | the component is installed and keeps its invariant, and its state is Reinstalled of the old one. Hamsters, conveyors and goals route one new body of the world to themselves. The default AddContact of pulleys and bodies (Component.h:74) leaves the table alone |
| MachineLib.ReinstalledKeeps | MachineLib/Hamster.cpp:202-214 | installing keeps a hamster's speed, wheel and start mode, and all of it when it starts running; otherwise it sleeps at image 0. A pulley keeps its gear memory, driver, belts and oscillator, and only its rotation becomes 0 (Pulley.cpp:186-189). A conveyor or body is kept. A goal's score becomes 0 with one more reset in its history |
| MachineLib.Occurrences | MachineLib/Machine.cpp:85-89 | the number of times a component was added: zero exactly when it is not among the components |
| MachineLib.DistinctOnce | MachineLib/Machine.cpp:85-89 | in a list of distinct components each one occurs exactly once, so it is updated and drawn exactly once |
| MachineLib.TableRoutes | MachineLib/Machine.cpp:74-78 | when keys are created in order, the table maps each registering component's key to it and holds nothing else |
| MachineLib.InstallParts | MachineLib/Machine.cpp:74-78 | every component is installed and valid, and its state is Reinstalled of the old one. The registering ones hold bodies of this world created in list order, each is routed by its own body, and the table holds nothing else. The world's steps and listener are unchanged |
| MachineLib.InstallWorld | MachineLib/Machine.cpp:66-78 | a fresh world of the given generation with no steps and a fresh, empty listener installed on it. Then every component is installed in order as InstallParts states. Every object of the machine is in the new world and keeps its invariant, and a wired drive graph stays wired |
| MachineLib.InstallIn | MachineLib/Machine.cpp:74-78 | InstallParts in a given world and empty table, with the machine's whole universe then in that world, each object keeping its invariant, and a wired drive graph still wired |
| MachineLib.Machine.constructor | MachineLib/Machine.cpp:26-32 | the number is stored and GetMachine returns it; no components, an empty universe of parts, a world of generation 0 |
| MachineLib.Machine.AddComponent | MachineLib/Machine.cpp:85-89 | the component is appended at the end, earlier entries unchanged, and its machine becomes this machine; the universe of parts gains the component and its rotation source, so a machine assembled through AddComponent can be shown Built |
| MachineSystem.NewDriveChain | MachineLib/MachineFactory2.cpp:104-132 | an initially running hamster at speed -1 feeds a pulley of radius 10, which drives a pulley of radius 17 (its driver is the first), which feeds the conveyor; the ranks fall along the chain |
| MachineSystem.BuildDriveChain | MachineLib/MachineFactory2.cpp:104-132 | that chain added to a machine in the factory's order (hamster, conveyor, pulley, pulley) is Built: distinct parts, a wired drive graph, every part keeping its invariant |
| MachineSystem.NewChainMachine | MachineLib/MachineFactory2.cpp:109-129 | machine 2 holding the hamster, the conveyor and the two pulleys in the order they are added, with exactly their objects and sources in its universe |
| MachineSystem.StartDriveChain | MachineLib/MachineSystemActual.cpp:19-24 | the machine system built over the drive chain is valid, at frame 0, over a fresh world |
| MachineSystem.ChainWired | MachineLib/MachineFactory2.cpp:124-132 | the chain's wiring is closed and ranked, which is the acyclicity propagation needs |
| MachineSystem.ScrubDriveChain | MachineLib/MachineSystemActual.cpp:66-82 | on the built chain, seeking to frame 5 and then back to frame 2 ends at frame 2 in a world that has taken exactly two frame steps |
| MachineLib.Machine.Update | MachineLib/Machine.cpp:50-59 | each hamster has turned once per time it was added, with the image following when it runs; then one world step with (elapsed, 6, 2); the machine stays ready |
| MachineLib.Machine.Reset | MachineLib/Machine.cpp:64-79 | a fresh world of the next generation with no steps, and a fresh listener installed on it. The component list is unchanged. Every component is installed and in Reinstalled of its old state. The registering bodies are created in list order and routed. The machine is ready again when the drive graph was wired |
| MachineLib.Machine.DrawMachine | MachineLib/Machine.cpp:38-44 | each pulley's oscillator has advanced once per belt per time the pulley was added, while it turns; the machine stays ready |
| MachineSystem.MachineSystemActual.constructor | MachineLib/MachineSystemActual.cpp:19-24 | frame 0, the machine built for number 1, freshly reset |
| MachineSystem.MachineSystemActual.SetMachineNumber | MachineLib/MachineSystemActual.cpp:97-110 | the machine becomes the built one and is reset to a fresh world; any number but 1 gives machine 2; the frame counter is unchanged |
| MachineSystem.MachineSystemActual.SetFrameRate | MachineLib/MachineSystemActual.cpp:88-91 | changes no state (no modifies clause, and the frame rate is a constant), so the frame rate stays 30 and the system stays valid |
| MachineSystem.MachineSystemActual.GetMachineNumber | MachineLib/MachineSystemActual.cpp:116-119 | the number of the current machine: the number that machine was constructed with |
| MachineSystem.MachineSystemActual.GetMachineTime | MachineLib/MachineSystemActual.cpp:125-128 | the time times the frame rate is the current frame |
| MachineSystem.MachineSystemActual.Rewind | MachineLib/MachineSystemActual.cpp:68-72 | the frame counter becomes 0 and the machine is reset to a fresh world with no steps |
| MachineSystem.MachineSystemActual.StepFrame | MachineLib/MachineSystemActual.cpp:74-77 | one Update of 1/30 s: the world takes one frame step and the counter goes up by one |
| MachineSystem.MachineSystemActual.RunTo | MachineLib/MachineSystemActual.cpp:74-77 | the counter ends at the frame, or stays put if already past it, with one frame step per frame run |
| MachineSystem.MachineSystemActual.SetMachineFrame | MachineLib/MachineSystemActual.cpp:66-82 | the counter ends at FrameAfter; when the plan resets, the world is fresh and has taken plan.updates steps; otherwise it is the same world with plan.updates more steps |
| CanadianExperience.MachineFrame | CanadianExperienceLib/MachineAdapter.cpp:82-91 | non-negative exactly when the offset is not ahead of the timeline frame; then the integer part of frame - offset, otherwise -1 |
| CanadianExperience.WholeOffset | CanadianExperienceLib/MachineAdapter.cpp:82-87 | a whole-frame offset puts the machine exactly that many frames behind |
| CanadianExperience.BeforeStartRewinds | CanadianExperienceLib/MachineAdapter.cpp:88-91 | before the start frame, a seek resets with no updates and the machine is at frame 0 |
| CanadianExperience.MachineAdapter.constructor | CanadianExperienceLib/MachineAdapter.h:24 | the frame offset starts at 0 |
| CanadianExperience.MachineAdapter.HitTest | CanadianExperienceLib/MachineAdapter.cpp:45-50 | every point hits |
| CanadianExperience.MachineAdapter.GetKeyframe | CanadianExperienceLib/MachineAdapter.cpp:76-92 | the system ends at FrameAfter of MachineFrame for the timeline frame; before the start it is at frame 0 with a fresh world |
| CanadianExperience.MachineAdapter.SetMachineNumber | CanadianExperienceLib/MachineAdapter.cpp:98-101 | the system gets the same number, so it has the built machine, reset, with its frame counter unchanged |
| CanadianExperience.MachineAdapter.SetFrameOffset | CanadianExperienceLib/MachineAdapter.h:44 | the offset is stored |

## Left out

- Box2D: world stepping, collision detection and contact callback dispatch are foreign code. `World.Step` only logs its arguments and gives the contact and velocity tables arbitrary new values. No `BeginContact` or `PreSolve` is called from it. The `ContactListener` class itself is not part of this model; its `Add` is modelled as a map update.
- Rendering: wx graphics calls, polygons, images, belt geometry (MachineLib/Pulley.cpp:52-58, 63-91, 113-118), the hamster and wheel drawing, and scoreboard placement. Only the drawing state that matters is kept: the rocking pair, the hamster image index, and the score text.
- `Conveyor::GetShaftPosition` and `Hamster::GetShaftPosition`: trigonometric layout geometry.
- `SetPosition` on every component, Body's shape setup (`AddPoint`, `Rectangle`, `Circle`, `SetPhysics`, `SetInitialPosition`), and the polygon half of `Conveyor::SetInitialRotation`: layout data.
- `Hamster::TurnDemon` and the image loading in the constructors: they only choose asset paths.
- `Conveyor::BeginContact` and the `Update` of conveyors, pulleys, goals and bodies are empty in the source. `UpdatePart` covers the empty `Update`s; `BeginContact` dispatch is left out with Box2D.
- The layout factories (MachineFactory1, MachineFactory2): the built machine is a parameter satisfying `Built`. The MachineFactory1 source is not part of this model. Of MachineFactory2, only the hamster-pulley-pulley-conveyor chain (MachineFactory2.cpp:104-132) is built, by `BuildDriveChain`, without positions, images, bodies or basketballs.
- MachineSystemActual's `SetLocation`, `GetLocation` and `DrawMachine`, and the pixel scale, view flag and current-time fields: display state.
- MachineAdapter's `Draw` and `ShowDialogBox`, the timeline and angle-channel lookup, the `MachineSystemFactory`, and the UI files (Picture, PictureFactory, MachineStartTimeDlg). The timeline frame and rate are parameters of `GetKeyframe`.
- IEEE-754 doubles are modelled as reals, and `float`/`int` conversions of non-negative values as floors. No bit-exact replay is claimed. The goal score is a 32-bit `int` in C++ (MachineLib/Goal.h:33) and an unbounded integer here. GoalRules.ScoreEven's non-negativity assumes the score never wraps, which takes more than 2^30 baskets without a reset.
- A pulley of radius 0: the constructor takes a non-zero radius. C++ accepts `Pulley(0)` and then divides by zero at MachineLib/Pulley.cpp:141 when the pulley is driven.
- MachineLib.Machine.Reset: requires the components to be distinct objects (`Distinct`), and so do `InstallParts`, `InstallIn` and `InstallWorld`. A component added twice is not modelled for Reset, because the factories never add one twice. `Update` and `DrawMachine` do handle duplicates, through `Occurrences`.
- MachineSystem.MachineSystemActual.SetMachineNumber: for number 1 it does not state the machine number, because the MachineFactory1 body is not part of this model.
- MachineLib.Machine.Update: states each hamster's wheel and image, not what the sinks hold afterwards. Two hamsters could drive common sinks, and then the later one in the list wins. `Hamster.Update` states the sink effects of one hamster.
- MachineLib.Hamster.Update: states what its downstream sinks are left with (`Reached`), but not `Spread` for the whole call. `RotationSource.Turn`, which it calls, states `Spread`.
- MachineLib.Machine.DrawMachine: states each pulley's oscillator by how many times it was drawn, not the order the components are visited in. Drawing has no other effect in the model.
- MachineLib.RotationSource.UpdateSinks: C++ leaves rotation and speed unset until the first `SetRotation`. The model starts them at arbitrary values, so it states nothing about an `UpdateSinks` before a `SetRotation`. Every caller goes through `Turn` or calls `SetRotation` first.
