# Particle formation simulation of the portfolio background

This project models the simulation behind the animated canvas background of the
portfolio site (`MLParticleBackground` in `src/App.tsx`). The background has 120
particles. Every frame it does three things:

- it advances a formation timer;
- it moves every particle, either easing towards a slot of the current formation or
  drifting freely with bounces off the canvas edges;
- it recomputes the strength of every connection between formation neighbours.

Every 500 frames the next of four static formations (robot, neural network, data flow,
molecular structure) is built. 376 frames into each cycle the formation disperses, and
its connections then fade out.

The model is written in Dafny and is proved, not run. It has five modules:

- `Catalog` (`catalog.dfy`): the four formations as data, round-robin selection,
  well-formedness of the adjacency lists.
- `Particles` (`particles.dfy`): the particle record and the pure rules for one particle:
  creation, assignment to a slot, release, and the per-frame step split into its stages
  (ease, integrate, bounce, attract, retarget).
- `Connections` (`connections.dfy`): the connection record, the connection list a formation
  produces (`Edges`), the strength update, fading and the drawing filter.
- `Controller` (`controller.dfy`): the timer as a pure state machine, with lemmas about
  whole runs (cycle length, one dispersal per cycle, period of the formation sequence).
- `Simulation` (`simulation.dfy`): the mutable state as a class. It holds the formation
  library the animation captured (`formations`, given to the constructor; `Launch`
  gives it `Catalog.Slots`, as the page does), a fixed `array` of particles, the connection list as a `seq` that is emptied and refilled, and
  the formation counter and timer. Its methods run the source's loops in place and are
  proved against the pure functions above.

The class invariant `Valid()` says, between frames:

- the timer is a multiple of 16 in [0, 8000);
- the connection list has exactly the endpoints of the current formation's adjacency
  entries;
- before timer 6016 all connections are active and exactly the slot particles are forming;
  from 6016 on nothing is;
- every progress and every strength lies in [0, 1].

`Faded()` adds that after dispersal every strength is at most `max(0, 1 - 0.03·k)`, where
`k` is the number of frames since timer 6000. As a consequence nothing is drawn from
timer 6464, and every strength is 0 from timer 6544 (`FadedOut`).

Abstractions:

- Every `Math.random()` value is an input (`Draw2`, `Move`, `Seed`): a real in [0, 1).
- `Math.sqrt` is handled in two ways. Distance thresholds compare squared distances
  (`dx*dx + dy*dy > 9` for `distance > 3`), and `DistanceThreshold` proves this
  equivalent for any square root. The strength formula takes a caller-supplied
  `sqrt: real -> real`.
- Numbers are exact `real`s, and the canvas size is a pair of `nat`s.

Three behaviours of the code are easy to misread; the model follows the code:

- Two slots that link to each other produce two connections, 0→1 and 1→0, not one. These
  entries are not deduplicated (`TwoSlotScenario`).
- Dispersal happens on the single frame where the timer equals 6016. It does not happen
  on every frame past the hold time (`EventAt`, `OneDispersalPerCycle`).
- A free particle is inside the canvas right after the boundary step (`Bounce`). The
  weak pull that follows uses the displacement measured before the move, so a particle
  can end a frame slightly outside the canvas (`AttractionCanLeaveCanvas`). The model
  claims the position bound only right after the boundary step.

## Model

| member | source | states |
|---|---|---|
| `Catalog.Slots` | src/App.tsx:93-175 | every formation of the library has between 13 and 18 slots, and the robot alone has 18 |
| `Catalog.RobotSlots` | src/App.tsx:94-117 | the robot formation has 18 slots |
| `Catalog.NeuralNetworkSlots` | src/App.tsx:118-136 | the neural-network formation has 13 slots |
| `Catalog.DataFlowSlots` | src/App.tsx:137-156 | the data-flow formation has 13 slots |
| `Catalog.MolecularStructureSlots` | src/App.tsx:157-174 | the molecular-structure formation has 13 slots |
| `Catalog.RobotWellFormed` | src/App.tsx:94-117 | every robot slot lies in the unit square and links only to robot slot indices |
| `Catalog.NeuralNetworkWellFormed` | src/App.tsx:118-136 | every neural-network slot lies in the unit square and links only to its own slot indices |
| `Catalog.DataFlowWellFormed` | src/App.tsx:137-156 | every data-flow slot lies in the unit square and links only to its own slot indices |
| `Catalog.MolecularStructureWellFormed` | src/App.tsx:157-174 | every molecular-structure slot lies in the unit square and links only to its own slot indices |
| `Catalog.CatalogWellFormed` | src/App.tsx:93-175 | every slot of every formation lies in the unit square and links only to slot indices of its own formation; no formation has more than 18 slots |
| `Catalog.Selected` | src/App.tsx:209-210 | the counter picks the names with period four: a counter of four or more picks what the counter four lower picks |
| `Catalog.SelectionNext` | src/App.tsx:209-210 | moving the counter on by one picks the next name in catalog order, wrapping from the molecular structure back to the robot |
| `Catalog.SelectionPeriodic` | src/App.tsx:177-180 | advancing the counter by any multiple of four selects the same formation again |
| `Catalog.SelectionCovers` | src/App.tsx:177-179 | every formation is selected by some counter value below four |
| `Particles.Spawn` | src/App.tsx:186-204 | a new particle starts on the canvas with its target on the canvas, velocity components in [-0.2, 0.2), a valid palette index, size in [1, 3.5), free, with progress and connection strength 0 |
| `Particles.Assign` | src/App.tsx:215-222 | a particle taken into a slot is forming with strength 1 and targets the slot scaled to the canvas; its target is on the canvas for a slot in the unit square; position and progress are untouched |
| `Particles.Release` | src/App.tsx:238-243 | a released particle is free with strength 0 and targets the draw scaled to the canvas, which is on the canvas for a valid draw; position and progress are untouched |
| `Particles.Reassign` | src/App.tsx:215-243 | after a rebuild, particle i is forming exactly when i is a slot index; its strength is 1 for a slot and 0 otherwise; its target is slot i scaled by width and height, or else its draw scaled the same way, and lies on the canvas for a well-formed slot or a valid draw; position, velocity, progress, phase, colour, size and original position are untouched |
| `Particles.ReassignIdempotent` | src/App.tsx:215-222 | assigning the same formation a second time leaves every slot particle exactly as the first assignment did |
| `Particles.Ease` | src/App.tsx:295-302 | an easing step leaves 97.5% of the remaining displacement to the target, raises progress (or reaches 1) and keeps it in [0, 1], and keeps velocity and target |
| `Particles.Integrate` | src/App.tsx:305-310 | a free step moves the position by exactly the velocity, lowers progress (or reaches 0) and keeps it in [0, 1], and keeps velocity and target |
| `Particles.Bounce` | src/App.tsx:313-320 | right after the boundary step the position lies in [0, width] × [0, height]; a velocity component is multiplied by -0.8 exactly when its coordinate was outside the range; a coordinate inside the range is unchanged, and nothing else changes |
| `Particles.Attract` | src/App.tsx:322-326 | when the displacement passed in is the particle's own, beyond 5 pixels the pull leaves 99.8% of it to the target; within 5 pixels nothing changes; velocity and progress are kept. `Step` passes the displacement measured before the move, whose effect `StepFree` and `AttractionCanLeaveCanvas` state |
| `Particles.Retarget` | src/App.tsx:328-332 | with the coin at or above 0.008 nothing changes; otherwise the new target is on the canvas for a valid draw; position and velocity are kept |
| `Particles.Step` | src/App.tsx:290-336 | one frame keeps the forming flag, connection strength, colour, size and original position; the pulse phase always grows by 0.04; progress in [0, 1] stays in [0, 1]; a forming particle keeps its velocity and target |
| `Particles.StepForming` | src/App.tsx:291-302 | a forming particle more than 3 pixels from its target has its remaining displacement scaled by exactly 0.975 and its progress raised by 0.02, capped at 1; within 3 pixels its position and progress are unchanged |
| `Particles.StepFree` | src/App.tsx:303-333 | a free particle's progress falls by 0.015, floored at 0; each velocity component reverses with factor -0.8 exactly when the integrated coordinate left the canvas; the new position is the bounced position plus 0.2% of the pre-move displacement when that exceeds 5 pixels, and the bounced position otherwise; the target becomes the scaled draw when the coin is below 0.008 and is kept otherwise |
| `Particles.AttractionCanLeaveCanvas` | src/App.tsx:313-326 | a concrete free particle pulled after clamping ends the frame at x = -0.001, outside the canvas |
| `Particles.LowerNClosedForm` | src/App.tsx:305-308 | k floored decrements by d give max(0, s - k·d) |
| `Particles.UnsettleWithin` | src/App.tsx:305-308 | a free particle's progress reaches 0 after at most 67 frames from any value in [0, 1], and is still positive after 66 frames from 1 |
| `Particles.DistanceThreshold` | src/App.tsx:293-295 | for any non-negative square root, `distance > t` holds exactly when the squared distance exceeds t², which justifies the tests `> 9` and `> 25` |
| `Connections.SlotEdges` | src/App.tsx:224-233 | a slot contributes at most one connection per adjacency entry |
| `Connections.Edges` | src/App.tsx:212-234 | reference definition of the rebuilt list: slots in order, slots without a particle skipped, entries in order, entries naming no particle dropped; no contract of its own, its properties are `EdgesMembership`, `EdgesShape`, `EdgesCount` and `EdgesAtMost` |
| `Connections.SlotEdgesShape` | src/App.tsx:224-233 | every connection a slot contributes starts at that slot, ends at an existing particle, and is active with strength 0 |
| `Connections.EdgesShape` | src/App.tsx:212-234 | every connection of a rebuilt list has both endpoints below the particle count, starts at a slot index, and is active with strength 0 |
| `Connections.SlotEdgesMembership` | src/App.tsx:224-233 | a slot contributes a connection to t exactly when t is one of its entries and names a particle |
| `Connections.SlotEdgesFrom` | src/App.tsx:226-231 | anything a slot contributes starts at that slot and is fresh and active |
| `Connections.EdgesMembership` | src/App.tsx:215-234 | the rebuilt list holds a connection from i to t exactly when i is a slot with a particle, t is one of slot i's entries, and t names a particle |
| `Connections.SlotEdgesCount` | src/App.tsx:224-233 | when every entry names a particle, a slot contributes one connection per entry |
| `Connections.EdgesCount` | src/App.tsx:212-234 | when every slot has a particle and every entry names one, the list has exactly one connection per adjacency entry, with nothing deduplicated |
| `Connections.EdgesAtMost` | src/App.tsx:212-234 | whatever the slots and particle count, the rebuilt list has at most one connection per adjacency entry |
| `Connections.CatalogEdgesCount` | src/App.tsx:93-175 | on 120 particles, every catalog formation yields one connection per adjacency entry |
| `Connections.TwoSlotScenario` | src/App.tsx:224-233 | two slots linked both ways on three particles produce exactly the connections 0→1 and 1→0, in that order |
| `Connections.ActiveStrength` | src/App.tsx:351-356 | an active connection's new strength lies in [0, 1] whenever the average progress does |
| `Connections.SettledPairFullStrength` | src/App.tsx:351-356 | two fully settled endpoints at most 250 pixels apart give strength exactly 1 |
| `Connections.NearPairStrength` | src/App.tsx:347-356 | endpoints closer than 40 pixels count as 40 apart, so the strength is min(1, 6.25·average progress) |
| `Connections.Strengthen` | src/App.tsx:339-361 | a frame never changes a connection's endpoints or active flag; an inactive one fades by 0.03, floored at 0; an active one naming a missing particle is unchanged; strengths stay in [0, 1] while all progress values are in [0, 1] |
| `Connections.FadeMonotone` | src/App.tsx:358-360 | an inactive connection's strength never grows and never turns negative |
| `Connections.FadeWithin` | src/App.tsx:358-360 | from any strength in [0, 1], fading reaches 0 within 34 frames, and a strength of 1 is still positive after 33 |
| `Connections.DrawAlpha` | src/App.tsx:365-379 | a drawn connection's alpha byte lies between 15 and 100, so it always fits two hex digits |
| `Controller.EventAt` | src/App.tsx:275-287 | a frame advances the formation exactly when the advanced timer reaches 8000, and disperses exactly when it equals 6016 |
| `Controller.NextTimer` | src/App.tsx:275-281 | the timer stays a multiple of 16 in [0, 8000), and it returns to 0 exactly on the frames that advance the formation |
| `Controller.TickClock` | src/App.tsx:275-281 | one frame keeps the timer in range, moves the counter on by at most one, and moves it exactly on the frame whose timer returns to 0 |
| `Controller.Run` | src/App.tsx:275-281 | after k frames from the start the timer is in range and the counter is at most k |
| `Controller.RunClosedForm` | src/App.tsx:180-183 | after k frames the timer is 16·(k mod 500) and the counter is k div 500, so a cycle is exactly 500 frames |
| `Controller.TickEvents` | src/App.tsx:278-286 | frame k+1 disperses exactly when k mod 500 = 375, and advances exactly when k mod 500 = 499 |
| `Controller.OneDispersalPerCycle` | src/App.tsx:282-286 | within each 500-frame cycle exactly one frame disperses and exactly one, the last, advances |
| `Controller.FormationRepeats` | src/App.tsx:209-210 | the formation shown repeats every 2000 frames |
| `Controller.FormationOrder` | src/App.tsx:177-180 | cycle c shows the formation at position c mod 4 of the catalog order |
| `Simulation.Deactivated` | src/App.tsx:254-256 | dispersal keeps the list's length and each connection's endpoints and strength, and clears its active flag |
| `Simulation.Transitioned` | src/App.tsx:275-287 | a frame's transition never moves a particle or changes its velocity, progress or phase; a dispersal frees it with strength 0; a rebuild makes it forming exactly when it has a slot; any other frame leaves it unchanged |
| `Simulation.TransitionedLinks` | src/App.tsx:275-287 | apart from a rebuild the list keeps its length and every connection's endpoints and strength; a dispersal clears every active flag; a rebuild yields at most one connection per adjacency entry, each fresh, active, and from a slot to an existing particle |
| `Simulation.StrengthenedKeeps` | src/App.tsx:339-361 | a strength update keeps every connection's endpoints and flag, and keeps strengths in [0, 1] while every progress is in [0, 1] |
| `Simulation.FadeCarried` | src/App.tsx:358-360 | inactive connections under the previous fade bound are under the current one after a strength update |
| `Simulation.SpawnAll` | src/App.tsx:184-204 | creates a fresh array of the 120 particles, particle i spawned from draw i, every progress 0 |
| `Simulation.Launch` | src/App.tsx:177-260 | the page's start: the simulation over the catalog, valid and faded, with the canvas size given, counter and timer at 0, the robot shown, the list exactly the robot's edge list with one connection per robot adjacency entry, and every particle its spawned self reassigned to the robot |
| `Simulation.FadeBoundStep` | src/App.tsx:358-360 | fading one frame keeps a connection under the fade bound of the next timer value |
| `Simulation.FadeBoundVanishes` | src/App.tsx:358-365 | the fade bound is at most 0.15 from timer 6464, 0 from timer 6544, and above 0.15 before timer 6448 |
| `Simulation.FadedOut` | src/App.tsx:358-365 | in a valid, faded state (which `Tick` preserves), no connection is drawn from timer 6464, and all strengths are 0 from timer 6544, long before the rebuild at 8000 |
| `Simulation.Simulation.constructor` | src/App.tsx:177-260 | creates 120 particles from the draws over the given library, builds the robot formation with the clock where `Run(0)` puts it, so every particle is its spawned self reassigned and the list is the robot's edge list, and establishes the invariants |
| `Simulation.Simulation.BuildCurrent` | src/App.tsx:208-244 | building the selected formation with the timer at 0 gives its edge list and reassigned particles, and leaves the state valid and faded |
| `Simulation.Simulation.EstablishRebuilt` | src/App.tsx:208-244 | a freshly rebuilt state at timer 0 satisfies the invariant and the fade bound |
| `Simulation.Simulation.UpdateFormation` | src/App.tsx:208-244 | rebuilds the selected formation: the connection list becomes exactly its edge list, and every particle is assigned or released as `Reassign` says; the particle count does not change |
| `Simulation.Simulation.AssignFormation` | src/App.tsx:212-243 | the loops of a rebuild for any slot list: the list is emptied and refilled in slot-then-entry order, and particles with and without a slot are updated |
| `Simulation.Simulation.TakeSlot` | src/App.tsx:215-234 | one slot of the rebuild: particle `index`, if any, is assigned to it and the list grows to the edge list of the slots so far; no other particle changes |
| `Simulation.Simulation.ReleaseFrom` | src/App.tsx:236-243 | the particles from the first index without a slot on are released towards their draws; the ones before it are untouched |
| `Simulation.Simulation.PushSlotEdges` | src/App.tsx:224-233 | appends exactly the slot's connections to the list |
| `Simulation.Simulation.DisperseFormation` | src/App.tsx:246-257 | every particle is released towards its draw, and every connection is deactivated with its endpoints and strength kept; the wiring and the [0, 1] bounds survive |
| `Simulation.Simulation.RebuildNext` | src/App.tsx:278-281 | the end of a cycle: the counter moves on, the timer restarts at 0, the next formation is built exactly as `Reassign` and `Edges` say, and the state is valid |
| `Simulation.Simulation.DisperseNow` | src/App.tsx:282-285 | dispersal at timer 6016 releases every particle and deactivates every connection, and the state is valid |
| `Simulation.Simulation.AdvanceTimer` | src/App.tsx:275-287 | the timer moves as `NextTimer` says and the counter grows only on the advance frame; the state after the rebuild, dispersal or hold is given exactly; the invariant is kept |
| `Simulation.Simulation.StepParticles` | src/App.tsx:290-336 | every particle takes exactly one `Step` with its own draws, and the state stays valid |
| `Simulation.Simulation.UpdateConnections` | src/App.tsx:339-361 | every connection takes exactly one `Strengthen` against the moved particles; the state stays valid, and after dispersal one fade step moves every strength under the next fade bound |
| `Simulation.Simulation.Tick` | src/App.tsx:275-361 | one frame moves the clock as `TickClock` says and states the whole new state (transition, then the particle step, then the strength update); it keeps the invariant and the fade bound for any `sqrt` |
| `Simulation.Simulation.Resize` | src/App.tsx:48-51 | a resize changes only the canvas size |
| `Simulation.Simulation.DrawnConnections` | src/App.tsx:364-369 | returns, in increasing order, exactly the indices of the connections stronger than 0.15 whose endpoints exist |

## Left out

- Painting is not modelled: clearing, gradients, hex colour strings, glow, core and
  highlight arcs, shadow and composite state, and the neural-network and data-flow pulse
  effects (src/App.tsx:266-273, 363-451, 453-510). Only the drawing filter
  (`DrawnConnections`) and the alpha byte (`DrawAlpha`) are modelled, because they are
  the only parts with a checkable result.
- Frame scheduling, cancellation, the resize listener's registration and effect cleanup
  (src/App.tsx:43-54, 512-529) are browser scheduling and I/O. A resize is modelled only
  as the `Resize` method.
- `Math.random` is not modelled. Every draw is an input: a real in [0, 1).
- `Math.PI` is not modelled: the initial pulse phase is supplied already scaled.
- `Math.sqrt` is a caller-supplied function, and IEEE floating point is replaced by exact
  reals. Rounding, overflow and NaN are not modelled.
- `Particles.Step`: no position bound is claimed after the whole free step. The source
  applies the pull after clamping, so the bound does not hold (`AttractionCanLeaveCanvas`).
- The typewriter intro sequence is not among the source files, and `ProfessionalApp.tsx`
  is not part of this model. The rest of `App` holds static content, markup and scroll
  and theme handlers, and is not modelled.
