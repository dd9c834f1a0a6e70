# Three-JS-Town core, modelled in Dafny

This project models the core of the town scene in `src/main.js`:

- **`HouseMod.create`** builds one house as a group of meshes:
  - a base box and two triangular gables;
  - two roof planes;
  - a simple or fancy door;
  - three rectangular panes, one circular window, or no windows.

  Each option of the style object falls back to a default when it is not given. The group is tagged `'house'`.
- **`createRandomHouse`** draws a style from fixed palettes. It places the house relative to its street group, turns it about the vertical axis, gives it an address and adds it to the street group and to the global list of houses.
- **The eight address loops** fill the eight street groups. A counter steps by 2, and each street's groups restart it at 1 or 2. The exception is North Street, where the counter carries on from the west row into the east row. After its loop, each West and East Street group is turned and moved.
- **The click handler** takes the nearest intersection and walks up the parent chain to the first object tagged `'house'`. It shows that house's address in the address card. A miss hides the card.
- **`toggleControlsMode`** and **`toggleLightMode`** are the two UI switches.

The modules are:

- **`Wrappers`**: `Option`.
- **`SceneGraph`**: an immutable `Object3D` tree with meshes, groups, transforms and `userData`. An object is identified by its path of child indices from the root. The parent of a path is the path without its last index. `CountIn` counts parts by kind over a whole tree.
- **`HouseMod`**: the style defaults, the materials, the part builders and `Create`.
- **`Decimal`**: the decimal text of a counter inside a template literal.
- **`Street`**:
  - the random style;
  - `createRandomHouse`;
  - one address loop, `PopulateStreet`, a method with a loop invariant.
- **`Town`**: the eight loops in source order (`BuildTown`), the closed-form address plan and its distinctness.
- **`Picking`**: the parent walk and the click handler.
- **`Modes`**: the controls switch and the light switch.

How the model represents the source:

- **Random numbers.** Each house draws six values from `Math.random`. In the model these are a `Rolls` record of six reals in [0, 1), listed in the order the source draws them: base colour, roof colour, door colour, scale, door type, window type. The town takes a sequence of 80 `Rolls`, one per house.
- **Angles.** Angles are multiples of π, so `Math.PI * 0.25` is `0.25`.
- **Numbers.** Lengths, the random scale and the time of day are exact reals.
- **Shadows.** The two shadow flags, `castShadow` and `receiveShadow`, are set together on every part of a house, and houses are the only objects modelled, so the model keeps them as one flag.
- **Raycasting.** The raycaster is not modelled. Its result, the hits nearest first with each hit object named by its path, is an input to `Click`.

Where the code's comments differ from what the code does, the model follows the code:

- `windowType` accepts `'rectangular'` and `'circular'`. Any other value, including the `'triangular'` that the option comment (line 332) mentions, gives a house with no windows.
- The circular window uses the door's material, not the window's.

One fact about the code as written is stated as a lemma rather than changed. `createRandomHouse` adds the street group's position to the house's offset, then adds the house to that group. The group's position therefore counts twice in the house's world position (`Street.GroupOffsetAppliedTwice`). The town layout as written depends on this, so the model keeps it.

## Model

| member | source | states |
|---|---|---|
| HouseMod.Create | src/main.js:280-422 | The result is a group tagged 'house' with no address. Its scale is the `scale` option on all three axes (default 1). It sits at the origin, unturned, with shadows on. It has six children (base, two gables, two roofs, door) plus the windows: three for 'rectangular', one for 'circular', none otherwise. No part inside it is tagged 'house'. The door, the circular window and the gables come from the part builders of lines 280-322. |
| HouseMod.ResolveStyleDefaults | src/main.js:325-334 | Each option is defaulted on its own. An option the object gives is used as given, whatever the other options are. A missing option takes its default. An empty options object yields all the defaults: white base and gables, roof 0x202020, door 0xff0000, windows 0x537d90, fancy door, rectangular windows, scale 1. |
| HouseMod.AddressedHouseWellFormed | src/main.js:343-348 | A created house, once an address is set, is tagged 'house', carries that address, and has no tagged part below it. |
| HouseMod.HouseShell | src/main.js:351-383 | Child 0 is the 3 x 2 x 4 base box in the base colour at the centre. Children 1 and 2 are the gable triangles in the gable colour at z = 2 and z = -2, otherwise at the same place. Children 3 and 4 are 2.84 x 4.5 roof planes in the roof colour, mirror images of each other in x position and y rotation. All are double-sided. |
| HouseMod.DoorShape | src/main.js:386-393 | The door sits at (0.5, -0.2, 2.1). It is the fancy door exactly when `doorType` is 'fancy': a group of a 1 x 1.2 plane and a radius-0.5 disc. It is the single 1 x 1.6 plane exactly otherwise. Both are in the door colour. |
| HouseMod.WindowShapes | src/main.js:395-415 | There are three windows exactly for 'rectangular', each a 1 x 1 pane in the window colour. There is one exactly for 'circular', a radius-0.5 disc in the door colour. There are none for any other window type. |
| HouseMod.ScaleOnlyScalesGroup | src/main.js:343-345 | Changing the scale option changes only the group's scale. Every part keeps its local transform, so the whole house scales together. |
| HouseMod.HouseCensus | src/main.js:351-415 | Counted over the whole tree: one group, plus one more for a fancy door; one box; two triangles; three planes plus three panes for rectangular windows; one disc for a fancy door's arch plus one for a circular window. |
| HouseMod.DefaultHouse | src/main.js:325-334 | `create()` with no options gives nine children, scale 1, a white base, a 0x202020 roof and a red fancy door. |
| Decimal.NatToString | src/main.js:498 | The counter's text is non-empty and all digits. It has one digit exactly when the counter is below 10, and starts with '0' exactly when the counter is 0. |
| Decimal.ParseNatToString | src/main.js:498 | Reading the counter's text back gives the counter. |
| Decimal.NatToStringInjective | src/main.js:498 | Different counters have different texts. |
| Street.RollIndex | src/main.js:463 | `Math.floor(r * n)` for a roll in [0, 1) is a valid index below n, and it is the floor of r * n. |
| Street.RandomStyle | src/main.js:457-474 | The random style's base colour is from the base palette, and the gables share it. The roof colour is from the roof palette and the door colour from the door palette. The window colour is 0x537d90. The door and window types are from their two-entry lists. The scale is in [0.75, 1.25). |
| Street.EveryRandomStyleReachable | src/main.js:458-473 | Conversely, every combination of palette entries at every scale in [0.75, 1.25) is produced by some rolls. |
| Street.RandomHouseWindows | src/main.js:462-473 | A random house always has 7 or 9 children: it never gets the window-less variant. |
| Street.AddressInjective | src/main.js:498 | On one street, two addresses are equal only when their numbers are. |
| Street.CreateRandomHouse | src/main.js:457-492 | The house is the one `create` builds from the random style. It is moved to the street group's position plus the offset at height 0, and turned by `rotateY`. It carries the given address and is well formed. The street group gains exactly this house as its last child, and the global list gains it at its end. |
| Street.PopulateStreet | src/main.js:497-500 | After `count` calls, the counter has grown by 2 * count. The group keeps its earlier children and its transform. The new children are exactly the houses created at offsets `i * spacing` with addresses `name` followed by `counter + 2i`. The global list gains exactly these houses, in order. |
| Street.GroupOffsetAppliedTwice | src/main.js:476-488 | In an unturned, unscaled street group, a placed house's world position is twice the group's position plus the offset. |
| Town.NorthStreet | src/main.js:496-505 | The North Street rows have 7 and 9 houses at the groups' positions. The counter is not reset, so the east row numbers 15, 17, …, 31. |
| Town.SouthStreet | src/main.js:507-517 | The South Street rows have 9 houses numbered from 1 and 10 numbered from 2. |
| Town.WestAndEastStreets | src/main.js:519-549 | The West and East rows have 10, 10, 10 and 15 houses. After its loop, each group is turned by π/2 (West) or 3π/2 (East) and moved to its final position. |
| Town.BuildTown | src/main.js:437-560 | The scene gets eight street groups in source order, with their final positions and turns. The global list is their children concatenated, 80 houses. House k carries the planned address, and every house is well formed. No two houses share an address. Each row is exactly the houses `createRandomHouse` made for it. |
| Town.TownAddresses | src/main.js:496-547 | The eight rows concatenated follow the closed-form address plan, so no two of the 80 houses share an address. |
| Town.StreetNumbers | src/main.js:496-547 | The numbers each street receives are these, in both directions. North Street: odd 1–31. South Street: odd 1–17 and even 2–20. West Street: odd 1–19 and even 2–20. East Street: odd 1–19 and even 2–30. |
| Town.TownRowsPlanned | src/main.js:496-547 | The eight rows concatenated in loop order hold 80 well-formed houses, and house k carries the k-th planned address. |
| Town.PlannedHousesDistinct | src/main.js:496-547 | Houses that carry the planned addresses in order have pairwise distinct addresses. |
| Town.PlannedAddressesDistinct | src/main.js:496-547 | No two planned houses share an address. |
| Town.ClickInTown | src/main.js:584-618 | In a town of well-formed houses, clicking any part of any house shows that house's address. |
| Picking.FindHouse | src/main.js:598-618 | If the walk finds a house, its result is a prefix of the start path tagged 'house', and no longer prefix is tagged. If it finds none, no prefix is tagged. |
| Picking.Click | src/main.js:584-624 | No hits: the card is hidden and nothing else changes. Nearest hit without a tagged ancestor: the card is unchanged. Otherwise the card is shown with "Address: " and the house's address ("undefined" if unset), at the click's client coordinates. |
| Picking.WalkStopsAtHouse | src/main.js:598-616 | Starting anywhere inside a well-formed house, the walk stops at that house. |
| Picking.ClickOnHousePart | src/main.js:594-616 | Clicking any part of a well-formed house shows that house's address, whatever lies behind it. This holds for the fancy door's pieces too, two levels down. |
| Picking.ClickOnNothing | src/main.js:619-622 | A miss hides the card and leaves its text and position alone. |
| Picking.ClickUsesNearestOnly | src/main.js:594-595 | Hits behind the nearest never change the outcome. |
| Picking.ClickIdempotent | src/main.js:584-624 | A second click with the same hits leaves the card as the first left it. |
| Picking.ClickWithoutHouseKeepsCard | src/main.js:598-618 | A hit with no tagged ancestor leaves the card exactly as it was. |
| Modes.ToggleControlsMode | src/main.js:179-187 | Exactly one of the two controls is enabled afterwards. Orbit controls are on exactly when the mode is 'orbit'. |
| Modes.ExactlyOneController | src/main.js:170-209 | From start-up, after any non-empty sequence of presses, exactly one controller is enabled, the one the last press chose. |
| Modes.ToggleLightMode | src/main.js:66-97 | Daylight is on exactly when the mode is 'daylight'. Each 'daylight' call starts one more animation chain and takes one step of the time of day on the spot. Any other mode clears the flag and restores the static light of `setStaticLight`: the sun at (50, 70, 70) and intensities 0.6, 1 and 1. |
| Modes.AdvanceDayTime | src/main.js:109-110 | One step adds 0.001 to the time of day, wrapping to 0 once past 1, and keeps it within [0, 1]. |
| Modes.Frame | src/main.js:106-134 | While daylight is on, a frame advances the time of day by 0.001 per running chain, as long as that does not pass 1. It keeps the time in [0, 1] and changes nothing when daylight is off or no chain runs. |
| Modes.AdvanceBy | src/main.js:109-110 | n steps in a row add n × 0.001 to the time of day, as long as that does not pass 1. They keep the time in [0, 1]. |
| Modes.LastPressDecidesLight | src/main.js:66-74 | After any non-empty sequence of presses, daylight is on exactly when the last press was 'daylight'. |
| Modes.DaylightPressesStackLoops | src/main.js:66-134 | As written, after n presses of 'daylight', exactly n more animation chains run than before. |
| Modes.DaylightTwiceStacksLoops | src/main.js:66-134 | As written, two 'daylight' presses from start-up leave two chains and the time of day at 0.002, one step per press. One frame then brings it to 0.004. |
| Modes.ToggleLightModeSingleLoop | src/main.js:66-74 | The corrected switch agrees on the daylight flag and the static light. It starts a chain, with its immediate step, only when none is running. Otherwise it leaves the time of day alone. |
| Modes.SingleLoopAtMostOne | src/main.js:66-74 | With the corrected switch, at most one chain runs after any sequence of presses, and exactly one once 'daylight' was pressed. |
| Modes.DaylightTwiceSingleLoop | src/main.js:66-134 | With the corrected switch, two 'daylight' presses from start-up leave one chain and the time of day at 0.001. One frame then brings it to 0.002. |

## Left out

- Rendering is not modelled: renderer, camera, sky shader, fog, ground, central cube, compass, resize handling and the per-frame `animate` loop. None of these bears on the houses or addresses.
- The lights' configuration is not modelled: colours, shadow maps, the light helper. The model keeps only what `setStaticLight` writes: the sun position (50, 70, 70) and the intensities 0.6, 1 and 1.
- Modes.ToggleLightMode: in the 'daylight' branch, the immediate `animateDaylight` call also writes the sun position, the three intensities and the sun colour, which are trigonometric floating-point values. The model steps only the time of day and keeps those fields at their previous values.
- Modes.Frame: models only the time of day. The daylight animation's sun position, intensities and colour are trigonometric floating-point updates and are left out.
- Orbit and first-person controls keep only their `enabled` flags. Their camera behaviour belongs to the three.js library.
- Mouse handling is left out: the mouse-to-normalised-device-coordinate conversion and the raycaster's geometry. The hits the raycaster returns are an input to `Click`.
- `console.log` calls are left out. They have no effect on the scene.
- `Math.random` is replaced by explicit rolls, so the model covers every outcome rather than a random one.
- The scene's other children are left out: lights, helpers, sky and cube. The town scene holds only the eight street groups. No other object in the source carries the 'house' tag, so the pick walk's results are unchanged.
- Lengths are exact reals, not 32-bit or 64-bit floats, and angles are exact multiples of π.
- The random scale `r * 0.5 + 0.75` is an exact real, so `RandomStyle` promises a scale below 1.25. In doubles, the largest value `Math.random` can return rounds to exactly 1.25, so the source can reach 1.25 itself.
- The time of day is an exact real. The model's steps of 0.001 pass 1 at step 1001; summed in doubles, they pass 1 at step 1000.
- `materials_default` in the part builders is never taken: `create` always passes its own materials.
- `createRandomHouse`'s `rotateY = 0` default is never taken: every call passes a rotation.
- `house.position.set` and `rotation.y` are modelled as setting the fields; three.js's internal matrix updates are left out.
- The alternative house and street sources in the repository (`streets1.js`, `house1.js`, `house-gables.js`) are not part of this model. `main.js` does not use them.

## Findings

| source | as written | input that shows it | evidently intended | confidence | as-written member | corrected member |
|---|---|---|---|---|---|---|
| src/main.js:66-74 | Each `toggleLightMode('daylight')` calls `animateDaylight`, which always reschedules itself with `requestAnimationFrame`. Every press therefore starts another animation chain, and none is ever stopped. | Press "Daylight Simulation" twice: two chains run, and each frame advances the time of day by 0.002 instead of 0.001. | One chain at most, so the day always runs at 0.001 per frame. | medium, not executed | Modes.DaylightPressesStackLoops | Modes.SingleLoopAtMostOne |
