# SimpleSim in Dafny

SimpleSim is a small browser particle simulator. A `System` keeps a record
list whose first entry is the `World` and whose other entries are `Item`s.
Each animation frame steps every record, from the last to the first, and
then draws every record. Items feel the world's wind, thermal and gravity,
cap their speed, bounce off the world's edges and may drag the world along
as a camera. The released edition also recycles destroyed items through a
pool kept on the world.

The repository holds seven snapshots of the same library. The `Edition`
datatype names them, and every rule below that differs between them
dispatches on it:

| edition | file(s) | what is distinctive |
|---|---|---|
| `Release` | release/SimpleSim.js | object pool, pause on resize, world options, camera, angle |
| `Source` | src/System.js, src/Item.js, src/World.js | gravity steered by the mouse, pause and keys, camera |
| `Bundle` | simplesim.js | bounciness fixed at 0.8, edge check always on, wind |
| `Tutorial8` | steps/scripts/simplesim_step8.js | optional edge check, undamped reflection, no speed cap |
| `Tutorial7` | scripts/simplesim_step7.js | gravity-only step, allocating vector helpers |
| `Tutorial5` | steps/scripts/simplesim_step5.js | an item falls one unit per step |
| `Tutorial3` | steps/scripts/simplesim_step3.js | only the record list and `add`, no `Item` class |

Two demo files define item kinds that rewrite the options map before the
`Item` constructor reads it. public/scripts/rocks.js defines `Pebble` and
`Boulder`; rocks.js defines an earlier `Pebble`.

Modules, from the bottom up:

- `Wrappers`: `Option` and `Result`.
- `Reals`: multiplication and squares, with the few facts the proofs need.
- `Utils`: `getRandomNumber` and the JavaScript defaulting idioms `x || d` and `x === undefined ? d : x`.
- `Vectors`: `Vec` values and every vector operation.
- `Editions`: which snapshot has which feature.
- `Drawing`: the values `_draw` writes into the style.
- `ItemRules`: item `init`, `step`, forces, edges, camera push and draw, as functions on an `ItemState`.
- `WorldRules`: the world constructor and `World.step`, as functions on a `WorldState`.
- `Rocks`: the demo kinds.
- `Records`: the `World` and `Item` classes, whose methods update their fields in place and are proved to follow `ItemRules` and `WorldRules`.
- `Registry`: kind resolution, the queries, the step round of one update, the camera shift, the frame order, the mouse and the resize rescaling.
- `Sim`: the `System` class.

Inside `Sim`, the `System` class holds the record list as `world` plus
`items: seq<Item>`. The pool is `world.pool: seq<Item>`. The class also holds
the id counter, the id lookup (from an id to the parent of the item's
element, the world or none), the mouse, the resize time and the chosen
positioning rule. The world keeps `shown`, the items whose elements are
children of its element. Its handlers are methods proved against the `Registry`
functions. `Valid()` is preserved by every handler. It says:

- every item belongs to this world;
- every item has a mass it can be divided by;
- no record is listed twice;
- no record is both listed and pooled.

Things the program reads from the browser are parameters:

- the viewport size;
- the mouse event;
- the key code;
- the clock (`now`, in milliseconds);
- each `Math.random()` draw (a real in [0, 1));
- `Math.sqrt`, a function `sqrt` that satisfies `IsSqrt`.

Numbers are Dafny reals, so the clamp and scaling laws hold exactly.

`getAllItemsByName` without a list searches the whole record list. The model
searches the items only, which gives the same result: the world record has
no `name`.

## Model

| member | source | states |
|---|---|---|
| Utils.RandomIntegerInRange | release/SimpleSim.js:595-600 | with integer bounds low <= high and a draw in [0, 1), the integer form returns an integer in [low, high] |
| Utils.RandomIntegerReachable | release/SimpleSim.js:599 | every integer in [low, high] is returned for some draw in [0, 1) |
| Utils.RandomFloatRange | release/SimpleSim.js:596-598 | the floating form returns a value in [low, high + 1), so it can exceed high |
| Utils.RandomFloatAboveHigh | release/SimpleSim.js:597 | the draw 0.75 on the range [0, 1] gives 1.5, above the upper bound |
| Utils.RandomFloat | release/SimpleSim.js:596-598 | the corrected floating form stays in [low, high], and below high unless the range is one point |
| Utils.NumberDefaultIdioms | src/Item.js:35-45 | on a number option, `value || fallback` and `value === undefined ? fallback : value` give the same value exactly when the option is not 0 or the fallback is 0 |
| Utils.StringDefaultIdioms | src/Item.js:14 | on a string option, the two defaulting idioms give the same value exactly when the option is not the empty string or the fallback is empty |
| Utils.OrIdempotent | src/Item.js:35-43 | applying the same `||` default to an already defaulted number changes nothing |
| Utils.OrNonZero | src/Item.js:35-37 | with a non-zero fallback, the `||` default is never zero, so width and height are never zero |
| Utils.Decimal | src/Item.js:15 | the number written into an id is a non-empty digit string ending in the last decimal digit |
| Utils.DecimalInjective | src/Item.js:15 | different serial numbers are written as different strings |
| Vectors.MagSq | release/SimpleSim.js:663-665 | the squared magnitude is non-negative and zero exactly for the zero vector |
| Vectors.SubAddRoundTrip | scripts/simplesim_step7.js:315-328 | VectorSub undoes VectorAdd and VectorAdd undoes VectorSub |
| Vectors.DivMultRoundTrip | scripts/simplesim_step7.js:337-350 | for n != 0, VectorDiv undoes VectorMult and the reverse |
| Vectors.MidPointHalfway | scripts/simplesim_step7.js:370-372 | the midpoint (v1 + v2) / 2 is equidistant from both arguments, symmetric, and a point's own midpoint is itself |
| Vectors.DotProperties | scripts/simplesim_step7.js:536-541 | dot is symmetric; z counts only when both z values are truthy; dot(a, a) is the squared magnitude |
| Vectors.MagSquared | release/SimpleSim.js:663-665 | mag is the non-negative root of x*x + y*y and is zero exactly for the zero vector |
| Vectors.MagCompare | release/SimpleSim.js:677 | comparing mag with a non-negative bound agrees with comparing the squares |
| Vectors.NormalizeUnit | release/SimpleSim.js:694-699 | normalize leaves a non-zero vector with magnitude 1 in the same direction and leaves the zero vector unchanged |
| Vectors.RescaledMag | release/SimpleSim.js:678-679 | normalize then mult(len) gives magnitude exactly len, in the vector's direction |
| Vectors.LimitHigh | release/SimpleSim.js:674-686 | limit(high) with high > 0 leaves magnitude <= high: a longer vector is rescaled to exactly high in the same direction, any other is unchanged |
| Vectors.LimitLow | release/SimpleSim.js:681-684 | a non-zero vector shorter than a truthy low is raised to magnitude low; a vector at least that long is unchanged |
| Vectors.LimitZero | scripts/simplesim_step7.js:465-477 | limit leaves the zero vector zero whatever the bounds |
| Vectors.NormalizeZero | scripts/simplesim_step7.js:485-490 | normalize is a no-op on the zero vector |
| Vectors.LimitWithinBounds | scripts/simplesim_step7.js:465-477 | with both bounds falsy limit is the identity; a magnitude already within the truthy bounds is untouched |
| Vectors.DistanceSymmetric | scripts/simplesim_step7.js:359-361 | VectorDistance(a, b) == VectorDistance(b, a) |
| Vectors.DistanceIsMag | scripts/simplesim_step7.js:498-500 | the distance from a to b is the magnitude of b - a |
| Vectors.DistanceToSelf | scripts/simplesim_step7.js:359-361 | a point is at distance 0 from itself |
| Drawing.Draw | release/SimpleSim.js:407-424 | the frame's top-left corner plus half the size is the record's location; radius and angle are written only where the edition has them |
| ItemRules.InitMass | src/Item.js:35-37 | after init width and height are non-zero (20 when absent or 0), where forces are used, mass is width * height times the edition's factor (0.025, or 0.01 in the bundle and step 8), so the item can step |
| ItemRules.InitDefaults | src/Item.js:32-45 | maxSpeed and bounciness options of 0 or none become 5 and 0.75, other values are kept; checkWorldEdges defaults to true and an explicit false is kept; controlCamera defaults to false; location defaults to the world's centre; acceleration defaults to zero |
| ItemRules.InitFixedBounciness | simplesim.js:270-276 | the bundle's init sets bounciness 0.8 whatever the options and mass = width * height * 0.01 |
| ItemRules.ApplyForce | src/Item.js:73-79 | applyForce(f) raises the acceleration by exactly f / mass |
| ItemRules.AcceleratedByNetForce | src/Item.js:52-54 | wind, thermal and gravity applied in turn add their sum over the mass, so the order does not matter |
| ItemRules.EdgeAxisLaw | release/SimpleSim.js:111-117 | the position moves exactly when the item sticks out past 0 or the bound; then the velocity component becomes -v * bounciness, otherwise it is unchanged; a fitting item ends within [size/2, bound - size/2] and a second check does not move it |
| ItemRules.EdgesAxisIndependent | src/Item.js:94-108 | the x results depend only on the x inputs and the width, the y results only on the y inputs and the height |
| ItemRules.EdgesKeepInside | release/SimpleSim.js:102-126 | when the item fits, after the edge check width/2 <= x <= world.width - width/2 and the same for y |
| ItemRules.EdgesDoNotSpeedUp | simplesim.js:319-333 | a reflection with a factor in [-1, 1] (0.8 in the bundle) never raises the speed; with factor 1 it keeps the speed |
| ItemRules.StepMovesOnly | src/Item.js:51-66 | in every edition a step changes only location, velocity, acceleration and angle, so the item can step again |
| ItemRules.CameraPush | release/SimpleSim.js:77-79 | an item pushes the camera exactly when the edition has a camera and its controlCamera is set, and it pushes with its velocity after the edge check |
| ItemRules.StepOutcome | src/Item.js:51-66 | after a step with forces the acceleration is zero, location_new = location after the edge check + velocity_new, angle == location.x where there is an angle, and sizes, mass, caps and flags are unchanged |
| ItemRules.StepSpeedBound | release/SimpleSim.js:72-76 | where speed is capped, a positive maxSpeed and a bounciness in [-1, 1] leave the squared speed after the step at most maxSpeed squared, reflections included |
| ItemRules.UndampedStep | steps/scripts/simplesim_step8.js:237-247 | step 8 has no speed cap: the new velocity is old velocity + acceleration + net force / mass, up to the sign of each component; a reflection keeps the speed; with checkWorldEdges false there is no clamp and no reflection |
| ItemRules.GravityStepInverse | scripts/simplesim_step7.js:231-234 | the step adds gravity to the velocity and the new velocity to the location, and subtracting them recovers the old state |
| ItemRules.FallingSteps | steps/scripts/simplesim_step5.js:213-215 | after n steps the item is exactly n units lower, at the same x, and nothing else has changed |
| WorldRules.WorldDefaults | src/World.js:17-28 | every world starts unpaused at camera (0, 0) and fills the viewport unless options give a size; the split sources use gravity (0, 0.1), wind 0 and thermal (0, -0.025); the bundle adds wind (0.05, 0); released defaults are gravity (0, 0.1), no wind or thermal, and a given angle is kept |
| WorldRules.MouseSteering | src/World.js:40-45 | World.step changes only gravity; gravity is zero exactly with the mouse at the centre, each component has the sign of the mouse offset, and the mouse position can be read back from it |
| WorldRules.StaticWorld | release/SimpleSim.js:756 | outside the split sources a world's step changes nothing |
| Records.World.constructor | release/SimpleSim.js:728-744 | the new world has the edition's initial properties, an empty pool and no item elements shown |
| Records.World.Create | release/SimpleSim.js:719-745 | the constructor throws its message exactly when the element is missing, falsy or not an object; otherwise it gives a fresh world with the initial properties and an empty pool |
| Records.World.Step | src/World.js:40-45 | the world's new state is the mouse-steered one in the split sources and its old one elsewhere |
| Records.World.Draw | release/SimpleSim.js:761-763 | the world's frame is computed from its state and is centred on its location |
| Records.World.Attribute | release/SimpleSim.js:728-751 | a world has pauseStep, its `world` is an object (`{}`), and it has no name or id |
| Records.Item.constructor | src/Item.js:13-21 | the item belongs to the given world, is named by the option or 'Item', and its id is the name followed by the serial number; it has no index and no options map yet, and its element joins the world's |
| Records.Item.Create | src/Item.js:9-21 | the constructor throws its message exactly when the options or their world are missing, changing nothing; otherwise a fresh item with that name and id, no index, no options map, whose element joins the world's, the world's properties and pool unchanged |
| Records.Item.Init | release/SimpleSim.js:38-63 | init writes exactly the state of InitState; the released edition also copies the name and index options onto the item |
| Records.Item.ApplyForce | release/SimpleSim.js:90-96 | the method performs ItemRules.ApplyForce on the acceleration |
| Records.Item.CheckWorldEdges | release/SimpleSim.js:102-126 | the in-place edge check leaves location and velocity equal to ItemRules.CheckWorldEdges |
| Records.Item.CheckCameraEdges | release/SimpleSim.js:131-135 | world.camera becomes -velocity and the world's location moves by -velocity |
| Records.Item.Step | release/SimpleSim.js:68-83 | the new item state is ItemRules.Step of the old one against the old forces; a camera-controlling item moves its world by minus its pushed velocity; otherwise the world is unchanged |
| Records.Item.Accelerate | release/SimpleSim.js:69-71 | the three applyForce calls leave the acceleration of ItemRules.Accelerated |
| Records.Item.Drive | release/SimpleSim.js:69-73 | after the forces, the velocity update and the cap, the velocity is ItemRules.Driven |
| Records.Item.StepWithForces | src/Item.js:51-66 | the field-by-field step with forces produces ItemRules.Step and the camera push |
| Records.Item.Advance | release/SimpleSim.js:80-82 | the location advances by the velocity, the angle follows x where it turns, the acceleration is cleared |
| Records.Item.Draw | release/SimpleSim.js:140-142 | the item's frame is DrawItem of its state and is centred on its location |
| Records.Item.Attribute | release/SimpleSim.js:316 | an item has its name and id; `options` is defined exactly when add attached the map on reuse; it has no pauseStep |
| Registry.ResolveOutcome | release/SimpleSim.js:322-328 | where the edition has an `Item` class, add makes a record exactly for `Item` and for Classes names that are not exports; a name in neither gives exactly the "class does not exist" error |
| Registry.KindOptionsDefined | release/SimpleSim.js:305-325 | through add the demo kinds always receive a map and never fail; a plain item gets the options unchanged; name and index pass through |
| Registry.IdsDistinct | src/Item.js:15 | two ids with the same name are equal only for equal serial numbers |
| Registry.IdsCollideAcrossNames | src/Item.js:15 | ids are not unique across names: "Item1" with serial 1 and "Item" with serial 11 share an id |
| Registry.NamedMembers | release/SimpleSim.js:490-501 | an entry is in getAllItemsByName's result exactly when it is in the list with that name |
| Registry.NamedConcat | release/SimpleSim.js:495-499 | the query distributes over concatenation, so it keeps list order, and is no longer than the list |
| Registry.FirstIndex | release/SimpleSim.js:313-319 | the shared search of `add` and `destroyItem`: the position of the first occurrence of the key, with no occurrence before it, or none when the key does not occur |
| Registry.FirstNamed | release/SimpleSim.js:313-319 | the pool search finds the first entry with the name, or reports that none has it |
| Registry.FirstNamedAgrees | release/SimpleSim.js:310-314 | the pool is reused exactly when the name query on it is non-empty, and the reused entry is the query's first result |
| Registry.FirstWithId | release/SimpleSim.js:346-347 | destroyItem's search finds the first record with the id, or reports that none has it |
| Registry.RemoveAt | release/SimpleSim.js:349 | splice(k, 1) shortens the list by one and keeps the other entries in order |
| Registry.RemoveAtMembers | release/SimpleSim.js:315 | in a list without repeats, removing the entry at k leaves exactly the other entries |
| Registry.ByAttributeMembers | release/SimpleSim.js:511-525 | a record is kept exactly when the attribute is defined and, for a given non-null value, strictly equal to it; null and no value both apply no value filter |
| Registry.RecordList | release/SimpleSim.js:211 | the record list is the world first, then the items in order |
| Registry.PushOfStep | release/SimpleSim.js:77-79 | the camera push read off the state before the step equals the one read off the state after it |
| Registry.ShiftedBySum | release/SimpleSim.js:372-377 | over a step round the world moves by minus the sum of the pushing items' velocities, whatever their order |
| Registry.NoPushNoShift | release/SimpleSim.js:77-79 | without an item that controls the camera the world stays put |
| Registry.ItemFramesReversed | release/SimpleSim.js:379-381 | the draw loop yields one frame per item, in reverse list order |
| Registry.PushedBy | release/SimpleSim.js:131-135 | a push changes only the world's location and camera, and no push leaves the world unchanged |
| Registry.StepItemAt | release/SimpleSim.js:373-376 | one pass of the step loop keeps the item count and changes nothing of the world but its location and camera |
| Registry.StepsFrom | release/SimpleSim.js:372-377 | part way down the loop the items not yet reached are unchanged and the world changed only in location and camera |
| Registry.StepsFromState | release/SimpleSim.js:372-377 | part way down at i, the items from i on have their new states, those before i their old ones, and the world has been pushed by the new ones, last item first |
| Registry.StepItemAtFrom | release/SimpleSim.js:372-377 | each pass steps an item that has not stepped yet, against forces the earlier passes did not change |
| Registry.StepsFromZero | release/SimpleSim.js:372-377 | once the loop reaches the first item it has performed the whole round |
| Registry.StepRoundKeeps | release/SimpleSim.js:372-377 | a round keeps every item able to step and keeps the world's size, angle, wind, thermal, looks and pause flag; gravity changes only where the mouse steers it |
| Registry.StepRoundMoves | src/System.js:177-182 | a gated round in a paused world moves no item and leaves location and camera; otherwise all items step against the forces before the world's own step and the world moves by minus the sum of the pushes |
| Registry.EmptyRound | release/SimpleSim.js:248-250 | with no items a round is the world's own step |
| Registry.FramesOrder | src/System.js:184-186 | one frame per record: the items' in reverse list order, then the world's last |
| Registry.MouseVelocity | src/System.js:128-140 | lastLocation is the old location and velocity = lastLocation - location; page coordinates win when both are truthy; an event without usable coordinates keeps the location and zeroes the velocity |
| Registry.RescaleLaws | src/System.js:250-254 | newSize * (x / oldSize) keeps x's proportion of the world, is undone by rescaling back, and keeps a point of [0, oldSize] inside [0, newSize] |
| Registry.RescaledAll | simplesim.js:171-175 | the resize loop rescales every item and keeps the item count |
| Registry.ChoosePositioning | release/SimpleSim.js:203-209 | 3-D transforms exactly when supported, absolute positioning exactly when neither transform is, 2-D transforms otherwise |
| Rocks.PebbleShape | public/scripts/rocks.js:11-21 | fails exactly without options; size 15 + index (20 by default) for width and height, maxSpeed 15, colour [from 100..255, from 10..100, 0], radius an integer in [40, 50], no other key changed |
| Rocks.BoulderShape | public/scripts/rocks.js:36-46 | fails exactly without options; size 50 + 10 * index (100 by default), maxSpeed 15, colour [from 100..255, from 100..255, 0], radius an integer in [30, 40], no other key changed |
| Rocks.EarlyPebbleShape | rocks.js:11-19 | fails exactly without options; width == height == index (5 by default), colour [an integer from 0..255, 0, 0], no other key changed |
| Sim.System.constructor | release/SimpleSim.js:154-178 | a system on the world with no items, an empty lookup, counter 0, mouse at the origin and no resize pending |
| Sim.System.Create | release/SimpleSim.js:196-253 | from step 7 on there is a TypeError without supportedFeatures; a non-object element fails in the world constructor; otherwise the world is the first record, setup has run once, the first update has stepped the world, the positioning follows the features, the mouse is at the origin, no resize is pending and no item element is shown |
| Sim.System.Launch | release/SimpleSim.js:211 | a fresh valid system on the new world, no items, an empty pool, setup run once, the world stepped once where there is an update, the mouse at the origin and no resize pending |
| Sim.System.Start | release/SimpleSim.js:248-250 | the setup count rises by one, and where there is an update the world takes its own step; no resize becomes pending |
| Sim.System.GetNewId | src/System.js:31-34 | the counter rises by exactly one and the new value is returned, so successive ids increase |
| Sim.System.Add | release/SimpleSim.js:301-335 | on a pool hit the first pooled item with the name leaves the pool, is appended with its old id, the counter stays, it gets the options, takes their name and index where given (keeping the looked-up name otherwise), its lookup entry is its element's parent (none after a reset detached it) and it is re-initialised; an unknown kind throws and changes nothing; a known kind is built with the next id, its element shown in the world's, appended, entered in the lookup under the world and initialised, with the released edition's name and index copy; the world, the mouse, the setup and resize state and every pooled item not reused are unchanged |
| Sim.System.Recycle | release/SimpleSim.js:309-320 | the pool half of add: on a hit the first named pooled item moves to the end of the list, named by the options or still by `klass`, with the options' index where given and its element's parent in the lookup; without one nothing changes; the other pooled items are untouched |
| Sim.System.FindPooled | release/SimpleSim.js:313-319 | the search loop stops at the first pooled item with the name |
| Sim.System.Revive | release/SimpleSim.js:315-316 | the pooled item at k moves to the end of the list with the options attached and is re-initialised; it takes the options' name and index where given and keeps its own otherwise; its lookup entry is its element's parent; the other pooled items are untouched |
| Sim.System.Build | release/SimpleSim.js:321-334 | the construction half of add: an unknown kind throws and leaves the list, counter, lookup and shown elements as they were; a known kind is constructed with the next id from the options its kind rewrote, shown in the world's element, appended, entered in the lookup under the world and initialised; the world's properties are unchanged |
| Sim.System.Construct | src/System.js:155-166 | a new item with the next id is appended, its element shown in the world's, entered in the lookup under the world and initialised; it is named by the option or 'Item', and in the released edition by any given name, with the given index |
| Sim.System.DestroyItem | release/SimpleSim.js:342-353 | the first record with the id leaves the list, the others keep their order, and it is appended to the pool; without a match nothing changes |
| Sim.System.GetAllItemsByName | release/SimpleSim.js:490-501 | the loop returns exactly Named of the given list, or of the items |
| Sim.System.GetAllItemsByAttribute | release/SimpleSim.js:511-525 | the loop returns exactly ByAttribute of the record list |
| Sim.System.StepRecords | release/SimpleSim.js:372-377 | the step loop produces StepRound: items step unless gated and paused, the world steps last |
| Sim.System.StepWorldLast | release/SimpleSim.js:372-376 | the world record, first in the list and so last in the loop, takes its own step; every item's state and the system's invariant are kept |
| Sim.System.StepItems | src/System.js:177-182 | the items' loop, last to first, produces StepItemsRound of the state before it |
| Sim.System.StepOne | release/SimpleSim.js:373-376 | one pass steps the item at i and pushes the world; no other item changes, and only location, velocity, acceleration and angle can change on any item |
| Sim.System.MoveOne | release/SimpleSim.js:375 | the item steps per ItemRules.Step and the world is pushed by its new state |
| Sim.System.DrawRecords | release/SimpleSim.js:379-381 | the draw loop yields Frames of the state and changes nothing |
| Sim.System.Update | release/SimpleSim.js:359-383 | one tick: a resize settled over 250 ms ago unpauses the world, then the step round, then frames of the new state |
| Sim.System.Tick | release/SimpleSim.js:363-377 | the resize check followed by the gated step round |
| Sim.System.SettleResize | release/SimpleSim.js:364-370 | a pending resize older than 250 ms is cleared and unpauses the world; otherwise nothing changes |
| Sim.System.StepForward | src/System.js:194-207 | the world is paused, every record steps regardless of the pause, and the frames show the new state |
| Sim.System.SetPause | src/System.js:199 | `world.pauseStep = b`, as `_stepForward` and key 80 write it: only the pause flag of the world changes, and every item's state is kept |
| Sim.System.ResetSystem | release/SimpleSim.js:468-481 | the list becomes just the world, unpaused and centred in the viewport with its other properties kept; the world's element loses every item element; the pool, lookup and counter stay; setup runs again |
| Sim.System.Keyup | src/System.js:106-121 | key 39 steps forward, key 80 toggles only the pause flag, key 82 resets exactly as ResetSystem does, leaving the world's other properties as they were, any other key changes nothing; only key 82 replaces the item list, and no key touches the counter, lookup, pool or mouse |
| Sim.System.RecordMouseLoc | release/SimpleSim.js:282-294 | the mouse becomes MouseAfter of the old mouse and the event |
| Sim.System.Resize | release/SimpleSim.js:441-460 | the released edition records the time and pauses; each item's location is rescaled from the old world size to the viewport; the world takes the viewport's size and centre |
| Sim.System.ResizeWorld | release/SimpleSim.js:447-459 | the world's part of resize: the time and the pause in the released edition, then size and centre |
| Sim.System.RescaleItems | src/System.js:250-254 | the loop over the items leaves RescaledAll of their old states |
| Sim.System.RescaleOne | simplesim.js:172-174 | one pass rescales the item at i and no other item changes |

The methods above are proved against rule functions. Most of those
functions have no row of their own, so the lemmas that state each one's
properties are named beside it here:

- `Utils.RandomNumber`: RandomIntegerInRange, RandomIntegerReachable, RandomFloatRange, RandomFloatAboveHigh.
- `Vectors.Add`, `Sub`: SubAddRoundTrip. `Mult`, `Div`: DivMultRoundTrip. `Dot`: DotProperties. `MidPoint`: MidPointHalfway.
- `Vectors.Mag`: MagSquared, MagCompare. `Normalize`: NormalizeUnit, RescaledMag, NormalizeZero. `Limit`: LimitHigh, LimitLow, LimitZero, LimitWithinBounds. `Distance`: DistanceSymmetric, DistanceIsMag, DistanceToSelf.
- `ItemRules.InitState`: InitMass, InitDefaults, InitFixedBounciness. `Accelerated`: AcceleratedByNetForce.
- `ItemRules.EdgeAxis`: EdgeAxisLaw. `CheckWorldEdges`: EdgesAxisIndependent, EdgesKeepInside, EdgesDoNotSpeedUp.
- `ItemRules.Step`: StepMovesOnly, StepOutcome, StepSpeedBound, UndampedStep, GravityStepInverse. `CameraPush`: PushOfStep. `Steps`: FallingSteps.
- `WorldRules.InitWorld`: WorldDefaults. `StepWorld`: MouseSteering, StaticWorld, EmptyRound.
- `Registry.Resolve`: ResolveOutcome. `KindOptions`: KindOptionsDefined. `Named`: NamedMembers, NamedConcat, FirstNamedAgrees. `RemoveAt`: RemoveAtMembers. `ByAttribute`: ByAttributeMembers.
- `Registry.ShiftedBy`, `PushSum`: ShiftedBySum, NoPushNoShift. `ItemFrames`: ItemFramesReversed. `StepsFrom`, `StepItemAt`: StepsFromState, StepItemAtFrom, StepsFromZero.
- `Registry.StepRound`: StepRoundKeeps, StepRoundMoves, EmptyRound. `Frames`: FramesOrder. `MouseAfter`: MouseVelocity. `Rescale`: RescaleLaws.
- `Rocks.PebbleOptions`: PebbleShape. `BoulderOptions`: BoulderShape. `EarlyPebbleOptions`: EarlyPebbleShape. All three: KindOptionsDefined.

## Left out

- DOM work is not modelled: element creation, class names, style writes and the opacity set in `destroyItem`. `_draw` yields a `Frame` value instead. Of `appendChild`/`removeChild`, only which item elements are children of the world's element is kept (`World.shown`), because `add` reads it back through `el.parentNode`.
- The event wiring and `requestAnimFrame` are not modelled. Handlers are methods called once with the event's data, and `_update` is one tick.
- `getViewportSize` is not modelled, because it reads the browser; the viewport is a parameter. `new Date().getTime()` is the parameter `now`.
- The `devicemotion` handler is left out, because it depends on device orientation events.
- The setup callback is counted, not run, because its effects are user code.
- Sim.System.SettleResize: the released `_update` (release/SimpleSim.js:366-368) calls the world's `afterResize` callback, if one is set, when a resize settles; the model drops that call and keeps no count of it, because the callback is user code.
- `Vector.rotate` and `VectorAngleBetween` are left out, because they need cos, sin and acos. `Math.sqrt` is an abstract square root.
- IEEE rounding, Infinity and NaN are out of scope: numbers are reals.
- `getCSSText`'s text and the positioning templates are left out, because they are string formatting. Only the chosen rule and the substituted values are modelled.
- The `opacity` and `zIndex` values of the released `_draw` are left out, because items never set them.
- `Utils.extend` and `Vector.prototype.clone` are left out, because they are prototype plumbing.
- Rocks: rocks.js calls `Utils.extend` and `Utils.getRandomNumber`. The released and bundled editions define both (release/SimpleSim.js:580, 595; simplesim.js:401, 416). The split sources' `Utils` file is not part of this model; the released file is built from the split sources, so they evidently define both too. The tutorial steps' `Utils` has only `getViewportSize` (scripts/simplesim_step7.js:258). The model assumes the demo kinds run with an edition that defines both, so it does not model the `TypeError` a tutorial step would throw.
- Vector aliasing is not modelled. Vectors are values, and `world.cacheVector` is not modelled because every use overwrites it first.
- Rocks.PebbleOptions, Rocks.BoulderOptions, Rocks.EarlyPebbleOptions: the constructors write into the caller's options map. Here they return the rewritten map, which `add` passes on. The caller seeing the new keys is not captured.
- `options.world = records[0]` writes into the caller's map; this is not modelled.
- Records.Item.Init: the released `for (i in options)` copy of every key onto the item is modelled only for `name` and `index`. The keys `init` assigns anyway are overwritten, and the options model has no other keys.
- Sim.System.GetAllItemsByAttribute: the query value is `null`, absent or a primitive. The source also accepts an object and compares it with `!==`, that is by identity (release/SimpleSim.js:514-518), so `getAllItemsByAttribute('world', world)` returns every item. Object-valued attributes are one `ObjectValue` here, so queries by an object cannot be expressed. Registry.ByAttributeMembers carries the same restriction.
- Sim.System.Create: the message "TypeError: supportedFeatures is null" stands for the TypeError an engine throws when `init` reads a property of the missing argument; its exact text varies between engines.
- Registry.Resolve: `new` on an export that is not `Item` (`World`, `Vector`, `System`, `Utils`, `Classes`) gives one TypeError that changes nothing. In JavaScript, `World` and `Vector` build an object that is appended before `init` fails, and the error texts are engine-specific.
- Names inherited from `Object.prototype` (such as `toString` as a kind name, or as an attribute) are not modelled.
- User classes registered in `Classes` in the step-3 edition are not modelled. That edition has no `Item`, so the demo kinds fail there.
- World colours given as objects other than channel arrays are not modelled.
- A second `System.init`, which would push a second world, is not modelled.
- Sim.System.Resize: requires a non-zero world width and height, because the source's division by zero would give Infinity or NaN, which reals do not have.
- Vectors.Div, ItemRules.ApplyForce, ItemRules.Step: require a non-zero divisor or mass, for the same reason. `init` always gives a non-zero mass (ItemRules.InitMass), so no item excluded by this is ever built.
- Sim.System.StepRecords: the source tests `record.world.pauseStep` once per item. The model tests it once per loop, which is the same because no step changes the pause flag.
- Sim.System.ResetSystem: the source replaces the list by `splice(0, 1)`, which returns just the world. The model keeps the world as its own field and empties `items`. The removal of the world element's children is modelled only as emptying `shown`: an item later revived from the pool keeps its detached element, so `add` enters it in the lookup with no parent (release/SimpleSim.js:332 reads `el.parentNode`, which is then `null`). Such an item still steps and still has a frame; the source styles its element, which is no longer displayed.

## Findings

| source | as written | input that shows it | evidently intended | confidence | as-written member | corrected member |
|---|---|---|---|---|---|---|
| release/SimpleSim.js:596-598 | the floating form of `getRandomNumber(low, high, true)` computes `Math.random() * (high - (low - 1)) + low`, which reuses the integer form's span of `high - low + 1` | `getRandomNumber(0, 1, true)` with the draw 0.75 returns 1.5 | a float in [low, high], `Math.random() * (high - low) + low` | not executed | Utils.RandomFloatAboveHigh | Utils.RandomFloat |
