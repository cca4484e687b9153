# voxel-chunks: the decision rules of index.js, in Dafny

This project models the logic in `index.js` of the voxel-chunks extension. The rest of that file is glue over THREE.js, the `voxel` library and the DOM. The modelled parts are:

- **Movement freedom** (`physics.dfy`, module `Physics`).
  - `calculateFreedom` turns the collision query's lists into the six-key record `x+ y+ z+ x- y- z-`.
  - `updatePlayerPhysics` adopts that record only when at least one direction is open. Its `degrees` loop adds up the open directions in `Object.keys` order.
- **Key bindings** (`input.dfy`, module `Input`). The keydown and keyup switches of `bindWASD` become functions from a key code to an optional `controls.emit('command', …)` call.
- **Placement** (`placement.dfy`, module `Placement`).
  - `checkBlock` applies its guards in order: the probe 1.1 units back along the view ray is occupied; the probe's chunk is missing; there are `top` or `middle` collisions; there are more than two `bottom` collisions. When all pass, it returns the chunk key and the voxel vector.
  - `createBlock` picks the nearest ray hit (the first one on a tie) and looks up the chunk matrix registered for the hit mesh.
  - On the detached path, it walks back along the ray. Probe offsets are 0.1, then each next offset adds `size/8 + 0.1`. It writes the literal 3 at the first empty voxel, and returns `ref.set`'s result only when that was the first probe.
  - On the main-grid path, it writes one element of a chunk's flat array in place and hands the chunk to `showChunk`.
- **Chunk keys** (`geometry.dfy`, module `Geometry`). A chunk key is `c.join('|')`. It is built from the decimal text of each coordinate, which is how JavaScript writes integers below 1e21. Distinct coordinates are proved never to share a key.

How the model represents the surrounding code:

- The `voxel` library's `chunkAtPosition`, `voxelVector` and `voxelIndex` are the function-valued fields of `VoxelLib`.
- `getBlock` (`voxelAtPosition`) is `Game.GetBlock`. It reads the main grid's current arrays through the position's chunk key and voxel index, so `checkBlock` sees the model's own earlier writes: after a successful placement of a non-zero value, the same check refuses (`Game.PlaceInGrid`). `voxelIndex` is taken to land in `[0, 32³)`; that size is an assumption (see Left out).
- The chunk matrix is the class `ChunkMatrix`. Its state is a map from (chunk, voxel index) to value, read as 0 where nothing was stored by `get`/`set`, and its inverse transform `toLocal`, which the walk reads when it runs.
- The ray intersections, the normalised view direction and the collision query's answer are inputs.
- `showChunk` is recorded as one entry appended to `Game.shown`.

The source recursion of the walk has no bound. The model runs at most `fuel` probes and reports `OutOfFuel` when all of them are occupied.

In these points the model follows the code, not a cleaner design:

- The walk adds both increments (`size/8` and `0.1`) on every step.
- The walk has no step bound.
- The walk writes 3 rather than the requested value.
- The retry's result is dropped.
- The guard is `if (!ref)` (see Findings).

## Model

| member | source | states |
|---|---|---|
| Geometry.NatToString | index.js:39 | the decimal text of a natural number is non-empty digits with no leading zero, one character long exactly below 10 |
| Geometry.IntToString | index.js:39 | the text of a coordinate contains no bar and starts with '-' exactly when the coordinate is negative |
| Geometry.NatToStringInjective | index.js:39 | two naturals with the same decimal text are equal |
| Geometry.IntToStringInjective | index.js:39 | two integers with the same text are equal |
| Geometry.SplitAtFirstBar | index.js:39 | a string made of a bar-free part, a bar and a rest determines both the part and the rest |
| Geometry.JoinKeyInjective | index.js:38-40 | two chunk coordinates with the same key are equal, so the string-keyed chunk table never confuses two chunks |
| Physics.CalculateFreedom | index.js:147-164 | the record has all six keys; x+ is false iff `left` is non-empty, x- iff `right`, z- iff `forward`, z+ iff `back`; y+ is false iff `top` or `up` is non-empty, y- iff `bottom` or `down` |
| Physics.UpDownOnlyClear | index.js:153-159 | emptying `up` and `down` can only reopen y+ and y- and leaves the other four directions as they were |
| Physics.NothingFreeIff | index.js:148-161 | every direction is closed exactly when left, right, forward and back are all touched, top or up is, and bottom or down is |
| Physics.TrueCountZeroIff | index.js:180 | the sum of `freedom[key]` over a list of keys is 0 iff every listed key is false |
| Physics.Degrees | index.js:179-180 | the loop computes the count of open directions in key order, which is 0 iff no direction is open |
| Physics.Controls.UpdateFreedom | index.js:177-181 | `controls.freedom` becomes the new record iff some direction in it is open, and otherwise keeps its old value; a complete record stays complete |
| Input.OnKeyDown | index.js:204-230 | every emitted command is bound to the pressed key; jump and only jump is emitted without a flag; movement commands carry true |
| Input.OnKeyUp | index.js:232-254 | every emitted command is bound to the released key, is never jump and carries false |
| Input.KeyDownCoversTable | index.js:205-228 | a key emits command c on keydown iff it is one of c's keys (38/87 forward, 37/65 left, 40/83 backward, 39/68 right, 32 jump); other keys emit nothing |
| Input.KeyUpReleasesKeyDown | index.js:204-254 | keyup emits the keydown movement command with false, and nothing for jump or unbound keys |
| Placement.Min | index.js:73 | `Math.min` of a non-empty list is one of its elements and no larger than any |
| Placement.IndexOf | index.js:73 | `indexOf` returns -1 iff the value is absent, else the first position holding it |
| Placement.NearestIndex | index.js:72-73 | the chosen hit has the minimum distance, and every earlier hit is strictly farther (the first minimum wins) |
| Placement.AsWrittenRoute | index.js:71-79 | as written, the walk is never taken: a crash happens exactly when the nearest hit's mesh has no matrix, and everything else uses the main grid |
| Placement.IntendedRoute | index.js:71-75 | with `if (ref)`, the walk is taken through the nearest hit's matrix when one is registered; otherwise, or with no hits, the main grid is used; it never crashes |
| Placement.NotRefGuardDiffers | index.js:75-76 | on one hit of a registered mesh, the as-written routing uses the main grid while the intended one walks; on an unregistered mesh, the as-written routing crashes |
| Placement.OffsetClosedForm | index.js:80-103 | the k-th probe offset is `0.1 + k*(size/8 + 0.1)` |
| Placement.OffsetIncreasing | index.js:84-87 | for a non-negative cube size, each probe lies strictly further back along the ray than the ones before |
| Placement.FirstEmpty | index.js:80-103 | the walk stops at a probe that reads as empty while every earlier probe is occupied; when it does not stop, every probe below the bound is occupied |
| Placement.WalkWritesOnce | index.js:95-102 | the walk changes exactly one voxel (to 3) at the first empty probe; every other address, including every earlier probe, keeps its value; an exhausted walk changes nothing |
| Placement.ChunkMatrix.Get | index.js:95 | an address never stored reads as 0 (empty) |
| Placement.ChunkMatrix.Set | index.js:100 | exactly the given address takes the given value; the transform is untouched |
| Placement.Chunk.constructor | index.js:5-9 | a new chunk holds 32³ zeros |
| Placement.Game.CheckBlock | index.js:21-57 | no block iff the probe is occupied, its chunk is missing, top or middle collisions exist, or bottom has more than 2; otherwise the block names an existing chunk by the probe's chunk key, with the probe's voxel vector |
| Placement.Game.CheckBlockNamesProbeChunk | index.js:36-40 | the key a successful check returns belongs to the probe's chunk coordinates and to no others |
| Placement.Game.PlaceInGrid | index.js:107-112 | a failed check writes nothing and rebuilds nothing; a passed check sets exactly the element `voxelIndex(voxelVector)` of the named chunk's array to `val`, leaves every other array alone, and shows that chunk once; after placing a non-zero value the same check now refuses, because the probe reads as occupied |
| Placement.Game.Walk | index.js:80-103 | the bounded `draw` loop stops at `FirstEmpty` and leaves the matrix holding 3 there and nothing else changed |
| Placement.Game.CreateBlockAsWritten | index.js:59-113 | as written: a TypeError with no write when the nearest mesh has no matrix; otherwise the main-grid path (true and one write, or undefined and no write); no matrix is ever written |
| Placement.Game.CreateBlock | index.js:59-113 | with `if (ref)`: on the detached path, the walk's single write, with the result of `ref.set` only when the first probe was empty, otherwise undefined (or out of fuel), and no other matrix's contents or any chunk touched; on the main-grid path, as PlaceInGrid with no matrix's contents touched; on both paths no matrix's transform changes |

Helper functions without a row of their own, each serving the row named:
- `Geometry.JoinKey` (index.js:39), the key `c.join('|')`, is stated by `Geometry.JoinKeyInjective` and used by `Placement.Game.CheckBlock`.
- `Geometry.Retreat` (index.js:29-31, 84-86), the point `a - k*d`, is used by `Placement.Game.CheckBlock` (through `ProbeBehind`) and by `Placement.FirstEmpty` (through `Probe`).
- `Placement.Distances` (index.js:72) is used by `Placement.NearestIndex`, whose contract states the promise of index.js:72-73.
- `Placement.Offset` (index.js:84-87, 102) is stated by `Placement.OffsetClosedForm` and `Placement.OffsetIncreasing`.
- `Placement.Probe` (index.js:81-93) and `Placement.ValueAt` (index.js:95) are used by `Placement.FirstEmpty`.
- `Placement.Filled` (index.js:100) and `Placement.WalkOutcome` (index.js:80, 100-102) are used by `Placement.WalkWritesOnce`, `Placement.Game.Walk` and `Placement.Game.CreateBlock`.
- `Placement.Game.ProbeBehind` (index.js:27-31) and `Placement.Game.GetBlock` (index.js:33, 125-127) are used by `Placement.Game.CheckBlock`.
- `Physics.TrueCount` (index.js:180) is used by `Physics.TrueCountZeroIff` and `Physics.Degrees`.
- `Physics.KeyOrder` (index.js:148-150, 180), the `Object.keys` order of the record's keys, is the order `Physics.Degrees` sums in.
- `Input.KeysFor` (index.js:205-228), the key codes bound to each command, is the table `Input.OnKeyDown`, `Input.OnKeyUp` and `Input.KeyDownCoversTable` are stated against.
- `Physics.SixKeysComplete`, `Physics.KeyIndex` and `Geometry.FirstBar` are proof steps.

## Findings

| source | as written | input that shows it | evidently intended | confidence | as-written member | corrected member |
|---|---|---|---|---|---|---|
| index.js:75 | `if (!ref)` enters the branch only when no chunk matrix is registered for the hit mesh, and its first statement reads `ref.rotationObject` | one intersection on mesh 7: with mesh 7 registered, the placement skips the walk and goes to the main grid; with it unregistered, a TypeError is thrown | `if (ref)`: walk through the registered matrix, otherwise fall through to the main grid | high; not executed | Placement.AsWrittenRoute | Placement.IntendedRoute |

Two further quirks of the walk are kept in both versions, as the code has them. The recursive retry's result is not returned (index.js:102), so `createBlock` yields `ref.set`'s result only when the first probe was empty. The walk writes the literal 3 rather than `val` (index.js:100).

## Left out

- THREE.js is not modelled: the raycaster, `Matrix4.getInverse`/`multiply`/`multiplyVector3` and `normalize` (index.js:23-25, 65-69, 76-78, 89). The intersections, the normalised direction and the composed inverse transform are inputs.
- Floating point: offsets, distances and coordinates are exact reals, so rounding in `0.1`, `1.1` and `size/8` is not modelled. NaN distances (where `indexOf` would return -1) and JavaScript's negative zero are not modelled. Chunk coordinates of magnitude 1e21 or more, which JavaScript writes in exponent form (`"1e+21"`), are written by the model as plain digits.
- The `voxel` library's `chunkAtPosition`, `voxelVector`, `voxelIndex`, `voxelAtPosition`, `generate` and `getBounds` are not part of this model. The first three are given functions, fixed for a `Game`'s lifetime. `voxelAtPosition` is modelled as a lookup through those three into the current chunk arrays, returning 0 where the chunk is missing; the library's own code for it is not shown. `voxelIndex` is assumed to land inside a 32³ array. The size 32³ is the one `createEmptyChunk` uses (index.js:5-9), but index.js never calls that function, so nothing in it sets the main grid's chunk size. What an out-of-range index would do is not modelled.
- `lib/chunk_matrix` is not part of this model. `get`/`set` act on an abstract map, and the mesh invalidation done by `set` is not modelled.
- The collision query `getCollisions` and its `check` callback (index.js:44-48, 54) are not modelled; their answer is an input.
- `showChunk` (index.js:129-145) is recorded only as one entry in `Game.shown`. Not modelled: its meshing, scene and texture calls; the re-filing of the chunk in `voxels.chunks` under `chunk.position.join('|')` (index.js:130, 135); and its resetting of every item's `resting` flag (index.js:143). `Chunk.position` is kept for that re-filing and no contract uses it.
- `updatePlayerPhysics` position nudges through `Math.cos`/`Math.sin` are not modelled (index.js:183-199), and neither is `distance` (index.js:268-273). Both are floating-point numerics.
- Not modelled: DOM listener registration (index.js:256-257), `tick`, rendering, `stats` and `console.log`. These are UI and I/O.
- Not modelled: `detachChunk`, `setBlock`, `module.exports` and the `Group` constructor (index.js:11-19, 115-123). They are thin wrappers with no logic of their own. `createEmptyChunk` appears only as `Chunk`'s zero-filled constructor.
- The matrix-group resolution over several chunk matrices is not in index.js and is not part of this model.
- Placement.Game.Walk: runs at most `fuel` probes. The source recursion is unbounded and would keep probing, or exhaust the stack, where the model reports `OutOfFuel`.
- Placement.Game.PlaceInGrid: requires that every chunk array holds 32³ elements. This is an assumed layout: index.js relies on the library's arrays without checking their size.
- Placement.Game.PlaceInGrid: chunk arrays are modelled as arrays of unbounded integers that store `val` exactly. The element type and width of the library's chunk arrays are not shown; a typed array would truncate or wrap `val` at index.js:110, and then the promise that the same check refuses after a non-zero write could fail.
