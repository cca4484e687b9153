/** Block placement: the validity check for the main grid (checkBlock) and
    the placement action (createBlock), which either walks back along the
    view ray through a detached chunk matrix or writes one voxel of the
    main grid in place. */
module Placement {
  import opened Geometry
  import opened Physics

  /** The main grid's chunks are taken to be 32 voxels on a side, the size createEmptyChunk generates. */
  const ChunkSize: nat := 32
  const ChunkVolume: nat := ChunkSize * ChunkSize * ChunkSize

  /** A position in a chunk's flat voxel array. */
  type VoxelIndex = i: int | 0 <= i < ChunkVolume

  /** The voxel library's spatial index, whose code is not part of this
      model, as given functions: the chunk containing a position, the
      position's voxel vector inside its chunk, and that vector's index in
      the flat array. */
  datatype VoxelLib = VoxelLib(
    chunkAtPosition: Vec3 -> Coord3,
    voxelVector: Vec3 -> Coord3,
    voxelIndex: Coord3 -> VoxelIndex)

  /** One ray hit: the id of the mesh hit, the hit point and its distance. */
  datatype Intersection = Intersection(objectId: int, point: Vec3, distance: real)

  /** What checkBlock returns when placement is allowed. */
  datatype NewBlock = NewBlock(chunkIndex: string, voxelVector: Coord3)

  /** What createBlock hands back to its caller. */
  datatype Outcome =
    | Undefined     // a bare `return`, or a walk that did not finish at its first probe
    | PlacedInGrid  // `return true` after the main-grid write
    | SetResult     // whatever `ref.set` returned; its meaning belongs to the chunk-matrix library
    | TypeError     // the missing `ref` was dereferenced
    | OutOfFuel     // the walk had not found an empty voxel within its bound

  /** Which way createBlock goes once the ray has been cast. */
  datatype Path = MainGrid | Detached(hit: nat, id: int) | Crash

  /** The view ray through a detached matrix: the nearest hit point, the
      ray's direction, the cube size and the matrix's inverse transform. */
  datatype Ray = Ray(hit: Vec3, d: Vec3, size: real, toLocal: Vec3 -> Vec3)

  /** A voxel address in a chunk matrix: chunk coordinates and voxel index. */
  type Address = (Coord3, VoxelIndex)

  // ---------------------------------------------------------------------
  // The nearest hit

  /** `intersections.map(function (i) { return i.distance })`. */
  function Distances(inters: seq<Intersection>): (ds: seq<real>)
    ensures |ds| == |inters|
    ensures forall i :: 0 <= i < |inters| ==> ds[i] == inters[i].distance
  {
    seq(|inters|, i requires 0 <= i < |inters| => inters[i].distance)
  }

  /** `Math.min.apply(null, ds)` on a non-empty list. */
  function Min(ds: seq<real>): (m: real)
    requires |ds| > 0
    ensures m in ds
    ensures forall i :: 0 <= i < |ds| ==> m <= ds[i]
  {
    if |ds| == 1 then ds[0]
    else
      var rest := Min(ds[1..]);
      assert forall i :: 1 <= i < |ds| ==> ds[i] == ds[1..][i - 1];
      if ds[0] <= rest then ds[0] else rest
  }

  /** `ds.indexOf(x)`: the first position holding `x`, or -1. */
  function IndexOf(ds: seq<real>, x: real): (k: int)
    ensures -1 <= k < |ds|
    ensures k == -1 <==> x !in ds
    ensures k >= 0 ==> ds[k] == x && forall j :: 0 <= j < k ==> ds[j] != x
  {
    if |ds| == 0 then -1
    else if ds[0] == x then 0
    else
      var k := IndexOf(ds[1..], x);
      assert forall j :: 1 <= j < |ds| ==> ds[j] == ds[1..][j - 1];
      if k == -1 then -1 else k + 1
  }

  /** `intersections[dists.indexOf(Math.min.apply(null, dists))]`: the
      nearest hit, and on a tie the first of the nearest. */
  function NearestIndex(inters: seq<Intersection>): (k: nat)
    requires |inters| > 0
    ensures k < |inters|
    ensures forall j :: 0 <= j < |inters| ==> inters[k].distance <= inters[j].distance
    ensures forall j :: 0 <= j < k ==> inters[j].distance > inters[k].distance
  {
    var ds := Distances(inters);
    IndexOf(ds, Min(ds))
  }

  // ---------------------------------------------------------------------
  // Routing after the ray cast

  /** The routing createBlock performs as written: `if (!ref)` enters its
      branch only when no matrix is registered for the hit mesh, and the
      branch's first statement dereferences that missing `ref`. The walk is
      therefore never reached. */
  function AsWrittenRoute(inters: seq<Intersection>, refIds: set<int>): (r: Path)
    ensures !r.Detached?
    ensures r.Crash? ==> |inters| > 0 && inters[NearestIndex(inters)].objectId !in refIds
    ensures r.MainGrid? ==> |inters| == 0 || inters[NearestIndex(inters)].objectId in refIds
  {
    if |inters| == 0 then MainGrid
    else if inters[NearestIndex(inters)].objectId !in refIds then Crash
    else MainGrid
  }

  /** The evidently intended routing, `if (ref)`: walk through the matrix the
      nearest hit mesh belongs to, and use the main grid when there is none. */
  function IntendedRoute(inters: seq<Intersection>, refIds: set<int>): (r: Path)
    ensures !r.Crash?
    ensures r.Detached? ==> |inters| > 0 && r.hit == NearestIndex(inters) && r.id == inters[r.hit].objectId && r.id in refIds
    ensures r.MainGrid? ==> |inters| == 0 || inters[NearestIndex(inters)].objectId !in refIds
  {
    if |inters| == 0 then MainGrid
    else
      var k := NearestIndex(inters);
      if inters[k].objectId in refIds then Detached(k, inters[k].objectId) else MainGrid
  }

  /** One hit on a registered mesh shows the difference: as written the
      placement goes to the main grid, as intended it walks the matrix; one
      hit on an unregistered mesh crashes as written. */
  lemma NotRefGuardDiffers()
    ensures var inters := [Intersection(7, Vec3(0.0, 0.0, 0.0), 2.5)];
      AsWrittenRoute(inters, {7}) == MainGrid && IntendedRoute(inters, {7}) == Detached(0, 7) &&
      AsWrittenRoute(inters, {}) == Crash && IntendedRoute(inters, {}) == MainGrid
  {
  }

  // ---------------------------------------------------------------------
  // The walk along the ray

  /** The offset of the k-th probe: 0.1 first, then each next offset is the
      previous one plus `size / 8` (added before the probe's test) and 0.1
      (added by the retry). */
  function Offset(size: real, k: nat): real
  {
    if k == 0 then 0.1 else Offset(size, k - 1) + size / 8.0 + 0.1
  }

  lemma {:induction false} OffsetClosedForm(size: real, k: nat)
    ensures Offset(size, k) == 0.1 + (k as real) * (size / 8.0 + 0.1)
  {
    if k > 0 {
      OffsetClosedForm(size, k - 1);
    }
  }

  /** For a non-negative cube size the probes move strictly further back along the ray. */
  lemma {:induction false} OffsetIncreasing(size: real, j: nat, k: nat)
    requires size >= 0.0 && j < k
    ensures Offset(size, j) < Offset(size, k)
  {
    if j < k - 1 {
      OffsetIncreasing(size, j, k - 1);
    }
  }

  /** Where the k-th probe lands in the matrix's local grid. */
  function Probe(lib: VoxelLib, ray: Ray, k: nat): Address
  {
    var tr := ray.toLocal(Retreat(ray.hit, ray.d, Offset(ray.size, k)));
    (lib.chunkAtPosition(tr), lib.voxelIndex(lib.voxelVector(tr)))
  }

  /** `ref.get(ci, vi)`: the stored value, 0 where nothing was stored. */
  function ValueAt(contents: map<Address, int>, a: Address): int
  {
    if a in contents then contents[a] else 0
  }

  /** The first probe, from `from` on and below `fuel`, whose voxel reads as empty. */
  function FirstEmpty(lib: VoxelLib, ray: Ray, contents: map<Address, int>, from: nat, fuel: nat): (r: Option<nat>)
    ensures r.Some? ==> from <= r.value < fuel && ValueAt(contents, Probe(lib, ray, r.value)) == 0
    ensures r.Some? ==> forall j :: from <= j < r.value ==> ValueAt(contents, Probe(lib, ray, j)) != 0
    ensures r.None? ==> forall j :: from <= j < fuel ==> ValueAt(contents, Probe(lib, ray, j)) != 0
    decreases fuel - from
  {
    if from >= fuel then None
    else if ValueAt(contents, Probe(lib, ray, from)) == 0 then Some(from)
    else FirstEmpty(lib, ray, contents, from + 1, fuel)
  }

  /** The matrix's contents after the walk: the literal 3 at the probe the walk stopped at. */
  function Filled(lib: VoxelLib, ray: Ray, contents: map<Address, int>, step: Option<nat>): map<Address, int>
  {
    match step
    case None => contents
    case Some(k) => contents[Probe(lib, ray, k) := 3]
  }

  /** createBlock's result after a walk: the value of `ref.set` only when the
      first probe was empty, because the retry's result is dropped. */
  function WalkOutcome(step: Option<nat>): Outcome
  {
    match step
    case None => OutOfFuel
    case Some(k) => if k == 0 then SetResult else Undefined
  }

  /** The walk writes exactly one voxel, with 3, and every probe it passed
      on the way keeps its value. */
  lemma WalkWritesOnce(lib: VoxelLib, ray: Ray, contents: map<Address, int>, fuel: nat)
    ensures var step := FirstEmpty(lib, ray, contents, 0, fuel);
      var after := Filled(lib, ray, contents, step);
      (step.None? ==> after == contents) &&
      (step.Some? ==>
        ValueAt(contents, Probe(lib, ray, step.value)) == 0 &&
        ValueAt(after, Probe(lib, ray, step.value)) == 3 &&
        (forall a :: a != Probe(lib, ray, step.value) ==> ValueAt(after, a) == ValueAt(contents, a)) &&
        (forall j :: 0 <= j < step.value ==> ValueAt(after, Probe(lib, ray, j)) == ValueAt(contents, Probe(lib, ray, j))))
  {
  }

  /** A chunk of the main grid: its coordinates and its flat voxel array. */
  class Chunk {
    const position: Coord3
    const voxels: array<int>

    /** A chunk of zeros, as createEmptyChunk generates it. */
    constructor (position: Coord3)
      ensures this.position == position
      ensures fresh(voxels) && voxels.Length == ChunkVolume
      ensures forall i :: 0 <= i < voxels.Length ==> voxels[i] == 0
    {
      this.position := position;
      voxels := new int[ChunkVolume](_ => 0);
    }
  }

  /** A detached chunk matrix, seen only through its get/set interface and
      its current inverse transform. */
  class ChunkMatrix {
    /** Every value stored so far, by address. */
    var contents: map<Address, int>
    /** The inverse of the matrix's rotation and translation. */
    var toLocal: Vec3 -> Vec3

    constructor (toLocal: Vec3 -> Vec3)
      ensures contents == map[] && this.toLocal == toLocal
    {
      contents := map[];
      this.toLocal := toLocal;
    }

    /** `ref.get(ci, vi)`. */
    function Get(ci: Coord3, vi: VoxelIndex): (v: int)
      reads this
      ensures (ci, vi) !in contents ==> v == 0
    {
      ValueAt(contents, (ci, vi))
    }

    /** `ref.set(ci, vi, v)`. */
    method Set(ci: Coord3, vi: VoxelIndex, v: int)
      modifies this
      ensures contents == old(contents)[(ci, vi) := v]
      ensures toLocal == old(toLocal)
    {
      contents := contents[(ci, vi) := v];
    }
  }

  /** The game state that createBlock reads and writes. */
  class Game {
    const lib: VoxelLib
    const cubeSize: real
    /** `voxels.chunks`: the main grid's chunks by key. */
    var chunks: map<string, Chunk>
    /** `detached.refs`: the chunk matrix each detached mesh belongs to. */
    var refs: map<int, ChunkMatrix>
    /** The chunks handed to showChunk, in order. */
    var shown: seq<Chunk>

    constructor (lib: VoxelLib, cubeSize: real)
      ensures this.lib == lib && this.cubeSize == cubeSize
      ensures chunks == map[] && refs == map[] && shown == []
    {
      this.lib := lib;
      this.cubeSize := cubeSize;
      chunks := map[];
      refs := map[];
      shown := [];
    }

    /** Every chunk's array is chunk-sized. */
    ghost predicate Valid()
      reads this
    {
      forall k :: k in chunks ==> chunks[k].voxels.Length == ChunkVolume
    }

    /** The probe checkBlock looks at: 1.1 back from `pos` along `d`. */
    function ProbeBehind(pos: Vec3, d: Vec3): Vec3
    {
      Retreat(pos, d, 1.1)
    }

    /** getBlock (`voxelAtPosition`): the main grid's current value at a
        position, read through the position's chunk key and voxel index; 0
        (empty) where the chunk is missing or the index lies past its array. */
    function GetBlock(p: Vec3): int
      reads this, set k | k in chunks :: chunks[k].voxels
    {
      var key := JoinKey(lib.chunkAtPosition(p));
      if key !in chunks then 0
      else
        var a := chunks[key].voxels;
        var i := lib.voxelIndex(lib.voxelVector(p));
        if i < a.Length then a[i] else 0
    }

    /** checkBlock: `pos` is the hit position, `d` the normalised view
        direction and `cs` the collision query's answer at the player's
        position. */
    function CheckBlock(pos: Vec3, d: Vec3, cs: Collisions): (r: Option<NewBlock>)
      reads this, set k | k in chunks :: chunks[k].voxels
      ensures var p := ProbeBehind(pos, d);
        r.None? <==>
          (GetBlock(p) != 0 || JoinKey(lib.chunkAtPosition(p)) !in chunks ||
           |cs.top| > 0 || |cs.middle| > 0 || |cs.bottom| > 2)
      ensures var p := ProbeBehind(pos, d);
        r.Some? ==>
          r.value.chunkIndex in chunks &&
          r.value.chunkIndex == JoinKey(lib.chunkAtPosition(p)) &&
          r.value.voxelVector == lib.voxelVector(p)
    {
      var p := ProbeBehind(pos, d);
      if GetBlock(p) != 0 then None
      else
        var voxelVector := lib.voxelVector(p);
        var ckey := JoinKey(lib.chunkAtPosition(p));
        if ckey !in chunks then None
        else if |cs.top| > 0 then None
        else if |cs.middle| > 0 then None
        else if |cs.bottom| > 2 then None
        else Some(NewBlock(ckey, voxelVector))
    }

    /** A successful check names a chunk by exactly one set of coordinates:
        those of the probe's chunk. */
    lemma CheckBlockNamesProbeChunk(pos: Vec3, d: Vec3, cs: Collisions, c: Coord3)
      requires CheckBlock(pos, d, cs).Some?
      requires CheckBlock(pos, d, cs).value.chunkIndex == JoinKey(c)
      ensures c == lib.chunkAtPosition(ProbeBehind(pos, d))
    {
      JoinKeyInjective(c, lib.chunkAtPosition(ProbeBehind(pos, d)));
    }

    /** The main-grid path at the end of createBlock: check, then write `val`
        into the one element of the chunk's array and rebuild the chunk. */
    method PlaceInGrid(pos: Vec3, d: Vec3, cs: Collisions, val: int) returns (placed: bool)
      requires Valid()
      modifies this`shown, set k | k in chunks :: chunks[k].voxels
      ensures placed <==> old(CheckBlock(pos, d, cs)).Some?
      ensures placed && val != 0 ==> CheckBlock(pos, d, cs).None?
      ensures !placed ==> shown == old(shown)
      ensures !placed ==> forall k :: k in chunks ==> chunks[k].voxels[..] == old(chunks[k].voxels[..])
      ensures placed ==>
        var nb := old(CheckBlock(pos, d, cs)).value;
        var target := chunks[nb.chunkIndex];
        target.voxels[..] == old(target.voxels[..])[lib.voxelIndex(nb.voxelVector) := val] &&
        shown == old(shown) + [target] &&
        forall k :: k in chunks && chunks[k].voxels != target.voxels ==> chunks[k].voxels[..] == old(chunks[k].voxels[..])
    {
      var newBlock := CheckBlock(pos, d, cs);
      if newBlock.None? {
        return false;
      }
      var chunk := chunks[newBlock.value.chunkIndex];
      chunk.voxels[lib.voxelIndex(newBlock.value.voxelVector)] := val;
      shown := shown + [chunk];
      return true;
    }

    /** The recursive `draw` of createBlock, bounded by `fuel` probes: probe
        at the current offset, write 3 at the first empty voxel, otherwise
        retry further back. */
    method Walk(ref: ChunkMatrix, hit: Vec3, d: Vec3, fuel: nat) returns (step: Option<nat>)
      modifies ref
      ensures ref.toLocal == old(ref.toLocal)
      ensures var ray := Ray(hit, d, cubeSize, ref.toLocal);
        step == FirstEmpty(lib, ray, old(ref.contents), 0, fuel) &&
        ref.contents == Filled(lib, ray, old(ref.contents), step)
    {
      var ray := Ray(hit, d, cubeSize, ref.toLocal);
      var offset := 0.1;
      var i := 0;
      while i < fuel
        invariant 0 <= i <= fuel
        invariant offset == Offset(cubeSize, i)
        invariant ref.contents == old(ref.contents) && ref.toLocal == old(ref.toLocal)
        invariant FirstEmpty(lib, ray, ref.contents, 0, fuel) == FirstEmpty(lib, ray, ref.contents, i, fuel)
      {
        var pt := Retreat(hit, d, offset);
        offset := offset + cubeSize / 8.0;
        var tr := ref.toLocal(pt);
        var ci := lib.chunkAtPosition(tr);
        var vv := lib.voxelVector(tr);
        var vi := lib.voxelIndex(vv);
        var value := ref.Get(ci, vi);
        if value == 0 {
          ref.Set(ci, vi, 3);
          return Some(i);
        }
        offset := offset + 0.1;
        i := i + 1;
      }
      return None;
    }

    /** createBlock as written: a hit on a mesh with no registered matrix
        crashes, and every other case goes to the main grid. No detached
        matrix is ever written. */
    method CreateBlockAsWritten(pos: Vec3, d: Vec3, inters: seq<Intersection>, cs: Collisions, val: int)
      returns (o: Outcome)
      requires Valid()
      modifies this`shown, set k | k in chunks :: chunks[k].voxels
      ensures AsWrittenRoute(inters, refs.Keys) == Crash ==>
        o == TypeError && shown == old(shown) &&
        forall k :: k in chunks ==> chunks[k].voxels[..] == old(chunks[k].voxels[..])
      ensures AsWrittenRoute(inters, refs.Keys) == MainGrid ==>
        o == (if old(CheckBlock(pos, d, cs)).Some? then PlacedInGrid else Undefined)
      ensures AsWrittenRoute(inters, refs.Keys) == MainGrid && o == Undefined ==>
        shown == old(shown) &&
        forall k :: k in chunks ==> chunks[k].voxels[..] == old(chunks[k].voxels[..])
      ensures AsWrittenRoute(inters, refs.Keys) == MainGrid && o == PlacedInGrid ==>
        var nb := old(CheckBlock(pos, d, cs)).value;
        var target := chunks[nb.chunkIndex];
        target.voxels[..] == old(target.voxels[..])[lib.voxelIndex(nb.voxelVector) := val] &&
        shown == old(shown) + [target] &&
        forall k :: k in chunks && chunks[k].voxels != target.voxels ==> chunks[k].voxels[..] == old(chunks[k].voxels[..])
      ensures forall i :: i in refs ==> refs[i].contents == old(refs[i].contents)
    {
      if AsWrittenRoute(inters, refs.Keys) == Crash {
        return TypeError;
      }
      var placed := PlaceInGrid(pos, d, cs, val);
      o := if placed then PlacedInGrid else Undefined;
    }

    /** createBlock with the evidently intended `if (ref)`: walk through the
        nearest hit's matrix when it has one (still writing 3 and dropping the
        retry's result, as the code does), and otherwise use the main grid. */
    method CreateBlock(pos: Vec3, d: Vec3, inters: seq<Intersection>, cs: Collisions, val: int, fuel: nat)
      returns (o: Outcome)
      requires Valid()
      modifies this`shown, set k | k in chunks :: chunks[k].voxels, set i | i in refs :: refs[i]
      ensures o != TypeError
      ensures forall i :: i in refs ==> refs[i].toLocal == old(refs[i].toLocal)
      ensures IntendedRoute(inters, refs.Keys).Detached? ==>
        var route := IntendedRoute(inters, refs.Keys);
        var ref := refs[route.id];
        var ray := Ray(inters[route.hit].point, d, cubeSize, ref.toLocal);
        var step := FirstEmpty(lib, ray, old(ref.contents), 0, fuel);
        ref.toLocal == old(ref.toLocal) &&
        ref.contents == Filled(lib, ray, old(ref.contents), step) &&
        o == WalkOutcome(step) &&
        (forall i :: i in refs && refs[i] != ref ==> refs[i].contents == old(refs[i].contents)) &&
        shown == old(shown) &&
        forall k :: k in chunks ==> chunks[k].voxels[..] == old(chunks[k].voxels[..])
      ensures IntendedRoute(inters, refs.Keys).MainGrid? ==>
        (forall i :: i in refs ==> refs[i].contents == old(refs[i].contents)) &&
        o == (if old(CheckBlock(pos, d, cs)).Some? then PlacedInGrid else Undefined)
      ensures IntendedRoute(inters, refs.Keys).MainGrid? && o == Undefined ==>
        shown == old(shown) &&
        forall k :: k in chunks ==> chunks[k].voxels[..] == old(chunks[k].voxels[..])
      ensures IntendedRoute(inters, refs.Keys).MainGrid? && o == PlacedInGrid ==>
        var nb := old(CheckBlock(pos, d, cs)).value;
        var target := chunks[nb.chunkIndex];
        target.voxels[..] == old(target.voxels[..])[lib.voxelIndex(nb.voxelVector) := val] &&
        shown == old(shown) + [target] &&
        forall k :: k in chunks && chunks[k].voxels != target.voxels ==> chunks[k].voxels[..] == old(chunks[k].voxels[..])
    {
      var route := IntendedRoute(inters, refs.Keys);
      if route.Detached? {
        var ref := refs[route.id];
        var step := Walk(ref, inters[route.hit].point, d, fuel);
        o := WalkOutcome(step);
      } else {
        var placed := PlaceInGrid(pos, d, cs, val);
        o := if placed then PlacedInGrid else Undefined;
      }
    }
  }
}
