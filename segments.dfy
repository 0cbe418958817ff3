/**
 * The level generator of world.js as functions of the random stream: which entries each
 * segment archetype appends, how far it moves the frontier `lastChunkZ`, and how many
 * `Math.random()` draws it consumes. The methods of `Worlds.World` are proved against these.
 */
module Segments {
  import opened Geometry
  import opened Entities

  /** The successive results of `Math.random()`: draw number `n` is `rand(n)`. */
  type Stream = nat -> real

  ghost predicate Unit(rand: Stream)
  {
    forall n: nat :: 0.0 <= rand(n) < 1.0
  }

  const StartZ: real := -20.0
  const RenderDistance: real := 200.0
  const MaxEntries: nat := 50
  const InitialChunks: nat := 5

  /** Entries appended by a generation step, the new frontier and the index of the next draw. */
  datatype Gen = Gen(spawned: seq<Spawn>, frontier: real, drawn: nat)

  /** Entries appended by a loop that leaves the frontier alone, and the index of the next draw. */
  datatype Batch = Batch(spawned: seq<Spawn>, drawn: nat)

  /** `spawnPlatform(x, y, z, width, depth)`: a box mesh one unit tall. */
  function PlatformAt(x: real, y: real, z: real, width: real, depth: real): Spawn
  {
    Spawn(Platform, Vec3(x, y, z), BoxAround(Vec3(x, y, z), width, 1.0, depth))
  }

  function ObstacleAt(c: Vec3, width: real, height: real, depth: real): Spawn
  {
    Spawn(Obstacle, c, BoxAround(c, width, height, depth))
  }

  /** The start platform that `init` spawns before the first chunk. */
  const StartPlatform: Spawn := PlatformAt(0.0, -2.0, -20.0, 10.0, 50.0)

  // ---------------------------------------------------------------------------------------
  // Archetype choice

  datatype Archetype = Standard | FlatRun | Slide | Dodge

  function ArchetypeOf(r: real): Archetype
  {
    if r < 0.4 then Standard else if r < 0.6 then FlatRun else if r < 0.8 then Slide else Dodge
  }

  /** `generateNextChunk`: draw `k` picks the archetype, which starts at draw `k + 1`. */
  function NextChunk(rand: Stream, k: nat, z: real): Gen
  {
    match ArchetypeOf(rand(k))
    case Standard => StandardSegment(rand, k + 1, z)
    case FlatRun => FlatRunSegment(rand, k + 1, z)
    case Slide => SlideSegment(k + 1, z)
    case Dodge => DodgeSegment(rand, k + 1, z)
  }

  /** `n` successive calls of `generateNextChunk`, as `init` makes them. */
  function Chunks(rand: Stream, k: nat, z: real, n: nat): Gen
  {
    if n == 0 then Gen([], z, k)
    else
      var g := Chunks(rand, k, z, n - 1);
      var c := NextChunk(rand, g.drawn, g.frontier);
      Gen(g.spawned + c.spawned, c.frontier, c.drawn)
  }

  // ---------------------------------------------------------------------------------------
  // Standard segment

  function StandardCount(r: real): int { 3 + (r * 3.0).Floor }

  /**
   * One pass of the loop of `generateStandardSegment`: seven draws (gap, depth, width, x, y,
   * colour, and the `addObstacles` flag that `spawnPlatform` ignores), one platform.
   */
  function StandardPlatform(rand: Stream, k: nat, cur: real): Gen
  {
    var gap := 5.0 + rand(k) * 5.0;
    var depth := 15.0 + rand(k + 1) * 10.0;
    var width := 8.0 + rand(k + 2) * 4.0;
    var x := Centred(rand(k + 3), 12.0);
    var y := Max(-5.0, Min(5.0, Centred(rand(k + 4), 5.0)));
    var z := cur - gap;
    Gen([PlatformAt(x, y, z - depth / 2.0, width, depth)], z - depth, k + 7)
  }

  /** The first `n` passes of that loop (none when `n <= 0`). */
  function StandardRun(rand: Stream, k: nat, cur: real, n: int): Gen
    decreases n
  {
    if n <= 0 then Gen([], cur, k)
    else
      var g := StandardRun(rand, k, cur, n - 1);
      var p := StandardPlatform(rand, g.drawn, g.frontier);
      Gen(g.spawned + p.spawned, p.frontier, p.drawn)
  }

  function StandardSegment(rand: Stream, k: nat, z: real): Gen
  {
    StandardRun(rand, k + 1, z, StandardCount(rand(k)))
  }

  // ---------------------------------------------------------------------------------------
  // Flat run

  /** `(Math.random() - 0.5) * room`: an offset drawn from [-room / 2, room / 2). */
  function Centred(r: real, room: real): real { (r - 0.5) * room }

  /** `pWidth * (0.3 + Math.random() * 0.4)`. */
  function WallWidth(pWidth: real, r: real): real { pWidth * (0.3 + r * 0.4) }

  /** `spawnObstacleOnPlatform(platform, pWidth, _, localZ)` with the platform centred at `base`. */
  function Wall(rand: Stream, k: nat, base: Vec3, pWidth: real, localZ: real): Spawn
  {
    var wH := 2.0 + rand(k);
    var wW := WallWidth(pWidth, rand(k + 1));
    var x := Centred(rand(k + 2), pWidth - wW);
    ObstacleAt(Vec3(base.x + x, base.y + 0.5 + wH / 2.0, base.z + localZ), wW, wH, 1.0)
  }

  /** The `localZ` of wall `i` of `n` on a platform of the given depth. */
  function WallOffset(depth: real, n: int, i: int): real
    requires n != 0
  {
    (i as real) * (depth / (n as real)) - depth / 2.0 + 5.0
  }

  /** The first `m` of the `n` walls of a flat run. */
  function Walls(rand: Stream, k: nat, base: Vec3, pWidth: real, depth: real, n: int, m: int): Batch
    requires m <= n
    decreases m
  {
    if m <= 0 then Batch([], k)
    else
      var b := Walls(rand, k, base, pWidth, depth, n, m - 1);
      Batch(b.spawned + [Wall(rand, b.drawn, base, pWidth, WallOffset(depth, n, m - 1))], b.drawn + 3)
  }

  function FlatDepth(r: real): real { 60.0 + r * 40.0 }

  /** `Math.floor(depth / 15)`: how many walls a flat run of that depth carries. */
  function WallCount(depth: real): int { (depth / 15.0).Floor }

  /** The platform of a flat run of the given depth whose near face is at `front`. */
  function FlatPlatform(front: real, depth: real): Spawn
  {
    PlatformAt(0.0, 0.0, front - depth / 2.0, 12.0, depth)
  }

  function FlatRunSegment(rand: Stream, k: nat, z: real): Gen
  {
    var depth := FlatDepth(rand(k));
    var p := FlatPlatform(z - 4.0, depth);
    var n := WallCount(depth);
    var walls := Walls(rand, k + 1, p.position, 12.0, depth, n, n);
    Gen([p] + walls.spawned, z - 4.0 - depth, walls.drawn)
  }

  // ---------------------------------------------------------------------------------------
  // Slide

  /** The first `n` passes of the loop of `generateSlideSegment`: a platform, then its barrier. */
  function SlideRun(k: nat, cur: real, n: nat): Gen
  {
    if n == 0 then Gen([], cur, k)
    else
      var g := SlideRun(k, cur, n - 1);
      var z := g.frontier - 4.0;
      var pz := z - 10.0;
      Gen(g.spawned + [PlatformAt(0.0, 0.0, pz, 12.0, 20.0),
                       ObstacleAt(Vec3(0.0, 2.5, pz), 12.0, 2.0, 1.0)],
          z - 20.0, k)
  }

  function SlideSegment(k: nat, z: real): Gen
  {
    SlideRun(k, z, 3)
  }

  // ---------------------------------------------------------------------------------------
  // Dodge

  const Lanes: seq<real> := [-6.0, 0.0, 6.0]

  function Pillar(x: real, zPos: real): Spawn
  {
    ObstacleAt(Vec3(x, 2.0, zPos), 4.0, 4.0, 4.0)
  }

  function SafeLane(r: real): int { (r * 3.0).Floor }

  /** The z of row `i`: `z + (i - rows / 2) * (depth / rows)` with 5 rows and depth 50. */
  function RowZ(pz: real, i: int): real
  {
    pz + ((i as real) - 2.5) * 10.0
  }

  /** The pillars the `forEach` over the first `m` lanes pushes when `safe` is the free lane. */
  function RowPart(zPos: real, safe: int, m: nat): seq<Spawn>
    requires m <= |Lanes|
  {
    if m == 0 then []
    else RowPart(zPos, safe, m - 1) + (if m - 1 != safe then [Pillar(Lanes[m - 1], zPos)] else [])
  }

  /** The first `m` rows of pillars; row `i` uses draw `k + i`. */
  function DodgeRows(rand: Stream, k: nat, pz: real, m: nat): seq<Spawn>
  {
    if m == 0 then []
    else DodgeRows(rand, k, pz, m - 1) + RowPart(RowZ(pz, m - 1), SafeLane(rand(k + m - 1)), |Lanes|)
  }

  function DodgeSegment(rand: Stream, k: nat, z: real): Gen
  {
    var front := z - 4.0;
    var pz := front - 25.0;
    Gen([PlatformAt(0.0, 0.0, pz, 20.0, 50.0)] + DodgeRows(rand, k, pz, 5), front - 50.0, k + 5)
  }

  // ---------------------------------------------------------------------------------------
  // The level as a whole

  /** The generator's state: the fixed part of `platforms`, `lastChunkZ`, draws consumed. */
  datatype Level = Level(entries: seq<Spawn>, frontier: real, drawn: nat)

  /** The level right after the constructor: start platform, then five chunks. */
  function InitialLevel(rand: Stream): Level
  {
    var g := Chunks(rand, 0, StartZ, InitialChunks);
    Level([StartPlatform] + g.spawned, g.frontier, g.drawn)
  }

  /** `platforms.shift()` once the list holds more than 50 entries. */
  function Evict<T>(s: seq<T>): seq<T>
  {
    if |s| > MaxEntries then s[1..] else s
  }

  predicate InRange(frontier: real, playerZ: real)
  {
    playerZ < frontier + RenderDistance
  }

  /** `update(playerZ)`. */
  function Advance(rand: Stream, s: Level, playerZ: real): Level
  {
    var g := if InRange(s.frontier, playerZ) then NextChunk(rand, s.drawn, s.frontier)
             else Gen([], s.frontier, s.drawn);
    Level(Evict(s.entries + g.spawned), g.frontier, g.drawn)
  }
}
