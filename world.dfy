/**
 * Class `World` of world.js: the list of level entries, the frontier `lastChunkZ` and the
 * generators that append segments to them. `Math.random()` is the stream `rand`: `drawn`
 * is the number of draws made so far, and each call reads `rand(drawn)` and advances
 * `drawn`. Each method is proved against the function of module `Segments` that describes
 * what it appends and how far it moves the frontier.
 */
module Worlds {
  import opened Geometry
  import opened Entities
  import opened Segments
  import SegmentFacts

  /** Appending a list in two steps appends their concatenation. */
  lemma Concat<T>(a: seq<T>, b: seq<T>, c: seq<T>)
    ensures a + b + c == a + (b + c)
  {
  }

  class World {
    const rand: Stream
    var drawn: nat
    var platforms: seq<Entry>
    var lastChunkZ: real

    /** The draws lie in [0, 1). */
    ghost predicate Valid()
    {
      Unit(rand)
    }

    /** The generator's state as a value. */
    function State(): Level
      reads this
    {
      Level(Views(platforms), lastChunkZ, drawn)
    }

    /** `init`: the start platform, then five chunks. */
    constructor (rand: Stream)
      requires Unit(rand)
      ensures Valid() && this.rand == rand
      ensures State() == InitialLevel(rand)
    {
      this.rand := rand;
      drawn := 0;
      platforms := [];
      lastChunkZ := StartZ;
      new;
      var start := SpawnPlatform(0.0, -2.0, -20.0, 10.0, 50.0, false);
      assert platforms == [start];
      ghost var chunks: seq<Entry> := [];
      for i := 0 to InitialChunks
        invariant Valid() && this.rand == rand && platforms == [start] + chunks
        invariant Chunks(rand, 0, StartZ, i) == Gen(Views(chunks), lastChunkZ, drawn)
      {
        ghost var made := GenerateNextChunk();
        ViewsAppend(chunks, made);
        Concat([start], chunks, made);
        chunks := chunks + made;
      }
      ViewsCons(start, chunks);
    }

    /**
     * `this.platforms.push(...)` of a new entry. world.js never sets `isCheckpointPlatform`
     * on what it pushes, so the entry is not a checkpoint platform.
     */
    method Push(s: Spawn) returns (e: Entry)
      requires Valid()
      modifies this`platforms
      ensures Valid() && fresh(e) && e.View() == s && !e.isCheckpointPlatform && !e.isCollected
      ensures platforms == old(platforms) + [e]
    {
      e := new Entry(s, false);
      platforms := platforms + [e];
    }

    /**
     * `spawnPlatform`: a box one unit tall centred at (x, y, z), appended as a `'platform'`.
     * The `addObstacles` flag has no effect: its branch is empty.
     */
    method SpawnPlatform(x: real, y: real, z: real, width: real, depth: real, addObstacles: bool)
      returns (platform: Entry)
      requires Valid()
      modifies this`platforms
      ensures Valid() && fresh(platform) && platform.View() == PlatformAt(x, y, z, width, depth)
      ensures platforms == old(platforms) + [platform]
    {
      platform := Push(Spawn(Platform, Vec3(x, y, z), BoxAround(Vec3(x, y, z), width, 1.0, depth)));
    }

    /** `spawnObstacleOnPlatform`: three draws (height, width, x offset), one wall. */
    method SpawnObstacleOnPlatform(platform: Entry, pWidth: real, pDepth: real, localZ: real)
      returns (ghost obs: Entry)
      requires Valid()
      modifies this`platforms, this`drawn
      ensures Valid() && fresh(obs) && platforms == old(platforms) + [obs]
      ensures obs.View() == Wall(rand, old(drawn), platform.position, pWidth, localZ)
      ensures drawn == old(drawn) + 3
    {
      var r0 := rand(drawn); drawn := drawn + 1;
      var wH := 2.0 + r0;
      var r1 := rand(drawn); drawn := drawn + 1;
      var wW := pWidth * (0.3 + r1 * 0.4);
      var wD := 1.0;
      var r2 := rand(drawn); drawn := drawn + 1;
      var x := (r2 - 0.5) * (pWidth - wW);
      var c := Vec3(platform.position.x + x, platform.position.y + 0.5 + wH / 2.0, platform.position.z + localZ);
      obs := Push(Spawn(Obstacle, c, BoxAround(c, wW, wH, wD)));
      assert obs.View() == Wall(rand, old(drawn), platform.position, pWidth, localZ);
    }

    /** `generateNextChunk`: one draw picks the archetype. */
    method GenerateNextChunk() returns (ghost made: seq<Entry>)
      requires Valid()
      modifies this
      ensures Valid() && platforms == old(platforms) + made
      ensures NextChunk(rand, old(drawn), old(lastChunkZ)) == Gen(Views(made), lastChunkZ, drawn)
    {
      var r := rand(drawn); drawn := drawn + 1;
      if r < 0.4 {
        made := GenerateStandardSegment();
      } else if r < 0.6 {
        made := GenerateFlatRunSegment();
      } else if r < 0.8 {
        made := GenerateSlideSegment();
      } else {
        made := GenerateDodgeSegment();
      }
    }

    method GenerateStandardSegment() returns (ghost made: seq<Entry>)
      requires Valid()
      modifies this
      ensures Valid() && platforms == old(platforms) + made
      ensures StandardSegment(rand, old(drawn), old(lastChunkZ)) == Gen(Views(made), lastChunkZ, drawn)
    {
      ghost var k0, z0, base := drawn, lastChunkZ, platforms;
      made := [];
      var r := rand(drawn); drawn := drawn + 1;
      var count := StandardCount(r);
      var currentZ := lastChunkZ;
      for i := 0 to count
        invariant Valid() && lastChunkZ == z0 && platforms == base + made
        invariant StandardRun(rand, k0 + 1, z0, i) == Gen(Views(made), currentZ, drawn)
      {
        var p;
        p, currentZ := StandardPass(currentZ);
        ViewsAppend(made, [p]);
        Concat(base, made, [p]);
        made := made + [p];
      }
      lastChunkZ := currentZ;
      SegmentFacts.StandardSegmentIs(rand, k0, z0, count, Gen(Views(made), lastChunkZ, drawn));
    }

    /** One pass of the loop of `generateStandardSegment`, from `currentZ` to the returned `z`. */
    method StandardPass(currentZ: real) returns (p: Entry, z: real)
      requires Valid()
      modifies this`drawn, this`platforms
      ensures Valid() && fresh(p) && platforms == old(platforms) + [p]
      ensures StandardPlatform(rand, old(drawn), currentZ) == Gen([p.View()], z, drawn)
    {
      ghost var k := drawn;
      var r0 := rand(drawn); drawn := drawn + 1;
      var gap := 5.0 + r0 * 5.0;
      var r1 := rand(drawn); drawn := drawn + 1;
      var depth := 15.0 + r1 * 10.0;
      var r2 := rand(drawn); drawn := drawn + 1;
      var width := 8.0 + r2 * 4.0;
      var r3 := rand(drawn); drawn := drawn + 1;
      var x := Centred(r3, 12.0);
      var r4 := rand(drawn); drawn := drawn + 1;
      var y := Max(-5.0, Min(5.0, Centred(r4, 5.0)));
      var colour := rand(drawn); drawn := drawn + 1;
      z := currentZ - gap;
      var flag := rand(drawn); drawn := drawn + 1;
      p := SpawnPlatform(x, y, z - depth / 2.0, width, depth, flag > 0.6);
      z := z - depth;
      SegmentFacts.StandardPlatformIs(rand, k, currentZ, gap, depth, width, x, y);
    }

    method GenerateFlatRunSegment() returns (ghost made: seq<Entry>)
      requires Valid()
      modifies this
      ensures Valid() && platforms == old(platforms) + made
      ensures FlatRunSegment(rand, old(drawn), old(lastChunkZ)) == Gen(Views(made), lastChunkZ, drawn)
    {
      ghost var k0, z0 := drawn, lastChunkZ;
      var gap := 4.0;
      var r := rand(drawn); drawn := drawn + 1;
      var depth := FlatDepth(r);
      var width := 12.0;
      lastChunkZ := lastChunkZ - gap;
      var z := lastChunkZ - depth / 2.0;
      var platform := SpawnPlatform(0.0, 0.0, z, width, depth, false);
      var obsCount := WallCount(depth);
      SegmentFacts.WallCountBounds(r);
      ghost var k1 := drawn;
      ghost var walls := SpawnWalls(platform, width, depth, obsCount);
      lastChunkZ := lastChunkZ - depth;
      made := [platform] + walls;
      Concat(old(platforms), [platform], walls);
      ViewsCons(platform, walls);
      SegmentFacts.FlatRunAssembled(rand, k0, k1, z0, platform.View(), Views(walls), drawn);
    }

    /** The loop of `generateFlatRunSegment`: `obsCount` walls spread along the platform. */
    method SpawnWalls(platform: Entry, width: real, depth: real, obsCount: int) returns (ghost walls: seq<Entry>)
      requires Valid() && 0 < obsCount
      modifies this`platforms, this`drawn
      ensures Valid() && platforms == old(platforms) + walls
      ensures Walls(rand, old(drawn), platform.position, width, depth, obsCount, obsCount) == Batch(Views(walls), drawn)
    {
      ghost var k0, base := drawn, platforms;
      walls := [];
      for i := 0 to obsCount
        invariant Valid() && platforms == base + walls
        invariant Walls(rand, k0, platform.position, width, depth, obsCount, i) == Batch(Views(walls), drawn)
      {
        var localZ := WallOffset(depth, obsCount, i);
        ghost var e := SpawnObstacleOnPlatform(platform, width, depth, localZ);
        ViewsAppend(walls, [e]);
        Concat(base, walls, [e]);
        walls := walls + [e];
      }
    }

    method GenerateSlideSegment() returns (ghost made: seq<Entry>)
      requires Valid()
      modifies this
      ensures Valid() && platforms == old(platforms) + made
      ensures SlideSegment(old(drawn), old(lastChunkZ)) == Gen(Views(made), lastChunkZ, drawn)
    {
      ghost var k0, z0, base := drawn, lastChunkZ, platforms;
      made := [];
      var count := 3;
      var currentZ := lastChunkZ;
      for i := 0 to count
        invariant Valid() && lastChunkZ == z0 && drawn == k0 && platforms == base + made
        invariant SlideRun(k0, z0, i) == Gen(Views(made), currentZ, drawn)
      {
        var gap := 4.0;
        var depth := 20.0;
        var width := 12.0;
        currentZ := currentZ - gap;
        var platform := SpawnPlatform(0.0, 0.0, currentZ - depth / 2.0, width, depth, false);
        var c := Vec3(0.0, 2.5, currentZ - depth / 2.0);
        var barrier := Push(Spawn(Obstacle, c, BoxAround(c, width, 2.0, 1.0)));
        currentZ := currentZ - depth;
        ViewsAppend(made, [platform, barrier]);
        Concat(base, made, [platform, barrier]);
        made := made + [platform, barrier];
      }
      lastChunkZ := currentZ;
    }

    method GenerateDodgeSegment() returns (ghost made: seq<Entry>)
      requires Valid()
      modifies this
      ensures Valid() && platforms == old(platforms) + made
      ensures DodgeSegment(rand, old(drawn), old(lastChunkZ)) == Gen(Views(made), lastChunkZ, drawn)
    {
      ghost var k0, z0, base := drawn, lastChunkZ, platforms;
      ghost var pillars: seq<Entry> := [];
      var gap := 4.0;
      var depth := 50.0;
      var width := 20.0;
      lastChunkZ := lastChunkZ - gap;
      var z := lastChunkZ - depth / 2.0;
      var platform := SpawnPlatform(0.0, 0.0, z, width, depth, false);
      var rows := 5;
      for i := 0 to rows
        invariant Valid() && lastChunkZ == z0 - 4.0 && drawn == k0 + i
        invariant platforms == base + [platform] + pillars
        invariant Views(pillars) == DodgeRows(rand, k0, z, i)
      {
        var zPos := z + ((i as real) - (rows as real) / 2.0) * (depth / (rows as real));
        var r := rand(drawn); drawn := drawn + 1;
        var safeSpot := (r * 3.0).Floor;
        SegmentFacts.DodgeRowNext(rand, k0, z, i, zPos, r);
        ghost var row := SpawnRow(zPos, safeSpot);
        ViewsAppend(pillars, row);
        Concat(base + [platform], pillars, row);
        pillars := pillars + row;
      }
      lastChunkZ := lastChunkZ - depth;
      made := [platform] + pillars;
      Concat(base, [platform], pillars);
      ViewsCons(platform, pillars);
    }

    /** The `forEach` over the lanes `[-6, 0, 6]`: a pillar in every lane but `safeSpot`. */
    method SpawnRow(zPos: real, safeSpot: int) returns (ghost row: seq<Entry>)
      requires Valid()
      modifies this`platforms
      ensures Valid() && platforms == old(platforms) + row
      ensures Views(row) == RowPart(zPos, safeSpot, |Lanes|)
    {
      ghost var base := platforms;
      var spots := Lanes;
      row := [];
      for idx := 0 to |spots|
        invariant Valid() && platforms == base + row
        invariant Views(row) == RowPart(zPos, safeSpot, idx)
      {
        if idx != safeSpot {
          var pill := Push(Pillar(spots[idx], zPos));
          ViewsAppend(row, [pill]);
          Concat(base, row, [pill]);
          row := row + [pill];
        }
      }
    }

    /**
     * `update(playerZ)`: at most one new chunk, and only within render distance of the
     * frontier; then the oldest entry is dropped once more than 50 are held.
     */
    method Update(playerZ: real) returns (ghost made: seq<Entry>)
      requires Valid()
      modifies this
      ensures Valid()
      ensures State() == Advance(rand, old(State()), playerZ)
      ensures platforms == Evict(old(platforms) + made)
    {
      ghost var before := platforms;
      ghost var g := Gen([], lastChunkZ, drawn);
      made := [];
      if playerZ < lastChunkZ + RenderDistance {
        made := GenerateNextChunk();
        g := NextChunk(rand, old(drawn), old(lastChunkZ));
      }
      assert g == Gen(Views(made), lastChunkZ, drawn);
      ViewsAppend(before, made);
      assert old(State()).entries == Views(before);
      assert platforms == before + made;
      if |platforms| > MaxEntries {
        platforms := platforms[1..];
        ViewsSuffix(before + made, 1);
      }
      assert Views(platforms) == Evict(old(State()).entries + g.spawned);
    }
  }
}
