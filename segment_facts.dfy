/** What each archetype of world.js appends and how it moves the frontier. */
module SegmentFacts {
  import opened Geometry
  import opened Entities
  import opened Segments

  // ---------------------------------------------------------------------------------------
  // Standard segment

  /** The z-extent of a spawned entry. */
  function Near(s: Spawn): real { s.box.max.z }
  function Far(s: Spawn): real { s.box.min.z }

  /** A platform of a standard segment: one unit tall, 15 to 25 deep, height within [-5, 5]. */
  predicate Slab(p: Spawn)
  {
    && p.kind == Platform
    && -5.0 <= p.position.y <= 5.0
    && 15.0 <= Near(p) - Far(p) < 25.0
    && Far(p) < p.position.z < Near(p)
    && p.box.max.y - p.box.min.y == 1.0
  }

  lemma StandardPlatformShape(rand: Stream, k: nat, cur: real)
    requires Unit(rand)
    ensures var g := StandardPlatform(rand, k, cur);
      && |g.spawned| == 1 && g.drawn == k + 7
      && Slab(g.spawned[0])
      && cur - 10.0 < Near(g.spawned[0]) <= cur - 5.0
      && g.frontier == Far(g.spawned[0])
  {
    assert 0.0 <= rand(k) < 1.0 && 0.0 <= rand(k + 1) < 1.0;
  }

  /**
   * Platforms laid out one behind the other from `cur` on: each a slab whose near face is at
   * least 5 behind `cur`, and each separated from the previous one by a gap in [5, 10); the
   * far faces are no further than `front`.
   */
  predicate LaidOut(ps: seq<Spawn>, cur: real, front: real)
  {
    && (forall i :: 0 <= i < |ps| ==> Slab(ps[i]) && front <= Far(ps[i]) && Near(ps[i]) <= cur - 5.0)
    && (forall i :: 0 < i < |ps| ==> Far(ps[i - 1]) - 10.0 < Near(ps[i]) <= Far(ps[i - 1]) - 5.0)
  }

  /**
   * The standard loop: `n` platforms laid out one behind the other, each separated from the
   * previous one by a gap in [5, 10), and the frontier is the far face of the last one.
   */
  lemma {:induction false} StandardRunShape(rand: Stream, k: nat, cur: real, n: nat)
    requires Unit(rand)
    ensures var g := StandardRun(rand, k, cur, n);
      && |g.spawned| == n && g.drawn == k + 7 * n
      && LaidOut(g.spawned, cur, g.frontier)
      && (n == 0 ==> g.frontier == cur)
      && (n > 0 ==> cur - 10.0 < Near(g.spawned[0]) && g.frontier == Far(g.spawned[n - 1]))
      && g.frontier <= cur - 20.0 * (n as real)
  {
    if n > 0 {
      StandardRunShape(rand, k, cur, n - 1);
      var g := StandardRun(rand, k, cur, n - 1);
      var p := StandardPlatform(rand, g.drawn, g.frontier);
      StandardPlatformShape(rand, g.drawn, g.frontier);
      var r := StandardRun(rand, k, cur, n);
      assert r.spawned == g.spawned + [p.spawned[0]] && r.frontier == p.frontier;
      RunAppend(g.spawned, p.spawned[0], cur, g.frontier);
      assert r.spawned[0] == if n == 1 then p.spawned[0] else g.spawned[0];
    }
  }

  /** A slab placed 5 to 10 beyond the far face of a laid-out run extends the run. */
  lemma RunAppend(ps: seq<Spawn>, q: Spawn, cur: real, front: real)
    requires front <= cur && (|ps| > 0 ==> front == Far(ps[|ps| - 1]))
    requires LaidOut(ps, cur, front)
    requires Slab(q) && front - 10.0 < Near(q) <= front - 5.0
    ensures LaidOut(ps + [q], cur, Far(q))
  {
    var rs := ps + [q];
    forall i | 0 <= i < |rs|
      ensures Slab(rs[i]) && Far(q) <= Far(rs[i]) && Near(rs[i]) <= cur - 5.0
    {
      if i < |ps| {
        assert rs[i] == ps[i];
      }
    }
    forall i | 0 < i < |rs|
      ensures Far(rs[i - 1]) - 10.0 < Near(rs[i]) <= Far(rs[i - 1]) - 5.0
    {
      assert rs[i - 1] == ps[i - 1];
      if i < |ps| {
        assert rs[i] == ps[i];
      }
    }
  }

  /** One pass of the standard loop, from the values its seven draws give. */
  lemma StandardPlatformIs(rand: Stream, k: nat, cur: real, gap: real, depth: real, width: real, x: real, y: real)
    requires gap == 5.0 + rand(k) * 5.0 && depth == 15.0 + rand(k + 1) * 10.0 && width == 8.0 + rand(k + 2) * 4.0
    requires x == Centred(rand(k + 3), 12.0) && y == Max(-5.0, Min(5.0, Centred(rand(k + 4), 5.0)))
    ensures StandardPlatform(rand, k, cur)
         == Gen([PlatformAt(x, y, cur - gap - depth / 2.0, width, depth)], cur - gap - depth, k + 7)
  {
  }

  /** A standard segment is the run of as many passes as its first draw says. */
  lemma StandardSegmentIs(rand: Stream, k: nat, z: real, count: int, g: Gen)
    requires count == StandardCount(rand(k)) && StandardRun(rand, k + 1, z, count) == g
    ensures StandardSegment(rand, k, z) == g
  {
  }

  /**
   * `generateStandardSegment` appends 3, 4 or 5 platforms and no obstacles, each with its
   * height clamped to [-5, 5], and strictly decreases the frontier.
   */
  lemma StandardSegmentShape(rand: Stream, k: nat, z: real)
    requires Unit(rand)
    ensures var g := StandardSegment(rand, k, z);
      var n := StandardCount(rand(k));
      && 3 <= n <= 5
      && |g.spawned| == n && g.drawn == k + 1 + 7 * n
      && (forall i :: 0 <= i < n ==>
            && g.spawned[i].kind == Platform && -5.0 <= g.spawned[i].position.y <= 5.0
            && g.frontier < g.spawned[i].position.z < z - 5.0)
      && (forall i :: 0 < i < n ==>
            Near(g.spawned[i]) <= Far(g.spawned[i - 1]) - 5.0)
      && z - 10.0 < Near(g.spawned[0]) <= z - 5.0
      && g.frontier == Far(g.spawned[n - 1])
      && g.frontier <= z - 60.0
  {
    assert 0.0 <= rand(k) < 1.0;
    StandardRunShape(rand, k + 1, z, StandardCount(rand(k)));
  }

  // ---------------------------------------------------------------------------------------
  // Flat run

  /**
   * `spawnObstacleOnPlatform`: a wall of width in [0.3, 0.7) times the platform's width that
   * stays within the platform's x-extent and stands exactly on its top face.
   */
  lemma WallShape(rand: Stream, k: nat, base: Vec3, pWidth: real, localZ: real)
    requires Unit(rand) && pWidth > 0.0
    ensures var w := Wall(rand, k, base, pWidth, localZ);
      && w.kind == Obstacle
      && 0.3 * pWidth <= w.box.max.x - w.box.min.x < 0.7 * pWidth
      && base.x - pWidth / 2.0 <= w.box.min.x && w.box.max.x <= base.x + pWidth / 2.0
      && w.box.min.y == base.y + 0.5
      && 2.0 <= w.box.max.y - w.box.min.y < 3.0
      && w.position.z == base.z + localZ
      && w.box.min.z == w.position.z - 0.5 && w.box.max.z == w.position.z + 0.5
  {
    assert 0.0 <= rand(k) < 1.0 && 0.0 <= rand(k + 1) < 1.0 && 0.0 <= rand(k + 2) < 1.0;
    var wW := WallWidth(pWidth, rand(k + 1));
    WallWidthBounds(pWidth, rand(k + 1));
    CentredBounds(rand(k + 2), pWidth - wW);
  }

  lemma WallWidthBounds(pWidth: real, r: real)
    requires 0.0 <= r < 1.0 && pWidth > 0.0
    ensures 0.3 * pWidth <= WallWidth(pWidth, r) < 0.7 * pWidth
  {
    ProductBelow(r, pWidth);
  }

  lemma CentredBounds(r: real, room: real)
    requires 0.0 <= r < 1.0 && room > 0.0
    ensures -room / 2.0 <= Centred(r, room) < room / 2.0
  {
    ProductBelow(r, room);
  }

  lemma ProductBelow(r: real, b: real)
    requires 0.0 <= r < 1.0 && b > 0.0
    ensures 0.0 <= r * b < b
  {
    assert b - r * b == (1.0 - r) * b;
  }

  /** The first `m` walls of a flat run: three draws each, all standing on the run's platform. */
  lemma {:induction false} WallsOnPlatform(rand: Stream, k: nat, p: Spawn, depth: real, n: int, m: nat)
    requires Unit(rand) && m <= n && (n as real) * 15.0 <= depth
    requires p == PlatformAt(0.0, 0.0, p.position.z, 12.0, depth)
    ensures var b := Walls(rand, k, p.position, 12.0, depth, n, m);
      && |b.spawned| == m && b.drawn == k + 3 * m
      && forall i :: 0 <= i < m ==> StandsOn(b.spawned[i], p)
  {
    if m > 0 {
      WallsOnPlatform(rand, k, p, depth, n, m - 1);
      var b := Walls(rand, k, p.position, 12.0, depth, n, m - 1);
      FlatWallOnPlatform(rand, b.drawn, depth, p, n, m - 1);
    }
  }

  /** With `n <= depth / 15`, every wall's centre is at least 10 units inside the platform. */
  lemma WallOffsetBounds(depth: real, n: int, i: int)
    requires 1 <= n && (n as real) * 15.0 <= depth && 0 <= i < n
    ensures -depth / 2.0 + 5.0 <= WallOffset(depth, n, i) <= depth / 2.0 - 10.0
  {
    var step := depth / (n as real);
    assert step * (n as real) == depth;
    assert step >= 15.0;
    assert (i as real) * step <= ((n - 1) as real) * step;
    assert ((n - 1) as real) * step == depth - step;
  }

  /**
   * An obstacle standing on platform `p`: its bottom face on the platform's top face, its
   * x-extent and z-extent inside the platform's.
   */
  predicate StandsOn(w: Spawn, p: Spawn)
  {
    && w.kind == Obstacle
    && w.box.min.y == p.box.max.y
    && p.box.min.x <= w.box.min.x && w.box.max.x <= p.box.max.x
    && Far(p) <= Far(w) && Near(w) <= Near(p)
    && Far(p) < w.position.z < Near(p)
  }

  /** Wall `i` of a flat run stands on the run's platform. */
  lemma FlatWallOnPlatform(rand: Stream, k: nat, depth: real, p: Spawn, n: int, i: nat)
    requires Unit(rand) && 1 <= n && (n as real) * 15.0 <= depth && i < n
    requires p == PlatformAt(0.0, 0.0, p.position.z, 12.0, depth)
    ensures StandsOn(Wall(rand, k, p.position, 12.0, WallOffset(depth, n, i)), p)
  {
    WallShape(rand, k, p.position, 12.0, WallOffset(depth, n, i));
    WallOffsetBounds(depth, n, i);
  }

  lemma WallCountBounds(r: real)
    requires 0.0 <= r < 1.0
    ensures var n := WallCount(FlatDepth(r));
      4 <= n <= 6 && (n as real) * 15.0 <= FlatDepth(r)
  {
  }

  /** A flat run put together from its platform and the walls laid on it. */
  lemma FlatRunAssembled(rand: Stream, k: nat, k1: nat, z: real, p: Spawn, walls: seq<Spawn>, drawn: nat)
    requires k1 == k + 1 && p == FlatPlatform(z - 4.0, FlatDepth(rand(k)))
    requires var depth := FlatDepth(rand(k));
      Walls(rand, k1, p.position, 12.0, depth, WallCount(depth), WallCount(depth)) == Batch(walls, drawn)
    ensures FlatRunSegment(rand, k, z) == Gen([p] + walls, z - 4.0 - FlatDepth(rand(k)), drawn)
  {
  }

  /** The entries of a flat run: its platform, then the walls. */
  lemma FlatRunParts(rand: Stream, k: nat, z: real)
    requires Unit(rand)
    ensures var g := FlatRunSegment(rand, k, z);
      var depth := FlatDepth(rand(k));
      var n := WallCount(depth);
      var p := FlatPlatform(z - 4.0, depth);
      var walls := Walls(rand, k + 1, p.position, 12.0, depth, n, n);
      && 4 <= n <= 6 && (n as real) * 15.0 <= depth
      && g.spawned == [p] + walls.spawned && g.drawn == walls.drawn && g.frontier == z - 4.0 - depth
  {
    assert 0.0 <= rand(k) < 1.0;
    WallCountBounds(rand(k));
  }

  /**
   * `generateFlatRunSegment` moves the frontier by exactly 4 + depth and appends one platform
   * followed by floor(depth / 15) walls, between 4 and 6 of them, each standing on the
   * platform's top face inside its x- and z-extent.
   */
  lemma FlatRunShape(rand: Stream, k: nat, z: real)
    requires Unit(rand)
    ensures var g := FlatRunSegment(rand, k, z);
      var depth := FlatDepth(rand(k));
      var n := WallCount(depth);
      && 4 <= n <= 6
      && |g.spawned| == 1 + n && g.drawn == k + 1 + 3 * n
      && g.frontier == z - 4.0 - depth
      && var p := g.spawned[0];
      && p.kind == Platform && Near(p) == z - 4.0 && Far(p) == g.frontier
      && forall i :: 1 <= i <= n ==> StandsOn(g.spawned[i], p)
  {
    var g := FlatRunSegment(rand, k, z);
    var depth := FlatDepth(rand(k));
    var n := WallCount(depth);
    var p := FlatPlatform(z - 4.0, depth);
    var walls := Walls(rand, k + 1, p.position, 12.0, depth, n, n);
    FlatRunParts(rand, k, z);
    WallsOnPlatform(rand, k + 1, p, depth, n, n);
    PlatformThenWalls(g.spawned, p, walls.spawned);
  }

  lemma PlatformThenWalls(ps: seq<Spawn>, p: Spawn, ws: seq<Spawn>)
    requires ps == [p] + ws && forall i :: 0 <= i < |ws| ==> StandsOn(ws[i], p)
    ensures |ps| == 1 + |ws| && ps[0] == p && forall i :: 1 <= i < |ps| ==> StandsOn(ps[i], ps[0])
  {
    assert forall i :: 1 <= i < |ps| ==> ps[i] == ws[i - 1];
  }

  // ---------------------------------------------------------------------------------------
  // Slide

  /** A slide barrier over platform `p`: same centre in x and z, one unit above its top face. */
  predicate BarrierOver(b: Spawn, p: Spawn)
  {
    && b.kind == Obstacle
    && b.position == p.position.(y := 2.5)
    && b.box.min.y == p.box.max.y + 1.0
  }

  /** Both entries of one pass of the slide loop lie between the frontiers `lo` and `hi`. */
  predicate Between(s: Spawn, lo: real, hi: real)
  {
    lo <= Far(s) && Near(s) <= hi && Far(s) < s.position.z < Near(s)
  }

  /**
   * The slide loop: platforms at even positions, each followed by its barrier, every entry
   * between the two frontiers, and the frontier moved by 24 per pass.
   */
  lemma {:induction false} SlideRunShape(k: nat, cur: real, n: nat)
    ensures var g := SlideRun(k, cur, n);
      && |g.spawned| == 2 * n && g.drawn == k
      && g.frontier == cur - 24.0 * (n as real)
      && (forall j :: 0 <= j < 2 * n ==>
            && (g.spawned[j].kind == Platform <==> j % 2 == 0)
            && Between(g.spawned[j], g.frontier, cur - 4.0))
      && (forall j :: 0 <= j < 2 * n && j % 2 == 1 ==> BarrierOver(g.spawned[j], g.spawned[j - 1]))
  {
    if n > 0 {
      SlideRunShape(k, cur, n - 1);
      var g := SlideRun(k, cur, n - 1);
      var r := SlideRun(k, cur, n);
      var pz := g.frontier - 14.0;
      var last := [PlatformAt(0.0, 0.0, pz, 12.0, 20.0), ObstacleAt(Vec3(0.0, 2.5, pz), 12.0, 2.0, 1.0)];
      assert r.spawned == g.spawned + last;
      forall j | 0 <= j < 2 * n
        ensures && (r.spawned[j].kind == Platform <==> j % 2 == 0)
                && Between(r.spawned[j], r.frontier, cur - 4.0)
      {
        if j < 2 * (n - 1) {
          assert r.spawned[j] == g.spawned[j];
        } else {
          assert r.spawned[j] == last[j - 2 * (n - 1)];
        }
      }
      forall j | 0 <= j < 2 * n && j % 2 == 1
        ensures BarrierOver(r.spawned[j], r.spawned[j - 1])
      {
        if j < 2 * (n - 1) {
          assert r.spawned[j] == g.spawned[j] && r.spawned[j - 1] == g.spawned[j - 1];
        } else {
          assert r.spawned[j] == last[1] && r.spawned[j - 1] == last[0];
        }
      }
    }
  }

  /**
   * `generateSlideSegment` appends exactly six entries, platform and barrier alternating, uses
   * no draw, and moves the frontier by exactly 72.
   */
  lemma SlideShape(k: nat, z: real)
    ensures var g := SlideSegment(k, z);
      && |g.spawned| == 6 && g.drawn == k && g.frontier == z - 72.0
      && (forall j :: 0 <= j < 6 ==>
            (g.spawned[j].kind == Platform <==> j % 2 == 0) && Between(g.spawned[j], g.frontier, z - 4.0))
      && (forall j :: 0 <= j < 6 && j % 2 == 1 ==> BarrierOver(g.spawned[j], g.spawned[j - 1]))
  {
    SlideRunShape(k, z, 3);
  }

  // ---------------------------------------------------------------------------------------
  // Dodge

  /** Two pillars side by side in distinct lanes, neither of them the free lane. */
  predicate LeavesOnlyLaneFree(a: Spawn, b: Spawn, free: real)
  {
    && a.kind == Obstacle && b.kind == Obstacle
    && a.position.x in Lanes && b.position.x in Lanes
    && a.position.x < b.position.x
    && a.position.x != free && b.position.x != free
    && a.position.z == b.position.z
  }

  /** The `forEach` over the three lanes pushes exactly two pillars, skipping the free lane. */
  lemma RowShape(zPos: real, safe: int)
    requires 0 <= safe < 3
    ensures var row := RowPart(zPos, safe, 3);
      && |row| == 2
      && LeavesOnlyLaneFree(row[0], row[1], Lanes[safe])
      && row[0].position.z == zPos && row[0].position.y == 2.0 && row[1].position.y == 2.0
  {
    assert RowPart(zPos, safe, 1) == if safe == 0 then [] else [Pillar(-6.0, zPos)];
  }

  lemma SafeLaneBounds(r: real)
    requires 0.0 <= r < 1.0
    ensures 0 <= SafeLane(r) < 3
  {
  }

  /** Row `i` of a list of pillar pairs: its two entries avoid the lane drawn for that row. */
  predicate RowLeavesLaneFree(rows: seq<Spawn>, i: int, rand: Stream, k: nat)
    requires 0 <= 2 * i && 2 * i + 1 < |rows|
  {
    && 0 <= k + i
    && 0 <= SafeLane(rand(k + i)) < 3
    && LeavesOnlyLaneFree(rows[2 * i], rows[2 * i + 1], Lanes[SafeLane(rand(k + i))])
  }

  /** One more pass of the row loop appends the row at `zPos` with the lane draw `r` left free. */
  lemma DodgeRowNext(rand: Stream, k: nat, pz: real, i: nat, zPos: real, r: real)
    requires zPos == pz + ((i as real) - 5.0 / 2.0) * (50.0 / 5.0) && r == rand(k + i)
    ensures DodgeRows(rand, k, pz, i + 1) == DodgeRows(rand, k, pz, i) + RowPart(zPos, SafeLane(r), |Lanes|)
  {
  }

  /** The rows of a dodge segment: two pillars each, at the row's z, avoiding its free lane. */
  lemma {:induction false} DodgeRowsShape(rand: Stream, k: nat, pz: real, m: nat)
    requires Unit(rand)
    ensures var rows := DodgeRows(rand, k, pz, m);
      && |rows| == 2 * m
      && forall i :: 0 <= i < m ==>
           RowLeavesLaneFree(rows, i, rand, k) && rows[2 * i].position.z == RowZ(pz, i)
  {
    if m > 0 {
      DodgeRowsShape(rand, k, pz, m - 1);
      var safe := SafeLane(rand(k + m - 1));
      assert 0.0 <= rand(k + m - 1) < 1.0;
      SafeLaneBounds(rand(k + m - 1));
      RowShape(RowZ(pz, m - 1), safe);
      RowsAppend(DodgeRows(rand, k, pz, m - 1), RowPart(RowZ(pz, m - 1), safe, 3), rand, k, pz, m);
    }
  }

  /** Appending a well-formed row `m - 1` to `m - 1` well-formed rows gives `m` of them. */
  lemma RowsAppend(prev: seq<Spawn>, row: seq<Spawn>, rand: Stream, k: nat, pz: real, m: nat)
    requires m > 0 && |prev| == 2 * (m - 1) && |row| == 2
    requires forall i :: 0 <= i < m - 1 ==>
      RowLeavesLaneFree(prev, i, rand, k) && prev[2 * i].position.z == RowZ(pz, i)
    requires 0 <= SafeLane(rand(k + m - 1)) < 3
    requires LeavesOnlyLaneFree(row[0], row[1], Lanes[SafeLane(rand(k + m - 1))])
    requires row[0].position.z == RowZ(pz, m - 1)
    ensures var rows := prev + row;
      && |rows| == 2 * m
      && forall i :: 0 <= i < m ==>
           RowLeavesLaneFree(rows, i, rand, k) && rows[2 * i].position.z == RowZ(pz, i)
  {
    var rows := prev + row;
    forall i | 0 <= i < m
      ensures RowLeavesLaneFree(rows, i, rand, k) && rows[2 * i].position.z == RowZ(pz, i)
    {
      if i < m - 1 {
        assert rows[2 * i] == prev[2 * i] && rows[2 * i + 1] == prev[2 * i + 1];
        assert RowLeavesLaneFree(prev, i, rand, k);
      } else {
        assert rows[2 * i] == row[0] && rows[2 * i + 1] == row[1];
      }
    }
  }

  /**
   * `generateDodgeSegment` moves the frontier by exactly 54 and appends one platform followed
   * by five rows of exactly two pillars; row `i` uses draw `k + i` and leaves exactly the lane
   * that draw picks empty, and every pillar's centre lies within the platform's z-extent.
   */
  lemma DodgeShape(rand: Stream, k: nat, z: real)
    requires Unit(rand)
    ensures var g := DodgeSegment(rand, k, z);
      && |g.spawned| == 11 && g.drawn == k + 5 && g.frontier == z - 54.0
      && var p := g.spawned[0];
      && p.kind == Platform && Near(p) == z - 4.0 && Far(p) == g.frontier
      && (forall i :: 0 <= i < 5 ==> RowLeavesLaneFree(g.spawned[1..], i, rand, k))
      && forall j :: 1 <= j < 11 ==>
           g.spawned[j].kind == Obstacle && Far(p) <= g.spawned[j].position.z <= Near(p)
  {
    var g := DodgeSegment(rand, k, z);
    var rows := DodgeRows(rand, k, z - 29.0, 5);
    DodgeRowsInside(rand, k, z - 29.0);
    assert g.spawned == [g.spawned[0]] + rows;
    assert g.spawned[1..] == rows;
    forall j | 1 <= j < 11
      ensures g.spawned[j].kind == Obstacle && z - 54.0 <= g.spawned[j].position.z <= z - 4.0
    {
      assert g.spawned[j] == rows[j - 1];
    }
  }

  /** The five rows of a dodge segment centred at `pz`: ten pillars within 25 of `pz`. */
  lemma DodgeRowsInside(rand: Stream, k: nat, pz: real)
    requires Unit(rand)
    ensures var rows := DodgeRows(rand, k, pz, 5);
      && |rows| == 10
      && (forall i :: 0 <= i < 5 ==> RowLeavesLaneFree(rows, i, rand, k))
      && forall j :: 0 <= j < 10 ==> rows[j].kind == Obstacle && pz - 25.0 <= rows[j].position.z <= pz + 25.0
  {
    var rows := DodgeRows(rand, k, pz, 5);
    DodgeRowsShape(rand, k, pz, 5);
    forall j | 0 <= j < 10
      ensures rows[j].kind == Obstacle && pz - 25.0 <= rows[j].position.z <= pz + 25.0
    {
      var i := j / 2;
      assert j == 2 * i || j == 2 * i + 1;
      assert RowLeavesLaneFree(rows, i, rand, k);
      assert rows[2 * i].position.z == rows[2 * i + 1].position.z == RowZ(pz, i);
    }
  }

  // ---------------------------------------------------------------------------------------
  // Chunks and the level

  /**
   * What every chunk appended at frontier `z` satisfies: it holds 3 to 11 entries, starts
   * with a platform, has every centre between the new and the old frontier, and strictly
   * decreases the frontier.
   */
  predicate ChunkBounds(g: Gen, z: real)
  {
    && g.frontier < z
    && 3 <= |g.spawned| <= 11
    && g.spawned[0].kind == Platform
    && forall j :: 0 <= j < |g.spawned| ==> g.frontier <= g.spawned[j].position.z <= z
  }

  lemma StandardBounds(rand: Stream, k: nat, z: real)
    requires Unit(rand)
    ensures ChunkBounds(StandardSegment(rand, k, z), z) && StandardSegment(rand, k, z).drawn >= k
  {
    StandardSegmentShape(rand, k, z);
  }

  lemma FlatRunBounds(rand: Stream, k: nat, z: real)
    requires Unit(rand)
    ensures ChunkBounds(FlatRunSegment(rand, k, z), z) && FlatRunSegment(rand, k, z).drawn >= k
  {
    FlatRunShape(rand, k, z);
    var g := FlatRunSegment(rand, k, z);
    var p := g.spawned[0];
    forall j | 0 <= j < |g.spawned|
      ensures g.frontier <= g.spawned[j].position.z <= z
    {
      if j > 0 {
        assert StandsOn(g.spawned[j], p);
      }
    }
  }

  lemma SlideBounds(k: nat, z: real)
    ensures ChunkBounds(SlideSegment(k, z), z) && SlideSegment(k, z).drawn >= k
  {
    SlideShape(k, z);
    var g := SlideSegment(k, z);
    forall j | 0 <= j < |g.spawned|
      ensures g.frontier <= g.spawned[j].position.z <= z
    {
      assert Between(g.spawned[j], g.frontier, z - 4.0);
    }
  }

  lemma DodgeBounds(rand: Stream, k: nat, z: real)
    requires Unit(rand)
    ensures ChunkBounds(DodgeSegment(rand, k, z), z) && DodgeSegment(rand, k, z).drawn >= k
  {
    DodgeShape(rand, k, z);
    var g := DodgeSegment(rand, k, z);
    assert g.spawned[0].position.z == z - 29.0;
  }

  /**
   * `generateNextChunk`: draw `k` picks the archetype by the thresholds 0.4, 0.6 and 0.8, and
   * whichever it picks, the chunk satisfies `ChunkBounds`.
   */
  lemma NextChunkShape(rand: Stream, k: nat, z: real)
    requires Unit(rand)
    ensures var g := NextChunk(rand, k, z);
      && ChunkBounds(g, z) && g.drawn > k
      && (rand(k) < 0.4 ==>
            && |g.spawned| == StandardCount(rand(k + 1))
            && forall j :: 0 <= j < |g.spawned| ==> g.spawned[j].kind == Platform)
      && (0.4 <= rand(k) < 0.6 ==>
            && g.frontier == z - 4.0 - FlatDepth(rand(k + 1))
            && |g.spawned| == 1 + WallCount(FlatDepth(rand(k + 1))))
      && (0.6 <= rand(k) < 0.8 ==> |g.spawned| == 6 && g.frontier == z - 72.0)
      && (0.8 <= rand(k) ==> |g.spawned| == 11 && g.frontier == z - 54.0)
  {
    match ArchetypeOf(rand(k))
    case Standard =>
      StandardBounds(rand, k + 1, z);
      StandardSegmentShape(rand, k + 1, z);
    case FlatRun =>
      FlatRunBounds(rand, k + 1, z);
      FlatRunParts(rand, k + 1, z);
      FlatRunShape(rand, k + 1, z);
    case Slide =>
      SlideBounds(k + 1, z);
      SlideShape(k + 1, z);
    case Dodge =>
      DodgeBounds(rand, k + 1, z);
      DodgeShape(rand, k + 1, z);
  }

  /** `n` chunks in a row: 3 to 11 entries each, every centre between the two frontiers. */
  lemma {:induction false} ChunksShape(rand: Stream, k: nat, z: real, n: nat)
    requires Unit(rand)
    ensures var g := Chunks(rand, k, z, n);
      && 3 * n <= |g.spawned| <= 11 * n
      && g.drawn >= k + n
      && (n == 0 ==> g.frontier == z) && (n > 0 ==> g.frontier < z)
      && (forall j :: 0 <= j < |g.spawned| ==> g.frontier <= g.spawned[j].position.z <= z)
  {
    if n > 0 {
      ChunksShape(rand, k, z, n - 1);
      var g := Chunks(rand, k, z, n - 1);
      NextChunkShape(rand, g.drawn, g.frontier);
      var c := NextChunk(rand, g.drawn, g.frontier);
      var r := Chunks(rand, k, z, n);
      assert r.spawned == g.spawned + c.spawned;
      forall j | 0 <= j < |r.spawned|
        ensures r.frontier <= r.spawned[j].position.z <= z
      {
        if j < |g.spawned| {
          assert r.spawned[j] == g.spawned[j];
        } else {
          assert r.spawned[j] == c.spawned[j - |g.spawned|];
        }
      }
    }
  }

  /**
   * The constructor's level: the start platform followed by five chunks, 16 to 56 entries in
   * all, every chunk entry centred between the final frontier and z = -20.
   */
  lemma InitialLevelShape(rand: Stream)
    requires Unit(rand)
    ensures var l := InitialLevel(rand);
      && l.entries[0] == StartPlatform
      && 16 <= |l.entries| <= 56
      && l.frontier < StartZ
      && l.drawn >= InitialChunks
      && forall j :: 1 <= j < |l.entries| ==> l.frontier <= l.entries[j].position.z <= StartZ
  {
    ChunksShape(rand, 0, StartZ, InitialChunks);
    var g := Chunks(rand, 0, StartZ, InitialChunks);
    var l := InitialLevel(rand);
    assert forall j :: 1 <= j < |l.entries| ==> l.entries[j] == g.spawned[j - 1];
  }

  /**
   * `update(playerZ)`: a chunk is appended, at the end, exactly when the player is within the
   * render distance of the frontier, and then the frontier strictly decreases; otherwise the
   * frontier and the draws stay put. If the list then holds more than 50 entries exactly the
   * oldest one is dropped, and the others keep their order.
   */
  lemma AdvanceShape(rand: Stream, s: Level, playerZ: real)
    requires Unit(rand)
    ensures var r := Advance(rand, s, playerZ);
      var gen := playerZ < s.frontier + RenderDistance;
      var c := if gen then NextChunk(rand, s.drawn, s.frontier).spawned else [];
      && (gen <==> r.frontier < s.frontier)
      && (!gen ==> r.frontier == s.frontier && r.drawn == s.drawn)
      && |c| <= 11
      && (|s.entries| + |c| <= MaxEntries ==> r.entries == s.entries + c)
      && (|s.entries| + |c| > MaxEntries ==> 0 < |s.entries| && r.entries == s.entries[1..] + c)
  {
    if playerZ < s.frontier + RenderDistance {
      NextChunkShape(rand, s.drawn, s.frontier);
    }
  }
}
