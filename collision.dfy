/**
 * `Player.checkCollisions` of player.js as functions: one `Step` per entry of the platform
 * list, applied in list order by `Pass`. The player's box is rebuilt from the current
 * position before every entry, so what an earlier entry did to the player decides how a
 * later one is met. Class `Players.Player` is proved against `Pass`.
 */
module Collision {
  import opened Geometry
  import opened Entities
  import Segments

  /**
   * The player state the collision pass reads and writes: centre, velocity, current height,
   * the grounded flag, the respawn anchor `lastCheckpoint` and `checkpointCount`.
   */
  datatype Body = Body(position: Vec3, velocity: Vec3, height: real, onGround: bool,
                       anchor: Vec3, count: int)

  /**
   * A body together with the entries whose `isCollected` flag is set. The flag lives on the
   * entry and is set in place, so the same entry met twice is credited once.
   */
  datatype Sweep = Sweep(body: Body, collected: set<Entry>)

  /** The player's box: half a unit either side in x and z, from the feet to 0.2 above the centre. */
  function PlayerBox(p: Vec3, height: real): Box3
  {
    Box3(Vec3(p.x - 0.5, p.y - height, p.z - 0.5), Vec3(p.x + 0.5, p.y + 0.2, p.z + 0.5))
  }

  predicate Touches(b: Body, e: Entry)
  {
    Intersects(e.box, PlayerBox(b.position, b.height))
  }

  /** The feet are at most half a unit below the top face and the player is not rising. */
  predicate Landing(b: Body, box: Box3)
  {
    b.position.y - b.height >= box.max.y - 0.5 && b.velocity.y <= 0.0
  }

  /** The smaller of the two face distances along one horizontal axis. */
  function Overlap(playerMin: real, playerMax: real, boxMin: real, boxMax: real): real
  {
    Min(Abs(playerMax - boxMin), Abs(playerMin - boxMax))
  }

  /** The side test: in front of the min face goes to min − 0.5, anything else to max + 0.5. */
  function Snap(c: real, boxMin: real, boxMax: real): real
  {
    if c < boxMin then boxMin - 0.5 else boxMax + 0.5
  }

  /** Stand on the top face, or push out along the axis of smaller overlap (ties go to z). */
  function Resolve(b: Body, box: Box3): Body
  {
    if Landing(b, box) then
      b.(position := b.position.(y := box.max.y + b.height), velocity := b.velocity.(y := 0.0),
         onGround := true)
    else
      var pb := PlayerBox(b.position, b.height);
      var overlapX := Overlap(pb.min.x, pb.max.x, box.min.x, box.max.x);
      var overlapZ := Overlap(pb.min.z, pb.max.z, box.min.z, box.max.z);
      if overlapX < overlapZ then
        b.(position := b.position.(x := Snap(b.position.x, box.min.x, box.max.x)),
           velocity := b.velocity.(x := 0.0))
      else
        b.(position := b.position.(z := Snap(b.position.z, box.min.z, box.max.z)),
           velocity := b.velocity.(z := 0.0))
  }

  /** The checkpoint branch: credit once, and move the anchor when it is more than 1 away. */
  function Credit(s: Sweep, e: Entry): Sweep
  {
    var b := s.body;
    var first := e !in s.collected;
    var anchor := if DistanceSquared(b.anchor, e.position) > 1.0 then e.position else b.anchor;
    Sweep(b.(count := if first then b.count + 1 else b.count, anchor := anchor),
          if first then s.collected + {e} else s.collected)
  }

  /** The body of the `for...of` loop for one entry. */
  function Step(s: Sweep, e: Entry): Sweep
  {
    if !Touches(s.body, e) then s
    else
      var c := if e.isCheckpointPlatform then Credit(s, e) else s;
      if e.kind == CheckpointBeacon then c else c.(body := Resolve(c.body, e.box))
  }

  /** The loop over the first `|es|` entries, in list order. */
  function Pass(s: Sweep, es: seq<Entry>): Sweep
    decreases |es|
  {
    if es == [] then s else Step(Pass(s, es[..|es| - 1]), es[|es| - 1])
  }

  /** `checkCollisions`: `onGround` is cleared, then every entry is met in turn. */
  function CheckAll(s: Sweep, es: seq<Entry>): Sweep
  {
    Pass(s.(body := s.body.(onGround := false)), es)
  }

  // ---------------------------------------------------------------------------------------
  // One entry

  /** An entry whose box does not meet the player's box changes nothing at all. */
  lemma MissChangesNothing(s: Sweep, e: Entry)
    requires !Touches(s.body, e)
    ensures Step(s, e) == s
  {
  }

  /**
   * A beacon is passed through: position, velocity and `onGround` are untouched, though the
   * checkpoint branch may still have credited it and moved the anchor.
   */
  lemma BeaconPassesThrough(s: Sweep, e: Entry)
    requires e.kind == CheckpointBeacon
    ensures var r := Step(s, e).body;
      && r.position == s.body.position && r.velocity == s.body.velocity
      && r.onGround == s.body.onGround && r.height == s.body.height
  {
  }

  /**
   * Landing: the player ends with the feet exactly on the top face, vertical velocity zero
   * and grounded, while x, z and the horizontal velocity stay as they were.
   */
  lemma LandsOnTop(s: Sweep, e: Entry)
    requires Touches(s.body, e) && e.kind != CheckpointBeacon && Landing(s.body, e.box)
    ensures var b, r := s.body, Step(s, e).body;
      && r.position.y - r.height == e.box.max.y
      && r.position.x == b.position.x && r.position.z == b.position.z
      && r.velocity == Vec3(b.velocity.x, 0.0, b.velocity.z)
      && r.onGround
  {
  }

  /**
   * Pushback: exactly one horizontal axis moves, x when its overlap is strictly smaller and
   * z otherwise; on that axis the player's box ends touching the min face of the entry's box
   * when the centre was in front of it and the max face otherwise, and that velocity
   * component is zero. Height, y, vertical velocity and `onGround` stay put.
   */
  lemma PushesOut(s: Sweep, e: Entry)
    requires Touches(s.body, e) && e.kind != CheckpointBeacon && !Landing(s.body, e.box)
    ensures var b, r := s.body, Step(s, e).body;
      var pb := PlayerBox(b.position, b.height);
      var overlapX := Overlap(pb.min.x, pb.max.x, e.box.min.x, e.box.max.x);
      var overlapZ := Overlap(pb.min.z, pb.max.z, e.box.min.z, e.box.max.z);
      && r.position.y == b.position.y && r.velocity.y == b.velocity.y
      && r.onGround == b.onGround && r.height == b.height
      && (overlapX < overlapZ ==>
            && r.position.z == b.position.z && r.velocity.z == b.velocity.z && r.velocity.x == 0.0
            && (b.position.x < e.box.min.x ==> r.position.x + 0.5 == e.box.min.x)
            && (b.position.x >= e.box.min.x ==> r.position.x - 0.5 == e.box.max.x))
      && (overlapX >= overlapZ ==>
            && r.position.x == b.position.x && r.velocity.x == b.velocity.x && r.velocity.z == 0.0
            && (b.position.z < e.box.min.z ==> r.position.z + 0.5 == e.box.min.z)
            && (b.position.z >= e.box.min.z ==> r.position.z - 0.5 == e.box.max.z))
  {
  }

  /**
   * The side test looks only at the min face: a centre already past it is sent to the far
   * side of the box, even when the min face is the nearer one, and then moves further than a
   * snap to the nearer face would have moved it.
   */
  lemma SideTestUsesMinFace(c: real, boxMin: real, boxMax: real)
    requires boxMin <= c < boxMax
    ensures Snap(c, boxMin, boxMax) == boxMax + 0.5
    ensures Abs(c - boxMin) < Abs(c - boxMax) ==> Abs(Snap(c, boxMin, boxMax) - c) > Abs(c - boxMin) + 0.5
  {
  }

  /**
   * The anchor moves only on a touched checkpoint platform more than 1 away, and then to that
   * platform's position; so after touching a checkpoint platform the anchor is within 1 of it.
   */
  lemma AnchorRule(s: Sweep, e: Entry)
    ensures var a, r := s.body.anchor, Step(s, e).body.anchor;
      && (Touches(s.body, e) && e.isCheckpointPlatform && DistanceSquared(a, e.position) > 1.0 ==>
            r == e.position)
      && (!(Touches(s.body, e) && e.isCheckpointPlatform && DistanceSquared(a, e.position) > 1.0) ==>
            r == a)
      && (Touches(s.body, e) && e.isCheckpointPlatform ==> DistanceSquared(r, e.position) <= 1.0)
  {
    if Touches(s.body, e) && e.isCheckpointPlatform && DistanceSquared(s.body.anchor, e.position) > 1.0 {
      assert DistanceSquared(e.position, e.position) == 0.0;
    }
  }

  /**
   * `checkpointCount` goes up by one exactly when a touched checkpoint platform was not yet
   * collected, and that entry is then collected; otherwise neither changes.
   */
  lemma CreditOnce(s: Sweep, e: Entry)
    ensures var r := Step(s, e);
      var first := Touches(s.body, e) && e.isCheckpointPlatform && e !in s.collected;
      && (first ==> r.body.count == s.body.count + 1 && r.collected == s.collected + {e})
      && (!first ==> r.body.count == s.body.count && r.collected == s.collected)
  {
  }

  // ---------------------------------------------------------------------------------------
  // The whole pass

  /** Meeting `a` then `b` is meeting `a + b`: the pass carries its state from entry to entry. */
  lemma {:induction false} PassAppend(s: Sweep, a: seq<Entry>, b: seq<Entry>)
    ensures Pass(s, a + b) == Pass(Pass(s, a), b)
    decreases |b|
  {
    if b == [] {
      assert a + b == a;
    } else {
      assert (a + b)[..|a + b| - 1] == a + b[..|b| - 1];
      assert (a + b)[|a + b| - 1] == b[|b| - 1];
      PassAppend(s, a, b[..|b| - 1]);
    }
  }

  /** The height never changes during a pass. */
  lemma {:induction false} PassKeepsHeight(s: Sweep, es: seq<Entry>)
    ensures Pass(s, es).body.height == s.body.height
    decreases |es|
  {
    if es != [] {
      PassKeepsHeight(s, es[..|es| - 1]);
    }
  }

  /**
   * Crediting over a pass: flags are only ever set, only on checkpoint platforms of the list,
   * and `checkpointCount` rises by exactly the number of entries newly collected.
   */
  lemma {:induction false} PassCredits(s: Sweep, es: seq<Entry>)
    ensures var r := Pass(s, es);
      && s.collected <= r.collected
      && (forall e :: e in r.collected - s.collected ==> e in es && e.isCheckpointPlatform)
      && r.body.count == s.body.count + |r.collected - s.collected|
    decreases |es|
  {
    if es != [] {
      var init := es[..|es| - 1];
      var e := es[|es| - 1];
      PassCredits(s, init);
      var p := Pass(s, init);
      CreditOnce(p, e);
      if Touches(p.body, e) && e.isCheckpointPlatform && e !in p.collected {
        var r := Pass(s, es);
        assert r.collected - s.collected == (p.collected - s.collected) + {e};
      }
      forall x | x in Pass(s, es).collected - s.collected
        ensures x in es && x.isCheckpointPlatform
      {
        if x in p.collected {
          assert x in init;
        }
      }
    }
  }

  /** The player lands on entry `i` when the pass reaches it. */
  predicate LandsAt(s: Sweep, es: seq<Entry>, i: int)
    requires 0 <= i < |es|
  {
    var b := Pass(s, es[..i]).body;
    Touches(b, es[i]) && es[i].kind != CheckpointBeacon && Landing(b, es[i].box)
  }

  /** Only landing sets `onGround`, and nothing in the pass clears it. */
  lemma {:induction false} PassGrounded(s: Sweep, es: seq<Entry>)
    ensures Pass(s, es).body.onGround <==>
      s.body.onGround || exists i :: 0 <= i < |es| && LandsAt(s, es, i)
    decreases |es|
  {
    if es != [] {
      var n := |es| - 1;
      var init := es[..n];
      PassGrounded(s, init);
      forall i | 0 <= i < n
        ensures LandsAt(s, init, i) == LandsAt(s, es, i)
      {
        assert init[..i] == es[..i];
      }
      var p := Pass(s, init);
      var e := es[n];
      assert LandsAt(s, es, n) <==> Touches(p.body, e) && e.kind != CheckpointBeacon && Landing(p.body, e.box);
      if LandsAt(s, es, n) {
        LandsOnTop(p, e);
      } else if Touches(p.body, e) && e.kind != CheckpointBeacon {
        PushesOut(p, e);
      } else if Touches(p.body, e) {
        BeaconPassesThrough(p, e);
      }
    }
  }

  /** After `checkCollisions` the player is grounded exactly when it landed on some entry. */
  lemma GroundedIffLanded(s: Sweep, es: seq<Entry>)
    ensures var s0 := s.(body := s.body.(onGround := false));
      CheckAll(s, es).body.onGround <==> exists i :: 0 <= i < |es| && LandsAt(s0, es, i)
  {
    PassGrounded(s.(body := s.body.(onGround := false)), es);
  }

  // ---------------------------------------------------------------------------------------
  // The slide barrier

  /**
   * A player standing on a slide platform, at its barrier's z and within its width, meets
   * the barrier exactly when its height is at least 0.8. The crouch target height is 1, so a
   * crouched player meets the barrier unless a long frame has taken its height below 0.8.
   */
  lemma SlideBarrierMet(x: real, pz: real, height: real)
    requires -6.0 <= x <= 6.0 && height > 0.0
    ensures var top := Segments.PlatformAt(0.0, 0.0, pz, 12.0, 20.0).box.max.y;
      var barrier := Segments.ObstacleAt(Vec3(0.0, 2.5, pz), 12.0, 2.0, 1.0);
      Intersects(barrier.box, PlayerBox(Vec3(x, top + height, pz), height)) <==> height >= 0.8
  {
  }
}
