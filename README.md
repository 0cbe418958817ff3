# Endless-runner level generator and collision core

This project models the two pieces of sequential logic in the game's JavaScript:

- **Class `World` of world.js, the level generator.** It keeps the ordered list `platforms` of entries (a bounding box and a type) and the frontier `lastChunkZ`, which only moves toward −z.
  - `generateNextChunk` spends one `Math.random()` draw to pick one of four segment archetypes: standard, flat run, slide, dodge.
  - Each archetype appends its platforms and obstacles behind the old frontier and moves the frontier on.
  - `update(playerZ)` appends at most one chunk, and only when the player is within render distance of the frontier. It then drops the oldest entry once more than 50 are held.
  - `init` spawns the start platform and five chunks.
- **Class `Player` of player.js, the collision pass and the input flag machine.**
  - `checkCollisions` scans the list in order and rebuilds the player's box before each entry. For each entry it meets, it credits a checkpoint platform once, moves the respawn anchor, skips beacons, and then either lands the player or pushes it out sideways.
  - `onKeyDown`/`onKeyUp` flip six movement flags. Space jumps only from the ground and only when not crouching.
  - `update` respawns the player when it has fallen below y = −50, then runs the collision pass.

## How the model is organised

| file | module | what it holds |
|---|---|---|
| geometry.dfy | `Geometry` | Vectors and `Box3`. A box mesh's bounding box is its centre ± half its size. `intersectsBox` is inclusive. |
| entity.dfy | `Entities` | Class `Entry`, one record of the list. Its box, type and `isCheckpointPlatform` are fixed; `isCollected` is set in place. `Views` gives the fixed part of a list. |
| segments.dfy | `Segments` | The generator as functions of the random stream. `Math.random()` is `rand: nat -> real` with every value in [0, 1), and draw number `n` is `rand(n)`. Each function gives what a step appends, the new frontier and the next draw index. |
| segment_facts.dfy | `SegmentFacts` | What each archetype, each chunk, the initial level and `update` are proved to do. |
| world.dfy | `Worlds` | Class `World`. Its fields are `platforms` (a `seq<Entry>` reassigned on push and shift), `lastChunkZ` and the draw cursor `drawn`. Every method is proved equal to the function of `Segments` for the same step. |
| collision.dfy | `Collision` | One entry of the collision loop (`Step`) and the loop over a list (`Pass`), as functions, with the lemmas about them. |
| controls.dfy | `Controls` | Key codes, the flag each code stands for, and the key-down, key-up and jump rules. |
| players.dfy | `Players` | Class `Player`. It has the fields the source mutates and is proved against `Collision` and `Controls`. The loop sets `isCollected` on the entries in place. |

Two behaviours of the code are proved as they are:

- **The slide barrier is met by any player at least 0.8 tall.** The barrier spans y from 1.5 to 3.5 over a platform whose top is at 0.5. A player standing on that platform, at the barrier's z and with |x| at most 6, meets the barrier exactly when its height is at least 0.8 (`SlideBarrierMet`). The crouch target height is 1 (player.js:30, 162-163). The height stays at or above 1 only while every frame takes at most 0.1 s; a longer frame makes the blend overshoot 1, and it can overshoot below 0.8 (from height 2, a frame longer than 0.12 s does). Which way a met player is pushed depends on the overlaps: close to the barrier's ends (|x| > 5.5) the push is sideways along x.
- **The pushback side test only looks at the min face.** A centre that is already past the min face is snapped to the max face, even when the min face is nearer (`SideTestUsesMinFace`).

### Where the code differs from the game's design description

The design description mentions several features the code does not have. The model follows the code:

- a 300-entry retention cap (the code evicts one entry past 50, at world.js:206);
- permanent start-zone entries;
- checkpoint zones inserted at a fixed cadence;
- a goal plaza after 100 segments;
- an easy opening;
- six archetypes (the code has four).

The design also says the fall-through respawn forces the player to the grounded state. The code (player.js:209-213) leaves `onGround` as it was, and `RespawnRule` states exactly that.

world.js never creates an entry with `isCheckpointPlatform` set or of type `'checkpoint_beacon'`. The collision code handles both anyway, so `Entry` has the flag and `Kind` has `CheckpointBeacon`, and the collision lemmas cover them.

## Model

| member | source | states |
|---|---|---|
| Worlds.World.constructor | world.js:36-42 | After `init` the list and the frontier are exactly `InitialLevel(rand)`: the start platform (0, −2, −20), 10 × 1 × 50, followed by five chunks generated from draw 0 and frontier −20. |
| Worlds.World.Push | world.js:64 | `platforms.push` appends exactly one new entry with the given box and type. It is neither a checkpoint platform nor collected. |
| Worlds.World.SpawnPlatform | world.js:46-73 | Appends exactly one new `'platform'` entry centred at (x, y, z), width × 1 × depth. `addObstacles` adds nothing. |
| Worlds.World.SpawnObstacleOnPlatform | world.js:184-197 | Consumes exactly three draws and appends exactly the wall `Wall` describes for them. |
| Worlds.World.GenerateNextChunk | world.js:75-88 | The entries appended, the new frontier and the draws consumed are exactly `NextChunk` of the old draw index and frontier. |
| Worlds.World.GenerateStandardSegment | world.js:90-109 | Appends exactly `StandardSegment`: `3 + floor(3r)` passes of the loop, then `lastChunkZ` is set to the final `currentZ`. |
| Worlds.World.StandardPass | world.js:95-106 | One loop pass consumes exactly seven draws (including colour and `addObstacles`) and appends the one platform `StandardPlatform` describes. `currentZ` drops by gap + depth. |
| Worlds.World.GenerateFlatRunSegment | world.js:111-125 | Appends exactly `FlatRunSegment`: one platform of depth 60 + 40r, then `floor(depth / 15)` walls. The frontier drops by 4 + depth. |
| Worlds.World.SpawnWalls | world.js:120-123 | The wall loop appends exactly the walls `Walls` describes, wall `i` at local z `i·(depth/n) − depth/2 + 5`. |
| Worlds.World.GenerateSlideSegment | world.js:127-153 | Appends exactly `SlideSegment`: three passes of platform then barrier. No draw is used. |
| Worlds.World.GenerateDodgeSegment | world.js:155-182 | Appends exactly `DodgeSegment`: one platform, then five rows, each using one draw for its free lane. |
| Worlds.World.SpawnRow | world.js:167-179 | The `forEach` over lanes −6, 0, 6 appends a 4 × 4 × 4 pillar at y = 2 in every lane except `safeSpot`, in lane order. |
| Worlds.World.Update | world.js:199-212 | The new state is exactly `Advance` of the old state. The list is the old list plus the new chunk, with the head shifted off when that exceeds 50 entries. |
| SegmentFacts.StandardPlatformShape | world.js:96-106 | One pass: a platform with y clamped to [−5, 5], depth in [15, 25), near face 5 to 10 beyond `currentZ`. The new `currentZ` is its far face. |
| SegmentFacts.StandardRunShape | world.js:94-108 | n passes give n platforms. Each platform's near face lies 5 to 10 beyond the previous platform's far face, so they never overlap in z. The frontier is the last far face and drops at least 20 per pass. |
| SegmentFacts.StandardSegmentShape | world.js:90-109 | A standard segment appends 3, 4 or 5 entries, all `'platform'`, each with y in [−5, 5] and spaced at least 5 apart. The frontier drops by at least 60. |
| SegmentFacts.WallShape | world.js:184-196 | A wall's width is in [0.3, 0.7) × the platform's width, and its x-extent stays within the platform's. Its bottom is exactly at the platform's y + 0.5, its height is in [2, 3), and it is 1 deep at `localZ`. |
| SegmentFacts.WallOffsetBounds | world.js:122 | With n ≤ depth/15, every wall's centre lies between −depth/2 + 5 and depth/2 − 10 along the platform. |
| SegmentFacts.WallCountBounds | world.js:113-120 | For depth 60 + 40r, `floor(depth / 15)` is between 4 and 6, and n·15 ≤ depth. |
| SegmentFacts.WallsOnPlatform | world.js:120-123 | The first m walls consume 3m draws, and every one stands on the run's platform: on its top face, inside its x- and z-extent. |
| SegmentFacts.FlatRunShape | world.js:111-125 | A flat run appends one platform and then 4 to 6 walls, all standing on it. The frontier drops by exactly 4 + depth, and it uses 1 + 3n draws. |
| SegmentFacts.SlideRunShape | world.js:132-151 | After n passes there are 2n entries alternating platform and barrier, each barrier centred over its platform one unit above its top. The frontier drops by exactly 24 per pass. |
| SegmentFacts.SlideShape | world.js:127-153 | A slide segment appends exactly 6 entries, alternating platform and obstacle. It uses no draw and drops the frontier by exactly 72. |
| SegmentFacts.RowShape | world.js:167-179 | A row holds exactly two pillars in distinct lanes, neither in the free lane, so exactly one lane of −6, 0, 6 is empty. |
| SegmentFacts.DodgeRowsShape | world.js:164-180 | Each of m rows has two pillars at that row's z that avoid the lane picked by draw k + i. |
| SegmentFacts.DodgeShape | world.js:155-182 | A dodge segment appends 1 platform and then 5 rows of exactly 2 pillars, each row leaving exactly its drawn lane empty. Every pillar centre lies within the platform's z-extent. It uses 5 draws and drops the frontier by exactly 54. |
| SegmentFacts.NextChunkShape | world.js:75-88 | The draw picks standard below 0.4, flat run below 0.6, slide below 0.8 and dodge otherwise. Whichever it picks, the chunk has 3 to 11 entries starting with a platform, every centre lies between the new and old frontier, and the frontier strictly decreases. |
| SegmentFacts.ChunksShape | world.js:40-42 | n chunks in a row append between 3n and 11n entries, all centred between the final frontier and the start. |
| SegmentFacts.InitialLevelShape | world.js:36-42 | The initial level starts with the start platform and holds 16 to 56 entries, every chunk entry centred between the frontier and z = −20. |
| SegmentFacts.AdvanceShape | world.js:199-212 | A chunk is added exactly when playerZ < lastChunkZ + 200, and only then does the frontier move. At most 11 entries are added, at the end. Past 50 entries exactly the oldest one is removed and the rest keep their order. |
| Collision.MissChangesNothing | player.js:266-277 | An entry whose box does not meet the player's box, rebuilt from the current position, changes nothing. |
| Collision.BeaconPassesThrough | player.js:307-310 | A beacon never changes position, velocity, height or `onGround`. |
| Collision.LandsOnTop | player.js:314-322 | When landing, the feet end exactly on the top face, vy = 0 and the player is grounded. x, z and the horizontal velocity are untouched. |
| Collision.PushesOut | player.js:324-339 | Otherwise exactly one horizontal axis moves: x if overlapX < overlapZ, else z (ties go to z). The player snaps to min face − 0.5 if the centre was in front of the min face, else to max face + 0.5, and that velocity component is zeroed. y, vy and `onGround` are untouched. |
| Collision.SideTestUsesMinFace | player.js:331-332 | A centre already past the min face is sent to the max side, even when the min face is nearer. It then moves further than a snap to the nearer face (min - 0.5) would. |
| Collision.AnchorRule | player.js:294-296 | The anchor moves to the platform's position only when a touched checkpoint platform is more than 1 away; otherwise it is unchanged. Afterwards it is within 1 of the platform. |
| Collision.CreditOnce | player.js:280-284 | The count rises by one and the entry becomes collected exactly on the first touch of a checkpoint platform. Otherwise neither changes. |
| Collision.PassAppend | player.js:266 | The loop carries its state from entry to entry: a pass over a + b equals a pass over a followed by a pass over b. |
| Collision.PassKeepsHeight | player.js:263-343 | The collision pass never changes the player's height. |
| Collision.PassCredits | player.js:280-292 | Over a pass, collected flags are only ever set, and only on checkpoint platforms of the list. `checkpointCount` rises by exactly the number newly collected, so it never decreases. |
| Collision.PassGrounded | player.js:315-322 | `onGround` holds after a pass exactly when it held before or the player landed on some entry. |
| Collision.GroundedIffLanded | player.js:263-343 | After `checkCollisions` the player is grounded exactly when it landed on some entry of the list. |
| Collision.SlideBarrierMet | world.js:133-148 | A player standing on a slide platform, at its barrier's z and within its width, meets the barrier exactly when its height is at least 0.8. |
| Controls.MappedCodes | player.js:76-96 | Every code the switch names stands for a flag, except Space; any other code stands for none. |
| Controls.PressSetsOnlyItsFlag | player.js:76-89 | Key-down sets exactly the flag of its code and leaves every other flag as it was. |
| Controls.ReleaseUndoesPress | player.js:99-113 | Key-up clears exactly the flag key-down of the same code set, and leaves every other flag as it was before the key-down. |
| Controls.JumpGuard | player.js:90-94 | Space sets vy = 15 and clears `onGround` only when grounded and not crouching; otherwise it changes nothing. A second Space before landing does nothing. |
| Players.RespawnRule | player.js:209-213 | Below y = −50 the position becomes the anchor + (0, 10, 0) and the velocity zero, with nothing else changed. At or above it nothing changes. |
| Players.Player.constructor | player.js:10-45 | The player starts at (0, 10, 0) at rest, height 2, not grounded, anchor (0, 5, 0), count 0, no flag set. |
| Players.Player.OnKeyDown | player.js:75-97 | The flags become `Press` of the old flags. The body changes only on Space, and then by `Jump`. |
| Players.Player.OnKeyUp | player.js:99-114 | The flags become `Release` of the old flags, and the body is unchanged. |
| Players.Player.SetFlag | player.js:78-89 | One case of the switch sets exactly its flag and leaves the body alone. |
| Players.Player.CheckCollisions | player.js:263-343 | The body and the set of collected entries become exactly `CheckAll` of the old ones over the list, and the flags are unchanged. |
| Players.Player.Meet | player.js:266-341 | One iteration of the loop is exactly `Step` on the body and the collected set. |
| Players.Player.CreditCheckpoint | player.js:280-305 | The checkpoint branch is exactly `Credit`: the entry's flag is set and the count bumped on the first touch, and the anchor moves when more than 1 away. |
| Players.Player.ResolveAgainst | player.js:312-340 | Landing or pushback is exactly `Resolve` of the body against the entry's box. |
| Players.Player.Update | player.js:208-223 | The fall-through respawn, then the collision pass: the result is `CheckAll` of `Respawn` of the old body. |

## Left out

- Three.js construction and teardown are not modelled: meshes, materials, edges, `scene.add`/`remove`, `dispose`, fog and the ground plane (world.js:20-34, 47-62, 208-210). Only the box numbers and the list operations are kept.
- The colour draw (world.js:102) is consumed and the colour it picks is not modelled. The `addObstacles` draw (world.js:105) is consumed and, as in the code, ignored.
- `chunkSize` (world.js:9) is never read by the code.
- The statistics of `Math.random` are not modelled. The draws are an arbitrary stream in [0, 1).
- The height blend `height += (target - height) * 10 * delta` (player.js:161-163) is not modelled, so the model does not capture that a frame longer than 0.1 s overshoots the crouch height of 1, and can bring a crouching player below the 0.8 at which `SlideBarrierMet` says the barrier is met (from height 2, a frame longer than 0.12 s does).
- The continuous kinematics of `Player.update` (player.js:157-205) are left out: damping, the speed, height and FOV blending, direction normalisation and yaw rotation. They are floating-point and trigonometric numerics. Position, velocity and height are the inputs of the collision step.
- Camera shake and hand/foot animation (player.js:225-260) are left out. They use `Math.random`, `Date.now` and `sin` and are presentation only.
- The camera rotation reset on respawn (player.js:218) is left out; the camera is not modelled.
- The DOM progress-bar writes and `totalCheckpoints` (player.js:285-291) are foreign calls and are left out.
- Beacon and floor recolouring (player.js:298-303) is left out; `linkedBeacon` and materials are not modelled.
- Mouse-look, listener registration and body/hand mesh creation (player.js:54-73, 118-153) are left out.
- The unused `spacePressed` field (player.js:46) is left out.
- main.js, the renderer and the frame loop are not part of this model.
- Controls.Code: key codes other than those the switch names are one value, `Other`. Both handlers ignore them alike.
- Worlds.World.GenerateNextChunk: like the other generator methods, it states the values of the entries it appends but not that they are new objects. Only `Push`, `SpawnPlatform`, `StandardPass` and `SpawnObstacleOnPlatform` state freshness.
- Players.Player.Update: models only the part after the kinematics (player.js:208-223), run on the position and velocity the kinematics produced.
