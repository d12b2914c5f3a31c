# dinoVR core, modelled in Dafny

dinoVR is a small WebXR multiplayer demo: a Socket.IO server keeps a registry of connected
players and broadcasts snapshots of it, and each browser client moves its own player
locally, smooths the other players' poses from the snapshots it receives, estimates the
server's clock offset, maps XR gamepads and the keyboard to an input state, and drives an
orbit camera. This project models that logic and proves properties of it.

One module per source file:

- `Remotes` (client/src/scene/remotes.ts). This is the remote-player interpolation buffer.
  - `RemotesManager` holds the map from player id to `Remote` record.
  - `ApplySnapshot` prunes stale ids, then upserts, then pushes onto a history of at most 10 samples.
  - `Update` sorts each history in place (`SortSamples`, an insertion sort over an `array`), then searches for the bracketing pair (`FindBracket`) and poses the mesh.
  - Each method is proved against a specification function: `AfterSnapshot`, `Rendered`, `Render`, `SortByTime`, `Bracket`.
  - Lemmas give the properties of those functions.
- `TimeSync` (client/src/net/time.ts). The clock-offset estimator, with the `offset === 0` first-sample test as written.
- `Motion`, `Locomotion` and `Controller` (client/src/xr/locomotion.ts, client/src/player/controller.ts).
  - `Locomotion` and `Controller` are the two velocity integrators, with `Motion` as their shared specification.
  - `Controller` also has the configuration merge and the reconciliation toward an authoritative position.
- `Server` (server/src/index.ts). The player registry: `Map` insertion order is a sequence with distinct ids. It has the connect, disconnect and periodic-broadcast handlers, and the colour and name generators.
- `Wire`. The `snapshot` message between the server and the client's `applySnapshot` (see Findings).
- `Input` (client/src/xr/input.ts). `pickStickAxes`, `clampUnit`, the deadzone and per-hand rules, the keyboard override, the thrust formula and the `sample` loop. `XRInput` is a class over its key set.
- `Camera` (client/src/player/camera.ts). The orbit camera's targets, their clamps, the pan clamp and exponential smoothing.
- `Flags` (client/src/util/flags.ts). `getFlag`.
- `Vectors` and `Text`: shared vectors, clamps, `Object3D`, and ASCII `toLowerCase`.

The transcendental functions are function-valued parameters. Ghost predicates state the only facts the proofs use:
- `Math.exp`: `IsExp`, positive and at most 1 on non-positive arguments.
- `Vector3.length`: `IsLength`, non-negative, zero only at the origin, homogeneous.
- `Math.hypot`: `IsHypot`, non-negative and homogeneous.
- quaternion slerp: a parameter with no constraint.

Random draws, `Date.now()`, the local clock and the head-yaw vectors are parameters.

Three behaviours of the code worth knowing:
- The server never simulates or moves players. It has no `ts` or `state_input` handler, broadcasts every 1000 ms and sends `pos`, not `position` (server/src/index.ts:7, 41-43).
- The first clock sample is recognised by an offset of exactly 0, not by a flag (client/src/net/time.ts:31). `TimeSync.ZeroOffsetRestarts` shows the difference.
- "Hold after the latest sample" holds only when two samples have distinct times. When all samples share one time, a render time within 1 ms after it blends the first and last sample (`Remotes.SameInstantBlend`).

## Model

| member | source | states |
|---|---|---|
| Remotes.Push | client/src/scene/remotes.ts:65-66 | push, then shift once past 10 samples (its contract is PushKeepsNewest) |
| Remotes.PushKeepsNewest | client/src/scene/remotes.ts:65-66 | the pushed sample is last, the history never exceeds 10 and on overflow exactly the oldest sample is dropped (the result is a suffix of history + [x]) |
| Remotes.InsertPermutes | client/src/scene/remotes.ts:76 | one insertion step adds exactly the inserted sample to the multiset |
| Remotes.InsertSorted | client/src/scene/remotes.ts:76 | inserting into a time-ordered history keeps it time-ordered |
| Remotes.SortByTimeSorted | client/src/scene/remotes.ts:76 | the sort orders the history by nondecreasing time |
| Remotes.SortByTimePermutes | client/src/scene/remotes.ts:76 | the sort is a permutation of the history |
| Remotes.SortByTimeKeepsSorted | client/src/scene/remotes.ts:76 | an already ordered history is left exactly as it is |
| Remotes.SortSamples | client/src/scene/remotes.ts:76 | the in-place array sort leaves the array equal to the stable time sort of its old contents |
| Remotes.InsertAt | client/src/scene/remotes.ts:76 | one in-place insertion pass equals inserting the element into the sorted prefix and leaves the suffix alone |
| Remotes.BracketChoice | client/src/scene/remotes.ts:77-82 | the chosen pair is the first adjacent pair enclosing the render time, or the first and last sample when none does |
| Remotes.BracketFromChoice | client/src/scene/remotes.ts:78-81 | the scan from index k finds the first enclosing pair at or after k, or falls back to first and last |
| Remotes.BracketWithinRange | client/src/scene/remotes.ts:78-81 | a render time between the first and last sample always has an enclosing adjacent pair |
| Remotes.BracketInRange | client/src/scene/remotes.ts:77-82 | both chosen indices lie inside the history |
| Remotes.FindBracket | client/src/scene/remotes.ts:77-82 | the search loop returns the samples at the indices the bracket specification chooses |
| Remotes.Fraction | client/src/scene/remotes.ts:83-84 | the interpolation fraction always lies in [0, 1] |
| Remotes.FractionInside | client/src/scene/remotes.ts:83-84 | inside the pair the clamp is inactive and the raw fraction is already in [0, 1] |
| Remotes.Render | client/src/scene/remotes.ts:73-91 | a frame keeps id and colour, leaves the history a sorted permutation of the same length, and leaves an empty record untouched |
| Remotes.RenderUnfold | client/src/scene/remotes.ts:76-91 | a non-empty record's frame is the lerp and slerp between the chosen samples of its sorted history |
| Remotes.RenderInterpolates | client/src/scene/remotes.ts:78-85 | with an enclosing pair the mesh sits at a + (b - a) * (renderTime - a.t) / max(1, b.t - a.t) for the first such pair |
| Remotes.RenderPosition | client/src/scene/remotes.ts:83-85 | the mesh position is the lerp between the chosen samples at the clamped fraction |
| Remotes.SortedBounds | client/src/scene/remotes.ts:76-77 | in a sorted history every sample lies in time between the first and the last |
| Remotes.InSorted | client/src/scene/remotes.ts:76 | a sample is in the history iff it is in the sorted history |
| Remotes.HoldBeforeEarliest | client/src/scene/remotes.ts:77-85 | a render time before every sample shows the earliest sample's position (no extrapolation) |
| Remotes.HoldAfterLatest | client/src/scene/remotes.ts:77-85 | a render time after every sample shows the latest sample's position, when two sample times differ |
| Remotes.SameInstantBlend | client/src/scene/remotes.ts:83-85 | when every sample has one time t, a render time in (t, t + 1) blends first and last by renderTime - t, because of the 1 ms floor |
| Remotes.SingleSampleHeld | client/src/scene/remotes.ts:77-85 | a single sample is shown as it is at any render time |
| Remotes.OrientationKept | client/src/scene/remotes.ts:87-91 | when no sample carries a quaternion the mesh orientation is unchanged |
| Remotes.SnapshotIdsMembers | client/src/scene/remotes.ts:40 | an id is in the id set iff some snapshot entry other than the excluded one carries it |
| Remotes.UpsertAllKeys | client/src/scene/remotes.ts:51-67 | the upsert loop adds exactly the tracked snapshot ids to the keys |
| Remotes.SnapshotKeys | client/src/scene/remotes.ts:39-67 | after a snapshot the tracked ids are exactly the snapshot's ids minus the local id, which is never present |
| Remotes.UpsertAllWellFormed | client/src/scene/remotes.ts:51-67 | the upsert loop keeps every record under its own id with at most 10 samples |
| Remotes.UpsertAllKeepsExisting | client/src/scene/remotes.ts:53-62 | a record that already existed keeps its colour and mesh pose through the upsert loop |
| Remotes.UpsertAllNewColor | client/src/scene/remotes.ts:53-56 | a record the loop creates has the colour of the first tracked entry with its id |
| Remotes.LastEntry | client/src/scene/remotes.ts:51-52 | the chosen index is -1 or a tracked entry carrying the id |
| Remotes.LastEntryIsLast | client/src/scene/remotes.ts:51-52 | no tracked entry for the id follows the chosen one, and one exists whenever the id is tracked |
| Remotes.UpsertAllLatest | client/src/scene/remotes.ts:62-66 | a tracked player's newest sample carries the snapshot time and the pose of its last entry in the snapshot |
| Remotes.LatestAtEnd | client/src/scene/remotes.ts:65 | the last entry pushed is its record's newest sample |
| Remotes.UpsertAllSkips | client/src/scene/remotes.ts:52 | an entry for another id, or for the local player, leaves a record as it was |
| Remotes.PrunedWellFormed | client/src/scene/remotes.ts:43-48 | removing stale records keeps the map well formed |
| Remotes.SnapshotWellFormed | client/src/scene/remotes.ts:39-67 | applying a snapshot keeps every record under its id with at most 10 samples |
| Remotes.SnapshotKeepsColour | client/src/scene/remotes.ts:53-62 | a player still listed keeps the colour it was created with |
| Remotes.SnapshotNewColour | client/src/scene/remotes.ts:53-56 | a newly seen player gets the colour of its first entry in the snapshot |
| Remotes.SnapshotNewest | client/src/scene/remotes.ts:62-66 | every tracked player's newest sample is stamped with the snapshot time and carries its listed pose |
| Remotes.RenderedKeeps | client/src/scene/remotes.ts:70-93 | a frame tracks the same players, keeps every record well formed, keeps colours, and leaves every history a time-sorted permutation of itself |
| Remotes.RemotesManager.constructor | client/src/scene/remotes.ts:33-37 | a new manager tracks nobody |
| Remotes.RemotesManager.ApplySnapshot | client/src/scene/remotes.ts:39-68 | the new map is the snapshot specification of the old one, its keys are the snapshot ids minus the local id, and the invariant holds |
| Remotes.RemotesManager.RemoveStale | client/src/scene/remotes.ts:43-48 | the delete loop leaves exactly the records whose id is in the snapshot's id set |
| Remotes.RemotesManager.UpsertOne | client/src/scene/remotes.ts:52-66 | one loop pass skips the local player's entry and otherwise creates the record if needed and pushes the sample |
| Remotes.RemotesManager.UpsertLoop | client/src/scene/remotes.ts:51-67 | the upsert loop leaves the map equal to the upsert specification over the whole snapshot list, in order |
| Remotes.RemotesManager.Update | client/src/scene/remotes.ts:70-93 | the new map is every record rendered on its own, and the invariant holds |
| Remotes.RemotesManager.RenderOne | client/src/scene/remotes.ts:73-91 | one loop pass replaces exactly one record by its rendered frame |
| Remotes.RenderRecord | client/src/scene/remotes.ts:76-91 | sorting in place, searching and posing produce the specified rendered record |
| TimeSync.RoundTrip | client/src/net/time.ts:27 | the round trip is never negative, never below t1 - c, and equals it when the clock did not step back |
| TimeSync.SampleOffset | client/src/net/time.ts:27-29 | the sample is the server stamp minus the midpoint of the round trip, or minus the send time when the clock stepped back |
| TimeSync.NextOffset | client/src/net/time.ts:31 | the update rule (its properties are FirstSampleTaken, EmaBetween, EmaContracts and EmaFixedPoint) |
| TimeSync.TimeSync.Now | client/src/net/time.ts:13-15 | the local clock plus the current offset (its property after an echo is FirstEchoAligns) |
| TimeSync.FirstSampleTaken | client/src/net/time.ts:31 | while the offset is 0 the sample is taken as it is |
| TimeSync.EmaBetween | client/src/net/time.ts:31 | from a nonzero offset the new offset lies between the old offset and the sample |
| TimeSync.EmaContracts | client/src/net/time.ts:6 | from a nonzero offset the distance to the sample shrinks by exactly 1 - alpha = 0.8 |
| TimeSync.EmaFixedPoint | client/src/net/time.ts:31 | a sample equal to the nonzero offset leaves it unchanged |
| TimeSync.ZeroOffsetRestarts | client/src/net/time.ts:31 | an average that reaches 0 makes the next sample replace the offset outright |
| TimeSync.TimeSync.constructor | client/src/net/time.ts:5 | the offset starts at 0 |
| TimeSync.TimeSync.OnEcho | client/src/net/time.ts:25-32 | the new offset is the update rule applied to the old offset and the sample s - (c + rtt / 2) |
| TimeSync.FirstEchoAligns | client/src/net/time.ts:13-15 | after the first echo the corrected clock at receipt reads the server stamp plus half the round trip |
| Motion.ClampSpeed | client/src/xr/locomotion.ts:18-19 | the speed ends at most maxVel; a slow velocity is untouched, a fast one ends exactly at maxVel, and the clamp only rescales by a factor in [0, 1], positive when maxVel > 0 |
| Motion.Step | client/src/xr/locomotion.ts:12-19 | the integrated velocity never exceeds maxVel |
| Motion.ZeroThrustDecays | client/src/xr/locomotion.ts:13-19 | with zero thrust and drag·dt > 0 a nonzero speed strictly decreases and every component keeps its sign |
| Locomotion.Locomotion.constructor | client/src/xr/locomotion.ts:4-9 | velocity 0, maxVel 3.5, accel 2.0, drag 0.8 |
| Locomotion.Locomotion.Step | client/src/xr/locomotion.ts:11-22 | the velocity is the specified step with accel doubled when fast, its speed is at most maxVel, the rig advances by velocity·dt and nothing else changes |
| Controller.Override | client/src/player/controller.ts:36-38 | an empty patch leaves the configuration as it is |
| Controller.OverrideIdempotent | client/src/player/controller.ts:36-38 | configuring twice with the same patch equals configuring once |
| Controller.OverrideCompose | client/src/player/controller.ts:36-38 | two configure calls equal one call with the merged patch, later keys winning |
| Controller.ReconcileGap | client/src/player/controller.ts:54-56 | lerping by f leaves the gap to the authoritative position scaled by 1 - f |
| Controller.PlayerController.constructor | client/src/player/controller.ts:24-34 | the configuration is the defaults overridden by the patch; velocity 0, no authoritative position |
| Controller.PlayerController.Configure | client/src/player/controller.ts:36-38 | only the configuration changes, by the patch |
| Controller.PlayerController.Step | client/src/player/controller.ts:40-57 | the velocity is the specified step with accel or accelFast and its speed is at most maxVel; without an authoritative position the rig advances by velocity·dt, with one the remaining gap is (1 - reconcileLerp) times the gap after integration |
| Controller.PlayerController.Integrate | client/src/player/controller.ts:41-51 | thrust, drag, clamp and position advance as specified |
| Controller.PlayerController.ApplyAuthoritative | client/src/player/controller.ts:59-61 | only the authoritative position changes |
| Controller.StepLikeLocomotion | client/src/player/controller.ts:26-51 | with the default configuration and no authoritative position a controller step and a Locomotion step agree on velocity and position |
| Server.Draw | server/src/index.ts:26-27 | floor(random · n) lies in [0, n - 1] |
| Server.ColorFromDraw | server/src/index.ts:26 | the colour lies in [0, 0xfffffe] |
| Server.Decimal | server/src/index.ts:27 | String(n) is a non-empty string of decimal digits, at most 4 long below 10000 |
| Server.PadStart | server/src/index.ts:27 | padStart yields max(width, length) characters: leading '0's followed by the string |
| Server.NameOf | server/src/index.ts:27 | the name is "cube_" followed by exactly 4 decimal digits |
| Server.PaddedDigits | server/src/index.ts:27 | a number below 10000 zero-padded to 4 places is 4 digits |
| Server.DecimalValue | server/src/index.ts:27 | reading the decimal string back gives the number |
| Server.PaddedValue | server/src/index.ts:27 | leading zeros do not change the value |
| Server.NameRoundTrip | server/src/index.ts:27 | the four digits of a generated name spell the number drawn |
| Server.MapSet | server/src/index.ts:29 | set keeps ids distinct and stores the player: an existing id is replaced in place with all other entries and the order unchanged, a new id is appended |
| Server.MapDelete | server/src/index.ts:35 | delete removes exactly the entries with the id and keeps ids distinct; an absent id changes nothing |
| Server.MapDeleteHead | server/src/index.ts:35 | deleting the first entry's id leaves exactly the entries after it |
| Server.MapDeleteKeepsOrder | server/src/index.ts:35-36 | deleting a present id removes exactly its entry; the entries before and after it keep their insertion order |
| Server.ConnectDisconnect | server/src/index.ts:29-35 | connecting a new id and then disconnecting it leaves the registry as it was |
| Server.MapDeleteAppend | server/src/index.ts:35 | deleting the id just appended restores the previous registry |
| Server.Registry.constructor | server/src/index.ts:9 | the registry starts empty |
| Server.Registry.Connect | server/src/index.ts:25-32 | the player is stored at spawn (0, 1.2, 0) under the socket id; the welcome carries the stored id, name and colour; the snapshot lists the registry, including the new player |
| Server.Registry.Disconnect | server/src/index.ts:34-37 | the player is deleted before the snapshot, which therefore omits it and lists the others in their insertion order |
| Server.Registry.Broadcast | server/src/index.ts:41-43 | the periodic snapshot lists the registry in insertion order, every player still at spawn |
| Wire.DecodeWith | client/src/scene/remotes.ts:63 | a record is read iff it has the position key as a triple and id, colour and name of the right kinds; the value carries the record's id and colour |
| Wire.AsWrittenRejects | client/src/scene/remotes.ts:63 | every record the server sends has the id, colour and name the loop reads but no `position` field, so the read fails |
| Wire.DecodeRoundTrip | server/src/index.ts:28 | reading `pos` recovers exactly the player the server stored |
| Wire.Created | client/src/scene/remotes.ts:53-56 | an untracked player gets a new record with its colour and no samples; every existing record is kept |
| Wire.Pass | client/src/scene/remotes.ts:51-66 | one pass of the upsert loop: skip the local player, create the record if new, then read the position, which either throws (the created record stays) or pushes a sample (its properties are the lemmas below) |
| Wire.Passes | client/src/scene/remotes.ts:51-67 | the loop in record order up to the first pass that throws (its properties are the lemmas below) |
| Wire.Handle | client/src/scene/remotes.ts:39-67 | the stale pass over every listed id, then the loop, keeping its progress up to a throw (its properties are the lemmas below) |
| Wire.AsWrittenApply | client/src/scene/remotes.ts:39-67 | the handler reading `p.position` (its properties are AsWrittenTracksFirstOther and AsWrittenFrozen) |
| Wire.ThrewStays | client/src/scene/remotes.ts:63 | once a pass has thrown, later records change nothing |
| Wire.FirstOther | client/src/scene/remotes.ts:52 | the index of the first listed player that is not the local one: all before it are local |
| Wire.AsWrittenPasses | client/src/scene/remotes.ts:51-63 | as written, the loop over a server snapshot skips local players and throws at the first other one just after creating its record; with no other player it runs through unchanged |
| Wire.AsWrittenTracksFirstOther | client/src/scene/remotes.ts:39-67 | as written, a server snapshot leaves the pruned records plus a record for the first listed other player, created if it was untracked |
| Wire.AsWrittenFrozen | client/src/scene/remotes.ts:39-74 | as written, a snapshot adds at most one player, with no samples, and leaves every kept record as it was; if no record had samples, `update` leaves every record unchanged, so each cube stays at its initial pose |
| Wire.DecodeAll | client/src/scene/remotes.ts:51-63 | a decoded list has one entry per record |
| Wire.DecodeAllPointwise | client/src/scene/remotes.ts:51-63 | a record list decodes exactly when every record decodes, entry by entry, in order |
| Wire.PassesDecoded | client/src/scene/remotes.ts:51-67 | records that all decode are upserted exactly as the upsert loop over the decoded snapshot |
| Wire.WireIdsDecoded | client/src/scene/remotes.ts:40 | the stale pass reads the same id set from the records as from the decoded snapshot |
| Wire.HandleReceived | client/src/scene/remotes.ts:39-67 | with `pos` read, a payload that decodes is handled exactly as `applySnapshot` of its snapshot |
| Wire.StopsAtUnreadable | client/src/scene/remotes.ts:51-63 | a record that cannot be read stops the loop: the records before it are upserted, its player is created if new, later records are not reached |
| Wire.PassesWellFormed | client/src/scene/remotes.ts:51-67 | the loop keeps every record under its own id with at most 10 samples, whether or not it throws |
| Wire.ReceiveRoundTrip | server/src/index.ts:32 | every snapshot the server sends is received in full, player by player, in order |
| Wire.DecodeAllRoundTrip | server/src/index.ts:32 | the server's record list decodes to its players' states in order |
| Wire.CorrectedShowsOthers | client/src/scene/remotes.ts:39-67 | with the corrected read every listed player other than the local one is tracked after the handler, and the local one is not |
| Wire.ReadRecord | client/src/scene/remotes.ts:51-66 | one pass on a record as it arrives: the new records and whether it threw are those of Pass |
| Wire.ReadRecords | client/src/scene/remotes.ts:51-67 | the loop over the records as they arrive, stopping at the first throw: the records become those of Passes and stay well formed |
| Wire.OnSnapshot | client/src/main.ts:96-98 | the handler with `pos` read: the records become Handle of the old ones (stale pass, then the loop up to the first unreadable record), stay well formed, and a payload that decodes is applied exactly as its snapshot |
| Text.LowerChar | client/src/xr/input.ts:48-49 | an upper-case ASCII letter maps to the matching lower-case letter (same offset from 'a' as from 'A'), everything else is kept |
| Text.Lower | client/src/xr/input.ts:48-49 | lower-casing keeps the length and maps each character |
| Text.LowerHasNoUpper | client/src/xr/input.ts:48-49 | a lower-cased string has no upper-case ASCII letter |
| Text.LowerIdempotent | client/src/xr/input.ts:48-49 | lower-casing twice equals lower-casing once |
| Text.LowerSameUpToCase | client/src/util/flags.ts:6-7 | strings equal up to case lower-case to the same string |
| Input.Sampled | client/src/xr/input.ts:54-131 | one `sample` call: the gamepad fold, then the keyboard override, the thrust, turn 0 and the camera move (its properties are SampledFast, NoInputNoMotion and the lemmas on ReadSources and KeyboardOverride) |
| Input.PickStickAxes | client/src/xr/input.ts:22-32 | with fewer than 4 axes the pair is axes 0 and 1 (0 when missing); otherwise the pair with the larger abs-sum, ties to axes 2 and 3 |
| Input.ClampUnit | client/src/xr/input.ts:34-36 | the result lies in [-1, 1], is the identity there and saturates outside |
| Input.DeadzoneCut | client/src/xr/input.ts:81-86 | magnitudes up to 0.15 become 0 and larger values pass through |
| Input.AnyFastButton | client/src/xr/input.ts:94-98 | true iff a button at index 0, 1, 4 or 5 is pressed |
| Input.SourcesInRange | client/src/xr/input.ts:60-100 | every stick value after the source loop is 0 or in [-1, 1] beyond the deadzone |
| Input.SourcesFast | client/src/xr/input.ts:94-98 | fast after the loop iff some source has a pressed fast button |
| Input.OnlyLeftMoves | client/src/xr/input.ts:79-82 | without a left or unhanded gamepad the movement stays 0 |
| Input.OnlyRightAims | client/src/xr/input.ts:83-86 | without a right-hand gamepad the camera move stays 0 |
| Input.LastMoverWins | client/src/xr/input.ts:79-82 | the last moving source sets the movement: deadzoned x and inverted deadzoned y of its clamped stick |
| Input.KeyboardOverride | client/src/xr/input.ts:103-111 | no key keeps the gamepad values; any key sets lx = d - a, ly = w - s, fast = shift, camera x = right - left, y = down - up |
| Input.KeysOverrideGamepads | client/src/xr/input.ts:103-111 | with a key held the gamepad values are discarded and every movement value is -1, 0 or 1 |
| Input.ThrustLinear | client/src/xr/input.ts:121-125 | thrust is linear in the stick values: zero at rest, additive and scaling |
| Input.NoInputNoMotion | client/src/xr/input.ts:54-131 | sources without gamepads and no key held give zero thrust, not fast, turn 0 and no camera move |
| Input.ScanSources | client/src/xr/input.ts:60-100 | the source loop computes the specified fold over the sources |
| Input.ApplyKeys | client/src/xr/input.ts:103-111 | the desktop fallback step leaves the locals equal to the keyboard override of their gamepad values |
| Input.XRInput.constructor | client/src/xr/input.ts:39 | no key is held |
| Input.XRInput.KeyDown | client/src/xr/input.ts:48 | the lower-cased key joins the set |
| Input.XRInput.KeyUp | client/src/xr/input.ts:49 | the lower-cased key leaves the set |
| Input.XRInput.Sample | client/src/xr/input.ts:54-132 | the state is the specified sample, turn is always 0, and with a key held fast is exactly shift |
| Camera.Override | client/src/player/camera.ts:57-64 | the empty patch leaves the configuration unchanged; a patch without maxPan or pitch limits keeps them |
| Camera.OverrideIdempotent | client/src/player/camera.ts:63-64 | applying the same patch twice equals applying it once |
| Camera.OverrideCompose | client/src/player/camera.ts:63-64 | two `configure` merges equal one merge with the combined patch, later keys winning |
| Camera.DefaultRanges | client/src/player/camera.ts:41-58 | for any positive pi the default pitch, radius and pan-height ranges are non-empty, pitch limits are positive and maxPan is non-negative |
| Camera.DampBetween | client/src/player/camera.ts:103-105 | a damped value lies between old value and target, stays at the target, never reaches it from elsewhere and never moves away |
| Camera.RetainedShare | client/src/player/camera.ts:100-102 | with damp, dt >= 0 the retained share exp(-damp·dt) is in (0, 1] |
| Camera.PullBackOnCircle | client/src/player/camera.ts:84-88 | an offset beyond maxPan is scaled by a factor in [0, 1) onto the circle of radius maxPan |
| Camera.PanStep | client/src/player/camera.ts:80-89 | one pan-mode step: move with the stick, y inverted, pull back onto the maxPan circle, clamp y (its contract is PanStepBounded) |
| Camera.PanStepBounded | client/src/player/camera.ts:80-89 | after a pan step the horizontal distance is at most maxPan (unchanged if inside) and y is in [minPanY, maxPanY] when ordered |
| Camera.UpdateApproaches | client/src/player/camera.ts:100-105 | one smoothing step moves each value toward its target without overshoot |
| Camera.CameraController.constructor | client/src/player/camera.ts:38-61 | the configuration is the defaults overridden by the patch, and the targets start clamped |
| Camera.CameraController.Configure | client/src/player/camera.ts:63-66 | only the configuration and the re-clamped targets change |
| Camera.CameraController.SetState | client/src/player/camera.ts:68-72 | current and target values equal the arguments without clamping |
| Camera.CameraController.NudgeZoom | client/src/player/camera.ts:110-113 | the radius target moves by dz and is clamped, and the targets are in range |
| Camera.CameraController.ClampTargets | client/src/player/camera.ts:115-118 | pitch and radius targets are clamped into their limits |
| Camera.CameraController.Update | client/src/player/camera.ts:75-108 | zero input changes no target and no pan; pan mode changes only the pan; orbit mode moves the targets and clamps pitch and radius, not yaw; every value is damped toward its target |
| Camera.CameraController.MoveOrbit | client/src/player/camera.ts:92-95 | yaw, pitch and radius targets move by the stick times speed times dt, pitch inverted, with pitch and radius clamped |
| Camera.CameraController.MovePan | client/src/player/camera.ts:80-89 | the pan offset becomes the specified pan step and the targets are untouched |
| Camera.CameraController.Smooth | client/src/player/camera.ts:100-105 | each current value is damped toward its target by exp(-damp·dt) |
| Flags.GetFlag | client/src/util/flags.ts:1-12 | a failed parse or an absent parameter gives the fallback; a present one gives true iff "", "1" or "true" in any case, false iff "0" or "false" in any case, else the fallback |
| Flags.TruthyFalsyDisjoint | client/src/util/flags.ts:6-7 | no value is both truthy and falsy |
| Flags.RecognisedIgnoresFallback | client/src/util/flags.ts:6-7 | a recognised value gives the same answer whatever the fallback |
| Flags.CaseInsensitive | client/src/util/flags.ts:6-7 | values equal up to letter case give the same flag |
| Flags.NearMissesFallBack | client/src/util/flags.ts:6-8 | " 1" and "yes" give the fallback, "TRUE" is true and "False" is false |
| Flags.DefaultOff | client/src/util/flags.ts:1 | with the fallback omitted, an absent parameter or a failed parse gives false |

## Left out

- Scene-graph work: meshes, materials, name sprites (`makeNameSprite`), adding to and removing from the scene, and the camera's `updateImmediate` placement. These are rendering only.
- Quaternion slerp, `Math.exp`, `Vector3.length` and `Math.hypot` are parameters with stated ranges, not computations. The speed clamp is stated over an abstract norm, not squared norms.
- The head-yaw extraction in `sample` is left out. The right and forward vectors and the camera quaternion are parameters.
- IEEE floating point (rounding, NaN, -0, infinities): positions, velocities and times are unbounded reals and integers.
- `Math.random`, `Date.now()` and the local clock are parameters.
- Socket emits and listeners, `setInterval` timers, the HTTP health endpoint, `console.log` and the window key listeners' registration are left out. The handlers are methods called in sequence.
- The input emitter, the frame loop and the 120 ms render delay in client/src/main.ts are not part of this model. Only the snapshot handler (`Wire.OnSnapshot`) is modelled.
- Remotes.RemotesManager.Update: the order in which JavaScript's `Map` visits records is not modelled, because each record is rendered independently of the others.
- Wire.DecodeWith: a record whose `id`, `color` or `name` is missing or of another kind counts as unreadable, so the loop stops there (`Wire.Pass` throws). JavaScript would go on with `undefined` values, but the server always sends all three fields.
- Wire.Pass: a position field that is present but not a three-number array counts as a throw. JavaScript reads index 0 of it without throwing and gets `undefined` or a character. The server never sends one.
- Wire.OnSnapshot: a payload whose `players` is not an array, and `undefined` ids matching an `undefined` local id, are not modelled. The model's records always form a list, and the local id is a string or absent.
- Text.LowerChar and Text.Lower: lower-case ASCII letters only; `toLowerCase` on other Unicode letters is not modelled.
- Camera.Defaults takes pi as a parameter because degrees-to-radians needs it, and reals have no pi.
- Camera.CameraController.Update: requires maxPan >= 0 in pan mode. The source divides by the horizontal distance, which gives NaN when both are 0 and maxPan is negative.
- Locomotion.Locomotion.Step: requires maxVel >= 0 for the same reason (a zero speed above a negative limit divides 0 by 0).
- Controller.PlayerController.Step: requires maxVel >= 0, as for Locomotion.
- Remotes.HoldAfterLatest: holds the latest position only when two sample times differ. When they do not, the 1 ms floor blends (`Remotes.SameInstantBlend`).
- `Partial` configurations cannot carry a key set explicitly to `undefined`. In JavaScript such a key would overwrite the default with `undefined`.
- `snapReady` and `snapThreshold` in client/src/xr/input.ts are never read, and `turn` is always 0.
- The client's `ts` probe has no server handler, so the offset never changes in practice. `TimeSync` models the client handler as written.
- client/src/xr/hud.ts, client/src/net/client.ts, client/src/xr/session.ts and shared/src/types.ts are not part of this model. They are drawing, connection setup, a no-op and type declarations.

## Findings

| source | as written | input that shows it | evidently intended | confidence | as-written member | corrected member |
|---|---|---|---|---|---|---|
| client/src/scene/remotes.ts:63 | the client reads `p.position` from each snapshot entry, but the server stores and sends the position as `pos` (server/src/index.ts:7, 28) | an empty client with local id A receives the snapshot [A, B] (or any snapshot listing another player): the record for B is created, then `p.position` is undefined and reading `[0]` throws before any sample is pushed, so B's cube is shown frozen at its initial pose and players listed after B are never tracked | read the key the server writes (`pos`), or have the server send `position` | not executed | Wire.AsWrittenFrozen (with Wire.AsWrittenTracksFirstOther) | Wire.HandleReceived (with Wire.ReceiveRoundTrip and Wire.CorrectedShowsOthers; Wire.OnSnapshot reads `pos`) |
