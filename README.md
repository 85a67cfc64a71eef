# BF6 overlay core in Dafny

This project models the core of an external overlay for a game. The overlay
reads entity state out of the game process's memory and draws aids over the
game window. Four parts are modelled:

- **Value types** (`structs.dfy`, module `Structs`): world and screen vectors,
  the 4x4 view matrix and its world-to-screen projection, the player record
  with its validity, enemy and health-percentage rules, and the bone record.
- **Memory reads** (`driver.dfy`, module `Driver`): the two read primitives
  of the memory driver, over a `Process` value that maps addresses to typed
  values. A read fails without a process handle, at address 0, or where
  nothing is mapped. A failed read leaves the caller's buffer as it was.
  `Read<T>` then yields the zero value.
- **Snapshot builder** (`game_data.dfy`, module `Game`, class `GameData`, with
  its specification functions and lemmas in `game_spec.dfy`, module
  `GameSpec`):
  - resolving the four base addresses;
  - the rate-limited `Update` cycle, which reads the view matrix, the local
    player and the entity list in that order and stops at the first failure;
  - the per-entity read, the distance filter and the sort by distance;
  - the bone read and the projection of every listed player to the screen.
- **Presentation** (`esp.dfy`, module `Esp`; `radar.dfy`, module `Radar`;
  shared draw vocabulary in `draw.dfy`, module `Draw`):
  - the ESP filter chain, colours, box, skeleton line, health bar, label and
    snapline;
  - the radar range test, the world-to-radar mapping, the grid, the player
    dots and the local-player marker.

  A frame is modelled as the sequence of draw primitives it issues.

Modelling choices:

- Single-precision floats are modelled as `real`.
- Every `sqrtf` result in the source is compared or carried as a value (the
  stored player distance, the number in a label). So a distance is kept as
  its square (`Structs.Length`), and the lemmas
  `Structs.AtMostMeansRootBound` and `Structs.ShorterMeansRootLess` prove
  the comparisons on squares equal the comparisons of the roots.
- Unsigned and signed machine integers are bounded subset types.
- Address arithmetic wraps modulo 2^64 (`Driver.Plus`).
- The tick-count throttle is computed modulo 2^32. The signed update rate is
  converted to unsigned, as in the C++ comparison
  `current_time - m_last_update < m_update_rate_ms`.
- The game offsets are a symbolic `Layout`, given to the constructor.
- The process base address is a constructor parameter.
- The millisecond tick is a parameter of `Update`.
- The statements of `Update` that run under its mutex (game_data.cpp:77-95)
  form the method `Game.GameData.Refresh`, specified by
  `GameSpec.RefreshOutcome`.

The model follows these behaviours of the code:

- `UpdatePlayers` empties the list before its guards (game_data.cpp:118). A
  failed cycle therefore does not keep the previous list.
- `m_last_update` is written before any read (game_data.cpp:75).
- `UpdateLocalPlayer` overwrites the local record before its read can fail.
- The sort is `std::sort` (game_data.cpp:155-158), which is not stable. The
  model promises only "sorted by distance and a permutation of the accepted
  entities".
- Screen positions are computed for the listed players only, not for the
  local player (game_data.cpp:228).
- `UpdateLocalPlayer` passes `m_local_player` itself to `ReadPlayerEntity`.
  So the local player's distance is measured against its own freshly read
  position and comes out 0. `Game.GameData.ReadPlayerEntity` models this
  aliasing with its `aliasesLocal` flag.

## Model

| member | source | states |
|---|---|---|
| Structs.AtMostMeansRootBound | game_data.cpp:148 | the squared-distance test `AtMost(d, m)` holds exactly when the root of `d` is at most `m`, i.e. it is the source's `distance <= m_max_distance` |
| Structs.ShorterMeansRootLess | game_data.cpp:155-158 | comparing squared lengths orders them exactly as comparing the roots, i.e. as the sort comparator `a.distance < b.distance` |
| Structs.SquareMonotone | bf6_structs.h:71-76 | squaring is monotone on non-negative reals (basis for comparing distances on squares) |
| Structs.SquareStrictMonotone | bf6_structs.h:71-76 | squaring is strictly monotone on non-negative reals |
| Structs.SquareNonNegative | bf6_structs.h:71-76 | a square is never negative, so `dx*dx + dy*dy + dz*dz` is a valid `sqrtf` argument |
| Structs.DistanceSymmetric | bf6_structs.h:71-76 | `a.Distance(b) == b.Distance(a)` |
| Structs.SquareZero | bf6_structs.h:71-76 | only 0 squares to 0 |
| Structs.SumOfSquaresZero | bf6_structs.h:71-76 | `dx*dx + dy*dy + dz*dz` is 0 exactly when all three differences are 0 |
| Structs.Vector3.Distance | bf6_structs.h:71-76 | the distance of two points is zero exactly when they are the same point |
| Structs.ScreenBoundIsOpenBox | bf6_structs.h:94-96 | `IsValid` is the open box 0 < x, y < 10000; points on its edges, the default (0,0) in particular, are invalid |
| Structs.ViewMatrix.WorldToScreen | bf6_structs.h:103-119 | `w < 0.01` fails and leaves the output point untouched; otherwise the output is `(hw + hw*x/w, hh - hh*y/w)` and the result is that point's validity |
| Structs.ProjectionSuccessMeansOnScreen | bf6_structs.h:107-118 | a successful projection is in front of the camera (`w >= 0.01`) and inside the screen bound |
| Structs.AxisPointHitsCentre | bf6_structs.h:110-116 | a point with clip x = y = 0 lands on the viewport centre |
| Structs.CentreFixture | bf6_structs.h:103-119 | a camera looking down +z maps (0,0,5) to (960,540) on a 1920x1080 viewport, and reports success |
| Structs.RatioBetweenZeroAndOne | bf6_structs.h:151-154 | `health / max_health` lies in 0..1 whenever 0 <= health <= max_health and max_health > 0 |
| Structs.PlayerEntity.HealthPercent | bf6_structs.h:151-154 | 0 when `max_health <= 0`; 100 at full health; within 0..100 while 0 <= health <= max_health |
| Structs.NewPlayerFacts | bf6_structs.h:138-141 | the default record has address 0, max health 100, an all-NUL 64-byte name, and is not valid |
| Structs.ValidityCharacterised | bf6_structs.h:143-145 | valid iff non-null address, alive and health > 0; never valid at health <= 0 |
| Structs.EnemyCharacterised | bf6_structs.h:147-149 | team 0 and the local team are never enemies; every other team is |
| Driver.Plus | game_data.cpp:51-54 | address plus offset modulo 2^64, equal to the plain sum when it does not overflow |
| Driver.ReadMemory | driver.h:52-60 | fails (buffer unchanged) without a handle or at address 0; succeeds exactly when the address is readable, and then yields the value there |
| Driver.Read | driver.h:64-69 | the value at a readable address, the zero value otherwise |
| Driver.ReadBytes | game_data.cpp:180-183 | a name read of `size` bytes succeeds iff that many bytes are readable; it then overwrites exactly the first `size` characters and leaves the rest, the final NUL included |
| Driver.NullReadsAreZero | driver.h:64-69 | every typed read at address 0 or without a process handle gives 0 / 0.0 / false |
| GameSpec.ViewMatrixStep | game_data.cpp:98-101 | succeeds exactly when the process is attached and the non-null matrix address is readable; then the matrix is the value there, else the old matrix is kept |
| GameSpec.LocalPlayerStep | game_data.cpp:103-115 | a null local pointer fails and keeps the record; otherwise the record takes the pointer as address and the local flag, its distance to itself is 0, and the result is the record's validity |
| GameSpec.WithDistance | game_data.cpp:186-188 | only the distance changes; it is kept when the local address is 0 and set to the distance from the local position otherwise |
| GameSpec.Project | game_data.cpp:228-238 | only the two screen positions change: the body position's projection and that of the point 1.8 higher, each keeping the old point when the projection fails |
| GameSpec.Throttled | game_data.cpp:71-73 | a zero rate never throttles; a call in the same tick as the last update is throttled for any non-zero rate |
| GameSpec.SortedMeansNoInversion | game_data.cpp:155-158 | sorted by distance is exactly "no later entry compares `Shorter` than an earlier one" under the comparator `a.distance < b.distance` |
| GameSpec.RefreshReachesPlayers | game_data.cpp:79-95 | once the matrix and the local player are read, the cycle's snapshot is the player step's list, projected with the new matrix exactly when that step succeeds |
| GameSpec.ProjectAllKeepsNames | game_data.cpp:222-239 | projection keeps every record's name terminator |
| GameSpec.ReadFields | game_data.cpp:163-183 | the read record carries the given address, keeps its 64-byte buffer's final NUL, and keeps the local flag, distance and screen positions of the record it overwrote |
| GameSpec.SlotEntries | game_data.cpp:140-151 | one entity slot contributes at most one entry |
| GameSpec.Accepted | game_data.cpp:139-152 | the scan of `count` slots accepts at most `count` entities |
| GameSpec.AcceptedEntries | game_data.cpp:139-152 | every accepted entity has a non-zero address other than the local player's, is valid, is within `max_distance`, is not local, has unprojected screen positions, and has its distance measured from the local position when that address is known |
| GameSpec.ProjectAll | game_data.cpp:222-239 | projecting keeps the list's length and order, projects the body position and the position 1.8 higher, and changes nothing but the two screen positions |
| GameSpec.LocalPlayerStepFacts | game_data.cpp:103-115 | the local-player step keeps the name buffer's terminating NUL, whether or not it succeeds |
| GameSpec.PermutationMembers | game_data.cpp:155-158 | a reordering keeps the length and the members |
| GameSpec.ProjectAllKeepsOrder | game_data.cpp:222-239 | projection keeps the list sorted by distance |
| GameSpec.ProjectedEntries | game_data.cpp:222-239 | after projection every entry still meets the acceptance facts, and its body and head screen positions are the projections of its position and of its position raised by 1.8 |
| GameSpec.PlayersOutcomeEntries | game_data.cpp:117-161 | a failed player update leaves an empty list; a successful one is sorted by distance, holds at most 128 entries, and each entry meets the acceptance facts |
| GameSpec.CycleSnapshotInvariant | game_data.cpp:65-96 | a successful, unthrottled cycle records the tick, has a valid local player, and leaves a sorted list of at most 128 entries, each within range, at its measured distance and projected with the new matrix |
| GameSpec.RepeatWithinWindowIsNoOp | game_data.cpp:71-75 | a second `Update` within the rate window after a full cycle succeeds and changes nothing |
| GameSpec.ThrottleAcrossWrap | game_data.cpp:71-72 | for any last tick and a non-negative rate, a call `elapsed` ms later (elapsed < 2^32, across the 2^32 wrap included) is throttled exactly when `elapsed < rate` |
| GameSpec.NegativeRateThrottlesAlmostAlways | game_data.cpp:72 | a negative rate converts to `2^32 + rate`, so a call is throttled exactly when the tick difference is below that; at rate -1 every call but one in 2^32 is throttled |
| Game.InsertBy | game_data.cpp:155-158 | inserting adds exactly one element to the multiset |
| Game.BoundSurvivesPermutation | game_data.cpp:155-158 | a lower bound on all keys survives a permutation |
| Game.PrependKeepsSorted | game_data.cpp:155-158 | a head no larger than every entry of a sorted list keeps it sorted |
| Game.HeadIsLeast | game_data.cpp:155-158 | every entry of a sorted list is at least its head |
| Game.InsertByKeepsSorted | game_data.cpp:155-158 | inserting into a sorted list keeps it sorted |
| Game.SortByDistance | game_data.cpp:155-158 | the result is sorted by ascending distance and a permutation of the input |
| Game.Resized | game_data.cpp:210 | `resize(n)` keeps the first entries and fills the rest with zero-initialised bones |
| Game.GameData.constructor | game_data.cpp:7-18 | defaults (max distance 500, rate 10 ms, tick 0, empty list, default local record, the four addresses 0), then `Initialize`: initialised iff the base is non-zero, with the four addresses at base plus offset; a zero base leaves them 0 |
| Game.GameData.Initialize | game_data.cpp:23-34 | succeeds iff the base is non-zero; success sets `initialized`, failure leaves it |
| Game.GameData.FindBaseAddresses | game_data.cpp:36-63 | fails on a zero base, leaving the addresses; otherwise sets all four to base plus offset |
| Game.GameData.SetMaxDistance | game_data.h:28 | sets the builder's distance filter |
| Game.GameData.SetUpdateRate | game_data.h:29 | sets the rate limit |
| Game.GameData.Update | game_data.cpp:65-96 | `UpdateOutcome`: uninitialised fails with no change; within the rate window succeeds with no change; otherwise records the tick, then matrix, local player and player list in order, stopping at the first failure, and projects the list only after all three succeed; keeps configuration, every address (the game context included) and the name buffers' terminators |
| Game.GameData.Refresh | game_data.cpp:77-95 | `RefreshOutcome`: matrix, local player and player list in order, stopping at the first failure; the list is projected only after all three succeed; the tick is untouched |
| Game.GameData.UpdateViewMatrix | game_data.cpp:98-101 | the matrix is the value at its address when readable, else unchanged; the result says which |
| Game.GameData.UpdateLocalPlayer | game_data.cpp:103-115 | a null local pointer fails with no change; otherwise the record takes the address and local flag and is re-read in place |
| Game.GameData.UpdatePlayers | game_data.cpp:117-161 | clears the list; fails on a null list pointer, a count outside 1..128 or a null array; otherwise the list is the accepted entities, sorted by distance, in some order |
| Game.GameData.ScanEntities | game_data.cpp:139-152 | the loop collects exactly the accepted entities in slot order |
| Game.GameData.ReadPlayerEntity | game_data.cpp:163-191 | the record is the field read at the address, with its distance from the local player when that address is non-zero; the result is the record's validity |
| Game.GameData.ReadBones | game_data.cpp:193-220 | fails (bones untouched) on a null component, a null array or a count outside 1..256; otherwise resizes to the count, reads each position at `array + 12*i` (keeping the old value where unreadable) and sets parent index -1 |
| Game.GameData.CalculateScreenPositions | game_data.cpp:222-239 | every listed player gets its body and head projections under the current matrix; nothing else of the list changes |
| Draw.CString | esp.cpp:151-153 | the name as `%s` prints it: the buffer's prefix up to the first NUL |
| Esp.ShouldRenderPlayer | esp.cpp:218-245 | shown iff team filter, liveness filter, visible-only filter, `distance <= max_distance` and an on-screen body position all pass |
| Esp.SameTeam | esp.cpp:50 | for a non-zero team id, "same team" is exactly "not an enemy" of the local team |
| Esp.PlayerColor | esp.cpp:191-203 | the visible colour for a visible player when visible-only is set; otherwise the team colour exactly for the local team and the enemy colour for the rest |
| Esp.MixBetween | esp.cpp:205-216 | a linear blend stays between its two end values |
| Esp.HealthColor | esp.cpp:205-216 | opaque; the low colour at 0 %, the high colour at 100 % |
| Esp.HealthColorBetween | esp.cpp:205-216 | for 0..100 % every channel lies between the low and high colours' channels |
| Esp.EspLabel | esp.cpp:144-163 | no label when name and distance are both off; name-and-distance exactly when both are on, name only exactly when only names are on, bracketed distance exactly when only distances are on; with the C-string name and the record's distance |
| Esp.SnaplineAnchor | esp.cpp:170-185 | top, centre or bottom of the display, horizontally centred |
| Esp.BoxPrims | esp.cpp:87-100 | nothing unless both screen positions are valid; otherwise one box from head to feet height, 0.4 times as wide as high, centred on the head, filled or outlined with the configured thickness |
| Esp.SkeletonPrims | esp.cpp:102-115 | a head-to-feet line when both positions are valid |
| Esp.HealthBarPrims | esp.cpp:117-142 | a background and a fill bar 2 px left of the box, of the configured width; the fill rises from the feet by height times health percent and takes the health colour |
| Esp.FullHealthFillsBar | esp.cpp:117-142 | at full health the fill covers the whole background |
| Esp.NamePrims | esp.cpp:144-163 | a label 15 px above the head iff the head is on screen and name or distance is enabled |
| Esp.SnaplinePrims | esp.cpp:165-189 | a 1 px line from the anchor to the feet when the feet are on screen |
| Esp.PlayerPrims | esp.cpp:58-85 | at most six primitives, none when both positions are off screen |
| Esp.PlayerColours | esp.cpp:58-85 | every primitive drawn for a player is in the player's colour, except the two filled health-bar rectangles, which use the bar background and the health colour |
| Esp.SnaplineDrawnFirst | esp.cpp:58-85 | an enabled snapline to on-screen feet is the first primitive of the player, in the player's colour |
| Esp.Rendered | esp.cpp:40-56 | a filter of the snapshot, no longer than it (membership by RenderedMembers, order by RenderedAppend) |
| Esp.RenderedMembers | esp.cpp:40-56 | a player is rendered iff it is in the snapshot and passes `ShouldRenderPlayer` with its team relation |
| Esp.RenderedAppend | esp.cpp:40-56 | filtering distributes over concatenation, so the snapshot order is kept |
| Esp.FrameDrawsRendered | esp.cpp:40-56 | the frame loop draws exactly the rendered players' primitives, in order |
| Esp.DefaultRendered | esp.cpp:7-30 | with the default configuration: shown iff an enemy team, alive, within 500 and on screen |
| Esp.NeutralEntityIsTeammateOfNeutralLocal | esp.cpp:218-245 | team 0 is never an enemy, yet is filtered as same team when the local team is 0, and coloured as an enemy otherwise |
| Esp.VisibleOnlyColour | esp.cpp:191-203 | with visible-only set every rendered player is visible and drawn in the visible colour |
| Esp.ESPRenderer.constructor | esp.cpp:32-35 | keeps the game data and starts from the default configuration |
| Esp.ESPRenderer.SetConfig | esp.h:66 | replaces the configuration |
| Esp.ESPRenderer.Render | esp.cpp:40-56 | nothing without initialised game data; otherwise the primitives of exactly the players passing the filters, in snapshot order |
| Radar.InRadarRange | radar.cpp:214-220 | in range only for a non-negative range; a player at the local x, y is in range iff the range is non-negative |
| Radar.InRangeIgnoresHeight | radar.cpp:214-220 | height plays no part in the range test |
| Radar.InRangeMeansHorizontalDistance | radar.cpp:214-220 | in range iff the horizontal distance is at most `max_range` |
| Radar.Scale | radar.cpp:198 | the scale times `max_range * zoom` is half the radar size, so `max_range` maps to the radar's edge; positive for a positive size and range |
| Radar.RadarToScreen | radar.cpp:207-212 | radar coordinates are offsets from the radar centre: the origin maps exactly to the centre |
| Radar.WorldToRadar | radar.cpp:185-205 | the offset scaled by `size/2 / (max_range*zoom)`, with y flipped; the local position maps to (0,0) |
| Radar.ScaledBound | radar.cpp:185-205 | scaling preserves a squared bound |
| Radar.InRangeStaysInsideRadar | radar.cpp:185-220 | at zoom 1 an in-range player maps inside the radar circle |
| Radar.RadarShows | radar.cpp:104-128 | shown iff team filter, liveness filter and range test pass; there is no visibility filter |
| Radar.RadarIgnoresVisibility | radar.cpp:104-128 | visibility and screen position do not affect the radar |
| Radar.RadarColor | radar.cpp:222-228 | team colour for the local team, enemy colour otherwise |
| Radar.RadarLabel | radar.cpp:156-164 | no label when names and distances are both off; name-and-distance exactly when both are on, name only exactly when only names are on, plain distance exactly when only distances are on |
| Radar.DotPosition | radar.cpp:133-135 | the dot's offset from the radar centre is the horizontal offset from the local player scaled, with y flipped; a player at the local x, y sits on the centre |
| Radar.PlayerPrims | radar.cpp:130-169 | a filled dot, an optional direction line of thickness 2 to the right, and, when names or distances are on, last the `RadarLabel` text `dotSize + 2` below the dot, all in the team colour |
| Radar.Shown | radar.cpp:104-128 | a filter of the snapshot, no longer than it (membership by ShownMembers) |
| Radar.ShownMembers | radar.cpp:104-128 | a player is shown iff it is in the snapshot and passes `RadarShows` |
| Radar.PlayersDrawShown | radar.cpp:104-128 | the player loop draws exactly the shown players' primitives, in order |
| Radar.StepWithinSize | radar.cpp:75-91 | every inner grid offset lies within the radar size |
| Radar.GridInsideRadar | radar.cpp:71-102 | `2(n-1)` grid lines plus two crosshair strokes, every grid line inside the radar square |
| Radar.BackgroundPrims | radar.cpp:56-69 | a filled square of the radar size in the background colour, centred on the radar centre, then a border around the same square in the border colour and thickness |
| Radar.GridStyle | radar.cpp:71-102 | every grid primitive is a line in the grid colour, and the crosshair's two strokes cross at the radar centre |
| Radar.LocalPrims | radar.cpp:171-183 | a filled dot at the radar centre and a line of thickness 3 and length `dot_size + 8` from the centre straight up, ending at `(center_x, center_y - (dot_size + 8))`, both in the local-player colour |
| Radar.Frame | radar.cpp:41-54 | background first, then the grid when enabled, then the players, and the local marker as the last two primitives |
| Radar.DefaultRadarShows | radar.cpp:7-31 | with the default configuration a player is on the radar iff alive and within 200 m horizontally, and the scale is 0.625 px per metre |
| Radar.LocalPlayerAtCentre | radar.cpp:171-183 | the local player's own position maps onto the centre marker |
| Radar.RadarRenderer.constructor | radar.cpp:33-36 | keeps the game data and starts from the default configuration |
| Radar.RadarRenderer.SetConfig | radar.h:60 | replaces the configuration |
| Radar.RadarRenderer.Render | radar.cpp:41-54 | nothing when disabled or without initialised game data; otherwise background first, then grid and players, then the local marker last |
| Radar.RadarRenderer.RenderGrid | radar.cpp:71-102 | the two loops draw the inner vertical then horizontal lines, then the crosshair |
| Radar.RadarRenderer.RenderPlayers | radar.cpp:104-128 | draws exactly the shown players' primitives, in snapshot order |

## Left out

- Drawing: the ImGui draw-list calls are left out; a frame is the sequence of primitives it would issue. Also left out: text centring, the text outline, `CalcTextSize`, colour packing and `DrawCircle`'s unused branches.
- ImGui's `io.DisplaySize` is the `display` parameter of the ESP's `Render`.
- Text formatting: `sprintf_s` with `%.0f` is not modelled. A label keeps the distance as a value, and the buffer capacity is ignored (the radar's `text[64]` included).
- Floating point: rounding, NaN and infinity are not modelled, since floats are reals. `sqrtf` is not computed; its results are compared on squares.
- Radar rotation: the trigonometry for a non-zero yaw is left out. The source always passes yaw 0, so the rotation is the identity.
- Concurrency: the mutex in `Update` is left out, as there is a single update thread; the locked statements are the method `Refresh`.
- Logging to `std::cout` and `std::cerr` is left out.
- `GetTickCount` is replaced by the `now` parameter of `Update`.
- `mem::CR3()` and `mem::base_address()` are foreign calls; the base address is a constructor parameter.
- The offset values in `Offsets` are placeholders marked "to be determined"; the model keeps them symbolic in `Layout`.
- Partial reads: a failed `ReadProcessMemory` may have written part of the buffer. The model assumes a failed read writes nothing.
- `m_view_matrix` is indeterminate before the first read. The model starts it at the zero matrix, and no contract depends on that value.
- Not modelled, because the core never uses them: `Vector3`'s `+` and `-` operators, `WeaponInfo`, the `BoneIndex` enum and the unused `is_local` parameter of the radar's `RenderPlayer`. The ESP's `health_bar_height` and the radar's `background_alpha` are kept in the configuration but unused, as in the source.
- The mutable `GetConfig()` references are left out. Callers change a configuration through `SetConfig`.
- Radar.WorldToRadar: requires `max_range * zoom != 0`, because the source divides by it and then draws at non-finite coordinates.
- Radar.Scale: requires `max_range * zoom != 0`, for the same reason.
- Radar.PlayerPrims: requires `max_range * zoom != 0`, for the same reason.
- Radar.DotPosition: requires `max_range * zoom != 0`, for the same reason.
- Radar.Frame: requires `max_range * zoom != 0`, for the same reason.
- Radar.PlayersDrawShown and Radar.LocalPlayerAtCentre: require `max_range * zoom != 0`, because they are about the dot positions above.
- Radar.RadarRenderer.Render: requires `max_range * zoom != 0` only when the radar is enabled with initialised game data, the one path on which the source may divide by it (it does so only when some player passes the team, liveness and range filters).
- Radar.RadarRenderer.RenderPlayers: requires `max_range * zoom != 0`, for the same reason; it also requires non-null game data, which its only caller `Render` checks first.
- Game.GameData.ReadPlayerEntity: requires the 64-character name buffer, which every `PlayerEntity` has in the source.
