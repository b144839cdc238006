# A verified model of the Christmas-tree page's logic

The page shows a three.js Christmas tree, a countdown overlay, a music
player and a CSS snow layer. This project models the sequential logic
behind those four pieces in Dafny and proves properties of that model.

- **Tree scene** (`src/components/TreeScene.tsx`)
  - The camera distance becomes a collapse target clamped to [0, 1]. The
    explosion factor follows that target with an exponential filter: each
    frame it closes 8 % of the gap.
  - The generators draw placements from `Math.random`:
    - the ornaments, foliage points, light specks and gift boxes of the tree
      body;
    - the `base`, burst, box and gold-card sets of the voxel layer;
    - the scattered photo layout and the focus ring.
  - The per-frame updates write instance transforms. Tree-body groups
    shrink in place and hide from a factor of 0.98. Burst groups fly out
    along their direction and grow. Ribbons are the crossed, stretched
    copies of the boxes.
  - Each photo card blends from its scattered place to its ring slot. The
    photo is fitted inside the card's frame, keeping its aspect ratio.
- **Countdown** (`src/components/CountdownOverlay.tsx`)
  - Whole seconds remain until 2025-12-24 14:40 UTC (22:40 in Beijing).
  - They are split into hours, minutes and seconds and zero-padded to two
    digits.
  - A latch fires the completion callback once only.
  - Each displayed character runs a flip-digit state machine.
- **Music player** (`src/components/MusicPlayer.tsx`)
  - A track name is the last path segment, decoded, with its extension
    stripped.
  - The playlist puts the preferred titles first, in their listed order,
    followed by every other track sorted by name.
  - The player's state moves through next, previous, play/pause, a
    rejected play and seeking. Each click is modelled both as its handler
    alone and together with the render after it. After a render, the
    effect that loads the current track runs again when the index or the
    play state changed.
- **Snow** (`src/components/SnowLayer.tsx`): the map from a flake index and
  six uniform draws to that flake's bounded parameters.

## Modelling choices

- **Numbers.** All arithmetic is over `real`.
- **Math library.** `Math.PI`, `cos`, `sin`, `pow` and `normalize` are
  fields of a `MathLib` value. The predicate `Sound` states the only
  properties the proofs use:
  - π lies between 3.14 and 3.15;
  - cos² + sin² = 1;
  - `pow(u, e)` lies in [0, 1] for u in [0, 1] and e > 0.
- **Randomness.** `Math.random` is an infinite stream `rng: nat -> real`.
  `Uniform(rng)` states that every draw lies in [0, 1).
  - Each generator takes a cursor into the stream and returns the cursor
    after its last draw.
  - Draws are consumed in the order the source makes them, including the
    ornament's boost roll (one draw or two) and its colour roll (one or
    two).
  - The voxel layer's constructor draws its sets in the order the memos
    run.
- **Transforms.** An instance transform is a record of position, scale and
  orientation. An orientation is either Euler angles or a record of a
  `lookAt` call: its target and a roll applied after it.
  - `updateBurst` sets Euler angles and then calls `lookAt`, which replaces
    them. A burst item's orientation is therefore the `lookAt` record.
  - An instanced mesh is a class whose matrix batch is an `array` that the
    updates overwrite index by index.
- **Frame order.** The voxel layer's frame callback advances the control
  signal and then rewrites its twelve batches, all from the new factor.
  - The tree-body groups and the photo cards are registered before the
    voxel layer in the scene, so in a frame they read the factor of the
    previous frame.
  - Their updates therefore take the factor as a parameter rather than
    reading the signal.
- **Camera and clocks.** The orbit controls' distance is an
  `Option<real>` reading: `None` until they are mounted, which gives the
  default of 6. `Date.now`, the animation clock and the camera position
  are parameters.
- **Foreign functions.**
  - `decodeURIComponent` is a given function `string -> Option<string>`.
    `None` stands for the `URIError` it throws, which makes building the
    track list fail.
  - `localeCompare(…, 'zh-Hans-CN')` is a given total preorder on names.
- **Timers.** The countdown's interval tick is the method `Overlay.Tick(now)`.
  Its `fired` result is the call to `onComplete`. The flip digit's timeout
  is `FlipDigit.TimerFired()`.
- **Unmounted refs.** The guards `if (!ref.current) return` are not
  modelled: every mesh and card is taken to be mounted.

## Model

| member | source | states |
|---|---|---|
| ControlSignal.CameraDistance | src/components/TreeScene.tsx:857 | the reading when the controls report one, else the default distance 6 |
| ControlSignal.CollapseTarget | src/components/TreeScene.tsx:858-860 | target in [0, 1]; 0 from distance 6.5 on, 1 up to distance 4.5, and linear in between: target·2 = 6.5 − dist |
| ControlSignal.CollapseTargetAntitone | src/components/TreeScene.tsx:860 | moving the camera closer never lowers the target |
| ControlSignal.Follow | src/components/TreeScene.tsx:863 | the new factor lies between the old factor and the target (no overshoot); the remaining gap is 0.92 of the old gap |
| ControlSignal.FollowStaysInUnit | src/components/TreeScene.tsx:863 | with factor and target in [0, 1] the new factor is in [0, 1] |
| ControlSignal.FollowFixedPoint | src/components/TreeScene.tsx:863 | a factor equal to its target stays there |
| ControlSignal.FollowNGap | src/components/TreeScene.tsx:863 | after n frames at a fixed target the gap is 0.92ⁿ times the initial gap |
| ControlSignal.FollowNMonotone | src/components/TreeScene.tsx:863 | with the target held at 1 the factor never decreases and never exceeds 1 |
| ControlSignal.ConvergesWithinSixtyFrames | src/components/TreeScene.tsx:863 | from any factor in [0, 1], 60 or more frames at full burst bring the factor within 0.01 of 1 |
| ControlSignal.RunStaysInUnit | src/components/TreeScene.tsx:857-863 | whatever sequence of camera readings arrives, a factor that starts in [0, 1] stays in [0, 1] |
| ControlSignal.Signal.constructor | src/components/TreeScene.tsx:1098-1099 | both refs start at 0 |
| ControlSignal.Signal.Tick | src/components/TreeScene.tsx:857-863 | collapse becomes the clamped target of the reading; explode takes one follower step towards it; both stay in [0, 1] |
| Instancing.InstancedMesh.constructor | src/components/TreeScene.tsx:895 | a batch of exactly `count` fresh instance slots, initially visible |
| TreeBody.ConeHeight | src/components/TreeScene.tsx:54-56 | h = min(height, t·height + boost·gain) lies in [0, height] and equals t·height when there is no boost |
| TreeBody.Taper | src/components/TreeScene.tsx:57 | the cone radius lies in [0, base]: base at the foot and 0 at the top |
| TreeBody.RandomAngle | src/components/TreeScene.tsx:58 | the drawn angle lies in [0, 2π) |
| TreeBody.DrawOrnament | src/components/TreeScene.tsx:54-65 | consumes 6 to 8 draws; y in [−1.5, 2.5]; horizontal radius in [0.088, 1.976); scale in [0.06, 0.14); never both gold and red |
| TreeBody.GenerateOrnaments | src/components/TreeScene.tsx:50-68 | exactly `count` ornaments, each placed as above |
| TreeBody.OrnamentRenderScale | src/components/TreeScene.tsx:76 | the rendered ornament scale shrinks from `scale` to no less than 0.2·scale over the burst |
| TreeBody.DrawFoliage | src/components/TreeScene.tsx:103-113 | consumes 5 or 6 draws; y in [−1.5, 2.6]; horizontal radius in [0.045, 2.205); scale in [0.022, 0.052) |
| TreeBody.GenerateFoliage | src/components/TreeScene.tsx:99-116 | exactly `count` points, each placed as above |
| TreeBody.DrawSpeck | src/components/TreeScene.tsx:153-163 | consumes 6 or 7 draws; y in [−1.48, 2.68); horizontal radius below 2; scale in [0.014, 0.034) |
| TreeBody.GenerateSpecks | src/components/TreeScene.tsx:149-166 | exactly `count` specks, each placed as above |
| TreeBody.DrawGift | src/components/TreeScene.tsx:202-210 | exactly 5 draws; y in [−1.3, 2.3]; horizontal radius below 1.68; turn in [0, 2π); scale in [0.08, 0.12) |
| TreeBody.GenerateGifts | src/components/TreeScene.tsx:199-212 | exactly `count` boxes, each placed as above |
| TreeBody.ShrunkScaleBounds | src/components/TreeScene.tsx:122 | `scale·(1 − k·f)` equals the scale at rest, never grows as f rises, and stays within [scale·(1 − k), scale] |
| TreeBody.ShrinkTransform | src/components/TreeScene.tsx:121-123 | the point keeps its base position and zero rotation; its scale is the shrunk scale |
| TreeBody.UpdatePointGroup | src/components/TreeScene.tsx:118-130 | every slot i holds point i's shrunk transform; the group is visible exactly when f < 0.98 |
| TreeBody.UpdateFoliage | src/components/TreeScene.tsx:118-130 | every slot i holds point i's transform shrunk with k = 0.85; visible exactly when f < 0.98 |
| TreeBody.UpdateSpecks | src/components/TreeScene.tsx:168-180 | every slot i holds speck i's transform shrunk with k = 0.9; visible exactly when f < 0.98 |
| TreeBody.PointsNeverVanish | src/components/TreeScene.tsx:118-180 | over a burst in [0, 1] a foliage point keeps at least 15 % and a speck at least 10 % of its scale, and neither grows |
| TreeBody.GiftTransform | src/components/TreeScene.tsx:218-221 | the box keeps its base position, its scale shrinks with factor 1, and it is tilted by 0.2·sin i about x and 0.2·cos i about z around its own turn about y |
| TreeBody.GiftTiltBounded | src/components/TreeScene.tsx:220 | a gift box leans by at most 0.2 about x and about z, and turns by its own rotY about y |
| TreeBody.UpdateGifts | src/components/TreeScene.tsx:215-228 | every slot i holds box i's transform; the group is visible exactly when f < 0.98 |
| TreeBody.GiftsVanishAtFullBurst | src/components/TreeScene.tsx:219 | at f = 1 a gift box has scale 0 |
| Voxels.Jitter | src/components/TreeScene.tsx:739 | the jitter added before normalising lies in [−0.4, 0.4) × [0, 1.2) × [−0.4, 0.4) |
| Voxels.DrawScatter | src/components/TreeScene.tsx:753-763 | y lies in [−drop, height − drop); the point is within 1.26·radiusBase of the axis (x² + z² < (1.26·radiusBase)²); the direction is the normalised position jittered by draws k+5 to k+7 |
| Voxels.TaperedRadius | src/components/TreeScene.tsx:754 | the tapered radius radiusBase·(1 − h/height)·(0.6 + 0.6u) lies in [0, 1.2·radiusBase) |
| Voxels.SpreadReach | src/components/TreeScene.tsx:756-757 | spreading cos and sin by factors below 1.05 keeps x² + z² within 1.1025 times the radius squared |
| Voxels.ScatterReach | src/components/TreeScene.tsx:753-757 | a scattered point lies strictly within 1.26·radiusBase of the tree's axis |
| Voxels.DrawSize | src/components/TreeScene.tsx:764 | the size lies between the minimum and the maximum |
| Voxels.DrawBase | src/components/TreeScene.tsx:730-741 | exactly 9 draws; height in [−1.3, 2.3); within 2.268 (1.26·1.8) of the axis; size in [0.035, 0.105]; no rotation; flies along the normalised jittered position |
| Voxels.GenerateBase | src/components/TreeScene.tsx:727-744 | exactly `count` items using 9 draws each, each placed as above; item i's direction comes from draws start + 9i + 5 to + 7 |
| Voxels.DrawBurst | src/components/TreeScene.tsx:753-765 | exactly 9 draws; height in [−1.4, height − 1.4); within 2.52 (1.26·2) of the axis; size within the given bounds; no rotation; flies along the normalised jittered position |
| Voxels.MakeBurst | src/components/TreeScene.tsx:750-768 | exactly `num` items using 9 draws each, each placed as above; item i's direction comes from draws start + 9i + 5 to + 7 |
| Voxels.DrawBox | src/components/TreeScene.tsx:773-786 | exactly 12 draws; placed and aimed as a burst item; rotation present, with x and z tilts in [0, 0.5) and a turn in [0, 2π) |
| Voxels.MakeBoxes | src/components/TreeScene.tsx:770-789 | exactly `num` boxes using 12 draws each, each placed as above; box i's direction comes from draws start + 12i + 5 to + 7 |
| Voxels.GenerateGoldCards | src/components/TreeScene.tsx:797-804 | exactly 25 cards using 12 draws each; height in [−1.4, 2.4); within 2.52 of the axis; size in [0.08, 0.12]; rotation present, with x tilt in [0, 0.4) and z tilt in [0, 0.3); card i aimed by draws start + 12i + 5 to + 7 |
| Voxels.BurstPath | src/components/TreeScene.tsx:821-822 | the item's position is the lerp from its base position to pos + 3·dir by the factor |
| Voxels.BurstAtRest | src/components/TreeScene.tsx:821-823 | at f = 0 the item sits exactly at its base position with its base size |
| Voxels.BurstGrowth | src/components/TreeScene.tsx:823 | the scale size·(1 + 1.6f) grows with f, from size up to 2.6·size |
| Voxels.UpdateBurst | src/components/TreeScene.tsx:818-830 | every index of the batch holds its item's burst transform, which looks towards twice the offset |
| Voxels.RibbonsCross | src/components/TreeScene.tsx:838-851 | the x and y ribbons share position and rotation (the box's own) and have swapped scales; x scale is (1.6s, 0.4s, 0.4s), independent of f; the ribbon is the burst position lifted by 0.28s in z |
| Voxels.UpdateRibbons | src/components/TreeScene.tsx:832-854 | every index of the batch holds its box's ribbon transform for the given axis |
| Voxels.UpdateGroup | src/components/TreeScene.tsx:878-888 | a group's batch is written by the burst or the ribbon rule, as its style says |
| Voxels.VoxelLayer.constructor | src/components/TreeScene.tsx:727-804 | twelve groups in update order: 420 base items, 80 gold, 80 red and 160 white spheres, 75 gold and 53 red boxes (each box set shared by its x and y ribbon groups), 600 snow flakes and 25 gold cards; every group except the ribbons uses the burst rule; each group's items lie in its height, reach and size ranges; the signal starts at 0 |
| Voxels.VoxelLayer.Frame | src/components/TreeScene.tsx:856-889 | the signal takes one tick; then every slot of every group holds its transform for the new factor |
| Photos.Blend | src/components/TreeScene.tsx:275 | the blend lies in [0, 1] |
| Photos.BlendBetween | src/components/TreeScene.tsx:275 | for factor and target in [0, 1] the clamp is inactive: the blend lies between them, 40 % of the way to the target |
| Photos.Smooth | src/components/TreeScene.tsx:276 | smoothstep maps [0, 1] into [0, 1], with 0 at 0 and 1 at 1 |
| Photos.SmoothMonotone | src/components/TreeScene.tsx:276 | smoothstep is monotone on [0, 1] |
| Photos.BlendMonotone | src/components/TreeScene.tsx:275-276 | for any target, a larger explosion factor never gives a smaller blend, before or after smoothing |
| Photos.SmoothSymmetric | src/components/TreeScene.tsx:276 | smooth(1 − b) = 1 − smooth(b) |
| Photos.FloatAmp | src/components/TreeScene.tsx:277 | the float amplitude lies in [0.04, 0.08]: 0.08 at rest, 0.04 when fully smoothed |
| Photos.CardScale | src/components/TreeScene.tsx:294-295 | the card scale is at least 0.001, and is the grown scale whenever that is at least 0.001 |
| Photos.CardScaleGrows | src/components/TreeScene.tsx:294-295 | for scattered scales of at least 0.3 the card grows from its scale up to 1.55 times it |
| Photos.PhotoSize | src/components/TreeScene.tsx:309-320 | the photo fits 0.92 × 1.3; width/height equals the image's aspect and one side touches the frame; without both dimensions it is exactly 0.92 × 1.3 |
| Photos.LayoutCount | src/components/TreeScene.tsx:377 | at least one slot, and exactly n when there are n > 0 photos |
| Photos.SlotAnglesIncrease | src/components/TreeScene.tsx:400 | slot angles strictly increase with the index and stay in [0, 2π) |
| Photos.DrawScatter | src/components/TreeScene.tsx:379-389 | exactly 7 draws; horizontal radius in [2.4, 3.3); y in [−0.2, 1.8); facing the tree within ±0.25 of the slot angle; tilts in [−0.15, 0.15) and [−0.1, 0.1); scale in [0.3, 0.38); phase in [0, 2π) |
| Photos.ScatterLayout | src/components/TreeScene.tsx:375-392 | max(1, n) scattered places, each placed as above |
| Photos.RingRadius | src/components/TreeScene.tsx:396 | the ring radius lies in [1.74, 2.9] and is 1.7 + 0.04·count up to 30 photos |
| Photos.DrawSlot | src/components/TreeScene.tsx:400-407 | exactly 2 draws; horizontal radius in [0.6, 3.12]; height within 0.45 of the focus centre; rotation (0.04, angle + π, 0) |
| Photos.FocusRing | src/components/TreeScene.tsx:394-410 | max(1, n) ring slots, each placed as above |
| Photos.SceneRingHeights | src/components/TreeScene.tsx:1100-1107 | the focus centre is (0, 0.5, 0), so every ring slot of the scene hangs between 0.05 and 0.95 |
| Photos.AssignCards | src/components/TreeScene.tsx:412-423 | nothing is rendered exactly when there are no photos; otherwise card i shows photo i, starts at scattered place i and flies to ring slot i |
| Photos.CardsDistinct | src/components/TreeScene.tsx:416-423 | no two cards show the same photo |
| Photos.CardPoseBounds | src/components/TreeScene.tsx:279-292 | x and z are the lerp between place and slot; y is within the float amplitude of the lerp; the card looks at the camera exactly when smooth > 0.35 |
| Photos.CardAtSlot | src/components/TreeScene.tsx:275-295 | at blend 1 the card sits on its slot within 0.04 in y, faces the camera rolled by 0.35 of the slot's z rotation, and has 1.55 times its scattered scale |
| Photos.CardAtHome | src/components/TreeScene.tsx:275-295 | at blend 0 the card sits at its scattered place within 0.08 in y, keeps its x and z rotation, spins about y at 0.2 rad/s, and has its scattered scale |
| Photos.PhotoCard.constructor | src/components/TreeScene.tsx:256-268 | a mounted card with its assignment and an identity pose |
| Photos.PhotoCard.Frame | src/components/TreeScene.tsx:270-296 | the frame callback sets the card's pose to the pose of its blend for the given time, factor, target and camera |
| Countdown.TargetIsChristmasEve | src/components/CountdownOverlay.tsx:4 | the target constant is `Date.UTC(2025, 11, 24, 14, 40, 0)`, with day numbers counted from 1970-01-01 |
| Countdown.RemainingSeconds | src/components/CountdownOverlay.tsx:65 | before the target, the count is the whole seconds left (floor bracket); it is 0 exactly from one second before the target on |
| Countdown.RemainingNonIncreasing | src/components/CountdownOverlay.tsx:65 | as time advances the count never goes up |
| Countdown.Decimal | src/components/CountdownOverlay.tsx:11 | `String(n)` is a non-empty digit string with no leading zero, one digit exactly below 10 and two for 10 to 99 |
| Countdown.DecimalRoundTrip | src/components/CountdownOverlay.tsx:11 | reading the digits back gives n |
| Countdown.PadStart | src/components/CountdownOverlay.tsx:11 | the result has length max(|s|, width); s is its suffix and the fill occupies the rest |
| Countdown.PadTwo | src/components/CountdownOverlay.tsx:11 | at least two digits, exactly two below 100; a leading '0' below 10; the digits read back as the value |
| Countdown.Decompose | src/components/CountdownOverlay.tsx:85-87 | hours·3600 + minutes·60 + seconds = secondsLeft, with minutes and seconds below 60 |
| Countdown.DisplayOf | src/components/CountdownOverlay.tsx:84-93 | hours have at least two digits, minutes and seconds exactly two, and reading them back gives secondsLeft |
| Countdown.FaceValues | src/components/CountdownOverlay.tsx:96-113 | one single-character face per hour digit followed by the four minute and second digits, in display order |
| Countdown.CompletesAtMostOnce | src/components/CountdownOverlay.tsx:67-77 | over any sequence of ticks the latch fires at most once, never once done, and (starting undone) exactly when some tick has 0 left |
| Countdown.Overlay.constructor | src/components/CountdownOverlay.tsx:65-67 | starts from the remaining count at mount time, not done |
| Countdown.Overlay.Tick | src/components/CountdownOverlay.tsx:70-77 | stores the new count; fires exactly when it is 0 and the latch was not yet set; the latch is set once the count reaches 0 |
| Countdown.FlipDigit.constructor | src/components/CountdownOverlay.tsx:14-19 | both faces show the value, token 0, not yet mounted, no timer |
| Countdown.FlipDigit.ValueEffect | src/components/CountdownOverlay.tsx:21-40 | the first run shows the value on both faces and leaves the token; the same value again changes nothing; a new value moves the old current to the back face, shows the new one, adds exactly 1 to the token, restarts the timer and turns the flip class on; the class is never turned off |
| Countdown.FlipDigit.TimerFired | src/components/CountdownOverlay.tsx:37-39 | when a pending timer fires, both faces agree afterwards; the token and the flip class are unchanged |
| Countdown.FlipDigit.Unmount | src/components/CountdownOverlay.tsx:42-48 | the pending timer is cleared; the faces, the token and the flip class are kept |
| Countdown.FlipDigit.Flipping | src/components/CountdownOverlay.tsx:52 | the `is-flipping` class is on exactly when the token is positive, so once the first real change of value sets it, it stays on (the transitions above) |
| Music.LastIndexOf | src/components/MusicPlayer.tsx:9 | the last position of a character, or none exactly when it does not occur |
| Music.LastSegment | src/components/MusicPlayer.tsx:9 | the segment after the last '/', which contains no '/'; a path without '/' is its own segment |
| Music.ExtensionUnique | src/components/MusicPlayer.tsx:11 | a name has at most one extension match of `/\.[^/.]+$/` |
| Music.OnlyAtLastDot | src/components/MusicPlayer.tsx:11 | the only candidate match starts at the last '.' |
| Music.StripExtension | src/components/MusicPlayer.tsx:11 | with a match, the result is the prefix before it; without one, the name is unchanged |
| Music.FormatTrackName | src/components/MusicPlayer.tsx:8-12 | fails exactly when decoding the last segment fails; otherwise the decoded segment with its extension stripped |
| Music.AllTracks | src/components/MusicPlayer.tsx:22 | one track per entry, named by `formatTrackName` and keeping its source; a failure is the failure of some entry |
| Music.Find | src/components/MusicPlayer.tsx:24 | the first track with that name, or none exactly when no track has it |
| Music.Ordered | src/components/MusicPlayer.tsx:23-25 | the names are the preferred names that are present, in preferred order; each entry is the first track with its name |
| Music.NotPreferred | src/components/MusicPlayer.tsx:26-27 | keeps exactly the tracks whose name is not preferred, and nothing else, in their input order |
| Music.Insert | src/components/MusicPlayer.tsx:28 | inserting into a sorted list gives a sorted list with the track added, ahead of every track it ties with |
| Music.InsertStable | src/components/MusicPlayer.tsx:28 | among the tracks tied with any name, the inserted track comes first and the others keep their order; inserting earlier input elements last makes the sort stable |
| Music.SortByName | src/components/MusicPlayer.tsx:28 | sorted by the comparator, a permutation of its input, and stable: tracks that tie keep their input order |
| Music.Playlist | src/components/MusicPlayer.tsx:15-30 | the prefix names are the present preferred names in order, and each prefix entry is the first track of all tracks with its name (`find`); the remainder has no preferred name, is sorted stably, and is a permutation of the non-preferred tracks |
| Music.SplitByPreference | src/components/MusicPlayer.tsx:26-27 | every track is either among the preferred names or among the rest, counted with multiplicity |
| Music.AmongOne | src/components/MusicPlayer.tsx:24 | with distinct names, the tracks bearing one name are exactly what `find` returns |
| Music.OrderedIsAmong | src/components/MusicPlayer.tsx:23-25 | with distinct names, the ordered prefix holds exactly the tracks with a preferred name |
| Music.PlaylistIsPermutation | src/components/MusicPlayer.tsx:22-29 | with distinct names, the playlist is a permutation of all tracks |
| Music.PreferredOrderDistinct | src/components/MusicPlayer.tsx:17-21 | the three preferred titles are pairwise different |
| Music.TrackList | src/components/MusicPlayer.tsx:15-30 | fails exactly when some file name does not decode; otherwise the playlist of all tracks with the three preferred titles first, a permutation of all tracks when names are distinct |
| Music.NextIndex | src/components/MusicPlayer.tsx:126 | `(i + 1) % n` stays below n: the next index, wrapping from the last to 0 |
| Music.PrevIndex | src/components/MusicPlayer.tsx:106 | `(i − 1 + n) % n` stays below n: the previous index, wrapping from 0 to the last |
| Music.NextPrevInverse | src/components/MusicPlayer.tsx:106 | next and previous undo each other |
| Music.Player.constructor | src/components/MusicPlayer.tsx:33-36 | first track, playing, time and duration 0, nothing loaded |
| Music.Player.NowPlaying | src/components/MusicPlayer.tsx:92-93 | nothing is rendered exactly when there are no tracks; otherwise the current track |
| Music.Player.LoadCurrent | src/components/MusicPlayer.tsx:61-67 | with no tracks nothing is loaded; otherwise the current track's source is loaded and time and duration reset to 0 |
| Music.Player.Next | src/components/MusicPlayer.tsx:125-127 | the click handler alone: the index moves to the next index (also what the `ended` handler does); play state, loaded source, time and duration are kept |
| Music.Player.Prev | src/components/MusicPlayer.tsx:105-107 | the click handler alone: the index moves to the previous index; play state, loaded source, time and duration are kept |
| Music.Player.TogglePlay | src/components/MusicPlayer.tsx:115-117 | the click handler alone: play state is negated, so two toggles restore it; index, time and duration are kept |
| Music.Player.PlayRejected | src/components/MusicPlayer.tsx:70 | the rejection handler alone: the player is paused; index, time and duration are kept |
| Music.Player.PressPlayPause | src/components/MusicPlayer.tsx:61-117 | click plus render: the play state flips, which re-runs the source effect, so with tracks present the current track is reloaded and time and duration are 0 |
| Music.Player.PressNext | src/components/MusicPlayer.tsx:61-127 | click (or `ended`) plus render: the next index; with two or more tracks the new track is loaded from 0; with one track the index stays 0 and nothing is reloaded |
| Music.Player.PressPrev | src/components/MusicPlayer.tsx:61-107 | click plus render: the previous index; reloaded from 0 exactly when there are two or more tracks |
| Music.Player.PlayFailed | src/components/MusicPlayer.tsx:61-80 | a rejected `play()` plus render: the player ends paused; if it was playing the track is reloaded from 0, otherwise nothing else changes |
| Music.Player.Seek | src/components/MusicPlayer.tsx:138-143 | the current time becomes the slider value; duration, index, play state and loaded source are kept |
| Snow.FlakeAt | src/components/SnowLayer.tsx:20-28 | id is the index; left in [0, 100), size in [2, 6), duration in [12, 26), delay in (−20, 0], opacity in [0.35, 0.85), drift in [−24, 24) |
| Snow.FlakeKeepsDraws | src/components/SnowLayer.tsx:22-27 | the six draws can be read back from the flake's parameters |
| Snow.Flakes | src/components/SnowLayer.tsx:17-30 | exactly `count` flakes, flake i with id i and parameters in range |
| Snow.FlakesIndependent | src/components/SnowLayer.tsx:20-28 | a flake depends only on its own six draws |
| Snow.Layer | src/components/SnowLayer.tsx:17-30 | 70 flakes without a count, `count` flakes otherwise; flake i is the flake drawn for index i |
| Snow.OverlaySnow | src/components/CountdownOverlay.tsx:102 | the overlay's snow has 220 flakes, every one within the flake ranges |

## Findings

| source | as written | input that shows it | evidently intended | confidence | as-written member | corrected member |
|---|---|---|---|---|---|---|
| src/components/MusicPlayer.tsx:61-80 | the effect that assigns `audio.src` and sets `currentTime = 0` lists `isPlaying` among its dependencies, so every play/pause click reloads the track | a track paused at 42 s: pressing play resumes from 0 s, and pressing pause already rewinds it | pause and play keep the position; the separate `[isPlaying]` effect (lines 82-90) only calls `play()` or `pause()` | not executed | Music.Player.PressPlayPause | Music.Player.TogglePlay |

## Left out

- Rendering: materials, lights, shadows, the ground, atmosphere, post effects and the tube geometry of the golden ribbon are not modelled. The same holds for the emissive intensity of ornaments (`TreeScene.tsx:84`) and the opacity fades of the tree body and silhouette.
- The components the frame callbacks of `StarTop`, `CoreSilhouette`, `GoldenRibbon` and `TreeBody` drive are not modelled: the rotation, visibility and opacity of whole groups. Note that the silhouette's visibility test `1 − 0.25f > 0.05` is true for every factor in [0, 1].
- `Object3D.lookAt`, `rotateZ` and `updateMatrix` are not computed: an orientation records the `lookAt` target and roll, and a transform is a record, not a matrix.
- Floating point: bounds are stated over real numbers; IEEE rounding is not modelled.
- `Math.random`, `Math.pow`, `sin`, `cos` and `normalize` are inputs (a stream and a `MathLib` value), constrained only by `Uniform` and `Sound`.
- Canvas texture painting, `useTexture`, the texture settings effect and the choice of texture per card (`textures[idx % textures.length]`) are left out; a card's photo index is its position in the sorted URL list.
- Asset discovery with `import.meta.glob` is an input: the list of path/source entries.
- Audio: the `Audio` element, its listeners, `play()` promises, the `loadedmetadata`/`timeupdate` updates and setting `audio.currentTime` are left out. A rejected `play()` is the explicit `PlayRejected` call and `ended` is `Next`.
- Music.Player.Next: requires at least one track. With none the buttons are not rendered and no audio ends, while `% 0` would give `NaN`.
- Music.Player.Prev: requires at least one track, for the same reason.
- `localeCompare(…, 'zh-Hans-CN')` is not computed: the sort is a stable insertion sort over a given total preorder standing in for it.
- Music.PlaylistIsPermutation: proved only when track names are distinct and the preferred list has no repeats. With duplicate names `find` keeps only the first track with a preferred name and the others are dropped.
- Voxels.UpdateRibbons: requires every box to carry a rotation (both callers pass boxes). An item without one would keep the shared dummy's stale rotation, which is not modelled.
- The flip digit's 900 ms delay (`FLIP_DURATION_MS`) is not modelled: the timeout is the explicit `TimerFired()` call, whenever it comes.
- The `sphereTextures` memo (`TreeScene.tsx:719-725`) paints with `Math.random` before `base` draws. The texture draws are not modelled; the voxel layer's starting cursor is a free parameter, so any number of earlier draws is covered.
- Timers and the wall clock (`setInterval`, `setTimeout`, `clearTimeout`, `Date.now`) are the explicit `Tick(now)`, `TimerFired()` and `Unmount()` calls; their scheduling is not modelled.
- React mechanics: hook ordering, state batching, memo caching, and the remount of the flip card through `key={flipToken}` are not modelled.
- The snow layer's style strings and the countdown's `aria-label` text are not modelled.
- The `App.tsx` page layout is not part of this model.
