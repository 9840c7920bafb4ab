# Forest story and resume tag filter, modelled in Dafny

This project models the core of a portfolio site. The first part is a
scroll-driven 3D story. A young walker crosses a forest, and a horse
materialises in front of them as the page scrolls. The second part is a
resume page, where skill tags filter the list of jobs.

The story's motion is driven by two scroll signals, each a number in [0, 1]:

- `scroll.offset`, the damped offset of the scroller that drei's
  `ScrollControls` puts inside the canvas. It drives the camera rig, the
  frame callbacks of both horses and both walkers, both horses' eyes, and
  the enhanced forest's parallax.
- `scrollProgress`, the container's clamped scroll ratio of its outer
  element (`ScrollTracking.ScrollProgress`). It drives the phase read-out,
  the HTML parallax overlay, the magical particles and their ring, the
  post-processing schedule, the enhanced horse's aura and the enhanced
  walker's dust.

Every function of progress in the model takes one real `p`, and that `p`
stands for whichever of the two signals its cited source line reads. The
model does not relate the two signals to each other.

The enhanced container picks its quality tier (high, medium or low) with
`detectDevice` at start-up. The tier selects the entries of several
per-tier tables. A performance monitor with a one-off capability score and a
frame-rate state machine with hysteresis is also modelled. In the program,
though, it is mounted only in development builds, and outside the canvas.
In a production build the tier is `detectDevice`'s and never changes.

The project has three kinds of members:

- Pure decisions and curves are functions. Lemmas about them state ranges,
  monotonicity, continuity, key points and hand-overs.
- Per-frame callbacks that overwrite object fields become classes whose
  `Frame` methods state the whole new state. Examples are `Horse`,
  `WalkerEnhanced`, `Rig`, `Effects` and `Forest`.
- Loops over three.js children, materials, passes, tags and DOM elements
  are methods with loop invariants.

Module layout: `common.dfy` holds what several source files share: `Option`,
lerp and clamp over the reals, the tier type, and the material fade. Every
other file follows one or two source files, except `story_components.dfy`,
which follows the three containers: `ForestStoryComponentEnhanced.tsx`,
`ForestStoryComponent.tsx` (its read-out labels) and
`ForestStoryComponentSimple.tsx`.

Three things in the source are worth knowing when reading the model:

- `detectDevice` in the enhanced container never chooses medium. Its
  `else if (hasLowMemory)` branch comes after a test that already sends low
  memory to low.
- The bloom schedule is not continuous at 0.9. The tent has fallen back to
  strength 0.8 there, but just past 0.9 the fade starts from 2.
- The two-stage scale of the enhanced horse jumps at a reveal of 0.8.

The model keeps each of these as written; lemmas record them.

## Model

| member | source | states |
|---|---|---|
| Materials.Faded | src/components/ForestStory/HorseReveal.tsx:38-43 | the list of materials after the traverse has the same length as before |
| Materials.FadedEffect | src/components/ForestStory/HorseReveal.tsx:38-43 | every material of the chosen class becomes transparent with the given opacity; every other material, and every material's class, is unchanged |
| Materials.FadeInPlace | src/components/ForestStory/HorseRevealEnhanced.tsx:153-158 | the in-place traverse leaves the array equal to `Faded` of its old contents |
| PerformanceMonitor.RequestedTier | src/components/ForestStory/PerformanceMonitor.tsx:40-48 | a requested tier always differs from the current one and is at most one step higher; a drop needs fps < 50 and a rise needs fps > 55; medium above 58 fps requests high |
| PerformanceMonitor.NextTier | src/components/ForestStory/PerformanceMonitor.tsx:40-48 | the tier after a sample is the current tier or the requested one |
| PerformanceMonitor.CollapseBelowThirty | src/components/ForestStory/PerformanceMonitor.tsx:40-41 | under 30 fps, high and medium both go straight to low |
| PerformanceMonitor.HighDegradesOneStep | src/components/ForestStory/PerformanceMonitor.tsx:42-43 | high with 30 <= fps < 50 steps down to medium only |
| PerformanceMonitor.LowRecoversToMedium | src/components/ForestStory/PerformanceMonitor.tsx:44-45 | from low, the only change is to medium, exactly when fps > 55 |
| PerformanceMonitor.MediumStableBand | src/components/ForestStory/PerformanceMonitor.tsx:40-48 | medium requests nothing for every fps in [30, 58] |
| PerformanceMonitor.MediumTransitions | src/components/ForestStory/PerformanceMonitor.tsx:40-47 | medium requests low under 30 fps, high above 58, and nothing in between |
| PerformanceMonitor.HighStableAboveFifty | src/components/ForestStory/PerformanceMonitor.tsx:40-48 | high requests nothing for every fps >= 50 |
| PerformanceMonitor.MediumHoldsInBand | src/components/ForestStory/PerformanceMonitor.tsx:40-48 | any run of samples that all lie in [30, 58] leaves medium unchanged |
| PerformanceMonitor.Run | src/components/ForestStory/PerformanceMonitor.tsx:40-48 | the tier after a run of one-second samples, applying the chain once per sample; MediumHoldsInBand and RunClimbsOneStepPerSample state its properties |
| PerformanceMonitor.RunClimbsOneStepPerSample | src/components/ForestStory/PerformanceMonitor.tsx:44-47 | over n samples the tier's rank rises by at most n |
| PerformanceMonitor.SampleFps | src/components/ForestStory/PerformanceMonitor.tsx:24-25 | with a window of at least 1000 ms, the fps lies between 0 and the frame count |
| PerformanceMonitor.FrameSampler.constructor | src/components/ForestStory/PerformanceMonitor.tsx:10-12 | no frames counted, the window starting now, 60 fps assumed |
| PerformanceMonitor.FrameSampler.OnFrame | src/components/ForestStory/PerformanceMonitor.tsx:19-52 | inside a window the frame is only counted; once 1000 ms have passed, fps is sampled, the tier request is made and the window restarts at zero |
| PerformanceMonitor.OrFour | src/components/ForestStory/PerformanceMonitor.tsx:87 | a missing memory value, or 0, counts as 4 |
| PerformanceMonitor.CountOrFour | src/components/ForestStory/PerformanceMonitor.tsx:92 | a missing core count, or 0, counts as 4; the result is positive |
| PerformanceMonitor.ResourcePoints | src/components/ForestStory/PerformanceMonitor.tsx:88-89 | 2 points exactly from 8 up, 0 exactly below 4, otherwise 1 |
| PerformanceMonitor.GlPoints | src/components/ForestStory/PerformanceMonitor.tsx:80-84 | the WebGL limits and extensions earn at most 7 points |
| PerformanceMonitor.CapabilityScore | src/components/ForestStory/PerformanceMonitor.tsx:78-94 | the accumulated score is the GL points plus the memory and core points, and at most 11 |
| PerformanceMonitor.MissingNavigatorScoresTwo | src/components/ForestStory/PerformanceMonitor.tsx:87-94 | missing memory and core counts earn one point each |
| PerformanceMonitor.TierForScore | src/components/ForestStory/PerformanceMonitor.tsx:97-103 | high exactly from 8, low exactly below 5 |
| PerformanceMonitor.TierForScoreMonotone | src/components/ForestStory/PerformanceMonitor.tsx:97-103 | a higher score never selects a lower tier |
| PerformanceMonitor.CheckDeviceCapabilities | src/components/ForestStory/PerformanceMonitor.tsx:57-104 | without a WebGL context the tier is low; otherwise the tier of the capability score |
| PerformanceMonitor.SmallLimitsNeverHigh | src/components/ForestStory/PerformanceMonitor.tsx:78-103 | without the two 4096 limits no device reaches high |
| ScrollTracking.ScrollProgress | src/components/ForestStory/ForestStoryComponentEnhanced.tsx:44-50 | progress lies in [0, 1]; it equals the scroll ratio when that lies in [0, 1], is 0 at or above the top and 1 at or past the bottom |
| ScrollTracking.ScrollProgressMonotone | src/components/ForestStory/ForestStoryComponentEnhanced.tsx:46-48 | scrolling further down never lowers the progress |
| ScrollTracking.PhaseOf | src/components/ForestStory/ForestStoryComponentEnhanced.tsx:171-174 | the phase shown is one whose window contains the progress |
| ScrollTracking.ExactlyOnePhase | src/components/ForestStory/ForestStoryComponentEnhanced.tsx:171-174 | a phase's window contains p if and only if that phase is the one shown |
| ScrollTracking.InPhaseWindow | src/components/ForestStory/ForestStoryComponentEnhanced.tsx:171-174 | the window of each phase, [0, 0.2), [0.2, 0.5), [0.5, 0.7), [0.7, 0.9) and from 0.9; ExactlyOnePhase proves the windows partition the progress and match PhaseOf |
| ScrollTracking.PhaseMonotone | src/components/ForestStory/ForestStoryComponentEnhanced.tsx:171-174 | the phase never goes back as progress grows |
| ScrollTracking.LabelsIdentifyPhase | src/components/ForestStory/ForestStoryComponent.tsx:78-81 | the English and the Spanish labels each name the five phases differently |
| ScrollTracking.EnglishLabel | src/components/ForestStory/ForestStoryComponentEnhanced.tsx:171-174 | the read-out labels of the enhanced and simplified containers; LabelsIdentifyPhase proves no two phases share one |
| ScrollTracking.SpanishLabel | src/components/ForestStory/ForestStoryComponent.tsx:78-81 | the read-out labels of the original container; LabelsIdentifyPhase proves no two phases share one |
| ScrollTracking.DisplayedPercent | src/components/ForestStory/ForestStoryComponentEnhanced.tsx:167 | the percentage is within [0, 100] and is the round-half-up of 100p |
| ForestStoryEnhanced.DetectDevice | src/components/ForestStory/ForestStoryComponentEnhanced.tsx:26-40 | low if and only if mobile, low memory or slow CPU; never medium |
| ForestStoryEnhanced.HasLowMemory | src/components/ForestStory/ForestStoryComponentEnhanced.tsx:28 | a reported, non-zero memory below 4 GB; DetectDevice states that it alone selects low |
| ForestStoryEnhanced.IsSlowCpu | src/components/ForestStory/ForestStoryComponentEnhanced.tsx:29 | a reported, non-zero core count below 4; DetectDevice states that it alone selects low |
| ForestStoryEnhanced.MissingNavigatorIsHighOnDesktop | src/components/ForestStory/ForestStoryComponentEnhanced.tsx:28-38 | a desktop browser reporting neither memory nor cores starts at high |
| ForestStoryEnhanced.Settings | src/components/ForestStory/ForestStoryComponentEnhanced.tsx:60-87 | shaders only at high; antialiasing and post-processing exactly off at low; pixel ratio at most 2, at most the device's own above low, 1 at low |
| ForestStoryEnhanced.SettingsOrdered | src/components/ForestStory/ForestStoryComponentEnhanced.tsx:60-85 | a higher tier has strictly more particles and a strictly larger shadow map |
| ForestStoryEnhanced.SceneFor | src/components/ForestStory/ForestStoryComponentEnhanced.tsx:110-146 | shadows, particles and post-processing exactly when not low; the monitor exactly in development |
| ForestStoryEnhanced.MobileStartsWithoutEffects | src/components/ForestStory/ForestStoryComponentEnhanced.tsx:26-40 | a mobile device starts with neither particles nor post-processing |
| ForestStorySimple.SimpleSettings | src/components/ForestStory/ForestStoryComponentSimple.tsx:41-44 | pixel ratio 1 on mobile, at most min(device ratio, 2) otherwise; antialiasing exactly off on mobile |
| HorseReveal.RevealProgress | src/components/ForestStory/HorseReveal.tsx:18-29 | the reveal lies in [0, 1]; it is 0 before 0.6 and 1 from 0.9 |
| HorseReveal.RevealLipschitz | src/components/ForestStory/HorseReveal.tsx:18-29 | the reveal never decreases and rises at most 1/0.3 per unit of progress, so it has no jump |
| HorseReveal.Scale | src/components/ForestStory/HorseReveal.tsx:33-35 | the scale lies in [0.3, 1]; it is 0.3 while hidden and 1 when revealed |
| HorseReveal.Depth | src/components/ForestStory/HorseReveal.tsx:46-47 | z lies in [-5, -2]; it is -5 while hidden and -2 when revealed |
| HorseReveal.LookRotation | src/components/ForestStory/HorseReveal.tsx:63-66 | past 0.8 the turn lies in [-0.3, 0] and reaches -0.3 at the end |
| HorseReveal.EyesOnlyOnceTurning | src/components/ForestStory/HorseReveal.tsx:161 | the eyes, mounted past an offset of 0.85, appear only when the reveal is past 0.8 and the turn is being written |
| HorseReveal.EyesVisible | src/components/ForestStory/HorseReveal.tsx:161 | the eyes' mount gate, an offset past 0.85; EyesOnlyOnceTurning states what holds whenever it is open |
| HorseReveal.Horse.constructor | src/components/ForestStory/HorseReveal.tsx:75 | the group as mounted at (3, 0, -2) |
| HorseReveal.Horse.Frame | src/components/ForestStory/HorseReveal.tsx:11-66 | nothing changes until both refs are set; then scale, depth and Lambert opacity follow the reveal, and height and head are written only past a reveal of 0.5, the turn only past 0.8 |
| HorseReveal.HiddenBeforeSixTenths | src/components/ForestStory/HorseReveal.tsx:18-47 | before 0.6 every Lambert material is fully transparent, at scale 0.3 and depth -5 |
| HorseRevealEnhanced.EaseQuadJoins | src/components/ForestStory/HorseRevealEnhanced.tsx:130 | the two branches of the quadratic ease meet at one half; the ease fixes 0, 1/2 and 1 |
| HorseRevealEnhanced.EaseQuadRange | src/components/ForestStory/HorseRevealEnhanced.tsx:130 | on [0, 1] the ease stays in [0, 1], and it is below one half exactly on the first branch |
| HorseRevealEnhanced.EaseInOutQuad | src/components/ForestStory/HorseRevealEnhanced.tsx:130 | the quadratic ease; EaseQuadJoins, EaseQuadRange and EaseQuadMonotone state its fixed points, range and monotonicity |
| HorseRevealEnhanced.EaseQuadMonotone | src/components/ForestStory/HorseRevealEnhanced.tsx:130 | on [0, 1] the ease never decreases |
| HorseRevealEnhanced.EasedReveal | src/components/ForestStory/HorseRevealEnhanced.tsx:123-133 | the eased reveal lies in [0, 1]; it is 0 before 0.6 and 1 from 0.9 |
| HorseRevealEnhanced.EasedRevealMonotone | src/components/ForestStory/HorseRevealEnhanced.tsx:123-133 | the eased reveal never decreases as progress grows |
| HorseRevealEnhanced.FinalScale | src/components/ForestStory/HorseRevealEnhanced.tsx:136-139 | the scale lies in [0.1, 1.2]; it is 0.1 when hidden and 1 when revealed |
| HorseRevealEnhanced.ScaleJumpsAtEightTenths | src/components/ForestStory/HorseRevealEnhanced.tsx:136-137 | the scale is 0.98 at a reveal of 0.8 but 2 - r just above it, so it jumps from 0.98 to nearly 1.2 |
| HorseRevealEnhanced.Depth | src/components/ForestStory/HorseRevealEnhanced.tsx:142-143 | z lies in [-6, -2]; it is -6 hidden and -2 revealed |
| HorseRevealEnhanced.MagicIntensity | src/components/ForestStory/HorseRevealEnhanced.tsx:150 | the magic intensity lies in [0, 1); it is 0 up to a reveal of one half and at full reveal |
| HorseRevealEnhanced.LookRotation | src/components/ForestStory/HorseRevealEnhanced.tsx:182-186 | past 0.8 the eased turn lies in [-0.3, 0] and reaches -0.3 at the end |
| HorseRevealEnhanced.EyesOnlyNearlyRevealed | src/components/ForestStory/HorseRevealEnhanced.tsx:353 | the eyes, mounted past an offset of 0.85, appear only when the eased reveal is past 0.9, with the scale settling in [1, 1.1) |
| HorseRevealEnhanced.EyesVisible | src/components/ForestStory/HorseRevealEnhanced.tsx:353 | the eyes' mount gate, an offset past 0.85; EyesOnlyNearlyRevealed states what holds whenever it is open |
| HorseRevealEnhanced.AuraOpacity | src/components/ForestStory/HorseRevealEnhanced.tsx:385-391 | while the aura is mounted its opacity lies strictly between 0 and 0.03 |
| HorseRevealEnhanced.AuraVisible | src/components/ForestStory/HorseRevealEnhanced.tsx:385 | the aura's mount gate, progress strictly inside (0.6, 0.9); AuraOpacity states its opacity there |
| HorseRevealEnhanced.AuraFades | src/components/ForestStory/HorseRevealEnhanced.tsx:391 | the aura's opacity never increases with progress |
| HorseRevealEnhanced.HorseEnhanced.constructor | src/components/ForestStory/HorseRevealEnhanced.tsx:195 | the group as mounted at (3, 0, -2), with the tail at its 0.3 rest tilt |
| HorseRevealEnhanced.HorseEnhanced.Frame | src/components/ForestStory/HorseRevealEnhanced.tsx:116-186 | scale and depth follow the eased reveal; either the shader uniforms are written or the standard materials are faded, never both; height, head and tail are written past a reveal of 0.3; the turn only past 0.8 |
| HorseRevealEnhanced.FullyRevealedAfterNineTenths | src/components/ForestStory/HorseRevealEnhanced.tsx:123-158 | from 0.9 on, the fallback leaves each standard material fully opaque, at scale 1 and depth -2 |
| ScrollNarrative.CameraXGlides | src/components/ForestStory/ScrollNarrative.tsx:22-73 | the camera's x never decreases and moves at most 10 per unit of progress, so no phase boundary makes it jump |
| ScrollNarrative.CameraZGlides | src/components/ForestStory/ScrollNarrative.tsx:22-73 | the camera's z never increases and moves at most 10 per unit of progress |
| ScrollNarrative.CameraXKeyPoints | src/components/ForestStory/ScrollNarrative.tsx:22-73 | x is -2, 0, 1, 2, 3, 4 at 0, 0.2, 0.5, 0.7, 0.9, 1 |
| ScrollNarrative.CameraZKeyPoints | src/components/ForestStory/ScrollNarrative.tsx:22-73 | z is 8, 6, 4, 3, 2, 1 at the same points |
| ScrollNarrative.CameraX | src/components/ForestStory/ScrollNarrative.tsx:22-73 | the camera's x in each of the five phases; CameraXGlides and CameraXKeyPoints state that it glides monotonically through the phase boundaries |
| ScrollNarrative.CameraZ | src/components/ForestStory/ScrollNarrative.tsx:22-73 | the camera's z in each of the five phases; CameraZGlides and CameraZKeyPoints state the same for z |
| ScrollNarrative.CameraYBand | src/components/ForestStory/ScrollNarrative.tsx:30-66 | starting from a height in [1.5, 2.2], the height stays there |
| ScrollNarrative.CameraYHandOver | src/components/ForestStory/ScrollNarrative.tsx:30-66 | phase 2 starts at the canvas height 2; phases 2 and 4, and phases 4 and 5, meet at 1.5 and 1.8 |
| ScrollNarrative.CameraY | src/components/ForestStory/ScrollNarrative.tsx:30-66 | the height each phase writes, or the previous one where the phase leaves it; CameraYBand and CameraYHandOver state its band and hand-overs |
| ScrollNarrative.LookTargetContinuous | src/components/ForestStory/ScrollNarrative.tsx:38-73 | past 0.5 a target is always set, at height 1, and it moves at most 15 in x and 10 in z per unit of progress |
| ScrollNarrative.LookTargetResumes | src/components/ForestStory/ScrollNarrative.tsx:22-48 | phase 3's turn starts from phase 1's target (0, 1, 0) without a jump |
| ScrollNarrative.LookTargetBounds | src/components/ForestStory/ScrollNarrative.tsx:22-73 | every target lies at height 1 with x in [0, 3] and z in [-2, 0] |
| ScrollNarrative.LookTarget | src/components/ForestStory/ScrollNarrative.tsx:22-73 | the point the camera looks at, none in the phase that does not call lookAt; LookTargetContinuous, LookTargetResumes and LookTargetBounds state its properties |
| ScrollNarrative.Rig.constructor | src/components/ForestStory/ForestStoryComponentEnhanced.tsx:101 | the canvas camera at (0, 2, 5), the group unturned |
| ScrollNarrative.Rig.Step | src/components/ForestStory/ScrollNarrative.tsx:16-78 | nothing changes while unmounted; otherwise the camera takes the phase's key-point lerp, its height is kept in phases 1 and 3, the target is replaced where the phase looks somewhere, and the group turns by p/10 |
| CharacterWalk.WalkProgress | src/components/ForestStory/CharacterWalk.tsx:19 | the walk is at most 1, equals 1.5p up to 2/3 and is complete from 2/3 |
| CharacterWalk.WalkProgressMonotone | src/components/ForestStory/CharacterWalk.tsx:19 | the walk never goes back |
| CharacterWalk.WalkerX | src/components/ForestStory/CharacterWalk.tsx:21 | x lies in [-3, 1] |
| CharacterWalk.WalkerZ | src/components/ForestStory/CharacterWalk.tsx:22 | z lies in [-1, 4] |
| CharacterWalk.PathEnds | src/components/ForestStory/CharacterWalk.tsx:19-22 | the first frame keeps the mount point (-3, 4); from 2/3 the walker stands at (1, -1) |
| CharacterWalk.Facing | src/components/ForestStory/CharacterWalk.tsx:25-41 | the facing angle lies in [-0.2, 0.5] |
| CharacterWalk.FacingTurnsSmoothly | src/components/ForestStory/CharacterWalk.tsx:25-41 | from 2/3 on the angle never decreases and turns at most 0.7/0.3 per unit of progress, so the rules join at 0.7 |
| CharacterWalk.FacesHorseAtEnd | src/components/ForestStory/CharacterWalk.tsx:35-41 | at the end the walker faces the horse at 0.5 |
| CharacterWalk.Walker.constructor | src/components/ForestStory/CharacterWalk.tsx:45 | the group as mounted at (-3, 0, 4) |
| CharacterWalk.Walker.Frame | src/components/ForestStory/CharacterWalk.tsx:10-42 | nothing changes while unmounted; otherwise x, z and facing follow the walk; the bob and lean are written only strictly inside (0.1, 0.7) |
| CharacterWalk.IsWalking | src/components/ForestStory/CharacterWalk.tsx:28 | the bob gate, progress strictly inside (0.1, 0.7); Walker.Frame states that the bob and lean are written only then |
| CharacterWalkEnhanced.EaseCubicFixedPoints | src/components/ForestStory/CharacterWalkEnhanced.tsx:73 | the cubic ease fixes 0, 1/2 and 1, where its branches meet |
| CharacterWalkEnhanced.EaseCubicRange | src/components/ForestStory/CharacterWalkEnhanced.tsx:73 | on [0, 1] the ease stays in [0, 1], at most one half on the first branch and at least one half on the second |
| CharacterWalkEnhanced.EaseInOutCubic | src/components/ForestStory/CharacterWalkEnhanced.tsx:73 | the cubic ease; EaseCubicFixedPoints, EaseCubicRange and EaseCubicMonotone state its fixed points, range and monotonicity |
| CharacterWalkEnhanced.EaseCubicMonotone | src/components/ForestStory/CharacterWalkEnhanced.tsx:73 | on [0, 1] the ease never decreases |
| CharacterWalkEnhanced.EasedWalk | src/components/ForestStory/CharacterWalkEnhanced.tsx:70-74 | the eased walk lies in [0, 1] and is complete from 1/1.4 |
| CharacterWalkEnhanced.EasedWalkMonotone | src/components/ForestStory/CharacterWalkEnhanced.tsx:70-74 | the eased walk never goes back |
| CharacterWalkEnhanced.WalkerX | src/components/ForestStory/CharacterWalkEnhanced.tsx:76 | x lies in [-3, 1] |
| CharacterWalkEnhanced.WalkerZ | src/components/ForestStory/CharacterWalkEnhanced.tsx:77 | z lies in [-1, 4] |
| CharacterWalkEnhanced.PathIsOneWay | src/components/ForestStory/CharacterWalkEnhanced.tsx:76-77 | scrolling forward only moves the walker forward: x grows and z shrinks |
| CharacterWalkEnhanced.TargetRotation | src/components/ForestStory/CharacterWalkEnhanced.tsx:80 | the walking target angle lies in [-0.2, 0.3] |
| CharacterWalkEnhanced.ApproachDistance | src/components/ForestStory/CharacterWalkEnhanced.tsx:81-85 | one relaxation step multiplies the distance to the target by 1 - k |
| CharacterWalkEnhanced.Approach | src/components/ForestStory/CharacterWalkEnhanced.tsx:81-85 | one `MathUtils.lerp` step towards a target; ApproachDistance states that it scales the distance by 1 - k |
| CharacterWalkEnhanced.RelaxedDistance | src/components/ForestStory/CharacterWalkEnhanced.tsx:110-117 | after n steps towards a fixed target the distance is (1 - k)^n of the original |
| CharacterWalkEnhanced.Relaxed | src/components/ForestStory/CharacterWalkEnhanced.tsx:110-117 | n frames of that step towards a fixed target; RelaxedDistance and WalkSpeedDecays state the geometric decay |
| CharacterWalkEnhanced.RotationStaysInBand | src/components/ForestStory/CharacterWalkEnhanced.tsx:80-129 | a facing angle in [-0.2, 0.5] stays there after any frame |
| CharacterWalkEnhanced.NextRotationY | src/components/ForestStory/CharacterWalkEnhanced.tsx:80-85 | the facing after a frame, with the extra turn towards 0.5 past 0.7 (lines 122-128); RotationStaysInBand states that the band [-0.2, 0.5] is kept |
| CharacterWalkEnhanced.HeightDriftBounded | src/components/ForestStory/CharacterWalkEnhanced.tsx:95-135 | the height stays within 0.4 of its rest height 0.1, although surprise offsets accumulate past 0.75 |
| CharacterWalkEnhanced.IsWalking | src/components/ForestStory/CharacterWalkEnhanced.tsx:88 | the walking gate, progress strictly inside (0.1, 0.7); NextHeight and WalkerEnhanced.Frame branch on it |
| CharacterWalkEnhanced.NextHeight | src/components/ForestStory/CharacterWalkEnhanced.tsx:91-135 | the height after a frame: the bob while walking, otherwise a step towards 0.1, plus the surprise offset past 0.75; HeightDriftBounded states the bound on its drift |
| CharacterWalkEnhanced.NextWalkSpeed | src/components/ForestStory/CharacterWalkEnhanced.tsx:89-118 | the cloth walk speed stays in [0, 1] |
| CharacterWalkEnhanced.DustFromDiscoveryOn | src/components/ForestStory/CharacterWalkEnhanced.tsx:250 | the dust, mounted past a container progress of 0.65, appears partway through the discovery phase and stays for the rest of the story |
| CharacterWalkEnhanced.DustVisible | src/components/ForestStory/CharacterWalkEnhanced.tsx:250 | the dust's mount gate, container progress past 0.65; DustFromDiscoveryOn states the phases it falls in |
| CharacterWalkEnhanced.WalkSpeedDecays | src/components/ForestStory/CharacterWalkEnhanced.tsx:114-118 | once the walk stops, n frames leave exactly 0.95^n of the walk speed |
| CharacterWalkEnhanced.WalkerEnhanced.constructor | src/components/ForestStory/CharacterWalkEnhanced.tsx:140 | the group as mounted at (-3, 0, 4), the cloth uniforms at 0 |
| CharacterWalkEnhanced.WalkerEnhanced.Frame | src/components/ForestStory/CharacterWalkEnhanced.tsx:63-136 | position follows the eased walk; facing, height, lean, sway and walk speed relax from their previous values as the rules above say; the cloth uniforms change only while the shader is attached |
| ParallaxLayers.Background | src/components/ForestStory/ParallaxLayers.tsx:14 | the background moves between 0 and 20 px down, nothing else changes |
| ParallaxLayers.FarTrees | src/components/ForestStory/ParallaxLayers.tsx:23-24 | far trees move 0 to 40 px down, grow to at most 1.1 and fade to no less than 0.7 |
| ParallaxLayers.SilhouetteShift | src/components/ForestStory/ParallaxLayers.tsx:41 | the i-th silhouette moves down 30 + 5i px per unit of progress; DepthOrder states that later silhouettes move further |
| ParallaxLayers.Fog | src/components/ForestStory/ParallaxLayers.tsx:51-52 | the fog moves up to 30 px left and 60 px down and its opacity stays in [0.4, 0.7] |
| ParallaxLayers.FogCentre | src/components/ForestStory/ParallaxLayers.tsx:58 | the fog's gradient centre stays within 50-70% across and 30-70% down |
| ParallaxLayers.SunRays | src/components/ForestStory/ParallaxLayers.tsx:70-71 | the rays move up to 20 px left and their opacity stays in [0.4, 0.8] |
| ParallaxLayers.RayShift | src/components/ForestStory/ParallaxLayers.tsx:83 | the i-th ray moves down 20 + 10i px per unit of progress; DepthOrder states that later rays move further |
| ParallaxLayers.LeafLayerShift | src/components/ForestStory/ParallaxLayers.tsx:91-95 | while mounted the leaf layer is moved down by a positive amount, at most 70 px |
| ParallaxLayers.LeavesVisible | src/components/ForestStory/ParallaxLayers.tsx:91 | the leaves' mount gate, progress past 0.3; LeafLayerShift and LeafShift state the shifts while it is open |
| ParallaxLayers.RayTilt | src/components/ForestStory/ParallaxLayers.tsx:83 | the four rays are tilted within [-15, 15] degrees, the first two to the left and the others to the right |
| ParallaxLayers.LeafRotation | src/components/ForestStory/ParallaxLayers.tsx:105 | the twelve leaves are rotated within one turn, [0, 360) degrees |
| ParallaxLayers.LeafShift | src/components/ForestStory/ParallaxLayers.tsx:105 | while mounted every leaf is moved down by a positive amount |
| ParallaxLayers.Vignette | src/components/ForestStory/ParallaxLayers.tsx:118 | the vignette's opacity stays in [0.3, 0.7] |
| ParallaxLayers.DepthOrder | src/components/ForestStory/ParallaxLayers.tsx:14-83 | on a forward scroll the background, far trees and fog move down in that order, and later silhouettes and rays move further |
| ParallaxLayers.OpacitiesMonotone | src/components/ForestStory/ParallaxLayers.tsx:24-118 | the far trees, fog and rays only fade, and the vignette only darkens |
| ParallaxLayers.CaptionAt | src/components/ForestStory/ParallaxLayers.tsx:124-172 | a caption shown is one whose window contains p |
| ParallaxLayers.CaptionShown | src/components/ForestStory/ParallaxLayers.tsx:124-172 | the four caption conditions; CaptionAt and AtMostOneCaption state that at most one holds, and none on [0.2, 0.3) |
| ParallaxLayers.AtMostOneCaption | src/components/ForestStory/ParallaxLayers.tsx:124-169 | a caption is mounted if and only if it is the one shown, and none is shown exactly on [0.2, 0.3) |
| ParallaxLayers.WelcomeOpacity | src/components/ForestStory/ParallaxLayers.tsx:127 | the welcome caption's opacity lies in (0, 1] over its window and is 1 at the start |
| ParallaxLayers.ConnectionOpacity | src/components/ForestStory/ParallaxLayers.tsx:172 | the closing caption's opacity lies in [0, 1] over its window and is 1 at the end |
| ParallaxLayers.EveryLineSlide | src/components/ForestStory/ParallaxLayers.tsx:143 | the second caption slides in from at most 100 px, still off its place within its window |
| ParallaxLayers.InnovationSlide | src/components/ForestStory/ParallaxLayers.tsx:157 | the third caption slides in from at most 50 px |
| MagicalParticles.Reveal | src/components/ForestStory/MagicalParticles.tsx:75 | the reveal lies in [0, 1]; it is 0 up to 0.6, 1 from 0.9, and linear between |
| MagicalParticles.FadeOut | src/components/ForestStory/MagicalParticles.tsx:76 | the fade-out lies in [0, 1]; it is 0 up to 0.95 and 1 at the end |
| MagicalParticles.Opacity | src/components/ForestStory/MagicalParticles.tsx:89 | the opacity lies in [0, 0.8]; it is 0 up to 0.6, exactly 0.8 on [0.9, 0.95], and 0 again at the end |
| MagicalParticles.OpacityRisesThenFalls | src/components/ForestStory/MagicalParticles.tsx:75-89 | the opacity rises up to 0.95 and falls from 0.9 on |
| MagicalParticles.MakeParticle | src/components/ForestStory/MagicalParticles.tsx:14-21 | from draws in [0, 1), a particle lies in the 20 x 8 x 15 box with speed in [0.5, 1) |
| MagicalParticles.Particles | src/components/ForestStory/MagicalParticles.tsx:14-21 | exactly `particleCount` records, the i-th drawn from the i-th draw, all in the box |
| MagicalParticles.RingCount | src/components/ForestStory/MagicalParticles.tsx:128 | the ring has floor(count / 3) points |
| MagicalParticles.RingOverVisibleCloud | src/components/ForestStory/MagicalParticles.tsx:75-128 | the ring, mounted past 0.7, never appears over an invisible cloud: the cloud is more than 0.3 revealed and its opacity positive until the very end |
| MagicalParticles.RingVisible | src/components/ForestStory/MagicalParticles.tsx:126 | the ring's mount gate, progress past 0.7; RingOverVisibleCloud states that the cloud is visible whenever it is open |
| MagicalParticles.ParticleCloud.constructor | src/components/ForestStory/MagicalParticles.tsx:25-31 | one uniform block per point, at time 0 and opacity 1 |
| MagicalParticles.ParticleCloud.Frame | src/components/ForestStory/MagicalParticles.tsx:69-97 | nothing changes while unmounted; otherwise every point gets the clock and the opacity of the current progress |
| PostProcessing.ConfigFor | src/components/ForestStory/PostProcessingEffects.tsx:35-63 | vignette exactly when not low; gamma and FXAA exactly at high; bloom strength, threshold and resolution within the table's ranges |
| PostProcessing.ConfigOrdered | src/components/ForestStory/PostProcessingEffects.tsx:35-63 | a higher tier has a stronger, wider bloom, a lower threshold and a larger render scale |
| PostProcessing.PassListShape | src/components/ForestStory/PostProcessingEffects.tsx:69-109 | the chain has 5, 3 or 2 passes, starts with render then bloom, holds each optional pass exactly when its flag is on, in stage order |
| PostProcessing.PassList | src/components/ForestStory/PostProcessingEffects.tsx:69-109 | the passes the set-up adds, in order; PassListShape states its length, order and membership |
| PostProcessing.BloomScheduleRange | src/components/ForestStory/PostProcessingEffects.tsx:128-140 | strength stays in [0.8, 2] and radius in [0.3, 0.6]; inside [0.6, 0.9] the strength peaks at 2 exactly at 0.75 |
| PostProcessing.BloomJumpsAtNineTenths | src/components/ForestStory/PostProcessingEffects.tsx:128-135 | at 0.9 the bloom is back at (0.8, 0.3), while just past 0.9 it is near 2 with radius 0.4 |
| PostProcessing.BloomSchedule | src/components/ForestStory/PostProcessingEffects.tsx:128-140 | the bloom strength and radius for a progress; BloomScheduleRange and BloomJumpsAtNineTenths state its ranges, its peak and its jump at 0.9 |
| PostProcessing.VignetteDarkness | src/components/ForestStory/PostProcessingEffects.tsx:144 | the darkness is 1.2 exactly past 0.7 and 0.8 otherwise |
| PostProcessing.ResizeMatchesSetup | src/components/ForestStory/PostProcessingEffects.tsx:157-161 | the resize handler's scale table agrees with the set-up table |
| PostProcessing.ResizeScale | src/components/ForestStory/PostProcessingEffects.tsx:157-161 | the resize handler's scale per tier; ResizeMatchesSetup and ResizeKeepsSetupSize state that it agrees with the set-up |
| PostProcessing.BuiltComposer | src/components/ForestStory/PostProcessingEffects.tsx:65-115 | the composer holds the configured chain, an FXAA resolution exactly when it has an FXAA pass, and a size no larger than the window |
| PostProcessing.Effects.constructor | src/components/ForestStory/PostProcessingEffects.tsx:26-29 | all three refs start empty |
| PostProcessing.Effects.Setup | src/components/ForestStory/PostProcessingEffects.tsx:31-121 | without a renderer nothing changes; otherwise the new composer and bloom are stored, and the vignette ref is replaced only when the tier has a vignette |
| PostProcessing.Effects.Frame | src/components/ForestStory/PostProcessingEffects.tsx:123-151 | only with all three refs set, the bloom follows the schedule, the vignette the darkness rule, and one frame is drawn |
| PostProcessing.Effects.Resize | src/components/ForestStory/PostProcessingEffects.tsx:154-182 | with a composer, its size follows the resize table and an FXAA pass gets the reciprocal of the new size; the chain is kept |
| PostProcessing.ResizeKeepsSetupSize | src/components/ForestStory/PostProcessingEffects.tsx:112-115 | a resize gives the size a set-up for the same tier and window would give |
| PostProcessing.SessionsNeedComponentAlone | src/components/ForestStory/ForestStoryComponentEnhanced.tsx:135-140 | the enhanced container mounts the component at medium but not at low, so the two sessions below only arise for the component used on its own |
| PostProcessing.FreshLowSession | src/components/ForestStory/PostProcessingEffects.tsx:86-124 | for the component on its own, a session that starts at low never has a vignette pass, so the frame never adjusts the bloom (strength stays 0.5) and draws nothing |
| PostProcessing.DropToLowSession | src/components/ForestStory/PostProcessingEffects.tsx:83-124 | for the component on its own, set up at medium and then at low without unmounting, the chain has no vignette, yet the stale vignette ref keeps the frame running: the bloom follows the schedule and one frame is drawn |
| ForestEnvironment.ConfigFor | src/components/ForestStory/ForestEnvironmentEnhanced.tsx:18-22 | fog exactly when not low; tree shaders exactly at high; tree and grass counts within the table's ranges |
| ForestEnvironment.ConfigOrdered | src/components/ForestStory/ForestEnvironmentEnhanced.tsx:18-22 | a higher tier has strictly more trees and grass |
| ForestEnvironment.DirectionalShadow | src/components/ForestStory/ForestEnvironmentEnhanced.tsx:142-149 | shadows exactly when not low, on a 2048 map exactly at high and 1024 otherwise |
| ForestEnvironment.SpotCastsShadow | src/components/ForestStory/ForestEnvironmentEnhanced.tsx:152-159 | the spotlight casts shadows exactly at high |
| ForestEnvironment.RockCount | src/components/ForestStory/ForestEnvironmentEnhanced.tsx:296 | 8 rocks exactly at high, 4 otherwise |
| ForestEnvironment.ParallaxShift | src/components/ForestStory/ForestEnvironmentEnhanced.tsx:119-122 | a tree shifts by a tenth of its depth per unit of progress: never negative on a forward scroll, larger for deeper trees |
| ForestEnvironment.ParallaxX | src/components/ForestStory/ForestEnvironmentEnhanced.tsx:119-122 | a tree's x at a progress; ParallaxShift states that it is the mount x shifted right by p|z|/10, and TreeIndexMovesEachTree that the corrected loop writes it to each tree group |
| ForestEnvironment.Layout | src/components/ForestStory/ForestEnvironmentEnhanced.tsx:139-318 | the group has three lights and the ground, then one tree group per tree at its base x, then grass and rocks; nothing else is a tree group |
| ForestEnvironment.ParallaxByChildIndex | src/components/ForestStory/ForestEnvironmentEnhanced.tsx:117-124 | the loop as written keeps the number of children |
| ForestEnvironment.ParallaxByTreeIndex | src/components/ForestStory/ForestEnvironmentEnhanced.tsx:117-124 | the intended loop keeps the number of children |
| ForestEnvironment.TreeIndexMovesEachTree | src/components/ForestStory/ForestEnvironmentEnhanced.tsx:117-124 | with tree-group counting, each tree group takes its own tree's parallax x, and no other child changes |
| ForestEnvironment.ChildIndexMisplacesTrees | src/components/ForestStory/ForestEnvironmentEnhanced.tsx:117-124 | as written, the first tree group takes the fifth tree's x, and the last four tree groups are never moved |
| ForestEnvironment.ParallaxAsWritten | src/components/ForestStory/ForestEnvironmentEnhanced.tsx:117-124 | the in-place loop as written computes `ParallaxByChildIndex` |
| ForestEnvironment.ApplyParallax | src/components/ForestStory/ForestEnvironmentEnhanced.tsx:117-124 | the corrected in-place loop computes `ParallaxByTreeIndex` |
| ForestEnvironment.Forest.constructor | src/components/ForestStory/ForestEnvironmentEnhanced.tsx:84-98 | the group's children are the layout for the tier's trees, grass and rocks |
| ForestEnvironment.Forest.Frame | src/components/ForestStory/ForestEnvironmentEnhanced.tsx:100-136 | nothing changes while unmounted; otherwise every tree group gets the parallax with the corrected lookup (the program as written runs `ParallaxAsWritten`), and the fog density is written only when the tier has fog and the fog is attached |
| TagOrder.SortedDetermined | src/routes/index.tsx:518 | two strictly ascending lists holding the same strings are equal |
| TagOrder.SortTags | src/routes/index.tsx:518 | the sort's result is strictly ascending, holds the same strings, and is a permutation of distinct inputs |
| TagOrder.Less | src/routes/index.tsx:518 | the code-point order the default sort uses; LessIrreflexive, LessAsymmetric, LessTransitive and LessTotal make it a strict total order, which SortTags relies on |
| TagOrder.InsertTag | src/routes/index.tsx:518 | one insertion step of the sort: the result holds the old strings and the new one, and nothing else |
| ResumeTags.AllTags | src/routes/index.tsx:513-519 | `allTags` holds exactly the tags some job carries, each once, strictly ascending |
| ResumeTags.AllTagsUnique | src/routes/index.tsx:513-519 | ascending order and the tag set determine the list completely |
| ResumeTags.KeepSharing | src/routes/index.tsx:523-525 | a job is kept if and only if it shares a tag with the selection; the kept jobs are an order-preserving subsequence |
| ResumeTags.SharesTag | src/routes/index.tsx:524 | a job carries one of the selected tags; KeepSharing states that exactly such jobs are kept |
| ResumeTags.FilteredJobs | src/routes/index.tsx:521-526 | no selection shows every job; otherwise a job shows if and only if it shares a selected tag, in the original order |
| ResumeTags.MoreTagsKeepMoreJobs | src/routes/index.tsx:521-526 | ticking another tag never hides a job shown under a non-empty selection |
| ResumeTags.AllSelectedKeepsTaggedJobs | src/routes/index.tsx:513-526 | selecting every tag keeps every job that has a tag |
| ResumeTags.RemoveTag | src/routes/index.tsx:555 | unticking removes every copy of the tag and keeps every other tag, as often as it was there and in order |
| ResumeTags.Toggle | src/routes/index.tsx:548-556 | the tag is in the new selection exactly when checked; ticking appends it at the end; unticking removes it and keeps the rest |
| ResumeTags.ToggleRoundTrip | src/routes/index.tsx:552-555 | ticking then unticking equals unticking, and restores a selection that did not hold the tag |
| ResumeTags.ToggleKeepsDistinct | src/routes/index.tsx:550-555 | through the checkbox the selection never holds a tag twice |
| ResumeTags.EndLabel | src/routes/index.tsx:627 | the badge's end is the end date when present and non-empty, "Present" otherwise, never blank |
| HeroParallax.Rate | src/routes/index.tsx:56-79 | only the reverse class has a positive rate, so only it moves down; every rate lies in [-0.8, 0.3] |
| HeroParallax.SpeedOrder | src/routes/index.tsx:56-79 | on a forward scroll fast rises most, then normal, then slow, and reverse moves down |
| HeroParallax.Offset | src/routes/index.tsx:56-79 | each class's translation, the scroll distance times its rate; SpeedOrder and Hero.OnScroll state its order and that every element receives it |
| HeroParallax.TreeClass | src/routes/index.tsx:96-102 | silhouette i is slow exactly below 7, normal exactly for 7 to 13, fast from 14 |
| HeroParallax.TreesFurtherRiseFaster | src/routes/index.tsx:96-102 | a silhouette further along the row never rises more slowly |
| HeroParallax.StarClass | src/routes/index.tsx:119-121 | every third firefly is reverse, the rest fast |
| HeroParallax.Hero.constructor | src/routes/index.tsx:92-123 | the elements with their classes, untranslated |
| HeroParallax.Hero.Apply | src/routes/index.tsx:58-61 | each element of the given class takes that class's offset; every other element keeps its translation |
| HeroParallax.Hero.OnScroll | src/routes/index.tsx:53-80 | after the handler every element sits at its own class's offset |

## Findings

| source | as written | input that shows it | evidently intended | confidence | as-written member | corrected member |
|---|---|---|---|---|---|---|
| src/components/ForestStory/ForestEnvironmentEnhanced.tsx:117-124 | the parallax loop looks up `trees[index]` with the index of the child among ALL of the group's children: three lights and the ground mesh come before the tree groups | any tier (at least 8 trees) with trees[0].x != trees[4].x, at p = 0: the first tree group is moved to the fifth tree's x, and the last four tree groups are never moved | the k-th tree group takes the k-th tree's data | not executed | ForestEnvironment.ChildIndexMisplacesTrees | ForestEnvironment.TreeIndexMovesEachTree |

The model's forest (`ForestEnvironment.Forest.Frame`) uses the corrected
loop, `ApplyParallax`. The as-written loop is kept as
`ParallaxAsWritten`. The rotation the same loop writes reads the same
misplaced record.

## Left out

- The link between the two scroll signals is not modelled. drei's damping
  of `scroll.offset` and its relation to the container's `scrollProgress`
  are outside the model, so a lemma about one signal says nothing about a
  component that reads the other.
- PerformanceMonitor.FrameSampler.OnFrame: the model proves the frame-rate
  state machine as written, but not that it ever runs. The monitor is
  mounted only in development (ForestStoryComponentEnhanced.tsx:145-149) and
  returns nothing otherwise (PerformanceMonitor.tsx:108-110). It is mounted
  after the canvas closes (line 141), and `useFrame` needs the canvas's
  context, so plausibly its frame callback never runs at all. Not executed.
- PostProcessing.Effects.Setup: `hasRenderer` is a free input. The component
  reads `renderer` from `useThree()` (PostProcessingEffects.tsx:27), but that
  state names the renderer `gl`. If the field is indeed absent, the guard at
  line 32 always returns and no composer is ever built. Not executed.

- Clock and trigonometric terms are inputs, not computed. This covers the
  `Date.now()` and `clock.getElapsedTime()` sines for breathing, head,
  tail, bob, lean, sway and surprise, and the fog wobble. The tree rotation
  sway, the particle positions, colours and sizes, and the caption fade-ins
  (`Math.sin(... * Math.PI)`) are not modelled.
- `Math.random()` draws are inputs: particle draws, tree positions, grass
  and rocks.
- Floating point is not modelled. Reals are exact, so rounding, `NaN` and
  `Infinity` are out of scope.
- ScrollTracking.ScrollProgress: requires a scrollable container
  (scrollHeight > clientHeight). With equal heights the source divides by
  zero and stores `NaN` or `Infinity`.
- Three.js, React and the DOM are reduced to the fields the code writes.
  This covers the scene graph, geometry, `EffectComposer` internals, the GLSL
  shader code, React state and re-rendering, and event listeners. Each
  callback is a method called with its inputs.
- The particle records are rebuilt on every render, outside `useMemo`.
  The model draws them once.
- Shared uniform objects are not modelled. The particle materials all share
  one uniform block, and the forest's tree shaders share their `time` and
  `windStrength` uniforms. Each particle's uniform block is a separate
  array cell, and the tree shader uniform update is left out.
- The fog is a linear `THREE.Fog`, which has no density of its own. The
  model records the density value the frame writes, not its visual effect.
- PostProcessing.Effects.Setup: the clean-up `composer.dispose()` is not
  modelled; a new set-up simply replaces the composer.
- TagOrder.Less: orders strings by Unicode scalar values. JavaScript's
  default sort compares UTF-16 code units, and the two orders differ only
  for characters outside the Basic Multilingual Plane.
- HeroParallax.TreeClass: covers the first scene's 20 silhouettes only.
  The later scenes use the same three-band rule with other cut-offs.
- The development overlay of the performance monitor is not modelled. This
  covers the FPS colour bands, the frame time and the memory read-out.
- The resume cards and hover cards, the CSS keyframe animations and
  `AwwwardsBanner` are not part of this model.
- `ForestEnvironment.tsx` and the `forest-story` route are not part of this
  model, although the original and simplified containers mount that plain
  forest (`ForestStoryComponent.tsx:52`, `ForestStoryComponentSimple.tsx:68`).
  Its parallax differs from the enhanced one modelled here. It shifts by
  2p|z|/15 rather than p|z|/10, and it touches only `Mesh` children, with
  `|| 0` fallbacks for a missing tree entry. Its children are two lights
  (0, 1), the ground (2), 13 tree groups (3-15) and 30 grass blades
  (16-45); the fog is attached, not a child. Read against those indices,
  its loop moves the ground to x = 2 + 2p, sets every grass blade to x = 0
  and never moves a tree. Not executed.
