# LearnLine landing page: the logic under the components

This project models, in Dafny, the logic of the LearnLine marketing landing page. Most of the page is layout. The modelled logic is:

- the **rotatable dial** of the "How It Works" section:
  - the sector a rotation points into;
  - snapping to the nearest quarter turn on release;
  - wrap-corrected drag steps;
  - forward-only navigation requested by the host;
  - the position-change callback;
- the **before/after toggle** of the homework section:
  - a progress value in [0, 1] that lights comparison rows;
  - interruptible, reversible transitions;
  - a token that silences stale frame callbacks;
- the smaller pieces:
  - the cyclic "advance" of the How It Works section;
  - the Fisher-Yates shuffle of the hero cards' fall delays and the per-card wiggle counters;
  - the comparison table's row rule;
  - a feature card's landing timer, click/key/hover wiggles and 300 ms hover throttle;
  - the preview window's shake debounce and maximize toggle;
  - the tab bar and the audience tabs with their upper/lower-case round trip.

There is one Dafny module per component, except that RotatableDial's pure functions are split out into `DialGeometry` beside the `Dial` class:

| module | file |
|---|---|
| `Dial` | `rotatable_dial.dfy` |
| `DialGeometry` | `dial_geometry.dfy` (the component's pure functions) |
| `HomeworkTransition` | `homework_transition.dfy` |
| `ComparisonTable` | `comparison_table.dfy` |
| `HowItWorks` | `how_it_works.dfy` |
| `Hero` | `hero.dfy` |
| `Cards` | `feature_card.dfy` |
| `Preview` | `preview_window.dfy` |
| `TabNavigation` | `tab_navigation.dfy` |
| `ClearerPaths` | `clearer_paths.dfy` |

Three support modules sit beside them: `Angles` (real-valued angle folding), `Wrappers` (`Option`) and `Sequences` (distinctness).

Components whose handlers update state are classes, with one exception. HeroSection's only state, the wiggle-counter map, is modelled as a value: the pure update `Hero.TriggerWiggle` returns the new map. Each class has a `Valid()` invariant that every handler keeps. The two steps `HomeworkOpportunity.StopRaf` and `HomeworkOpportunity.SetProgress` run inside handlers. `StopRaf` keeps the invariant too. `SetProgress` is framed field by field and may break it until its handler finishes. Each method's `ensures` clauses give every field it may change a value in terms of the old state, and state which fields stay as they were. Pure code is functions, with lemmas stating what they promise. Outside inputs are method parameters:

- the browser clock;
- `Math.random`;
- pointer angles;
- media positions;
- `canPlayType`.

Scheduled callbacks are explicit calls:

- `requestAnimationFrame` frames;
- `setTimeout` expiries;
- spring-animation frames.

A spring animation is modelled as its goal plus the frames the engine chooses to pass through.

## Model

| member | source | states |
|---|---|---|
| Angles.Normalize | v2/src/components/molecules/RotatableDial.tsx:31 | the folded angle lies in [0, 360) and differs from the input by whole turns |
| Angles.TurnsShift | v2/src/components/molecules/RotatableDial.tsx:31 | adding k whole turns adds k to the turn count and leaves the folded direction unchanged |
| Angles.NormalizeUnique | v2/src/components/molecules/RotatableDial.tsx:31 | the folded direction is the only value in [0, 360) a whole number of turns from the angle |
| DialGeometry.PositionTablesAgree | v2/src/components/molecules/RotatableDial.tsx:15-27 | `POSITIONS` and `POSITION_ANGLES` list the same four labels with the same angles, all in [0, 360) |
| DialGeometry.PositionFromAngle | v2/src/components/molecules/RotatableDial.tsx:29-38 | total: every real angle maps to one of the four known labels |
| DialGeometry.PositionFromAnglePeriodic | v2/src/components/molecules/RotatableDial.tsx:29-38 | the position depends on the angle only modulo 360 |
| DialGeometry.PositionSectors | v2/src/components/molecules/RotatableDial.tsx:34-37 | label l is reported iff the angle lies in [c-45, c+45) modulo 360, c being l's canonical angle (half-open upward sectors), both directions |
| DialGeometry.CanonicalAngleReportsItsLabel | v2/src/components/molecules/RotatableDial.tsx:22-38 | each canonical angle plus any k·360 maps back to its own label |
| DialGeometry.SnapOffset | v2/src/components/molecules/RotatableDial.tsx:45-58 | the snap target of a direction is 0, 90, 180, 270 or 360 and within 45 degrees of it |
| DialGeometry.SnapIsNearRightAngle | v2/src/components/molecules/RotatableDial.tsx:40-77 | the snapped rotation is a multiple of 90 within 45 degrees of the input |
| DialGeometry.SnapDirection | v2/src/components/molecules/RotatableDial.tsx:60-76 | the snapped rotation points at the snap offset and stays in the input's turn, or the next turn when the snap goes up to 360 |
| DialGeometry.SnapIdempotent | v2/src/components/molecules/RotatableDial.tsx:40-77 | snapping twice is snapping once |
| DialGeometry.SnapRestsOnReportedPosition | v2/src/components/molecules/RotatableDial.tsx:40-77 | a snapped rotation points exactly at the canonical angle of the position it reports |
| DialGeometry.SnapKeepsPositionOffBoundaries | v2/src/components/molecules/RotatableDial.tsx:34-54 | away from directions 45, 135 and 225 the snap keeps the reported position; at each of those three the position before the snap is one stop ahead of the one after |
| DialGeometry.NearestStopIsSnapOffset | v2/src/components/molecules/RotatableDial.tsx:45-58 | the first of [0, 90, 180, 270] at least circular distance is the snap offset modulo 360 (45/135/225 tie down, 315 ties to 0) |
| DialGeometry.ClosestCandidateIsSnap | v2/src/components/molecules/RotatableDial.tsx:62-76 | of the three copies of the nearest stop, the closest to the angle is the snapped rotation |
| DialGeometry.NearestStop | v2/src/components/molecules/RotatableDial.tsx:45-58 | the first snap loop returns the nearest stop, ties to the earlier entry |
| DialGeometry.ClosestCopy | v2/src/components/molecules/RotatableDial.tsx:62-76 | the second snap loop returns the snapped rotation |
| DialGeometry.SnapToNearest | v2/src/components/molecules/RotatableDial.tsx:40-77 | `snapToNearest` equals the reference snap: a multiple of 90 within 45 degrees of the input |
| DialGeometry.WrapDelta | v2/src/components/molecules/RotatableDial.tsx:171-175 | the correction adds -360, 0 or 360; leaves [-180, 180] alone; brings any step in [-540, 540] into [-180, 180] |
| DialGeometry.DragStepIsAtMostHalfTurn | v2/src/components/molecules/RotatableDial.tsx:150-175 | for pointer samples in [-90, 270] every corrected drag step lies in [-180, 180] |
| DialGeometry.NavigationGoalIsForward | v2/src/components/molecules/RotatableDial.tsx:111-117 | the navigation goal is strictly ahead of the rotation, at most one turn on, and points exactly at the target |
| DialGeometry.NavigationGoalUnique | v2/src/components/molecules/RotatableDial.tsx:108-125 | the goal is the only rotation in (r, r+360] pointing at the target |
| Dial.RotatableDial.constructor | v2/src/components/molecules/RotatableDial.tsx:105-106 | rotation starts at the initial label's angle, or 0 for an unknown label; position is the initial label; nothing reported |
| Dial.RotatableDial.SetRotation | v2/src/components/molecules/RotatableDial.tsx:128-137 | setting the rotation it already has changes nothing (the motion value does not notify); otherwise the position is recomputed, and stored and reported only when it differs |
| Dial.RotatableDial.PointerDown | v2/src/components/molecules/RotatableDial.tsx:158-165 | sets dragging and records the start sample; nothing else changes |
| Dial.RotatableDial.PointerMove | v2/src/components/molecules/RotatableDial.tsx:167-179 | a no-op when not dragging; otherwise rotation grows by the wrap-corrected step, the new sample is kept, and the position follows the rotation only if the rotation moved |
| Dial.RotatableDial.PointerUp | v2/src/components/molecules/RotatableDial.tsx:181-199 | a no-op when not dragging; otherwise clears dragging and springs to the snap of the current rotation |
| Dial.RotatableDial.SyncTarget | v2/src/components/molecules/RotatableDial.tsx:108-125 | a no-op for an absent, empty or current target; otherwise the goal is the forward navigation goal, in (r, r+360], reporting the target |
| Dial.RotatableDial.LabelClick | v2/src/components/molecules/RotatableDial.tsx:214-224 | springs to the label's absolute canonical angle, not relative to the turn count |
| Dial.RotatableDial.AnimationFrame | v2/src/components/molecules/RotatableDial.tsx:128-137 | a spring frame moves the rotation; a frame at the current rotation changes no position; the position is reported only on a sector change |
| Dial.RotatableDial.AnimationSettles | v2/src/components/molecules/RotatableDial.tsx:119-124 | the spring rests on its goal, which points exactly at the reported position whenever that position is a known label |
| Dial.DragAndReleaseScenario | v2/src/components/molecules/RotatableDial.tsx:158-199 | from Grade, a +100 degree drag and release rests at 90 with exactly one report, Diagnose |
| Dial.UnknownLabelScenario | v2/src/components/molecules/RotatableDial.tsx:105-137 | mounted on an unknown label at rotation 0, a zero drag step and a spring to Grade's angle 0 report nothing and keep the label |
| Dial.ForwardNavigationScenario | v2/src/components/molecules/RotatableDial.tsx:108-137 | from Grade, navigating to Remediate turns forward to 180, reporting Diagnose then Remediate |
| HomeworkTransition.ClampProgress | v2/src/components/organisms/HomeworkOpportunitySection.tsx:16 | result in [0, 1]; identity on [0, 1]; 0 below, 1 above |
| HomeworkTransition.ClampIdempotent | v2/src/components/organisms/HomeworkOpportunitySection.tsx:16 | clamping is idempotent |
| HomeworkTransition.ActiveCountFor | v2/src/components/organisms/HomeworkOpportunitySection.tsx:39-45 | the row count lies in [0, COMPARISON_COUNT] |
| HomeworkTransition.ActiveCountEnds | v2/src/components/organisms/HomeworkOpportunitySection.tsx:40 | 0 rows at progress 0, all 4 at progress 1 |
| HomeworkTransition.ActiveCountMonotone | v2/src/components/organisms/HomeworkOpportunitySection.tsx:40 | the row count never decreases as progress grows |
| HomeworkTransition.RowLitThreshold | v2/src/components/organisms/HomeworkOpportunitySection.tsx:40 | row i is lit iff progress·4 + 1e-6 ≥ i + 1, both directions |
| HomeworkTransition.ProgressFromVideo | v2/src/components/organisms/HomeworkOpportunitySection.tsx:58-68 | with media the progress is in [0, 1]; without media it is the stored progress |
| HomeworkTransition.SeekTimeRoundTrip | v2/src/components/organisms/HomeworkOpportunitySection.tsx:181-184 | reading progress back from the seek target returns the start progress, in both directions |
| HomeworkTransition.TimerProgress | v2/src/components/organisms/HomeworkOpportunitySection.tsx:152-157 | the timer path's progress stays in [0, 1] |
| HomeworkTransition.TimerTransitionEnds | v2/src/components/organisms/HomeworkOpportunitySection.tsx:152-164 | after 7500 ms from any start the timer progress is at its end and finalisation triggers |
| HomeworkTransition.HomeworkOpportunity.constructor | v2/src/components/organisms/HomeworkOpportunitySection.tsx:19-30 | starts at Current Way, progress 0, no transition, token 0 |
| HomeworkTransition.HomeworkOpportunity.DetectWebM | v2/src/components/organisms/HomeworkOpportunitySection.tsx:113-117 | records media support and changes nothing else |
| HomeworkTransition.HomeworkOpportunity.StopRaf | v2/src/components/organisms/HomeworkOpportunitySection.tsx:32-37 | no frame remains requested; the invariant is kept |
| HomeworkTransition.HomeworkOpportunity.SetProgress | v2/src/components/organisms/HomeworkOpportunitySection.tsx:39-51 | stores the clamped progress; the row count matches it; the count is written only when it changes |
| HomeworkTransition.HomeworkOpportunity.FinalizeTransition | v2/src/components/organisms/HomeworkOpportunitySection.tsx:70-82 | token +1; rests at 1 with Better Way (forward) or at 0 without (reverse); no transition, no frame |
| HomeworkTransition.HomeworkOpportunity.StartTransition | v2/src/components/organisms/HomeworkOpportunitySection.tsx:84-92 | token +1; sets the direction and Better Way flag at once; starts from the clamped progress |
| HomeworkTransition.HomeworkOpportunity.HandleToggle | v2/src/components/organisms/HomeworkOpportunitySection.tsx:94-111 | at rest starts forward from 0 or reverse from 1; during a transition flips direction from the live progress; the visible media and media support stay; the row count is written only if it changed |
| HomeworkTransition.HomeworkOpportunity.IdleEffect | v2/src/components/organisms/HomeworkOpportunitySection.tsx:128-134 | under the invariant the idle effect changes nothing |
| HomeworkTransition.HomeworkOpportunity.BeginTransitionLoop | v2/src/components/organisms/HomeworkOpportunitySection.tsx:136-248 | captures the current token, direction and start progress; requests the first timer frame, or waits for the media; on the media path without an active media element it returns nothing and changes nothing |
| HomeworkTransition.HomeworkOpportunity.TimerTick | v2/src/components/organisms/HomeworkOpportunitySection.tsx:147-169 | a stale token changes nothing; otherwise progress becomes clamp(start ± elapsed/7500), finalising at the end (visible media set to the loop's direction) or requesting the next frame; media support and pending seek stay |
| HomeworkTransition.HomeworkOpportunity.SeekAndStart | v2/src/components/organisms/HomeworkOpportunitySection.tsx:219-237 | a stale token changes nothing; a ready, seeked media starts playback; progress, rows, media support and pending seek stay |
| HomeworkTransition.HomeworkOpportunity.StartPlayback | v2/src/components/organisms/HomeworkOpportunitySection.tsx:186-217 | a stale token changes nothing; otherwise the loop's media becomes visible and its first frame is requested; everything else stays |
| HomeworkTransition.HomeworkOpportunity.VideoTick | v2/src/components/organisms/HomeworkOpportunitySection.tsx:198-214 | a stale token changes nothing; otherwise progress follows the media position, finalising at the end (visible media set) or requesting the next frame; media support and pending seek stay |
| HomeworkTransition.HomeworkOpportunity.Unmount | v2/src/components/organisms/HomeworkOpportunitySection.tsx:250 | unmounting cancels the requested frame and changes nothing else |
| HomeworkTransition.InterruptScenario | v2/src/components/organisms/HomeworkOpportunitySection.tsx:94-169 | a forward transition interrupted at 0.4 reverses from 0.4; a stale forward frame then changes nothing |
| ComparisonTable.ComparisonCountIsFour | v2/src/components/molecules/ComparisonTable.tsx:8-15 | `COMPARISON_COUNT` is 4 |
| ComparisonTable.PrefixBetterCount | v2/src/components/molecules/ComparisonTable.tsx:38-46 | rows lit exactly below index a number a, bounded to [0, row count] |
| ComparisonTable.RowsFollowActiveCount | v2/src/components/molecules/ComparisonTable.tsx:38-46 | rows keep their comparisons in order; row i is better iff i < activeCount; the better count is activeCount bounded to [0, 4] |
| ComparisonTable.BetterRowsArePrefix | v2/src/components/molecules/ComparisonTable.tsx:44 | better rows form a prefix |
| ComparisonTable.RaisingCountKeepsBetterRows | v2/src/components/molecules/ComparisonTable.tsx:44 | raising activeCount never turns a better row back |
| HowItWorks.IndexOf | v2/src/components/organisms/HowItWorksSection.tsx:90 | the first index holding the value, or -1 exactly when it is absent |
| HowItWorks.AdvanceCycle | v2/src/components/organisms/HowItWorksSection.tsx:88-96 | Grade→Diagnose→Remediate→Practice→Grade; an unknown position goes to Grade |
| HowItWorks.FourAdvancesReturn | v2/src/components/organisms/HowItWorksSection.tsx:88-96 | four advances from a known position return to it; one advance always moves |
| HowItWorks.PreviewMatchesPosition | v2/src/components/organisms/HowItWorksSection.tsx:98-111 | each of the four positions shows its own preview, distinct positions show distinct previews, an unknown position shows Grade's |
| HowItWorks.HowItWorksSection.constructor | v2/src/components/organisms/HowItWorksSection.tsx:80-81 | starts on Grade with no dial target; the section keeps the invariant that a pending dial target is the active position, a stop of the cycle |
| HowItWorks.HowItWorksSection.HandleDialChange | v2/src/components/organisms/HowItWorksSection.tsx:83-86 | follows the reported position and clears the dial target, keeping the invariant |
| HowItWorks.HowItWorksSection.HandleMinimizeAdvance | v2/src/components/organisms/HowItWorksSection.tsx:88-96 | active position and dial target both become the next position, a known dial label, keeping the invariant |
| Hero.Swap | v2/src/components/organisms/HeroSection.tsx:25 | exchanges the two entries and keeps the rest |
| Hero.FisherYatesPermutes | v2/src/components/organisms/HeroSection.tsx:21-28 | for any draws with 0 ≤ j ≤ i, the shuffle is a permutation (same length, same multiset) |
| Hero.FisherYatesStayingDrawsKeepOrder | v2/src/components/organisms/HeroSection.tsx:21-28 | draws that always pick the current index leave the order unchanged |
| Hero.ShuffleArray | v2/src/components/organisms/HeroSection.tsx:21-28 | the in-place loop on a copy computes the Fisher-Yates arrangement for the draws, a permutation of the input |
| Hero.AssignDelaysKeepsCards | v2/src/components/organisms/HeroSection.tsx:48-51 | delay assignment keeps every other card field and the card order, and hands out exactly the given delays |
| Hero.DelaysDistinct | v2/src/components/organisms/HeroSection.tsx:47 | the eight delays are distinct |
| Hero.FeatureCards | v2/src/components/organisms/HeroSection.tsx:45-52 | eight cards with their base fields; the delays are a permutation of 0.2 … 1.6, each given to exactly one card |
| Hero.TriggerWiggle | v2/src/components/organisms/HeroSection.tsx:56-61 | the label's counter becomes old + 1 (1 if absent); every other counter is unchanged |
| Hero.TriggerAllCounts | v2/src/components/organisms/HeroSection.tsx:54-61 | after any run of triggers a counter is its start plus its trigger count, so counters never decrease |
| Cards.ThrottledGapsAccumulate | v2/src/components/molecules/FeatureCard.tsx:75-82 | any two accepted hovers are at least 300 ms apart (300 times their distance in the list), whatever the clock does |
| Cards.FeatureCard.constructor | v2/src/components/molecules/FeatureCard.tsx:29-46 | static starts landed and schedules nothing; falling starts falling with landing due at (delay + 2.5)·1000 ms |
| Cards.FeatureCard.LandingTimerFires | v2/src/components/molecules/FeatureCard.tsx:36-46 | the landing timer sets landed and clears falling |
| Cards.FeatureCard.HandleWiggle | v2/src/components/molecules/FeatureCard.tsx:67-73 | calls `onWiggle` without a local wiggle when it is given; otherwise starts a click wiggle |
| Cards.FeatureCard.Click | v2/src/components/molecules/FeatureCard.tsx:84-98 | a non-interactive card ignores clicks; an interactive one handles the wiggle |
| Cards.FeatureCard.KeyDown | v2/src/components/molecules/FeatureCard.tsx:91-96 | only Enter or Space on an interactive card acts as a click |
| Cards.FeatureCard.HoverStart | v2/src/components/molecules/FeatureCard.tsx:75-82 | a hover under 300 ms after the last accepted one changes nothing; otherwise it is remembered and wiggles |
| Cards.FeatureCard.WiggleKeyChanged | v2/src/components/molecules/FeatureCard.tsx:60-65 | a zero or absent key starts nothing; a nonzero key starts a click wiggle |
| Cards.FeatureCard.Unmount | v2/src/components/molecules/FeatureCard.tsx:45 | unmounting clears the landing timer |
| Cards.HoverThrottleScenario | v2/src/components/molecules/FeatureCard.tsx:67-89 | hovers at 1000 and 1100 ms give one hover wiggle; a click with a listening parent only calls the parent |
| Preview.PreviewWindow.constructor | v2/src/components/molecules/PreviewWindow.tsx:18-20 | neither shaking nor maximized, no timeout |
| Preview.PreviewWindow.CloseClick | v2/src/components/molecules/PreviewWindow.tsx:30-39 | ignored while shaking; otherwise shakes, cancels the old timeout and leaves exactly one pending, due 350 ms later |
| Preview.PreviewWindow.ShakeTimerFires | v2/src/components/molecules/PreviewWindow.tsx:36-38 | the firing timeout ends the shake; nothing stays pending |
| Preview.PreviewWindow.MaximizeClick | v2/src/components/molecules/PreviewWindow.tsx:41-43 | negates maximized |
| Preview.PreviewWindow.Unmount | v2/src/components/molecules/PreviewWindow.tsx:22-28 | unmounting leaves no timeout pending |
| Preview.PreviewScenario | v2/src/components/molecules/PreviewWindow.tsx:30-43 | two maximize clicks restore the state; a second close click during the shake keeps the single timeout |
| TabNavigation.TabButtons | v2/src/components/molecules/TabNavigation.tsx:12-19 | one button per tab, in order; active iff its label is the active tab; a click reports its own label |
| TabNavigation.ActiveCountIsOccurrences | v2/src/components/molecules/TabNavigation.tsx:12-19 | the number of active buttons is the number of tabs equal to the active tab |
| TabNavigation.OneActiveButton | v2/src/components/molecules/TabNavigation.tsx:12-19 | with distinct tabs exactly one button is active if the active tab is present, none otherwise |
| ClearerPaths.ContentFor | v2/src/components/organisms/ClearerPathsSection.tsx:12-49 | every tab has content, with three bullets |
| ClearerPaths.DashboardFor | v2/src/components/organisms/ClearerPathsSection.tsx:53-58 | every tab has a dashboard, and different tabs have different ones |
| ClearerPaths.ToUpper | v2/src/components/organisms/ClearerPathsSection.tsx:77 | same length; each ASCII letter upper-cased |
| ClearerPaths.ToLower | v2/src/components/organisms/ClearerPathsSection.tsx:79 | same length; each ASCII letter lower-cased |
| ClearerPaths.LowerUndoesUpper | v2/src/components/organisms/ClearerPathsSection.tsx:77-79 | lower-casing undoes upper-casing on strings with no capitals |
| ClearerPaths.TabLabels | v2/src/components/organisms/ClearerPathsSection.tsx:77 | the labels are the tabs upper-cased, in order |
| ClearerPaths.TabLabelsAreCapitals | v2/src/components/organisms/ClearerPathsSection.tsx:51-77 | the labels are STUDENT, TEACHER, PARENT, SCHOOL |
| ClearerPaths.LabelNamesItsTab | v2/src/components/organisms/ClearerPathsSection.tsx:77-79 | lower-casing label i gives tab i and no other tab |
| ClearerPaths.LabelsDistinct | v2/src/components/organisms/ClearerPathsSection.tsx:77 | no two tabs share a label |
| ClearerPaths.ClearerPathsSection.constructor | v2/src/components/organisms/ClearerPathsSection.tsx:61 | the student tab starts active |
| ClearerPaths.ClearerPathsSection.Buttons | v2/src/components/organisms/ClearerPathsSection.tsx:76-80 | exactly one tab button is active, the active tab's |
| ClearerPaths.ClearerPathsSection.ClickTab | v2/src/components/organisms/ClearerPathsSection.tsx:76-79 | clicking button i makes tab i active, and its button the active one |

## Left out

- Rendering: JSX, Tailwind classes, SVG geometry, label placement (`getLabelStyle`) and `useMediaQuery`. These are presentation.
- Floating point: angles and progress are exact reals. The JavaScript `%` fold, `Math.floor` and the divisions therefore have no rounding. On reals, `((a % 360) + 360) % 360` equals `a - 360·floor(a/360)`.
- Spring physics (`animate`, stiffness, damping, mass) is not modelled. A spring is its goal plus the frames the engine passes through (`AnimationFrame`, `AnimationSettles`).
- `getAngleFromCenter` (`atan2`, `getBoundingClientRect`) is not modelled. The pointer angle is an input, assumed in [-90, 270] only by `DragStepIsAtMostHalfTurn`.
- framer-motion's motion values and springs are not part of this model. The model takes a motion value to notify its "change" listeners only when the new value differs from the old one, and a spring to be its goal plus the frames it passes through.
- Dial.RotatableDial.SyncTarget: requires a target that is absent, empty, the current position or a known label. For an unknown label the source computes `NaN` and animates to it; the model does not cover that case.
- A drag does not cancel a running spring in the code, and the model follows the code. A spring started before `PointerDown` keeps its goal and frames.
- Media handling is not modelled:
  - `canPlayType`, `load`, `play` and `pause`;
  - playback rate and `readyState`;
  - the `seeked` and `loadedmetadata` listeners.

  Support, the media position and readiness are inputs. The seek clamp to [0, 7.5 − 0.001] s and the 0.01 s "needs seek" test are folded into the `readyNow` input of `SeekAndStart`.
- Scheduling primitives are not modelled: `requestAnimationFrame`, `cancelAnimationFrame`, `setTimeout`, `clearTimeout`, `Date.now` and `performance.now`. They become explicit tick/fire methods with integer-millisecond inputs. A frame callback is a `FrameLoop` value.
- `Math.random` is not modelled:
  - In the shuffle, it becomes the `picks` input, constrained to 0 ≤ picks[i] ≤ i.
  - The card wobble duration is presentation and is left out.
- ClearerPaths.ToUpper and ClearerPaths.ToLower map only the ASCII letters a-z and A-Z. JavaScript's `toUpperCase`/`toLowerCase` are Unicode-aware, but only the four ASCII tab names and their labels ever reach them.
- Wiggle keyframe animations (`useAnimation`) are not modelled. A wiggle is an entry in the card's wiggle list.
- React batching and stale closures are not modelled. Each handler sees the state left by the previous one, so two clicks within one render are not modelled.
- Hero.ShuffleArray takes its input as an immutable sequence. "The caller's array is left unchanged" therefore holds by construction and is not stated as a separate property.
- The fourth comparison's current value is modelled with the rupee sign (U+20B9). The source text shows that sign mis-decoded.
- The other page components, `LearningLoop`, `v2/src/utils/animations.ts` and `v2/src/types/index.ts` are not part of this model. They are static markup or animation presets.
