# Ethereal Zen Garden: a Dafny model of the garden's logic

The Ethereal Zen Garden is a browser garden. It has four layers:

- the user plants procedurally built 3D flowers on a ground plane;
- a time-of-day slider drives the lighting;
- a control panel edits the template the next flower copies;
- an AI prompt can fill that template in.

This project models the deterministic logic under the rendering, with one Dafny module per source file:

| module | source | form |
|---|---|---|
| `Types` | `types.ts` | datatypes: the petal and leaf archetypes, the flower record, the template (a record without `id` and `position`) |
| `Paths` | (the scene library's `Shape`) | path commands as a datatype; a `Shape` class whose methods append one command each |
| `Flower` | `components/Flower.tsx` | outlines as functions, with methods that draw them through `Shape`; the layout of stem, receptacle, petals and leaves as functions; the growth scalar as a class with a `Tick` method |
| `GardenScene` | `components/GardenScene.tsx` | the lighting as functions of the hour; the ground-click filter |
| `App` | `App.tsx` | a `Garden` class holding the time, the flower list and the pending template, with the planting and clearing handlers |
| `ControlPanel` | `components/ControlPanel.tsx` | template patching; trimming and the blank-prompt guard; the clock label; the sun icon; the slider domains; a `Panel` class for the AI handler's steps before and after its await |

Numbers are mathematical reals, as TypeScript numbers are used here for counts and sizes. A count becomes an array length the way JavaScript truncates one (`Flower.ArrayLength`). Angles are fractions of a full turn, so π never appears: a petal's turn of i·2π/petalCount is i/petalCount, and a tilt of π/4 is 1/8.

Points of the code's behaviour that the model keeps as written:

- The HEART petal is mirror-symmetric about the growth axis like ROUND, but wider, and its lobes rise above the tip and come back down into it: its second control point (1, 2.5) lies above the tip (0, 2).
- `handlePlantAtPosition` stores the position exactly as given and does not zero y. Only the ground-click handler forces y to 0 (`App.PlantedReadBack`, `App.GroundClickPlantsOnGround`).
- The petal outline's `switch` has no default branch. An archetype name outside the enumeration matches no case, so the path builder gets no commands and every petal has an empty outline. Such a name can arrive from the AI reply, which is not checked against the enumeration. The model's archetypes are the closed enumeration, so it does not reach that case (see "## Left out").
- The time slider allows 24 as well as 0, so the slider's range is 0..24 inclusive.
- A rejected AI call leaves the loading flag raised: the handler has no `try`/`finally` around the await.

## Model

| member | source | states |
|---|---|---|
| Types.PetalShapeValues | types.ts:2-7 | the petal enumeration has exactly four members, all different, with different string values, and every petal archetype is one of them |
| Types.LeafShapeValues | types.ts:9-13 | the leaf enumeration has exactly three members, all different, with different string values, and covers every leaf archetype |
| Types.WithIdentity | types.ts:15-29 | spreading a template with an id and a position gives a record that carries that id and position verbatim, and whose appearance fields are exactly the template's |
| Types.SplitAndRespread | types.ts:15-29 | splitting a flower record into its template and identity and spreading them back gives the same record: the two operations are inverse |
| Types.DocumentedTime | types.ts:32 | no contract of its own: the time of day runs from 0 to 24 hours inclusive; `ControlPanel.TimeSliderInRange` states that every time the slider offers lies in it |
| Flower.PetalOutline | components/Flower.tsx:30-52 | each archetype's outline starts with a move to the origin. ROUND and HEART are a cubic curve to the tip (0, 2) and its mirror image back to the origin. POINTY is a closed polygon, symmetric about the axis, ending at the origin, whose highest vertex is (0, 2.5). SLENDER is a full-turn ellipse, unrotated and drawn anticlockwise, with horizontal radius 0.1 and vertical radius 1.5, centred at (0, 1.5) |
| Flower.PetalOutlinesDistinct | components/Flower.tsx:30-52 | different petal archetypes never share an outline |
| Flower.LeafOutline | components/Flower.tsx:56-62 | the leaf outline is a quadratic lobe out to the tip (0, 1.2) and its mirror image back, ending at the origin |
| Flower.LeafOutlineIgnoresShape | components/Flower.tsx:56-62 | the leaf outline is the same whatever leaf archetype is asked for |
| Flower.BuildPetalShape | components/Flower.tsx:28-54 | drawing the petal outline call by call on a path builder leaves exactly the command list of `PetalOutline` |
| Paths.Shape.constructor | components/Flower.tsx:29 | a new path builder holds no commands |
| Paths.Shape.MoveTo | components/Flower.tsx:32 | `moveTo` appends one move to (x, y) and keeps every earlier command |
| Paths.Shape.LineTo | components/Flower.tsx:38-40 | `lineTo` appends one straight edge to (x, y) and keeps every earlier command |
| Paths.Shape.QuadraticCurveTo | components/Flower.tsx:59-60 | `quadraticCurveTo` appends one quadratic curve with the given control and end points and keeps every earlier command |
| Paths.Shape.BezierCurveTo | components/Flower.tsx:33-34 | `bezierCurveTo` appends one cubic curve with the given two control points and end point and keeps every earlier command |
| Paths.Shape.Ellipse | components/Flower.tsx:50 | `ellipse` appends one ellipse command with the given offset, radii, start and end angles, direction and rotation, and keeps every earlier command |
| Paths.Shape.ClosePath | components/Flower.tsx:41 | `closePath` appends one close command and keeps every earlier command |
| Flower.BuildLeafShape | components/Flower.tsx:56-62 | drawing the leaf outline call by call leaves exactly the command list of `LeafOutline` |
| Flower.ArrayLength | components/Flower.tsx:89 | an array built with length c has no elements when c < 1 (none for c not positive, none for 0 < c < 1), and the integer part of c elements when c ≥ 1; a whole non-negative c gives exactly c elements |
| Flower.Petals | components/Flower.tsx:88-101 | there are as many petals as the array length of petalCount, each at stemHeight, tilted 1/8 turn and scaled by petalSize |
| Flower.PetalTurn | components/Flower.tsx:90 | petal i's turn is a fraction of a full turn in [0, 1) which, times petalCount, gives back i |
| Flower.Leaves | components/Flower.tsx:104-115 | there are as many leaves as the array length of leafCount, each tilted 1/6 turn and scaled by leafSize |
| Flower.LeafLevel | components/Flower.tsx:108-109 | leaf i's height times (leafCount + 1) is stemHeight·(i + 1), and its turn is a fraction in [0, 1) which, times leafCount, gives back i |
| Flower.StemPart | components/Flower.tsx:71-74 | no contract of its own: the stem's geometry and placement are stated by `Flower.StemReachesHead` |
| Flower.ReceptaclePart | components/Flower.tsx:77-86 | no contract of its own: the receptacle's radius 0.3·petalSize and its height are stated by `Flower.StemReachesHead` |
| Flower.Layout | components/Flower.tsx:70-115 | no contract of its own: the parts it lists are counted by `Flower.LayoutCounts` |
| Flower.LayoutCounts | components/Flower.tsx:70-115 | a flower's parts are exactly one stem, one receptacle, as many petals as petalCount and as many leaves as leafCount, as array lengths |
| Flower.StemReachesHead | components/Flower.tsx:71-80 | the receptacle is a sphere of radius 0.3·petalSize; the stem has radius stemThickness and length stemHeight, and is centred at half its height so that it stands on the ground and ends at the head; the receptacle and every petal are at stemHeight |
| Flower.PetalTurnsDistinct | components/Flower.tsx:89-90 | any two different petals' turns differ by a fraction strictly between 0 and 1 that is not whole, so they are distinct modulo a full turn |
| Flower.LeafInsideStem | components/Flower.tsx:108 | on a positive stem every leaf lies strictly inside (0, stemHeight) |
| Flower.LeafHeights | components/Flower.tsx:105-108 | on a positive stem the leaves lie strictly inside (0, stemHeight) and strictly rise with their index |
| Flower.LeafSpacing | components/Flower.tsx:108 | leaves i and j are (j − i)·stemHeight/(leafCount + 1) apart: the gap times (leafCount + 1) is (j − i)·stemHeight |
| Flower.NoLeaves | components/Flower.tsx:105-109 | with leafCount not positive there are no leaves, so the division by leafCount is never taken |
| Flower.Build | components/Flower.tsx:64-69 | the drawn flower is placed at its record's position, scaled by the growth on all three axes, and uses its archetypes' outlines and its template's layout |
| Flower.BuildIgnoresUnusedFields | components/Flower.tsx:12-16 | changing density, the leaf archetype or either colour never changes the built flower's geometry |
| Flower.GrowthStep | components/Flower.tsx:22-26 | one frame leaves full growth alone. Below full growth it never passes 1, it never shrinks for a non-negative frame, it reaches 1 exactly when growth + delta·1.2 does, and otherwise it advances by exactly delta·1.2 |
| Flower.GrowthAfter | components/Flower.tsx:22-26 | no contract of its own: growth after n frames of equal length; `Flower.EqualFrames` states that it is `GrowthAfterFrames` over `Repeat`, n copies of one frame, and `Flower.GrowthClosedForm` gives it in closed form |
| Flower.GrowthClosedForm | components/Flower.tsx:22-26 | for frames of equal length: from growth in [0, 1], growth after n frames of delta ≥ 0 is min(1, growth + n·delta·1.2) |
| Flower.GrowthMonotone | components/Flower.tsx:22-26 | for frames of equal non-negative length, from growth in [0, 1]: growth never decreases from frame to frame and never exceeds 1 |
| Flower.GrowthBlooms | components/Flower.tsx:22-26 | for frames of equal positive length: enough of them bring any growth in [0, 1] to exactly 1 |
| Flower.GrowthAfterFrames | components/Flower.tsx:22-26 | no contract of its own: growth after a run of frames, each with its own length as the frame callback receives it; `Flower.FramesClosedForm` gives it in closed form |
| Flower.FrameStep | components/Flower.tsx:23-24 | one more frame of length delta ≥ 0, taken from growth min(1, g + s·1.2), gives min(1, g + (s + delta)·1.2) |
| Flower.FramesClosedForm | components/Flower.tsx:22-26 | from growth at most 1, with frames of any non-negative lengths, growth is min(1, growth + 1.2·(total frame time)) |
| Flower.FramesBloom | components/Flower.tsx:22-26 | with frames of any non-negative lengths, growth reaches exactly 1 if and only if growth + 1.2·(total frame time) ≥ 1, and never exceeds 1 |
| Flower.FramesMonotone | components/Flower.tsx:22-26 | with frames of any non-negative lengths, growth after any prefix of the run lies between the starting growth and the growth after the whole run, which is at most 1 |
| Flower.EqualFrames | components/Flower.tsx:22-26 | growth after n frames of the same length delta equals growth after the run of n copies of delta |
| Flower.RepeatSum | components/Flower.tsx:22-26 | a run of n frames of delta seconds lasts n·delta seconds in all |
| Flower.ShrinkingFrames | components/Flower.tsx:22-26 | frames that shrink can stop short of full bloom: from 0, frames of 0.5/1.2 s and then 0.25/1.2 s give 0.75 |
| Flower.BloomIsFinal | components/Flower.tsx:23-24 | once growth is 1 it stays 1 for any run of frames, each of its own length, whatever the lengths |
| Flower.OneFrameToBloom | components/Flower.tsx:23-24 | from 0, one frame of 1/1.2 seconds reaches exactly 1 |
| Flower.Growth.constructor | components/Flower.tsx:19 | a new flower instance starts at growth 0 |
| Flower.Growth.Tick | components/Flower.tsx:22-26 | a frame callback sets growth to `GrowthStep` of the old growth; from [0, 1] with a non-negative frame growth does not decrease and stays at most 1; full growth stays full |
| GardenScene.IsDay | components/GardenScene.tsx:32 | no contract of its own: the day band 6 < t < 18 shared by the direct light, the environment map and the sun icon; `ControlPanel.SunIconMatchesDaylight` and `GardenScene.StarsOnlyAtNight` state what it decides |
| GardenScene.AmbientIntensity | components/GardenScene.tsx:24-29 | ambient light is 1.5 strictly between 6 and 18, 0.4 + (t − 5)·1.1 on (5, 6], 1.5 − (t − 18)·1.1 on [18, 19), 0.35 otherwise, and always within [0.35, 1.5] |
| GardenScene.DirectIntensity | components/GardenScene.tsx:31-34 | direct light is 3.0 exactly in the day band 6 < t < 18 and 0.5 exactly outside it |
| GardenScene.EnvironmentIntensity | components/GardenScene.tsx:58 | the environment map contributes 1 exactly in the day band and 0.2 exactly outside it |
| GardenScene.SunAngleTurns | components/GardenScene.tsx:18 | the sun's angle is a quarter turn below the horizon at midnight, on the horizon at 6, overhead at 12 and on the other horizon at 18 |
| GardenScene.SunAngleSteady | components/GardenScene.tsx:18 | the sun turns through one full turn per 24 hours, at a steady rate |
| GardenScene.AmbientMeetsDayLevel | components/GardenScene.tsx:25-27 | the dawn ramp reaches and the dusk ramp starts at the day level, so there is no jump at 6 or at 18 |
| GardenScene.AmbientLipschitzInside | components/GardenScene.tsx:24-29 | on (5, 19) ambient light changes by at most 1.1 per hour, so it is continuous there |
| GardenScene.AmbientJumpsAtNightEdges | components/GardenScene.tsx:26-28 | at 5 and at 19 ambient light is 0.35, while just after 5 and just before 19 it is more than 0.05 higher: the ramps jump at the night edges |
| GardenScene.AmbientSymmetric | components/GardenScene.tsx:24-29 | ambient light at t equals ambient light at 24 − t, for every t |
| GardenScene.StarsVisible | components/GardenScene.tsx:67 | no contract of its own: stars are drawn before 5 and after 19, and `GardenScene.StarsOnlyAtNight` states that every light is then at its night level |
| GardenScene.StarsOnlyAtNight | components/GardenScene.tsx:67 | whenever stars are drawn (t < 5 or t > 19) it is not day, ambient light is at the night level 0.35, direct light is 0.5 and the environment 0.2 |
| GardenScene.LightingSamples | components/GardenScene.tsx:24-34 | at noon it is full day with no stars; at midnight ambient is at the night level and at 3 stars shine; half way along each ramp ambient is 0.95 |
| GardenScene.GroundClick | components/GardenScene.tsx:36-42 | a hit plants exactly when the hit object is named "ground", and then at the hit's x and z with y equal to 0 |
| GardenScene.GroundClickIdempotent | components/GardenScene.tsx:36-42 | feeding a ground click's result back as a ground hit gives the same position: it is already on the ground |
| App.InitialFlowers | App.tsx:25-59 | the initial garden has two flowers with different ids, "init-1" at the origin and "init-2" at (−10, 0, 5) |
| App.Planted | App.tsx:61-68 | planting gives a list one longer, with every earlier flower unchanged in its place; the new last flower has the supplied id and position and exactly the template's appearance |
| App.RandomPosition | App.tsx:71-75 | a random position from draws in [0, 1) is on the ground, has x and z in [−20, 20), and is the draw scaled by 40 and shifted by −20 |
| App.DefaultTemplate | App.tsx:10-22 | no contract of its own: the default values of App.tsx:10-22; `App.DefaultTemplateModel` states the flower they build |
| App.Garden.constructor | App.tsx:8-22 | a new garden starts at 12 o'clock with no flowers and the default template |
| App.Garden.PlantInitialFlowers | App.tsx:25-59 | the mount effect replaces the flower list with the two initial flowers and changes nothing else |
| App.Garden.SetTimeOfDay | App.tsx:8 | the time setter sets the time and changes nothing else |
| App.Garden.SetCurrentTemplate | App.tsx:10 | the template setter sets the pending template and changes nothing else |
| App.Garden.PlantAtPosition | App.tsx:61-68 | the flower list becomes `Planted` of the old list with the current template, the id and the position as given; the time and the template are unchanged |
| App.Garden.PlantRandomly | App.tsx:70-77 | the flower list becomes `Planted` at `RandomPosition` of the two draws, built from the current template whatever `config` is passed |
| App.Garden.Clear | App.tsx:79-83 | a confirmed clear empties the flower list, a declined one leaves it as it was; nothing else changes |
| App.PlantedReadBack | App.tsx:62-66 | reading back the newest flower gives the position exactly as supplied, y included, and splitting it into template and identity gives back the same record |
| App.GroundClickPlantsOnGround | App.tsx:88-92 | a flower planted from a ground click lies at the clicked x and z with y equal to 0; a click on anything else plants nothing |
| App.PlantAllKeepsEarlier | App.tsx:67 | any sequence of plantings adds one flower per planting and keeps every earlier flower and its order |
| App.DefaultTemplateModel | App.tsx:10-22 | the default template builds 8 petals 1/8 turn apart, leaves at heights 1 and 2, and a stem 3 long |
| ControlPanel.Merge | components/ControlPanel.tsx:42-44 | merging a patch replaces exactly the fields the patch names with its values; every other field keeps the template's value |
| ControlPanel.MergeEmpty | components/ControlPanel.tsx:42-44 | an empty patch leaves the template unchanged |
| ControlPanel.MergeIdempotent | components/ControlPanel.tsx:42-44 | applying the same patch twice is the same as applying it once |
| ControlPanel.MergeThen | components/ControlPanel.tsx:42-44 | two successive patches are one patch in which the later one's fields win |
| ControlPanel.TrimStart | components/ControlPanel.tsx:34 | trimming the start removes a prefix made only of whitespace, and what remains is empty or starts with a character that is not whitespace |
| ControlPanel.TrimEnd | components/ControlPanel.tsx:34 | trimming the end removes a suffix made only of whitespace, and what remains is empty or ends with a character that is not whitespace |
| ControlPanel.Trim | components/ControlPanel.tsx:34 | no contract of its own: trimming is `TrimStart` then `TrimEnd`, and `ControlPanel.TrimEmptyIffBlank` states when it leaves nothing |
| ControlPanel.TrimEmptyIffBlank | components/ControlPanel.tsx:34 | a prompt trims to the empty string exactly when every character of it is whitespace |
| ControlPanel.NatToDecimal | components/ControlPanel.tsx:95 | a natural number's decimal text is at least one digit, has no leading zero, and is one digit long exactly below 10 and two digits long exactly from 10 to 99 |
| ControlPanel.DecimalRoundTrip | components/ControlPanel.tsx:95 | reading back a number's decimal text gives the number |
| ControlPanel.LeadingZero | components/ControlPanel.tsx:95 | a leading '0' does not change the value a digit string denotes |
| ControlPanel.PadStart | components/ControlPanel.tsx:95 | left padding ends with the original text, has only the fill character before it, and is as long as the original or the width, whichever is longer |
| ControlPanel.PaddedHour | components/ControlPanel.tsx:95 | an hour below 100, padded with '0' to two characters, is two digits that read back as the hour |
| ControlPanel.ClockLabel | components/ControlPanel.tsx:95 | no contract of its own: `ControlPanel.ClockLabelShowsHour` states its form and value |
| ControlPanel.ClockLabelShowsHour | components/ControlPanel.tsx:95 | for any time from 0 up to 100 the clock label is five characters, two digits that read back as the whole hour, then ":00" |
| ControlPanel.ClockLabelNoon | components/ControlPanel.tsx:95 | the label at 12 is "12:00" |
| ControlPanel.ClockLabelEarly | components/ControlPanel.tsx:95 | the label at 5.5 is "05:00" |
| ControlPanel.ClockLabelMidnight | components/ControlPanel.tsx:95 | the label at 24 is "24:00" |
| ControlPanel.ShowsSun | components/ControlPanel.tsx:94 | no contract of its own: `ControlPanel.SunIconMatchesDaylight` states that it is the scene's day band |
| ControlPanel.SunIconMatchesDaylight | components/ControlPanel.tsx:94 | the sun icon shows exactly in the scene's day band, exactly when direct light is 3.0; whenever it shows, ambient light is at the day level and there are no stars |
| ControlPanel.Admits | components/ControlPanel.tsx:99 | no contract of its own: a slider offers the values from min to max in whole steps; the constants `TimeSlider` (0 to 24 by 0.5, ControlPanel.tsx:99), `PetalCountSlider` (3 to 64 by 1), `StemHeightSlider` (1 to 15 by 0.1) and `LeafCountSlider` (0 to 10 by 1, ControlPanel.tsx:172-174) give their domains; `ControlPanel.TimeSliderInRange` and `ControlPanel.SliderTemplateLayout` state what they guarantee |
| ControlPanel.TimeSliderInRange | components/ControlPanel.tsx:99 | every time the slider offers lies in 0..24, and its clock label is five characters that read back as the whole hour |
| ControlPanel.WholeCount | components/ControlPanel.tsx:172-174 | a count that is a whole number of steps above a whole lower bound is its own array length |
| ControlPanel.SliderTemplateLayout | components/ControlPanel.tsx:172-174 | with slider values, a flower has exactly petalCount petals (3 to 64) and exactly leafCount leaves (at most 10), every leaf strictly inside the stem |
| ControlPanel.Panel.constructor | components/ControlPanel.tsx:30-31 | a new panel is not loading, its prompt is empty, and it shows the template and mode it was given |
| ControlPanel.Panel.SetPrompt | components/ControlPanel.tsx:115 | typing sets the prompt and changes nothing else |
| ControlPanel.Panel.UpdateConfig | components/ControlPanel.tsx:42-44 | a form control's change sets the template to `Merge` of the old template with the patch and changes nothing else |
| ControlPanel.Panel.StartAIDream | components/ControlPanel.tsx:33-36 | a blank prompt returns without a request and changes nothing; any other prompt raises the loading flag and sends a request carrying the prompt and the template as it was at the start |
| ControlPanel.Panel.CompleteAIDream | components/ControlPanel.tsx:36-39 | an answer sets the template to the captured template merged with the answer's patch, lowers the loading flag and turns random mode off; a rejected call changes nothing, so the flag stays raised |
| ControlPanel.Panel.HandleAIDream | components/ControlPanel.tsx:33-40 | run without interruption, the handler leaves a blank prompt's panel unchanged. An answer gives the old template merged with the patch, not loading, random mode off, and an empty patch leaves the template as it was (by `MergeEmpty`). A rejection leaves the template unchanged and the panel loading |

## Left out

- Rendering is not modelled. This covers meshes, materials, colours, emissive levels, shadows, the camera, orbit controls, the floating animation, the sky, the hills and the grid. So is the triangulation that turns an outline into geometry: outlines stay lists of path commands.
- The sun's position (cosine and sine of the angle, at distance 100) needs trigonometry. Only the angle is modelled (`GardenScene.SunAngleTurns`).
- Where an ellipse command leaves the pen also needs trigonometry. `Paths.EndPoint` gives no end point after an ellipse, and the SLENDER outline is described by its centre and radii.
- Floating-point rounding is not modelled: all numbers are exact reals.
- JavaScript throws a range error when an array's length is 2^32 or more. `Flower.ArrayLength` has no upper bound.
- AI reply values outside the template's field types are not modelled: an unknown archetype name, `null`, or a string where a number belongs. The reply is parsed without validation (services/geminiService.ts:39), so such values do reach the template. An unknown petal archetype matches no case of the outline `switch` and gives every petal an empty outline. The model's `ControlPanel.Patch` carries only values of the field types.
- services/geminiService.ts is not part of this model. The AI call is an external reply: a patch of optional fields, or a rejection. A service that returns an empty object for an empty or unparseable answer gives the empty patch.
- Id generation from `Math.random` is left out. Ids are parameters, and nothing claims they are unique.
- `confirm()` and the random draws of random planting are parameters: a boolean and two reals in [0, 1).
- App passes ControlPanel a different set of props from the one the panel declares: no current template, no random-mode flag, no setter, no shuffle handler. The panel is modelled against its declared props, with its template held as a field of `ControlPanel.Panel`.
- Random mode and the shuffle button only change styling, apart from the reset in the AI handler, and are not modelled further.
- The petal-shape labels, the colour pickers' markup and the slider labels are display text and are left out.
- The AI button's `disabled` attribute is left out. The Enter key calls the handler regardless of it.
- `stopPropagation` on the ground click is left out.
- React's batching, hooks and memoisation are left out. So is the stale `growth` read in the frame callback: `Flower.Growth.Tick` tests the current value.
- ControlPanel.Panel.HandleAIDream: does not model anything else updating the template while the request is in flight. `ControlPanel.Panel.CompleteAIDream` covers that case, because it merges into the template captured at the start.
