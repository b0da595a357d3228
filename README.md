# Scroll-driven landscape journey, modelled in Dafny

This project models the core of a scroll-driven 3D scene. The page's scroll offset, a number in [0,1], carries the viewer through four scenes: a valley, mountains, clouds and the ocean. Each scene fades in and out over its stretch of the scroll. The progress through the journey is four times the offset, and its whole part names the current scene.

Every frame, the offset is mapped to several things:

- the camera pose, blended between one keyframe per scene, then smoothed, then shaken slightly;
- the two lights;
- the sky and fog shader uniforms;
- one post-processing profile per scene;
- the visibility, position and material opacity of every element of every scene.

At mount, each scene draws its decorations from `Math.random` and from simplex noise: trees, rocks, clouds, waves, birds, particles, vegetation and terrain. Those tables, index buffers and particle buffers are built once.

The model has one Dafny module per source component, with shared vocabulary in `Common`:

- Each table builder is a method whose loop is proved against a function that describes entry i from its own draws.
- Each buffer or array rewritten in place is an `array` updated by a loop with invariants.
- Each per-frame callback is a method on classes that stand for the scene objects it writes. Its postcondition states the whole new state.
- The pure formulas (visibilities, opacities, scene selection, keyframe blending) are functions with named results. Lemmas about them state the ranges, the scene boundaries and the edge cases the components rely on.

All numbers are exact `real`s. Random draws, noise samples and sine or cosine samples are parameters with the ranges the libraries guarantee: draws in [0,1), noise and sine samples in [−1,1]. A missing scroll value or an unmounted ref is an `Option` or a `null` reference, and in that case the callback does nothing.

## Model

| member | source | states |
|---|---|---|
| CameraController.SceneIndex | src/components/CameraController.jsx:41 | for an offset in [0,1] the keyframe index is below 4, is the floor of 3·offset, and is 3 only at offset 1 |
| CameraController.NextSceneIndex | src/components/CameraController.jsx:42 | the next index is below 4, is the current index or one more, and equals the current index only at offset 1 |
| CameraController.Blend | src/components/CameraController.jsx:43 | the blend factor lies in [0,1) and index + factor == 3·offset |
| CameraController.LerpVec | src/components/CameraController.jsx:50-61 | each coordinate of the blend lies between the two keyframes' coordinates; factor 0 gives the first keyframe |
| CameraController.TargetPosition | src/components/CameraController.jsx:46-54 | the target position lies between the current and next keyframe positions, and equals the current one when the blend factor is 0 |
| CameraController.TargetLookAt | src/components/CameraController.jsx:46-61 | the look-at target lies between the current and next keyframe look-ats, and equals the current one when the blend factor is 0 |
| CameraController.Approach | src/components/CameraController.jsx:64 | one smoothing step scales the gap to the target by 1 − alpha |
| CameraController.Smooth | src/components/CameraController.jsx:64 | in every coordinate the gap to the target is scaled by 1 − alpha |
| CameraController.Shake | src/components/CameraController.jsx:68-70 | the shake moves x by at most 0.1 and y by at most 0.05, and leaves z alone |
| CameraController.KeyframeReached | src/components/CameraController.jsx:41-61 | at offsets 0, 1/3, 2/3 and 1 the index is k, the blend factor is 0, and both targets are exactly keyframe k |
| CameraController.NearFirstBoundary | src/components/CameraController.jsx:41-43 | offset 0.33 still gives index 0 and next index 1, with blend factor 0.99 |
| CameraController.SmoothStaysBetween | src/components/CameraController.jsx:64 | with delta 0 the position stays put; with 0 ≤ 2·delta ≤ 1 every coordinate ends between the old position and the target |
| CameraController.ApproachFramesGap | src/components/CameraController.jsx:64 | n frames with a fixed target leave (1 − alpha)^n of the initial gap |
| CameraController.GapStep | src/components/CameraController.jsx:64 | one more frame multiplies a gap of k·d by 1 − alpha |
| CameraController.Camera.constructor | src/components/CameraController.jsx:7 | the camera starts at the given position |
| CameraController.Controller.constructor | src/components/CameraController.jsx:9-10 | both ref vectors start at the origin |
| CameraController.Controller.Frame | src/components/CameraController.jsx:12-71 | without scroll nothing changes; otherwise both refs hold the keyframe targets, the camera looks at the look-at target, and its position is the smoothed position plus the shake |
| SceneLighting.AmbientLight.constructor | src/components/Scene.jsx:59 | the ambient light starts at intensity 0.3 |
| SceneLighting.DirectionalLight.constructor | src/components/Scene.jsx:60-63 | the sun light starts at (30, 50, 30) with intensity 1.2 |
| SceneLighting.AmbientIntensity | src/components/Scene.jsx:32 | the ambient intensity lies in [0.3, 0.7]: 0.3 at offset 0 and 0.7 at offset 1 |
| SceneLighting.SunIntensity | src/components/Scene.jsx:45 | the directional intensity lies in [1, 1.5]: 1 at offset 0 and 1.5 at offset 1 |
| SceneLighting.SunAngle | src/components/Scene.jsx:37 | the sun angle is at most a quarter turn, reached at offset 1 |
| SceneLighting.LightPosition | src/components/Scene.jsx:38-42 | the light always sits in the plane z = 30 |
| SceneLighting.LightOnCircle | src/components/Scene.jsx:37-42 | the light lies on the circle of radius 50 centred 20 units up |
| SceneLighting.Frame | src/components/Scene.jsx:25-48 | without scroll no light changes; each mounted light gets its intensity (and the sun its position) whether or not the other is mounted |
| PostProcessing.Effects | src/components/EnhancedPostProcessing.jsx:157-200 | the profile table is a constant, so no frame can change it, and every profile lies in the ranges its effects accept: positive bloom and bokeh, thresholds, smoothing, vignette and darkness in [0,1], a god-ray density inside (0,1), and brightness, contrast, hue and saturation in [−1,1] |
| PostProcessing.CloudsMostLuminous | src/components/EnhancedPostProcessing.jsx:157-200 | the clouds profile has the strongest bloom, flare and god rays and the lowest bloom threshold of the four scenes |
| PostProcessing.LowerBound | src/components/EnhancedPostProcessing.jsx:212-221 | each scene's quarter starts at 0, 1, 2 or 3 on the progress axis |
| PostProcessing.Select | src/components/EnhancedPostProcessing.jsx:206-221 | the chosen scene's lower bound is at most the progress; the scene progress is progress minus that bound, lies in [0,1], and is 1 only at progress 4 |
| PostProcessing.SelectIsQuarter | src/components/EnhancedPostProcessing.jsx:209-221 | a scene is chosen exactly when the progress lies in its quarter [b, b+1), the ocean's being closed at 4 |
| PostProcessing.SelectMonotone | src/components/EnhancedPostProcessing.jsx:212-221 | the chosen scene never goes backwards as the progress grows |
| PostProcessing.HardCut | src/components/EnhancedPostProcessing.jsx:212-227 | just below each boundary k the previous scene is chosen and at k the next one, and their profiles differ: no blending |
| PostProcessing.ToScreen | src/components/EnhancedPostProcessing.jsx:271-289 | (c + 1)/2 maps NDC [−1,1] into [0,1], sending −1 to 0 and 1 to 1 |
| PostProcessing.ScreenRoundTrip | src/components/EnhancedPostProcessing.jsx:271-274 | the screen mapping and 2u − 1 are inverse to each other |
| PostProcessing.Bloom.Apply | src/components/EnhancedPostProcessing.jsx:226-230 | the bloom effect holds the profile's three bloom values |
| PostProcessing.DepthOfField.Apply | src/components/EnhancedPostProcessing.jsx:233-237 | the depth-of-field effect holds the profile's focus distance (as its target), focal length and bokeh scale |
| PostProcessing.Vignette.Apply | src/components/EnhancedPostProcessing.jsx:240-243 | the vignette holds the profile's offset and darkness |
| PostProcessing.Chromatic.Apply | src/components/EnhancedPostProcessing.jsx:246-248 | the chromatic aberration holds the profile's offset pair |
| PostProcessing.BrightnessContrast.Apply | src/components/EnhancedPostProcessing.jsx:251-254 | the effect holds the profile's brightness and contrast |
| PostProcessing.HueSaturation.Apply | src/components/EnhancedPostProcessing.jsx:257-260 | the effect holds the profile's hue and saturation |
| PostProcessing.ShaderEffect.Apply | src/components/EnhancedPostProcessing.jsx:263-290 | the shader uniforms hold the time, the intensity, the size or density, and the sun mapped to screen space |
| PostProcessing.EffectRefs.constructor | src/components/EnhancedPostProcessing.jsx:147-154 | the refs hold the given effect objects, null for one not mounted |
| PostProcessing.EffectRefs.ApplyGrading | src/components/EnhancedPostProcessing.jsx:225-260 | every mounted lens and colour effect holds the profile; missing ones are skipped |
| PostProcessing.EffectRefs.ApplyLight | src/components/EnhancedPostProcessing.jsx:262-290 | both mounted shader effects get the clock time, their profile values and the same screen-space sun |
| PostProcessing.EffectRefs.Frame | src/components/EnhancedPostProcessing.jsx:202-291 | without scroll no effect changes; otherwise the scene chosen for 4·offset is returned and every mounted effect holds exactly that scene's profile |
| Atmosphere.Progress | src/components/AtmosphereBackground.jsx:37 | progress = 4·offset lies in [0,4] and is 4 at offset 1 |
| Atmosphere.SunPosition | src/components/AtmosphereBackground.jsx:45-48 | the sun rises from 20 (at progress 0) to at most 140, and x and z stay within 20 of 50 |
| Atmosphere.ColoursFollowScene | src/components/AtmosphereBackground.jsx:51-109 | the sky palette and the fog colour chosen by the "< 1, < 2, < 3" chain always belong to the scene that post-processing's ">= 3, >= 2, >= 1" chain selects |
| Atmosphere.SkyFogDensity | src/components/AtmosphereBackground.jsx:74 | the sky fog density is 0.5 at the start of the story, 1.7 at its end, and stays within [0.5, 1.7] |
| Atmosphere.SkyFogThickens | src/components/AtmosphereBackground.jsx:74 | the sky fog density strictly grows with progress |
| Atmosphere.Scattering | src/components/AtmosphereBackground.jsx:75 | the scattering strength stays within [0.8, 2.4] |
| Atmosphere.SunIntensity | src/components/AtmosphereBackground.jsx:76 | the sun intensity stays within [1, 3] |
| Atmosphere.FogOpacity | src/components/AtmosphereBackground.jsx:88-95 | the ground fog opacity lies in [0, 0.3], is zero exactly on [1,2] and [3,4], and stays below 0.2 from progress 1 on |
| Atmosphere.FogCutAtOcean | src/components/AtmosphereBackground.jsx:92-95 | the cloud-layer fog approaches 0.2 just below progress 3 and drops to 0 at 3 |
| Atmosphere.FogLayerDensity | src/components/AtmosphereBackground.jsx:98 | the fog layer density stays within [1, 3] |
| Atmosphere.Frame | src/components/AtmosphereBackground.jsx:33-117 | without scroll nothing changes; otherwise every sky and fog uniform holds its function of the progress, the fog's sun is a copy of the sky's, and a mounted fog plane is pinned at y = −5 with rotation −π/2 |
| Valley.TreeFrom | src/components/scenes/Valley.jsx:58-66 | a tree built from five unit draws lies in x, z ∈ [−75,75), y ∈ [−10,−5), scale ∈ [0.8,1.3) and rotation ∈ [0,2π) |
| Valley.RockFrom | src/components/scenes/Valley.jsx:75-83 | a rock built from seven unit draws lies in x, z ∈ [−90,90), y ∈ [−8,−5), scale ∈ [0.5,1.3) and each rotation angle in [0,π) |
| Valley.BuildTrees | src/components/scenes/Valley.jsx:55-69 | exactly 30 trees; tree i is made from draws 5i..5i+4 in call order and lies in range |
| Valley.BuildRocks | src/components/scenes/Valley.jsx:72-86 | exactly 20 rocks; rock i is made from draws 7i..7i+6 in call order and lies in range |
| Valley.TerrainOpacity | src/components/scenes/Valley.jsx:93 | the valley opacity lies in [0,1], is 1 at the top of the scroll and is 0 exactly from offset 0.5 on |
| Valley.SnowLine | src/components/scenes/Valley.jsx:97 | the snow line lies in [5,15], from 15 at offset 0 to 5 at offset 1 |
| Valley.SnowLineFalls | src/components/scenes/Valley.jsx:93-97 | scrolling further strictly lowers the snow line and never raises the terrain opacity |
| Valley.Frame | src/components/scenes/Valley.jsx:88-107 | without scroll or a mounted group nothing changes; otherwise the three terrain uniforms take their functions of time and offset, and exactly the children tagged 'tree' get rotation z = 0.05·sin(t + index) |
| Mountains.PeakCount | src/components/scenes/Mountains.jsx:21 | layers 0, 1 and 2 hold 8, 6 and 4 mountains |
| Mountains.LayerOpacity | src/components/scenes/Mountains.jsx:43 | a layer's opacity lies in [0.6, 1], fainter for farther layers |
| Mountains.LayerStart | src/components/scenes/Mountains.jsx:19-38 | the draws of a layer start where the previous layer's end, and all layers fit in the 90 draws the loops consume |
| Mountains.PeakFrom | src/components/scenes/Mountains.jsx:24-37 | mountain i sits at bearing 2π·i/n on its layer's ring (radius 60 + 30·layer), and its height, width, depth, base and snow level lie in the ranges the draws allow |
| Mountains.BuildLayers | src/components/scenes/Mountains.jsx:15-48 | three layers; layer l has distance l, opacity 1 − 0.2·l and PeakCount(l) mountains, each built from its own five draws in call order and in range |
| Mountains.Visibility | src/components/scenes/Mountains.jsx:70-72 | visibility lies in [0,1], is positive exactly on (0.25, 0.75) and is 1 exactly at 0.5 |
| Mountains.VisibilitySymmetric | src/components/scenes/Mountains.jsx:70-72 | the fade-in and fade-out mirror each other about offset 0.5 |
| Mountains.Parallax | src/components/scenes/Mountains.jsx:80-81 | a layer's depth offset lies in [0, 20 + 10·i] and is 0 at the top of the scroll |
| Mountains.ParallaxOrdered | src/components/scenes/Mountains.jsx:79-81 | a layer with a larger index is never behind one with a smaller index, and strictly ahead once scrolling has begun |
| Mountains.Kinds | src/components/scenes/Mountains.jsx:84-85 | the material kinds list has one entry per child, each that child's meshes |
| Mountains.LayerOfChild | src/components/scenes/Mountains.jsx:75-77 | child i is paired with layer i − 3 exactly when it is one of the three layer groups rendered after the rock group and the two particle systems |
| Mountains.AsWrittenNeverFades | src/components/scenes/Mountains.jsx:75-124 | with the index pairing as written, no layer group is ever paired and neither shared material is ever faded, while children 0-2 are paired with layers 0-2 |
| Mountains.CorrectedFadesByLastLayer | src/components/scenes/Mountains.jsx:84-92 | with the corrected pairing, the shared mountain material ends each frame at visibility × the farthest layer's opacity |
| Mountains.FadeMeshes | src/components/scenes/Mountains.jsx:84-92 | the mountain material is set to visibility × opacity when a mountain mesh is present and the snow material to 0.9 of that when a snow mesh is present; otherwise each keeps its value |
| Mountains.MoveLayer | src/components/scenes/Mountains.jsx:76-92 | under a pairing of children with layers, a paired child moves to its layer's parallax depth and fades the shared materials its meshes use; every other child keeps its depth |
| Mountains.MoveLayers | src/components/scenes/Mountains.jsx:75-93 | under a pairing, every paired child ends at its layer's parallax depth, every other child keeps its depth, and each shared material holds the value set by the last paired child with a mesh of it |
| Mountains.FrameAsWritten | src/components/scenes/Mountains.jsx:65-95 | as written, without scroll or a mounted group nothing changes; otherwise children 0-2 (the rock group and the snow and dust particle systems) are pushed to the parallax depths of layers 0-2, every other child, each layer group included, keeps its depth, and the shared materials hold what the as-written pairing leaves |
| Mountains.AsWrittenPushesLeadingChildren | src/components/scenes/Mountains.jsx:80-81 | under the as-written pairing the three leading children move back once scrolling has begun, by 20, 30 and 40 units at the end of the scroll |
| Mountains.Frame | src/components/scenes/Mountains.jsx:65-95 | without scroll or a mounted group nothing changes; otherwise every layer group is at its parallax depth, other children are unmoved, and each shared material holds the value the last layer group using it set (corrected behaviour of Findings row 1) |
| Clouds.PartCount | src/components/scenes/Clouds.jsx:20 | a cloud has four to seven puffs |
| Clouds.PartFrom | src/components/scenes/Clouds.jsx:23-31 | a puff from five unit draws lies within ±4, ±1.5 and ±4 of its cloud, with scale in [1.5,3.5) and opacity in [0.6,0.9) |
| Clouds.NextAt | src/components/scenes/Clouds.jsx:18-45 | a cloud consumes at least one and at most 41 draws: its puff count, five per puff, then five for the cloud itself |
| Clouds.Parts | src/components/scenes/Clouds.jsx:22-32 | the puff list has the requested length and every puff is in range |
| Clouds.CloudAt | src/components/scenes/Clouds.jsx:19-44 | the cloud drawn from a position in the draw sequence carries the given id, four to seven puffs in range, a base in x, z ∈ [−75,75), y ∈ [35,65), speed in [0.1,0.3) and phase in [0,2π) |
| Clouds.CloudStart | src/components/scenes/Clouds.jsx:18-45 | cloud i's draws begin no later than draw 41·i, where cloud i − 1's end |
| Clouds.BuildCloud | src/components/scenes/Clouds.jsx:19-44 | the inner puff loop and the cloud record produce exactly CloudAt for the draws starting at that position |
| Clouds.AppendCloud | src/components/scenes/Clouds.jsx:18-45 | one outer pass appends the next cloud of the draw sequence and advances to where its draws end |
| Clouds.BuildClouds | src/components/scenes/Clouds.jsx:14-48 | exactly twelve clouds; cloud i is the one drawn from where cloud i − 1's draws end, and carries id i |
| Clouds.Visibility | src/components/scenes/Clouds.jsx:77-79 | visibility lies in [0,1], is positive exactly on (0.5, 1) and is 1 exactly at 0.75 |
| Clouds.Density | src/components/scenes/Clouds.jsx:85 | the shader density lies in [0.8, 1.2] |
| Clouds.Wind | src/components/scenes/Clouds.jsx:91 | the wind always blows along +x with no vertical part and a z part in [0.5, 1.5] |
| Clouds.Float | src/components/scenes/Clouds.jsx:102-104 | a floating cloud stays within 5, 2 and 3 units of its base along x, y and z |
| Clouds.RayOpacity | src/components/scenes/Clouds.jsx:117 | a light ray's opacity lies in [0, 0.3 × visibility] |
| Clouds.CloudOfChild | src/components/scenes/Clouds.jsx:95-97 | child i shows cloud i − 2, since the cloud groups follow the two particle systems; the first two children show no cloud |
| Clouds.AsWrittenSkipsLastClouds | src/components/scenes/Clouds.jsx:95-168 | with the index pairing as written, the groups of clouds 10 and 11 find no record and never move or fade, while the corrected pairing gives every group its own record |
| Clouds.PositionAsWritten | src/components/scenes/Clouds.jsx:95-103 | as written, the cloud child at index i floats around the base of record i, if that record exists |
| Clouds.AsWrittenFloatsAnotherCloud | src/components/scenes/Clouds.jsx:95-103 | as written, cloud group j < 10 floats around the base position of cloud j + 2, and cloud groups 10 and 11 find no record |
| Clouds.FadeParts | src/components/scenes/Clouds.jsx:107-111 | every puff material of the group gets the given opacity |
| Clouds.AnimateChild | src/components/scenes/Clouds.jsx:95-118 | a cloud group with a record floats around its base and its puffs take 0.8 × visibility; a light ray takes its pulsing opacity; every other child and material is unchanged (corrected behaviour of Findings row 2) |
| Clouds.Frame | src/components/scenes/Clouds.jsx:72-121 | without scroll or a mounted group nothing changes; otherwise the shader uniforms hold time, visibility, density, the fixed sun, the camera and the wind, and every child is animated as AnimateChild states (corrected behaviour of Findings row 2) |
| Ocean.WaveFrom | src/components/scenes/Ocean.jsx:39-49 | a wave from six unit draws lies in x, z ∈ [−100,100) at height 0, with speed in [0.3,0.8), amplitude in [0.5,1), frequency in [1,3) and phase in [0,2π) |
| Ocean.ReflectionFrom | src/components/scenes/Ocean.jsx:58-66 | a reflection from four unit draws lies in x, z ∈ [−50,50) at height 0.1, with scale in [1,3) and phase in [0,2π) |
| Ocean.BuildWaves | src/components/scenes/Ocean.jsx:36-52 | exactly 20 waves; wave i is made from draws 6i..6i+5 in call order and lies in range |
| Ocean.BuildReflections | src/components/scenes/Ocean.jsx:55-69 | exactly 15 reflections; reflection i is made from draws 4i..4i+3 in call order and lies in range |
| Ocean.Visibility | src/components/scenes/Ocean.jsx:76 | visibility lies in [0,1], is positive exactly after offset 0.75 and is 1 exactly at the end of the scroll |
| Ocean.VisibilityMonotone | src/components/scenes/Ocean.jsx:76 | the ocean never fades out again as the scroll advances |
| Ocean.WaveHeight | src/components/scenes/Ocean.jsx:92-93 | the wave height uniform lies in [1,3] and is 1 at the top of the scroll |
| Ocean.WaveFrequency | src/components/scenes/Ocean.jsx:94 | the wave frequency uniform lies in [0.5,0.8] and is 0.5 at the top of the scroll |
| Ocean.ReflectionOpacity | src/components/scenes/Ocean.jsx:103 | a reflection's opacity lies in [0, 0.6 × visibility] |
| Ocean.ReflectionScale | src/components/scenes/Ocean.jsx:104 | a reflection's scale stays within 20 percent of its record's scale |
| Ocean.ReflectionOfChild | src/components/scenes/Ocean.jsx:98-100 | child i shows reflection i − 3, since the rain and dust systems and the ocean surface precede the reflections |
| Ocean.ReflectionOfChildAsWritten | src/components/scenes/Ocean.jsx:99-101 | as written, every child from index 1 on is paired with a reflection record, on the reading that only the ocean surface precedes the reflections |
| Ocean.AsWrittenShiftsReflections | src/components/scenes/Ocean.jsx:100-169 | with index − 1 as written, reflection mesh j reads record j + 2 and the last two meshes read no record, while the corrected pairing gives every mesh its own record |
| Ocean.ReflectionAsWritten | src/components/scenes/Ocean.jsx:99-105 | as written, the reflection child at index i takes the pulsing scale and opacity of record i − 1, if that record exists |
| Ocean.AsWrittenPulsesAnotherRecord | src/components/scenes/Ocean.jsx:99-105 | as written, reflection mesh j < 13 takes the scale and opacity pulse of record j + 2, and meshes 13 and 14 take none |
| Ocean.ApplySurface | src/components/scenes/Ocean.jsx:79-95 | a shader material gets transparency 0.8 × visibility, the time, the camera, the fixed sun and both wave uniforms; a plain material only gets opacity 0.8 × visibility |
| Ocean.Frame | src/components/scenes/Ocean.jsx:71-113 | without scroll or a mounted group nothing changes; otherwise the surface is written as ApplySurface states, reflections with a record pulse in opacity and scale, foam takes 0.4 × visibility, and every other child is unchanged (corrected behaviour of Findings row 3) |
| Sun.SunPosition | src/components/elements/Sun.jsx:35-42 | the sun stays in the plane z = −50 with x in [−80,80] and y in [−50,110] |
| Sun.SunOnArc | src/components/elements/Sun.jsx:35-42 | the sun always lies on the circle of radius 80 around (0, 30) in its plane |
| Sun.Opacity | src/components/elements/Sun.jsx:45-46 | the sun opacity lies in [0.8, 1.2], exceeds 1 exactly past the middle of the scroll, and is 1.2 at the end, since nothing clamps it |
| Sun.GlowScale | src/components/elements/Sun.jsx:50 | the glow scale stays within [0.9, 1.1] |
| Sun.GlowOpacity | src/components/elements/Sun.jsx:51 | the glow opacity stays within [0.1, 0.3] |
| Sun.Frame | src/components/elements/Sun.jsx:30-54 | without scroll or a mounted sun nothing changes; otherwise the sun is on its arc with its opacity, and a mounted glow takes its pulsing scale and opacity while an absent glow leaves its material alone |
| Birds.BirdFrom | src/components/elements/Birds.jsx:14-24 | a bird from six unit draws carries the given id and lies in x, z ∈ [−50,50), y ∈ [10,30), with speed in [0.3,0.8) and both phases in [0,2π) |
| Birds.BuildBirds | src/components/elements/Birds.jsx:11-27 | exactly 15 birds; bird i has id i and is made from draws 6i..6i+5 in call order |
| Birds.Opacity | src/components/elements/Birds.jsx:42 | the flock's opacity lies in [0, 0.8], is 0.8 at the top of the scroll and is 0 exactly from two thirds of the scroll on |
| Birds.OpacityFalls | src/components/elements/Birds.jsx:42 | scrolling further never makes the flock more visible |
| Birds.Flight | src/components/elements/Birds.jsx:51-53 | a bird stays within 20, 3 and 15 units of its base along x, y and z |
| Birds.WingFlap | src/components/elements/Birds.jsx:56 | the wing angle stays within ±0.3 rad |
| Birds.Animate | src/components/elements/Birds.jsx:50-61 | the group flies around its bird's base, heads by half the sine sample that drives its sideways swing (so heading × 40 is the x excursion), and its present wings take mirrored flap angles |
| Birds.Frame | src/components/elements/Birds.jsx:37-64 | without scroll or a mounted group nothing changes; otherwise the shared material takes the flock opacity and every bird group i is animated from bird i, its heading tied to its sideways swing by one shared sine sample |
| Particles.VelocityFrom | src/components/particles/ParticleSystem.jsx:30-64 | each kind's velocity lies in its own box: rain falls at 10–15, snow at 2–4, leaves at 1–3, dust and the default kind drift slowly upward |
| Particles.SizeFrom | src/components/particles/ParticleSystem.jsx:35-63 | each kind's base size lies in its own range |
| Particles.SpawnPosition | src/components/particles/ParticleSystem.jsx:25-27 | a spawn point lies in [−area/2, area/2) × [0, area/2) × [−area/2, area/2) |
| Particles.Spawn | src/components/particles/ParticleSystem.jsx:21-68 | a particle from its nine draws lies in the spawn box with its kind's velocity and size, a lifetime in [0,10) and a phase in [0,2π) |
| Particles.DriftStrength | src/components/particles/ParticleSystem.jsx:162-174 | the sideways push per unit of time lies in [0, 0.8] and is zero exactly for rain and the default kind |
| Particles.Origin | src/components/particles/ParticleSystem.jsx:146-154 | a particle whose lifetime runs out restarts at the top of the box, otherwise it moves from where it was |
| Particles.Step | src/components/particles/ParticleSystem.jsx:142-179 | after a step the lifetime is positive (the old one less delta, or a fresh one in [5,15) on respawn), and the height is the moved height or the top of the box when it passed the floor at −area/4 |
| Particles.DriftBounded | src/components/particles/ParticleSystem.jsx:157-174 | drift moves x and z by at most the kind's strength × delta beyond the velocity step, and not at all for rain and the default kind |
| Particles.Pushed | src/components/particles/ParticleSystem.jsx:165-173 | a coordinate pushed by a unit sample times b stays within b of where it was |
| Particles.SizeFactor | src/components/particles/ParticleSystem.jsx:186 | the size factor lies in [0.3, 1] and is 1 on the vertical axis |
| Particles.SizeAt | src/components/particles/ParticleSystem.jsx:182-192 | the material size a particle sets lies between 0.3 and 1 times its base size |
| Particles.Visibility | src/components/particles/ParticleSystem.jsx:200-226 | each kind is visible exactly in its own scenes (dust below progress 2, rain on (1,2), snow on [1.5,3) at full strength, leaves below 1, the default kind always) |
| Particles.BaseOpacity | src/components/particles/ParticleSystem.jsx:77-126 | every kind's material starts with an opacity strictly between 0 and 1 |
| Particles.Opacity | src/components/particles/ParticleSystem.jsx:228 | the intended opacity is non-negative, positive whenever the kind is visible, and never above the visibility |
| Particles.AsWrittenCompounds | src/components/particles/ParticleSystem.jsx:228 | as written, n frames at the same visibility leave visibility^n × the base opacity |
| Particles.PowerPositive | src/components/particles/ParticleSystem.jsx:228 | a positive visibility raised to any power stays positive, so the compounded opacity never reaches the 0.5 fallback |
| Particles.DustFadesTwice | src/components/particles/ParticleSystem.jsx:206-228 | dust at progress 1 has visibility 0.7; two frames as written leave 0.147 where 0.21 is intended |
| Particles.Put | src/components/particles/ParticleSystem.jsx:150-159 | writing a three-slot vector touches only that particle's slots |
| Particles.ParticleSystem.constructor | src/components/particles/ParticleSystem.jsx:12-129 | fresh buffers of the right sizes; particle i is spawned from draws 9i..9i+8 in call order, and the material starts at the kind's base opacity |
| Particles.ParticleSystem.Store | src/components/particles/ParticleSystem.jsx:22-67 | writes one particle into the five buffers and leaves every other particle as it was |
| Particles.ParticleSystem.Advance | src/components/particles/ParticleSystem.jsx:143-179 | particle i's position and lifetime become the Step of its old values, and no other particle moves |
| Particles.ParticleSystem.Update | src/components/particles/ParticleSystem.jsx:142-193 | every particle advances by Step; velocities, sizes, phases and opacity are untouched, and the material size is the one the last particle set |
| Particles.ParticleSystem.Frame | src/components/particles/ParticleSystem.jsx:131-229 | without scroll nothing changes; otherwise the particles advance as Update states and the material opacity is the kind's visibility × its base opacity (corrected behaviour of Findings row 4) |
| Trees.TypeOf | src/components/procedural/ProceduralTrees.jsx:26-27 | a tree is a pine exactly when the noise exceeds 0.3, an oak exactly on (−0.3, 0.3] and a birch exactly at or below −0.3 |
| Trees.BaseHeight | src/components/procedural/ProceduralTrees.jsx:34 | pines, oaks and birches have base heights 8, 6 and 4 |
| Trees.CrownRatio | src/components/procedural/ProceduralTrees.jsx:37 | the crown radius is 0.15 of the height exactly for pines and 0.25 otherwise |
| Trees.DistanceFactor | src/components/procedural/ProceduralTrees.jsx:30-31 | the distance factor lies in [0.3, 1] and falls linearly with the distance until it is clamped at 0.3 |
| Trees.NoiseFactor | src/components/procedural/ProceduralTrees.jsx:32 | the noise size factor lies in [0.1, 1.3] |
| Trees.InstanceFrom | src/components/procedural/ProceduralTrees.jsx:19-49 | a tree carries its id, its type from the first noise sample, its position from its draws and the terrain, a trunk 0.05 and a crown CrownRatio of its height, and rotation, sway phase and amplitude in range |
| Trees.HeightBounded | src/components/procedural/ProceduralTrees.jsx:29-37 | every tree's height lies in (0, 10.4] and its trunk is thinner than its crown |
| Trees.Planted | src/components/procedural/ProceduralTrees.jsx:17-50 | tree i uses draws 5i..5i+4 and the noise, terrain and distance at its own position, and carries id i |
| Trees.BuildInstances | src/components/procedural/ProceduralTrees.jsx:14-53 | exactly count trees, tree i being Planted(i) |
| Trees.PineTriangle | src/components/procedural/ProceduralTrees.jsx:119-126 | each pine triangle joins the layer centre to two neighbouring ring vertices, three distinct indices |
| Trees.SphereQuad | src/components/procedural/ProceduralTrees.jsx:156-164 | each sphere quad is two triangles of distinct indices reaching at most one ring and one segment further |
| Trees.AppendTriangle | src/components/procedural/ProceduralTrees.jsx:121-163 | appending a proper triangle over known vertices keeps an index buffer a valid triangulation |
| Trees.PineIndicesValid | src/components/procedural/ProceduralTrees.jsx:97-128 | part-way through, the pine buffer holds three indices per segment, and every triangle is proper and names only vertices already pushed |
| Trees.PineCrownValid | src/components/procedural/ProceduralTrees.jsx:97-128 | the pine crown is 32 proper triangles over its 40 vertices |
| Trees.SphereIndicesValid | src/components/procedural/ProceduralTrees.jsx:129-166 | part-way through, the sphere buffer holds six indices per quad, and every triangle is proper and names only vertices up to the next ring |
| Trees.SphereCrownValid | src/components/procedural/ProceduralTrees.jsx:129-166 | the oak and birch crown is 192 proper triangles over its 117 vertices |
| Trees.RingPoint | src/components/procedural/ProceduralTrees.jsx:112-116 | a ring point lies at the ring's height |
| Trees.SpherePoint | src/components/procedural/ProceduralTrees.jsx:143-153 | the noise pushes a crown vertex in or out but never changes its height |
| Trees.PineLayer | src/components/procedural/ProceduralTrees.jsx:101-127 | one layer appends its centre at the layer height and a ring of nine points on the circle of the layer radius 0.3 of the crown height lower, keeps every earlier vertex, and extends the index buffer by that layer's eight triangles |
| Trees.PineCrown | src/components/procedural/ProceduralTrees.jsx:97-128 | the pine generator yields 40 vertices: the centre of layer l at height × (1 − l/4), and ring vertex i of layer l at x = cos × r, z = sin × r for the layer radius r = radius × (1 − l/5), 0.3 × height below the centre; and exactly the pine index buffer |
| Trees.SphereRing | src/components/procedural/ProceduralTrees.jsx:134-165 | one ring appends 13 vertices at its height, vertex s at its cosine and sine on the ring pushed by the noise, keeps every earlier vertex, and adds the quads to the next ring unless it is the last |
| Trees.SphereCrown | src/components/procedural/ProceduralTrees.jsx:129-166 | the sphere generator yields 117 vertices, each at the height cos(phi) × radius of its own ring, with vertex s of ring r at x = cos(theta) × ring radius × irregularity and z = sin(theta) × ring radius × irregularity, where the ring radius is sin(phi) × radius and the irregularity 1 + 0.3 × the noise at that vertex; and exactly the sphere index buffer |
| Trees.TreeCrown | src/components/procedural/ProceduralTrees.jsx:92-174 | either crown is a buffer of proper triangles over its own vertices: 32 over 40 for a pine, 192 over 117 otherwise |
| Trees.Visibility | src/components/procedural/ProceduralTrees.jsx:183 | tree visibility lies in [0,1], is 1 exactly at the top of the scroll and 0 exactly from half way |
| Trees.VisibilityFalls | src/components/procedural/ProceduralTrees.jsx:183 | scrolling further never brings the trees back |
| Trees.Sway | src/components/procedural/ProceduralTrees.jsx:190-191 | a tree tilts about x by at most its sway amplitude and about z by at most half of it |
| Trees.TreeGroup.constructor | src/components/procedural/ProceduralTrees.jsx:221-240 | a tree group starts upright at scale 1 with its part materials |
| Trees.FadeParts | src/components/procedural/ProceduralTrees.jsx:201-206 | every material of the tree's parts takes the visibility as opacity and becomes transparent |
| Trees.Frame | src/components/procedural/ProceduralTrees.jsx:176-208 | without scroll or a mounted group nothing changes; otherwise every group with an instance sways and is scaled to the visibility, groups without one are skipped, and exactly the materials of the swayed groups are faded |
| Rocks.TypeOf | src/components/procedural/ProceduralRocks.jsx:29-33 | a rock is a cliff exactly above height 15, a stone exactly below 8, and in between a spire exactly when the type noise exceeds 0.3, else a boulder |
| Rocks.SnowCoverage | src/components/procedural/ProceduralRocks.jsx:50 | snow coverage is non-negative, positive exactly above height 10, and (h − 10)/15 there |
| Rocks.SnowCoverageGrows | src/components/procedural/ProceduralRocks.jsx:50 | a taller rock never carries less snow |
| Rocks.Stretch | src/components/procedural/ProceduralRocks.jsx:36-37 | a length drawn as h·(lo + r·span) lies in [lo·h, top·h], below the top when h > 0 |
| Rocks.HeightBounded | src/components/procedural/ProceduralRocks.jsx:23-26 | with a non-negative height range, a rock's height lies between 0 and 1.5 × the top of the range |
| Rocks.NoiseFactor | src/components/procedural/ProceduralRocks.jsx:26 | the height noise scales a base height by at most 1.5 and never makes it negative |
| Rocks.RockFrom | src/components/procedural/ProceduralRocks.jsx:19-51 | a rock carries its id, its noise- and distance-scaled height, the type and snow coverage of that height, stands on the ground at half its height, and has width in [0.6h, 1.4h], depth in [0.5h, 1.2h] and irregularity and weathering in range |
| Rocks.Placed | src/components/procedural/ProceduralRocks.jsx:17-52 | rock i uses draws 10i..10i+9 and the noise and distance at its own position, and carries id i |
| Rocks.BuildRocks | src/components/procedural/ProceduralRocks.jsx:14-55 | exactly count rocks, rock i being Placed(i) |
| Rocks.DebrisCount | src/components/procedural/ProceduralRocks.jsx:136-139 | a rock sheds no debris exactly when it is below height 10, and otherwise floor(0.3 h) pieces |
| Rocks.DebrisDistance | src/components/procedural/ProceduralRocks.jsx:143 | a piece lies between 0.8 and 2 widths from its rock |
| Rocks.Reach | src/components/procedural/ProceduralRocks.jsx:144-145 | a cosine or sine times a reach is no further than the reach |
| Rocks.DebrisFrom | src/components/procedural/ProceduralRocks.jsx:142-152 | a piece has size in [0.5, 2), rests on the ground at half its size, and lies within its distance along x and z |
| Rocks.BuildDebris | src/components/procedural/ProceduralRocks.jsx:135-156 | exactly DebrisCount pieces, piece i built from its own six draws and angle samples |
| Rocks.DebrisNearRock | src/components/procedural/ProceduralRocks.jsx:141-153 | all debris of a rock lies strictly within two widths of it along x and z |
| Rocks.Visibility | src/components/procedural/ProceduralRocks.jsx:162-172 | rock visibility lies in [0, 2), is positive exactly on (1, 3), and is at least 1 exactly on [1.5, 2] since the fade-in is not clamped |
| Rocks.SnowIntensity | src/components/procedural/ProceduralRocks.jsx:182 | the snow intensity is non-negative and zero up to progress 1.5 or on a rock without coverage |
| Rocks.SnowIntensityGrows | src/components/procedural/ProceduralRocks.jsx:182 | snow only thickens as the page scrolls on |
| Rocks.ShadeFor | src/components/procedural/ProceduralRocks.jsx:187-193 | a mesh gets the snow material exactly when it is the main rock and the snow intensity exceeds 0.3, else the weathered one exactly when the weathering exceeds 0.7, else the base one |
| Rocks.LowRocksStayBare | src/components/procedural/ProceduralRocks.jsx:182-187 | a rock of height 13.6 or less never turns snowy, whatever the scroll |
| Rocks.Mesh.constructor | src/components/procedural/ProceduralRocks.jsx:215-263 | a mesh starts with its own material or none |
| Rocks.RockGroup.constructor | src/components/procedural/ProceduralRocks.jsx:209-213 | a rock group starts at scale 1 with its meshes, main rock first |
| Rocks.PaintMeshes | src/components/procedural/ProceduralRocks.jsx:184-198 | every mesh holding a material is given its shade's shared material, meshes without one are left alone, and exactly the shared materials given out take the visibility as opacity and transparency below 1 |
| Rocks.PaintGroup | src/components/procedural/ProceduralRocks.jsx:175-198 | group i takes the visibility as scale and its meshes are painted; no other group or mesh changes |
| Rocks.PaintGroups | src/components/procedural/ProceduralRocks.jsx:174-199 | every group with a rock is scaled and painted, groups without one are skipped, and exactly the shared materials written by some group take the visibility |
| Rocks.Frame | src/components/procedural/ProceduralRocks.jsx:158-200 | without scroll or a mounted group nothing changes; otherwise the groups are scaled and painted at progress 4 × offset as PaintGroups states |
| Vegetation.ElevationNeverDecides | src/components/procedural/ProceduralVegetation.jsx:35-161 | since the elevation is ten times a noise sample in [−1,1], the elevation tests never reject grass, flowers or bushes, and every bush gets the low-elevation green |
| Vegetation.Choose | src/components/procedural/ProceduralVegetation.jsx:64-131 | indexing a type list by floor(r × length) always yields one of its types |
| Vegetation.FlowerColor | src/components/procedural/ProceduralVegetation.jsx:148-156 | poppy, wildflower and lavender get their listed colours, and anything else white |
| Vegetation.MushroomColor | src/components/procedural/ProceduralVegetation.jsx:163-170 | toadstool and cluster get their listed colours, and anything else saddle brown |
| Vegetation.SeasonalColor | src/components/procedural/ProceduralVegetation.jsx:158-161 | a bush is brown exactly above elevation 10 and green otherwise |
| Vegetation.PetalCount | src/components/procedural/ProceduralVegetation.jsx:73 | a daisy has exactly 8 petals, a poppy exactly 5, anything else exactly 6 |
| Vegetation.Grow | src/components/procedural/ProceduralVegetation.jsx:39-140 | a kept instance has the loop's kind, the attempt's id and its candidate position on the ground |
| Vegetation.AttemptInRange | src/components/procedural/ProceduralVegetation.jsx:30-142 | an attempt takes two to five draws, and a kept instance lies in the square of side area around the centre and obeys its kind's ranges (types from their lists, colours and petals by type, glow only on toadstools) |
| Vegetation.ScatterShape | src/components/procedural/ProceduralVegetation.jsx:30-142 | after n attempts there are at most n instances, of the loop's kind, in range, with strictly increasing ids below n, and two to five draws were taken per attempt |
| Vegetation.ScatterExtend | src/components/procedural/ProceduralVegetation.jsx:30-52 | the shape facts survive one more attempt |
| Vegetation.LastAttempt | src/components/procedural/ProceduralVegetation.jsx:38-129 | the last attempt appends an instance with its own id exactly when its biome test passed, and otherwise leaves the list unchanged |
| Vegetation.KeptStep | src/components/procedural/ProceduralVegetation.jsx:30-142 | one more attempt keeps every earlier answer to "is id i present" and answers its own id by its biome test |
| Vegetation.IdsExtend | src/components/procedural/ProceduralVegetation.jsx:42-134 | appending an instance with a fresh largest id keeps every earlier id's presence |
| Vegetation.ScatterKeeps | src/components/procedural/ProceduralVegetation.jsx:30-142 | an instance with id i exists exactly when attempt i passed its biome test |
| Vegetation.Generate | src/components/procedural/ProceduralVegetation.jsx:30-52 | one scatter loop yields exactly the Scatter of its attempts and the next draw position |
| Vegetation.BuildInstances | src/components/procedural/ProceduralVegetation.jsx:20-145 | the table holds grass, flowers, bushes, 40 fern attempts and 25 mushroom attempts, each loop continuing the random stream where the previous one stopped |
| Vegetation.Visibility | src/components/procedural/ProceduralVegetation.jsx:362-369 | vegetation visibility lies in [0,1], is positive exactly on (0,2), is 1 exactly at progress 1 and stays above 0.7 while fading out |
| Vegetation.PulseAsWritten | src/components/procedural/ProceduralVegetation.jsx:396-400 | as written, a glowing part's new intensity lies in [0.6, 1] × its current intensity and equals it only at the wave crest; a dark part is left alone |
| Vegetation.MulUnitStep | src/components/procedural/ProceduralVegetation.jsx:399 | scaling by 0.8 + 0.2 s keeps a positive value within [0.6, 1] of itself, equal only at s = 1 |
| Vegetation.GlowNeverRecovers | src/components/procedural/ProceduralVegetation.jsx:396-400 | as written, the glow never rises over frames and, once a frame is off the crest, stays below its starting value for good |
| Vegetation.GlowCompounds | src/components/procedural/ProceduralVegetation.jsx:396-400 | two frames at wave sample 0 take a toadstool at 0.3 to 0.192, where a pulse around its base gives 0.24 |
| Vegetation.Pulse | src/components/procedural/ProceduralVegetation.jsx:397-400 | the intended pulse stays within [0.6, 1] × the part's base intensity and reaches the base only at the crest |
| Vegetation.Glow.constructor | src/components/procedural/ProceduralVegetation.jsx:314-336 | a part material starts at its base emissive intensity |
| Vegetation.Item.constructor | src/components/procedural/ProceduralVegetation.jsx:310-352 | an item holds its part materials |
| Vegetation.VegGroup.constructor | src/components/procedural/ProceduralVegetation.jsx:411-491 | a vegetation group starts at scale 1 with its items |
| Vegetation.PulseParts | src/components/procedural/ProceduralVegetation.jsx:395-402 | every glowing material of one item pulses around its base, dark ones are left alone (corrected behaviour of Findings row 5) |
| Vegetation.PulseItems | src/components/procedural/ProceduralVegetation.jsx:378-404 | every mushroom item pulses its parts by its own wave sample (corrected behaviour of Findings row 5) |
| Vegetation.Frame | src/components/procedural/ProceduralVegetation.jsx:354-406 | without scroll or a mounted group nothing changes; otherwise every group is scaled to the visibility at progress 4 × offset and the mushroom group's materials pulse (corrected behaviour of Findings row 5) |
| Geometry.HeightBounds | src/components/geometry/AdvancedGeometry.jsx:66-78 | with noise in [−1,1] and a non-negative height scale H, the five noise layers put every vertex between −1.45·H and 1.95·H |
| Geometry.ElevationAsWritten | src/components/geometry/AdvancedGeometry.jsx:103 | the elevation attribute as written, (h + H) / 2H, lies in [0,1] whenever the height h lies in [−H, H] |
| Geometry.ElevationOvershoots | src/components/geometry/AdvancedGeometry.jsx:66-103 | the heights reach past the range the normalisation assumes: with every noise sample 0.8 and H = 10 the vertex stands at 15.6 and its elevation is 1.28, outside [0,1] |
| Geometry.Elevation | src/components/geometry/AdvancedGeometry.jsx:103 | the corrected elevation always lies in [0,1], agrees with the written formula on [−H, H], and is 1 above H and 0 below −H |
| Geometry.TileUvs | src/components/geometry/AdvancedGeometry.jsx:52-59 | every UV coordinate of the plane ends four times its old value |
| Geometry.LiftHeights | src/components/geometry/AdvancedGeometry.jsx:62-81 | every vertex keeps its x and z and its y becomes the height field at that (x, z) |
| Geometry.LiftVertex | src/components/geometry/AdvancedGeometry.jsx:63-80 | one vertex's y becomes the height at its x and z and no other float of the buffer changes |
| Geometry.Elevations | src/components/geometry/AdvancedGeometry.jsx:88-104 | a fresh array with one slot per vertex, holding that vertex's elevation (corrected behaviour of Findings row 6) |
| Geometry.WriteElevation | src/components/geometry/AdvancedGeometry.jsx:91-103 | one slot takes the elevation of its vertex's height and every other slot is unchanged (corrected behaviour of Findings row 6) |
| Geometry.ShapeTerrain | src/components/geometry/AdvancedGeometry.jsx:45-110 | after the standard terrain pass the UVs are tiled four times, each vertex stands at the layered height of its own x and z, and the elevation attribute is the elevation of each new height (corrected behaviour of Findings row 6) |
| Geometry.Curvature | src/components/geometry/AdvancedGeometry.jsx:178-185 | the curvature is always 0, because the centroid's y is the very mean it is compared with |
| Geometry.WantsSplit | src/components/geometry/AdvancedGeometry.jsx:136-140 | a triangle asks to be split exactly when its area exceeds 2; the curvature test never decides |
| Geometry.Midpoint | src/components/geometry/AdvancedGeometry.jsx:189-196 | an edge midpoint lies halfway between the ends in x and z |
| Geometry.MidpointLift | src/components/geometry/AdvancedGeometry.jsx:194-196 | with noise in [−1,1] a midpoint's height is off the edge's mean height by at most a tenth of the height scale |
| Geometry.Split | src/components/geometry/AdvancedGeometry.jsx:187-217 | a subdivision writes twelve vertices: the three corners each once, at the heads of three corner triangles, and each edge midpoint three times, in the order (v1, m1, m3), (m1, v2, m2), (m3, m2, v3), (m1, m2, m3) |
| Geometry.Emit | src/components/geometry/AdvancedGeometry.jsx:142-160 | a triangle contributes twelve vertices when split and three when copied |
| Geometry.EmittedBounds | src/components/geometry/AdvancedGeometry.jsx:126-161 | t input triangles write between 3t and 12t vertices, and the cap of 50000 position floats keeps the total under 50036 + 9t floats however many triangles are large |
| Geometry.AfterCap | src/components/geometry/AdvancedGeometry.jsx:142-150 | once 50000 position floats are written, every later triangle is copied unsplit with its three corners |
| Geometry.UvInUnit | src/components/geometry/AdvancedGeometry.jsx:155-159 | a vertex inside the terrain square gets a UV inside the unit square |
| Geometry.Tessellate | src/components/geometry/AdvancedGeometry.jsx:113-169 | the output positions and UVs are exactly the vertices of every input triangle, split or copied in order, with their UVs; there are three position floats and two UV floats per index, and the indices count 0, 1, 2, … |
| Geometry.TriangleStep | src/components/geometry/AdvancedGeometry.jsx:126-160 | processing triangle t extends output for the first t triangles to output for the first t + 1 |
| Geometry.AddTriangle | src/components/geometry/AdvancedGeometry.jsx:142-243 | appending one triangle's block keeps positions, UVs and indices in step with the emitted vertices |
| Geometry.ChooseDetail | src/components/geometry/AdvancedGeometry.jsx:247-257 | without LOD the high-detail geometry is chosen; with LOD it is high exactly under distance 30 and low exactly from distance 60 on |
| Geometry.LodIsMedium | src/components/geometry/AdvancedGeometry.jsx:252-256 | with the placeholder distance 50, LOD always shows the medium geometry and never the tessellated one |
| Geometry.SnowLine | src/components/geometry/AdvancedGeometry.jsx:348 | the snow line never exceeds 0.8, is 0.8 exactly up to progress 1, and stays at least 0.2 up to progress 4 |
| Geometry.Visibility | src/components/geometry/AdvancedGeometry.jsx:353-362 | the terrain scale lies in [0,1], is positive exactly for progress strictly between 0 and 3, and is 1 exactly on [1,2] |
| Geometry.Frame | src/components/geometry/AdvancedGeometry.jsx:336-365 | without scroll or a mounted mesh nothing changes; otherwise the time uniform is the clock, the snow line that of progress 4 × offset, and the mesh scale its visibility |
| Animations.Fade | src/components/animation/AdvancedAnimations.jsx:226-231 | the fade keeps scale 1 and no offset; on [0,1] its opacity lies in [0,1], is 1 exactly at the ends, and is 0 exactly at t = 0.5 |
| Animations.Zoom | src/components/animation/AdvancedAnimations.jsx:233-239 | the zoom keeps opacity 1; its scale peaks at 1.5 exactly at t = 0.5, is at least 1 on [0,1] and is 1 at both ends |
| Animations.Slide | src/components/animation/AdvancedAnimations.jsx:241-248 | the slide keeps opacity and scale 1 and sets an x offset within [−50,50] on [0,1] that is 0 exactly at t = 0.5 |
| Animations.SceneTransition | src/components/animation/AdvancedAnimations.jsx:224-260 | a scene transition keeps scale 1, has an opacity in [0,1] for progress in [0,1], and is invisible exactly half way |
| Animations.TransitionIgnoresScenes | src/components/animation/AdvancedAnimations.jsx:224-259 | the scenes passed make no difference: every transition is the fade pattern |
| Animations.CinematicOpacity | src/components/animation/AdvancedAnimations.jsx:345-349 | with the progress into the scene taken as progress mod 1, a child is fully opaque exactly at a whole progress and invisible exactly half way through a scene |
| Animations.SceneMotion | src/components/animation/AdvancedAnimations.jsx:365-407 | vegetation sways exactly in scene 0, rocks breathe exactly in scene 1, clouds float exactly in scene 2 and water waves exactly in scene 3; everything else is still |
| Animations.EndOfScrollIsStill | src/components/animation/AdvancedAnimations.jsx:365-407 | at the end of the scroll (progress 4) no scene case applies, so nothing gets a scene motion |
| Animations.WindYIgnored | src/components/animation/AdvancedAnimations.jsx:176-183 | the vertical wind component never affects a particle |
| Animations.DampingSlows | src/components/animation/AdvancedAnimations.jsx:183-187 | with no gravity or wind, damping in [0,1] leaves each velocity component between 0 and its old value |
| Animations.ParticleStep | src/components/animation/AdvancedAnimations.jsx:178-196 | a particle step leaves a velocity and a zero acceleration, keeps whether the particle has a position, and touches neither scale nor material |
| Animations.ParticleAtRest | src/components/animation/AdvancedAnimations.jsx:179-192 | a particle at rest, with no forces and no time step, stays where it is with zero velocity |
| Animations.WaveLift | src/components/animation/AdvancedAnimations.jsx:215-216 | a wave moves an object up or down by at most a hundredth of the magnitude of its amplitude, whatever the amplitude's sign |
| Animations.Lift | src/components/animation/AdvancedAnimations.jsx:213-216 | a lift changes only the height of a position that exists, by exactly the lift, and nothing else |
| Animations.SpringAtRest | src/components/animation/AdvancedAnimations.jsx:200-207 | an object at rest on its spring target stays there at rest |
| Animations.SpringNoOvershoot | src/components/animation/AdvancedAnimations.jsx:200-207 | from rest, with spring constant and damping in [0,1], one step moves each coordinate toward the target without passing it |
| Animations.UpdateParticles | src/components/animation/AdvancedAnimations.jsx:175-197 | every particle of the list (all distinct) ends in the particle step of its own old state |
| Animations.UpdateParticle | src/components/animation/AdvancedAnimations.jsx:178-196 | one particle ends in the particle step of its old state |
| Animations.SpringMotion | src/components/animation/AdvancedAnimations.jsx:200-207 | the object's position and velocity become those of the spring step from its old position and velocity (zero when missing); its acceleration, scale and material stay |
| Animations.WaveMotion | src/components/animation/AdvancedAnimations.jsx:210-218 | an object with a position rises by the wave lift and nothing else of it changes; a number passed as the object is left alone |
| Animations.OceanWaveAsWritten | src/components/animation/AdvancedAnimations.jsx:398-405 | with time and child swapped in the call, the ocean wave is applied to a number and the child never moves |
| Animations.OceanWave | src/components/animation/AdvancedAnimations.jsx:398-405 | with the child passed as the object, water rises or falls by at most 0.005 per frame and nothing else of it changes |
| Animations.CinematicStep | src/components/animation/AdvancedAnimations.jsx:343-356 | the cinematic case sets scale 1 and leaves motion alone; a child with a material gets an opacity in [0,1] and is transparent exactly when not opaque, and one without keeps its opacity |
| Animations.CinematicFrame | src/components/animation/AdvancedAnimations.jsx:317-407 | in cinematic mode a child with a material ends the frame at scale 1, opaque exactly at a whole progress and transparent exactly when not opaque |
| Animations.CinematicFrameKeepsPlace | src/components/animation/AdvancedAnimations.jsx:343-407 | in cinematic mode a child keeps its x and z and its height moves by at most the ocean wave's 0.005 |
| Animations.AnimateChild | src/components/animation/AdvancedAnimations.jsx:317-408 | a child ends the frame in the state of its animation-type step followed by its scene step (corrected behaviour of Findings row 7) |
| Animations.Frame | src/components/animation/AdvancedAnimations.jsx:309-409 | without scroll or a mounted group nothing changes; otherwise every child (all distinct) ends in the animated state of its own old state at progress 4 × offset (corrected behaviour of Findings row 7) |

## Left out

- GLSL shader text (src/shaders/AtmosphereShader.js, src/shaders/TerrainShader.js and the shader strings inside the components) runs on the GPU and has no logic on the CPU side. Only the uniform values written from JavaScript are modelled. src/shaders/CloudShader.js is not part of this model.
- The THREE and React machinery is not modelled: geometry constructors, `computeVertexNormals`, material cloning, `Vector3.project`, `CatmullRomCurve3`, refs and the JSX trees. The scene objects are classes holding only the fields the callbacks write.
- 32-bit float precision in `Float32Array` buffers and GPU attributes is not modelled. All arithmetic is exact over the reals.
- `Math.sin`, `Math.cos`, `Math.sqrt`, `Math.exp` and simplex noise are not computed. Each sample is a parameter in its known range: [−1,1] for sine, cosine and noise, and a root function for `sqrt`. Only the bounds those ranges give are proved, not the exact curves.
- `Math.random` is not modelled as a generator. Each table builder takes a sequence of draws in [0,1), and the mount-time JSX draws are not modelled: mountain rock details and mist (src/components/scenes/Mountains.jsx:156-203), cloud small puffs and god rays (src/components/scenes/Clouds.jsx:187-230), ocean foam, islands and seagulls (src/components/scenes/Ocean.jsx:171-239), the hidden valley grass patches (src/components/scenes/Valley.jsx:200-220) and ice spikes on rocks (src/components/procedural/ProceduralRocks.jsx:244-267).
- The valley terrain geometry (src/components/scenes/Valley.jsx:18-38) is a sine-and-cosine height field on a plane geometry, so the model keeps only the uniforms and the tree sway written each frame.
- The light-ray table of the cloud scene (src/components/scenes/Clouds.jsx:56-70) only positions meshes in JSX. The model keeps the per-frame ray opacity written to those meshes.
- Rock, grass, flower, bush, fern and mushroom geometry builders (src/components/procedural/ProceduralRocks.jsx:58-115 and src/components/procedural/ProceduralVegetation.jsx:173-352) displace vertices with noise, random draws and trigonometry. Tree crown index buffers are modelled; these vertex positions are not.
- The wind sway of grass and flowers (rotation.x and rotation.z) and the gentle rotation.y sway of bushes and ferns (src/components/procedural/ProceduralVegetation.jsx:379-391) only write rotations from sines and cosines. The model keeps the group scaling and the mushroom glow.
- The organic motions (breathing, swaying, floating, src/components/animation/AdvancedAnimations.jsx:38-109), the morphing system (lines 112-169) and the camera movement patterns (lines 263-305) are built from sines, cosines and curve sampling. The organic animation mode and the valley, mountain and cloud scene cases leave a child unchanged in the model. The ocean case is modelled.
- The triangle area in adaptive tessellation is a cross-product length, which needs a square root. It is a function parameter of `Geometry.Tessellate`, and only the test `area > 2` matters.
- Geometry.LiftHeights: takes the height field as a function argument. `Geometry.ShapeTerrain` passes the layered noise height, so the connection to the five noise layers is stated there.
- Geometry.Tessellate: requires a non-zero terrain size. With size 0 the UV division yields NaN in JavaScript, which exact reals cannot express.
- Geometry.Elevation: requires a positive height scale. With height scale 0 the normalisation divides by zero.
- Normals and slopes are not modelled. The slope attribute of the standard terrain (src/components/geometry/AdvancedGeometry.jsx:95-102) comes from `computeVertexNormals`.
- Frame methods that write into several scene objects require those objects to be distinct, as the scene graph makes them. Writes through one object shared by several children are modelled where the source shares it: the mountain and snow materials, the rock materials and the bird material.
- The frame methods marked "corrected behaviour of Findings row N" in the table implement the evidently intended behaviour of that row, not the code as written. The as-written behaviour is modelled by the member named in that row's "as-written member" cell, and for the mountain scene also by `Mountains.FrameAsWritten`.
- The UI, the loading screen, the story text and the application bootstrap contain no logic that the scroll mapping depends on.

## Findings

| source | as written | input that shows it | evidently intended | confidence | as-written member | corrected member |
|---|---|---|---|---|---|---|
| src/components/scenes/Mountains.jsx:75-77 | child `index` of the mountain group is paired with `mountainLayers[index]`, but the rock group and two particle systems are rendered before the three layer groups, so those three are pushed back by up to 20, 30 and 40 units while the layers never move or fade | the rendered children: index 0-2 are the rocks and particle systems, 3-5 the layers | layer group l is child l + 3, so the layers move and the shared mountain and snow materials fade with the scene | high, not executed | Mountains.AsWrittenNeverFades | Mountains.CorrectedFadesByLastLayer |
| src/components/scenes/Clouds.jsx:95-98 | a cloud child at `index` reads `cloudData[index]`, but two particle systems precede the twelve cloud groups, so cloud group j floats around the base of cloud j + 2 and groups 10 and 11 never move or fade | cloud group 11 is child 13 and reads `cloudData[13]`, which does not exist | cloud group j reads cloud j's record, so every cloud floats and fades | high, not executed | Clouds.AsWrittenSkipsLastClouds | Clouds.CloudOfChild |
| src/components/scenes/Ocean.jsx:100 | a reflection reads `reflectionData[index - 1]`, which assumes only the ocean surface precedes the reflections, so reflection j takes the scale and pulse of record j + 2 | reflection mesh 0 is child 3 and reads record 2; meshes 13 and 14 read no record | reflection j reads record j, which is index − 3 | high, not executed | Ocean.AsWrittenShiftsReflections | Ocean.ReflectionOfChild |
| src/components/particles/ParticleSystem.jsx:228 | the new opacity is the visibility times the current opacity of the same material, so it compounds frame after frame | dust at offset 1/4 (visibility 0.7): two frames leave 0.147 where one gives 0.21 | the visibility times the kind's base opacity, the same in every frame | medium, not executed | Particles.AsWrittenCompounds | Particles.Opacity |
| src/components/procedural/ProceduralVegetation.jsx:396-400 | the glow multiplies the current emissive intensity by 0.8 + 0.2 sin(…), so it compounds | a toadstool at 0.3 after two frames with sine 0 glows 0.192 where 0.24 is meant | a pulse around the part's base intensity, within [0.6, 1] times that base | medium, not executed | Vegetation.GlowNeverRecovers | Vegetation.Pulse |
| src/components/geometry/AdvancedGeometry.jsx:103 | elevation (h + H) / 2H assumes heights in [−H, H], but the noise layers reach −1.45 H to 1.95 H | every noise sample 0.8 with H = 10: height 15.6 and elevation 1.28 | an elevation in [0,1], as the comment at that line promises | medium, not executed | Geometry.ElevationOvershoots | Geometry.Elevation |
| src/components/animation/AdvancedAnimations.jsx:400 | `waveMotion(time, child, …)` passes its first two arguments in swapped order, so the number `time` is treated as the object. The defect is latent in the current scenes: the loop at line 317 visits only direct children, and each scene wraps its content in one plain group without userData, so no water mesh reaches this call | any water child in scene 3: its position never changes | `waveMotion(child, time, …)`, raising and lowering the water by up to 0.005 | high, not executed | Animations.OceanWaveAsWritten | Animations.OceanWave |
