# Procedural grass: a verified model

This project models the procedural core of a React/Three.js grass renderer in
Dafny. The core is the set of passes that build the scene's buffers, plus the
small per-frame rules that animate it:

- **Blade shaping.** A vertical plane is shifted up by half its height. Each
  vertex inside the band [0, h] is tapered, bent, rippled and drooped. A
  clean-up loop then resets every non-finite entry to 0 (`BladeShape`). Four
  components repeat this pass with their own constants. `GrassField` bends its
  blade with a simpler formula.
- **Heightmaps.** A multi-octave noise sum is written into the third component
  of every vertex of a ground plane (`Heightmap`, `Terrain`,
  `OptimizedGrassDemo`).
- **Instance placement.**
  - Placers walk a jittered density x density grid (x outer, z inner) or
    scatter a fixed count at random.
  - Each record takes a fixed number of draws from the random stream, in the
    order the loop body takes them.
  - The instanced placers write per-instance slots of 16 floats (matrix),
    3 (colour) and 1 (wind phase) (`InstanceBuffer`, `Grid`).
- **Wind.**
  - The optimised demo's vertex-shader displacement is a pure function.
  - Its per-frame uniform update is a method on a material object.
  - The global wind record is computed from the clock and kept in a one-cell
    store (`WindSystem`, `WindStore`).
- **Level of detail.** Three levels have ascending distance thresholds. Every
  frame, each mounted mesh is shown or hidden by its camera distance, and the
  near visible meshes sway (`GrassFieldLOD`).
- **Frame statistics.** A counter reports fps, mean frame time, draw statistics
  and heap size on every 60th frame (`PerformanceCollector`).

Numbers are reals.

- The blade buffers hold a `Float` (finite, NaN or an infinity), because the
  shaping code guards against NaN and infinities.
- `Math.sin`, `Math.cos` and `Math.pow(_, 2.5)` are parameters (`Prims`). The
  simplex-noise sampler and the `Math.random` stream are parameters too.
- These parameters are constrained only by range facts: `Lawful`,
  `Pythagorean`, `NoiseBounded` and `UnitDraws`.
- Packing a transform into 16 floats and a colour into 3 is a parameter
  (`Packing`) whose only assumed property is those widths.
- Host reads are parameters of the methods that make them: the clock, the
  camera distances, the draw statistics and the heap size.

## Model

| member | source | states |
|---|---|---|
| Numerics.Sanitized | src/components/OptimizedGrassDemo.tsx:168-172 | the clean-up of one entry yields a finite value: finite entries unchanged, NaN and infinities become 0 |
| Numerics.Clamp01 | src/components/OptimizedGrassDemo.tsx:136 | `min(max(v, 0), 1)` lies in [0, 1] and is the identity on [0, 1] |
| Numerics.Round | src/components/PerformanceCollector.tsx:26 | `Math.round` is within half a unit of its argument (x - 0.5 < r <= x + 0.5) |
| Numerics.ToFixed2 | src/components/PerformanceCollector.tsx:27 | `Number(x.toFixed(2))` is within 0.005 of x, negative values rounded by magnitude |
| Numerics.Centered | src/components/GrassFieldLOD.tsx:100-101 | `(r - 0.5) * w` for a draw in [0, 1) lies in [-w/2, w/2) |
| Numerics.CenteredDraw | src/components/GrassField.tsx:56-57 | the same centring fact as a lemma, for any draw in [0, 1) and width > 0 |
| Numerics.ScaledDraw | src/components/OptimizedGrassDemo.tsx:207 | `lo + r * w` for a draw in [0, 1) lies in [lo, lo + w) |
| VertexBuffer.MapVertices | src/components/Terrain.tsx:28-40 | a stride-3 vertex pass keeps the buffer length |
| VertexBuffer.MapVerticesAt | src/components/Terrain.tsx:28-40 | a stride-3 vertex loop leaves vertex j equal to f applied to the old vertex j, for every j |
| VertexBuffer.MapVerticesInPlace | src/components/OptimizedGrassDemo.tsx:130-166 | the in-place loop over the position array leaves exactly the mapped buffer |
| VertexBuffer.SanitizeAll | src/components/OptimizedGrassDemo.tsx:168-172 | after clean-up every entry is finite, finite entries keep their value and the others are 0 |
| VertexBuffer.CleanUp | src/components/OptimizedGrassDemo.tsx:168-172 | the clean-up loop leaves exactly the sanitised buffer |
| InstanceBuffer.FlattenLength | src/components/OptimizedGrassDemo.tsx:185-187 | a buffer of w-float slots for n records has w * n entries |
| InstanceBuffer.FlattenAt | src/components/OptimizedGrassDemo.tsx:219-231 | record k occupies entries w * k to w * k + w - 1 |
| InstanceBuffer.FlattenSnoc | src/components/OptimizedGrassDemo.tsx:233 | one more record appends exactly its slot |
| InstanceBuffer.WriteBlock | src/components/OptimizedGrassDemo.tsx:219 | writing a block at an offset changes exactly those entries |
| InstanceBuffer.StoreSlot | src/components/GrassFieldLOD.tsx:117 | storing record i in its slot extends the filled prefix by that record |
| Grid.GridCells | src/components/OptimizedGrassDemo.tsx:183 | a density x density grid has density^2 records |
| Grid.GridLayout | src/components/OptimizedGrassDemo.tsx:189-233 | cell (x, z) is record x * density + z, built from the draws after all earlier cells |
| Grid.CellIndex | src/components/OptimizedGrassDemo.tsx:191-192 | the running index x * density + z is below density^2 and determines x and z |
| Grid.Jittered | src/components/OptimizedGrassDemo.tsx:193-194 | a coordinate jittered by `(r - 0.5) * spacing * 0.5` stays within [-spacing/4, spacing/4) of its grid point |
| Grid.Scattered | src/components/GrassFieldLOD.tsx:98 | a scatter placer makes exactly count records |
| Grid.PlaceRow | src/components/RealisticGrassDemo.tsx:121-141 | one pass of the inner loop pushes exactly the row's density records after the earlier rows |
| Grid.PlaceGrid | src/components/RealisticGrassDemo.tsx:120-142 | the nested loops that push one record per cell produce exactly the grid's records, in order |
| BladeShape.HeightRatio | src/components/OptimizedGrassDemo.tsx:136 | the height ratio is NaN for a zero-height blade, otherwise y/h, in [0, 1] on guarded vertices |
| BladeShape.ShapeVertex | src/components/OptimizedGrassDemo.tsx:133-166 | one shaping step leaves an unguarded vertex untouched; a guarded one gets a finite y, finite z and (for finite x) finite x when h > 0, and only y = 0 when h = 0 |
| BladeShape.Blade | src/components/OptimizedGrassDemo.tsx:130-172 | the finished blade has the buffer's length and only finite entries |
| BladeShape.BuildBlade | src/components/OptimizedGrassDemo.tsx:130-172 | the builder's two loops leave exactly the shaped and sanitised buffer |
| BladeShape.ShapeOutsideBand | src/components/OptimizedGrassDemo.tsx:135 | a vertex whose shifted y is outside [0, h] (or not finite) is untouched |
| BladeShape.ShapeTaperFormula | src/components/OptimizedGrassDemo.tsx:136-142 | inside the band x is multiplied by 0.9 cos(0.45 PI hr) with hr = y/h in [0, 1] |
| BladeShape.TaperFactorRange | src/components/OptimizedGrassDemo.tsx:137-138 | the taper factor lies in [0, 0.9] for hr in [0, 1] |
| BladeShape.TaperAngle | src/components/OptimizedGrassDemo.tsx:137 | the taper angle stays in [0, PI/2] |
| BladeShape.CosOnQuarter | src/components/OptimizedGrassDemo.tsx:138 | the cosine of that angle lies in [0, 1] |
| BladeShape.Narrowing | src/components/OptimizedGrassDemo.tsx:141 | a factor in [0, 0.9] gives abs(x * t) <= 0.9 abs(x) |
| BladeShape.ShapeTaper | src/components/OptimizedGrassDemo.tsx:138-142 | the tapered x is finite and at most 0.9 times the old abs(x) |
| BladeShape.ShapeBend | src/components/OptimizedGrassDemo.tsx:144-152 | z becomes bend * hr^2.5 + wave * sin(2 PI hr) |
| BladeShape.ShapeDroop | src/components/OptimizedGrassDemo.tsx:154-164 | y becomes the shifted y, lowered by droop ((hr - 0.7)/0.3)^2 only when hr > 0.7, never raised |
| BladeShape.ShapeTip | src/components/OptimizedGrassDemo.tsx:136-164 | the tip vertex keeps a taper of 0.9 cos(0.45 PI), which is positive because 0.45 PI < PI/2, and droops by the full amplitude |
| BladeShape.ShapeZeroHeight | src/components/OptimizedGrassDemo.tsx:135-164 | for h = 0 the NaN ratio fails every amount guard, so only y = 0 is written |
| BladeShape.ShapedVertex | src/components/OptimizedGrassDemo.tsx:136-164 | one shaping step on a guarded vertex with finite x applies the taper, bend-plus-ripple and droop formulas together |
| BladeShape.BladeVertex | src/components/OptimizedGrassDemo.tsx:130-172 | vertex j of the finished blade is the shaping step then clean-up of vertex j |
| BladeShape.BladeFinite | src/components/OptimizedGrassDemo.tsx:168-172 | every entry of a finished blade is finite |
| BladeShape.BladeShapedVertex | src/components/OptimizedGrassDemo.tsx:130-166 | a guarded vertex with finite x gets the taper, bend-plus-ripple and droop formulas |
| BladeShape.BladeNarrows | src/components/OptimizedGrassDemo.tsx:138-142 | in the finished blade a guarded vertex's new abs(x) is at most 0.9 times its old abs(x) |
| BladeShape.BladeUnshapedVertex | src/components/OptimizedGrassDemo.tsx:135 | an unguarded vertex only loses its non-finite entries |
| BladeShape.BladeGeometry | src/components/OptimizedGrassDemo.tsx:130-172 | for any shape parameters: finite buffer, untouched outside the band, taper, bend-plus-ripple and droop formulas inside |
| BladeShape.HeightScaledBlade | src/components/OptimizedGrassDemo.tsx:130-172 | with amplitudes 0.125 h, 0.008 h, 0.067 h: finite buffer, untouched outside the band, taper, bend and droop formulas inside |
| Heightmap.Heightmap | src/components/Terrain.tsx:28-40 | the lifted buffer has the same length, and each vertex keeps its first two components and gets the height of them as its third |
| Heightmap.HeightmapPass | src/components/Terrain.tsx:28-40 | the vertex loop leaves exactly the lifted buffer |
| Heightmap.HeightmapVertex | src/components/Terrain.tsx:28-40 | each vertex keeps its first two components and gets the height of them as its third |
| Heightmap.HeightmapConsistent | src/components/Terrain.tsx:28-40 | two vertices at the same (x, y) get the same height |
| Terrain.Height | src/components/Terrain.tsx:33-37 | with noise in [-1, 1] the four-octave height is at most 1.875 abs(heightScale) |
| Terrain.DefaultTerrainHeight | src/components/Terrain.tsx:15 | with the default height scale 4 the terrain stays within [-7.5, 7.5] |
| Terrain.GenerateHeights | src/components/Terrain.tsx:28-40 | the terrain loop is the heightmap pass with the four-octave height |
| Terrain.TerrainVertex | src/components/Terrain.tsx:28-40 | each terrain vertex keeps x and y and gets the octave sum, bounded by 1.875 abs(heightScale) |
| Terrain.Breathing | src/components/Terrain.tsx:58 | the breathing offset 0.1 sin(0.1 t) lies in [-0.1, 0.1] |
| Terrain.TerrainMesh.constructor | src/components/Terrain.tsx:63-69 | the mesh starts at y offset 0 |
| Terrain.BreathingTick | src/components/Terrain.tsx:54-60 | a mounted mesh's y offset becomes the breathing offset of the clock reading |
| OptimizedGrassDemo.TerrainHeight | src/components/OptimizedGrassDemo.tsx:94-103 | the octave sum with weights 0.08, 0.04, 0.02, 0.01 is at most 0.15 in magnitude |
| OptimizedGrassDemo.BuildTerrain | src/components/OptimizedGrassDemo.tsx:113-119 | the ground loop is the heightmap pass with `getTerrainHeight` |
| OptimizedGrassDemo.TerrainVertex | src/components/OptimizedGrassDemo.tsx:115-119 | each ground vertex keeps its first two components and gets the terrain height of them, at most 0.15 |
| OptimizedGrassDemo.BuildBladeGeometry | src/components/OptimizedGrassDemo.tsx:126-176 | the blade builder leaves the height-proportional shaped blade |
| OptimizedGrassDemo.Instances | src/components/OptimizedGrassDemo.tsx:183 | density^2 instances |
| OptimizedGrassDemo.CellAt | src/components/OptimizedGrassDemo.tsx:191-233 | cell (x, z) is instance x * density + z, built from draws 10 (x * density + z) onwards |
| OptimizedGrassDemo.NextCell | src/components/OptimizedGrassDemo.tsx:193-218 | the instance the inner loop builds for cell (x, z) is instance x * density + z |
| OptimizedGrassDemo.PlaceCell | src/components/OptimizedGrassDemo.tsx:193-231 | an instance stands on the terrain height at its own X and Z and is scaled 1.1 s wide and 1.3 s tall for depth s |
| OptimizedGrassDemo.SlotWidths | src/components/OptimizedGrassDemo.tsx:185-187 | the matrix, colour and phase slots are 16, 3 and 1 floats wide |
| OptimizedGrassDemo.FillInstanceData | src/components/OptimizedGrassDemo.tsx:179-238 | the three fresh buffers hold exactly the instances' matrices, colours and phases, back to back |
| OptimizedGrassDemo.FillRow | src/components/OptimizedGrassDemo.tsx:192-233 | one pass of the inner loop extends the filled prefix of all three buffers by the row's density instances |
| OptimizedGrassDemo.StoreInstance | src/components/OptimizedGrassDemo.tsx:219-231 | storing instance `index` extends all three filled prefixes by it |
| OptimizedGrassDemo.InstanceLayout | src/components/OptimizedGrassDemo.tsx:219-231 | instance i sits at offsets 16 i, 3 i and i; the buffers hold 16, 3 and 1 floats per instance |
| OptimizedGrassDemo.InstancePlacement | src/components/OptimizedGrassDemo.tsx:193-201 | X and Z lie within a quarter spacing of the grid point; Y is the terrain height at the instance's own X and Z, at most 0.15 |
| OptimizedGrassDemo.CellJitter | src/components/OptimizedGrassDemo.tsx:193-194 | the jitter bound for any cell and draw position |
| OptimizedGrassDemo.InstanceAttributes | src/components/OptimizedGrassDemo.tsx:205-231 | leans in [-0.15, 0.15), yaw in [0, 2 PI), scale (1.1 s, 1.3 s, s) with s in [0.8, 1.2), hue, saturation and lightness ranges, phase in [0, 1) |
| OptimizedGrassDemo.WindEffect | src/components/OptimizedGrassDemo.tsx:40-42 | the height weight lies in [0, 1], is 0 at or below y = -0.06 and 1 at or above y = 0.06 |
| OptimizedGrassDemo.WindEffectMonotone | src/components/OptimizedGrassDemo.tsx:39-42 | the weight is stronger at the top: it never decreases as y grows |
| OptimizedGrassDemo.Displace | src/components/OptimizedGrassDemo.tsx:36-57 | the wind displacement never lifts a vertex |
| OptimizedGrassDemo.DisplaceCalm | src/components/OptimizedGrassDemo.tsx:53-57 | with windStrength 0 the displaced position equals the input |
| OptimizedGrassDemo.CalmPush | src/components/OptimizedGrassDemo.tsx:53-54 | with windStrength 0 the horizontal push is 0 |
| OptimizedGrassDemo.WindPatternRange | src/components/OptimizedGrassDemo.tsx:49-50 | both wind patterns lie in [-1, 1] |
| OptimizedGrassDemo.SagBound | src/components/OptimizedGrassDemo.tsx:57 | the sag term is at most 0.01 abs(windStrength) |
| OptimizedGrassDemo.DisplaceSag | src/components/OptimizedGrassDemo.tsx:57 | y never rises and drops by at most 0.01 abs(windStrength) |
| OptimizedGrassDemo.GustRange | src/components/OptimizedGrassDemo.tsx:46 | the gust factor is exactly 1 with gust intensity 0 and lies in [0.7, 1.3] at intensity 1 |
| OptimizedGrassDemo.ShaderWeightOnBuiltBlade | src/components/OptimizedGrassDemo.tsx:40 | on a built 0.12 blade (y in [0, 0.12]) the weight is 0.25 at the root, 1 from y = 0.06 up, never below 0.25 |
| OptimizedGrassDemo.GrassMaterial.constructor | src/components/OptimizedGrassDemo.tsx:11-17 | the material starts with time 0, strength 0.3, speed 1, direction (1, 0), gust intensity 1 |
| OptimizedGrassDemo.FrameUniforms | src/components/OptimizedGrassDemo.tsx:262-269 | time is the clock, strength and speed are copied, the direction has unit length, gust intensity is 1 exactly when gusts are on and 0 exactly when off |
| OptimizedGrassDemo.AnimateUniforms | src/components/OptimizedGrassDemo.tsx:260-271 | with a material and wind enabled every uniform is rewritten; otherwise nothing changes |
| OptimizedGrassDemo.FrameGust | src/components/OptimizedGrassDemo.tsx:269 | a frame with gusts off gives every instance gust 1; with gusts on one in [0.7, 1.3] |
| GrassFieldLOD.Segments | src/components/GrassFieldLOD.tsx:22 | exactly: high is (2, 8), medium (1, 4), low (1, 2); every detail has at least 1 x 2 segments |
| GrassFieldLOD.SegmentsByDetail | src/components/GrassFieldLOD.tsx:22 | segment counts are ordered low <= any <= high in both directions |
| GrassFieldLOD.CreateGrassBlade | src/components/GrassFieldLOD.tsx:21-72 | the builder leaves the shaped blade with height 0.4, bend 0.05, ripple 0.003, droop 0.02 |
| GrassFieldLOD.LodBladeGeometry | src/components/GrassFieldLOD.tsx:26-68 | finite buffer; band y + 0.2 in [0, 0.4]; taper, 0.05 hr^2.5 + 0.003 sin(2 PI hr) and 0.02 droop above hr = 0.7 |
| GrassFieldLOD.Share | src/components/GrassFieldLOD.tsx:77 | `Math.floor(count * f)`: the largest whole number not above count * f |
| GrassFieldLOD.Levels | src/components/GrassFieldLOD.tsx:76-80 | three levels, nearest first: threshold 30 at high detail, 80 at medium, 150 at low; counts floor(0.4 count), floor(0.4 count), floor(0.2 count), summing to at most count |
| GrassFieldLOD.DefaultLevels | src/components/GrassFieldLOD.tsx:12 | the default 3000 instances split 1200, 1200, 600 |
| GrassFieldLOD.LevelBlades | src/components/GrassFieldLOD.tsx:98 | a level has exactly its count of blades |
| GrassFieldLOD.PlaceBlade | src/components/GrassFieldLOD.tsx:100-121 | a blade stands at 2 noise(0.01 X, 0.01 Z) of its own X and Z, with equal x and z scale |
| GrassFieldLOD.PlaceLevel | src/components/GrassFieldLOD.tsx:93-127 | the fresh matrix and colour buffers hold exactly the level's blades, back to back |
| GrassFieldLOD.LevelLayout | src/components/GrassFieldLOD.tsx:93-94 | the buffers hold 16 and 3 floats per blade; blade i sits at 16 i and 3 i |
| GrassFieldLOD.LevelBladeAt | src/components/GrassFieldLOD.tsx:98-126 | blade i is built from draws 10 i to 10 i + 9 |
| GrassFieldLOD.BladePosition | src/components/GrassFieldLOD.tsx:100-104 | X and Z in [-fieldSize/2, fieldSize/2); Y = 2 noise(0.01 X, 0.01 Z), at most 2 |
| GrassFieldLOD.DefaultLevelBlade | src/components/GrassFieldLOD.tsx:13 | in the default 50 x 50 field a blade lies within 25 of the origin on both axes and within 2 vertically |
| GrassFieldLOD.BladeAttributes | src/components/GrassFieldLOD.tsx:105-121 | leans in [-0.075, 0.075), yaw in [0, 2 PI), base b in [0.7, 1.2), height scale in [0.8 b, 1.2 b), colour ranges |
| GrassFieldLOD.LodMesh.constructor | src/components/GrassFieldLOD.tsx:177-181 | a new mesh is shown and unrotated |
| GrassFieldLOD.LodMesh.Update | src/components/GrassFieldLOD.tsx:153-160 | one mesh's new state is the frame rule applied to its old state |
| GrassFieldLOD.SwayStrength | src/components/GrassFieldLOD.tsx:157 | for d >= 0 the strength is in (0, 1], and 1 up to d = 30 (including d = 0, where 30/d is infinite) |
| GrassFieldLOD.MeshAfter | src/components/GrassFieldLOD.tsx:150-160 | shown iff d <= threshold; unless shown and nearer than 50, the rotations are kept |
| GrassFieldLOD.MeshAfterRules | src/components/GrassFieldLOD.tsx:150-160 | shown iff d <= threshold; sways only when shown and d < 50, with rotation x at most 0.004 and z at most 0.006; otherwise rotations unchanged |
| GrassFieldLOD.VisibleLevels | src/components/GrassFieldLOD.tsx:153 | at a common distance the shown levels are upward closed; d = 50 shows the middle and far levels only |
| GrassFieldLOD.LodField.constructor | src/components/GrassFieldLOD.tsx:15-18 | wind time 0, no mounted meshes, the three levels of the count |
| GrassFieldLOD.LodField.Tick | src/components/GrassFieldLOD.tsx:141-162 | windTime grows by delta / 2; every mounted mesh gets the frame rule with its own distance and level; the mesh list is unchanged |
| RealisticGrassDemo.ExtrudedTaper | src/components/RealisticGrassDemo.tsx:40 | the width factor is 1 at the base, 0.1 at y = 0.015 and in [0.1, 1] between |
| RealisticGrassDemo.ExtrudedTaperDecreasing | src/components/RealisticGrassDemo.tsx:40 | the factor never grows with height |
| RealisticGrassDemo.TaperExtrudedBlade | src/components/RealisticGrassDemo.tsx:36-43 | the loop leaves exactly the tapered buffer |
| RealisticGrassDemo.ExtrudedVertex | src/components/RealisticGrassDemo.tsx:37-43 | y kept; x and z multiplied by the factor at y; between base and tip neither grows in magnitude |
| RealisticGrassDemo.TaperExtruded | src/components/RealisticGrassDemo.tsx:37-43 | one taper step keeps y; between base and tip neither x nor z grows in magnitude |
| RealisticGrassDemo.Shrinks | src/components/RealisticGrassDemo.tsx:41 | scaling by a factor in [0, 1] never grows a magnitude |
| RealisticGrassDemo.CreateSimpleGrassBlade | src/components/RealisticGrassDemo.tsx:51-111 | the builder leaves the shaped blade with height 0.12, bend 0.015, ripple 0.001, droop 0.008 |
| RealisticGrassDemo.SimpleBladeGeometry | src/components/RealisticGrassDemo.tsx:57-106 | finite buffer; band y + 0.06 in [0, 0.12]; taper, 0.015 hr^2.5 + 0.001 sin(2 PI hr) and 0.008 droop above hr = 0.7 |
| RealisticGrassDemo.SimpleBladeNarrows | src/components/RealisticGrassDemo.tsx:66-72 | a guarded vertex's new abs(x) is at most 0.9 times its old abs(x) |
| RealisticGrassDemo.RenderedScale | src/components/RealisticGrassDemo.tsx:182 | a blade of scale s in [0.8, 1.2) is drawn 1.1 s wide, 1.3 s tall and s deep |
| RealisticGrassDemo.BladePosition | src/components/RealisticGrassDemo.tsx:118-128 | spacing is size/density; X and Z within a quarter spacing of the grid point; Y is the ground at the jittered X and Z |
| RealisticGrassDemo.PlaceBlade | src/components/RealisticGrassDemo.tsx:123-137 | a blade stands on the ground at its own jittered X and Z |
| RealisticGrassDemo.BladeAttributes | src/components/RealisticGrassDemo.tsx:129-137 | leans in [-0.15, 0.15), yaw in [0, 2 PI), scale in [0.8, 1.2), hue, saturation and lightness ranges |
| RealisticGrassDemo.GrassData | src/components/RealisticGrassDemo.tsx:114-145 | the loops produce the 70 x 70 grid of records on flat ground |
| RealisticGrassDemo.PatchCell | src/components/RealisticGrassDemo.tsx:116-128 | 4900 blades; cell (x, z) is blade 70 x + z, at height 0, within 3/280 of its grid point |
| RealisticMainGrass.CreateGrassBlade | src/components/RealisticMainGrass.tsx:22-82 | the builder leaves the height-proportional shaped blade |
| RealisticMainGrass.GrassData | src/components/RealisticMainGrass.tsx:85-119 | the loops produce the density x density grid of records on the noise ground |
| RealisticMainGrass.FieldCell | src/components/RealisticMainGrass.tsx:87-108 | density^2 blades; cell (x, z) at x * density + z; jitter within a quarter of fieldSize/density; Y = 2 noise(0.01 X, 0.01 Z), at most 2; lean, yaw and scale ranges |
| RealisticMainGrass.NoiseBlade | src/components/RealisticMainGrass.tsx:94-102 | a blade stands on 2 noise(0.01 X, 0.01 Z) of its own jittered X and Z |
| RealisticMainGrass.DefaultField | src/components/RealisticMainGrass.tsx:13-16 | defaults: 225 blades within 5/3 of their grid points over the 100 x 100 field, within 2 vertically; the 0.4 blade has amplitudes 0.05, 0.0032, 0.0268 |
| GrassField.Bend | src/components/GrassField.tsx:28-30 | one bend step keeps y and z and moves x by at most 0.1 |
| GrassField.BendBlade | src/components/GrassField.tsx:26-31 | the bend loop leaves exactly the bent buffer |
| GrassField.BentVertex | src/components/GrassField.tsx:27-31 | y and z are kept; x moves by 0.1 sin(0.3 (y + 1)), never by more than 0.1 |
| GrassField.Blades | src/components/GrassField.tsx:54 | exactly count instances |
| GrassField.FillMatrices | src/components/GrassField.tsx:51-74 | the fresh matrix buffer holds exactly the instances' matrices, back to back |
| GrassField.MatrixLayout | src/components/GrassField.tsx:51-73 | 16 * count entries; instance i's matrix at offset 16 i |
| GrassField.BladeAt | src/components/GrassField.tsx:54-73 | instance i is built from draws 4 i to 4 i + 3 |
| GrassField.PlaceBlade | src/components/GrassField.tsx:56-70 | an instance stands at 3 noise(0.01 X, 0.01 Z), turned about y only, scaled uniformly |
| GrassField.BladePlacement | src/components/GrassField.tsx:56-70 | X, Z in [-fieldSize/2, fieldSize/2); Y = 3 noise(0.01 X, 0.01 Z), at most 3; yaw only, in [0, 2 PI); uniform scale in [0.8, 1.2) |
| GrassField.DefaultField | src/components/GrassField.tsx:14-15 | the default field has 50000 instances, inside the 100 x 100 square, within 3 vertically |
| GrassField.FieldMaterial.constructor | src/components/GrassField.tsx:37-40 | time 0 and wind direction (1, 0) at start |
| GrassField.WindDirection | src/components/GrassField.tsx:88-92 | both components of the drifting direction lie in [0, 1] |
| GrassField.Animate | src/components/GrassField.tsx:83-94 | a mounted material gets the clock as time and the drifting direction |
| SimpleGrassDemo.FifteenPerRow | src/components/SimpleGrassDemo.tsx:10-12 | floor(0.03 / 0.002) is 15 |
| SimpleGrassDemo.PlaceBlade | src/components/SimpleGrassDemo.tsx:17-33 | a blade stands at height 0 with unit x and z scale |
| SimpleGrassDemo.GrassBlades | src/components/SimpleGrassDemo.tsx:5-39 | the loops produce the 15 x 15 grid of records |
| SimpleGrassDemo.BladeRanges | src/components/SimpleGrassDemo.tsx:17-33 | jitter within 0.0003 (0.15 spacing) of the grid point; Y = 0; yaw in [0, 2 PI); leans in [-0.1, 0.1); scale (1, s, 1) with s in [2/3, 4/3) |
| SimpleGrassDemo.PatchCell | src/components/SimpleGrassDemo.tsx:14-34 | 225 blades; cell (x, z) is blade 15 x + z, built from draws 6 (15 x + z) onwards |
| WindStore.Store.constructor | src/store/windStore.ts:16-21 | the store starts with speed 1, direction (1, 0), turbulence 1, time 0 |
| WindStore.Store.SetWindData | src/store/windStore.ts:22 | the stored record becomes the given record exactly |
| WindStore.WriteTwice | src/store/windStore.ts:22 | after two writes the second record is stored; the first leaves no trace |
| WindSystem.WindAt | src/components/WindSystem.tsx:9-25 | time is the clock reading; speed in [0.2, 0.8], direction components in [-0.8, 0.8], turbulence in [0.6, 1] |
| WindSystem.Tick | src/components/WindSystem.tsx:8-26 | one frame stores exactly the record of the clock reading |
| PerformanceCollector.Fps | src/components/PerformanceCollector.tsx:26 | +Infinity for a zero interval, otherwise finite and within 0.5 of 60000/delta |
| PerformanceCollector.FrameTime | src/components/PerformanceCollector.tsx:27 | within 0.005 of delta/60 |
| PerformanceCollector.MemoryUsage | src/components/PerformanceCollector.tsx:37-39 | 0 when the heap size is absent or 0, otherwise within 0.5 of the heap size in MiB |
| PerformanceCollector.MakeReport | src/components/PerformanceCollector.tsx:26-39 | draw statistics passed through; fps infinite iff the interval is 0, else within 0.5 of 60000/delta; frame time within 0.005 of delta/60; memory 0 without a (non-zero) heap size, otherwise within 0.5 of the heap size in MiB |
| PerformanceCollector.Collector.constructor | src/components/PerformanceCollector.tsx:15-16 | the count starts at 0 and the reference time at the clock reading |
| PerformanceCollector.Collector.Tick | src/components/PerformanceCollector.tsx:18-44 | the count goes up by 1; a report comes exactly when it is a multiple of 60, built from the time since the last report, and only then does the reference time move to now |
| PerformanceCollector.OneReportPerSixty | src/components/PerformanceCollector.tsx:25 | any 60 consecutive frames hold exactly one reporting frame |
| PerformanceCollector.ReportOffset | src/components/PerformanceCollector.tsx:25 | after frame count c the next reporting frame is c + (60 - c mod 60) |

## Left out

- Single-precision rounding: `Float32Array` storage and IEEE rounding of intermediate results are not modelled; numbers are reals.
- Three.js internals are not part of this model. This covers the `PlaneGeometry` vertex layout and segment counts (the blade passes work on any buffer), `computeVertexNormals`, `ExtrudeGeometry`, `Shape` and `CatmullRomCurve3`, `Matrix4`/`Object3D` matrix composition, and HSL parsing in `THREE.Color`. Packing is a parameter that only promises 16 and 3 floats.
- Rendering is left out: JSX, materials, the fragment shader, rocks, dirt particles, reference gizmos, and `SimpleGrassDemo`'s per-render random material colour.
- The GLSL shader files that `GrassField` imports are not part of this model. So neither is the displacement they apply.
- Every blade pass requires the buffer length to be a multiple of 3. Position buffers always are.
- The three LOD levels draw from one shared random stream, one level after another. `PlaceLevel` takes the stream from where the previous level stopped; the offset 10 * (earlier counts) is left to the caller.
- The LOD tick requires at most as many mesh slots as levels, with distinct meshes. The source would fail on a slot without a level.
- The optimised demo mounts the ground plane rotated by -PI/2 about x, so the height written for local (x, y) lands at world (x, -y). Instance heights use the instance's own (X, Z). The model proves only the latter and does not claim that instances sit on the rendered ground.
- `GrassField`, `GrassFieldLOD` and `RealisticMainGrass` sample their own noise instances at scales different from `Terrain`. No relation between their grounds and the terrain mesh is claimed.
- OptimizedGrassDemo.AnimateUniforms takes the wind settings as a `WindControls` parameter. The controls hook in src/hooks/useRealisticGrassControls.ts defines `enableWind` but not `windStrength`, `windSpeed`, `windDirection` or `windGusts`. With that hook as written, the uniforms would receive undefined values, a NaN direction and gust intensity 0.
- OptimizedGrassDemo.FrameUniforms: unit length of the direction is proved only under `Pythagorean(m)`, the identity sin^2 + cos^2 = 1, which is kept apart from the range facts.
- OptimizedGrassDemo.WindEffect is stated exactly as the shader computes it, for a blade centred on y = 0. The builder emits y in [0, h], so on a built blade the weight starts at 0.25 (`ShaderWeightOnBuiltBlade`).
- Grid.Spacing is 0 for density 0. In the source the division gives Infinity or NaN, but no cell exists to use it.
- PerformanceCollector.Collector.Tick models one persistent counter. The source keeps the counter in function locals that a re-render resets. The host reads (`performance.now`, `gl.info`, `performance.memory`) are parameters, and the report is returned instead of passed to the callback.
- `Lighting.tsx`, `SimpleTestGrass.tsx`, the UI panels, the app shell and the build configuration hold no generation logic and are not part of this model.
