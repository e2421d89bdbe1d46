# Black-hole scene generation, modelled in Dafny

The site's landing page draws a black hole with three.js. It has a dark
sphere, two translucent lobes, an accretion disk of thin rings and a field of
stars. Around the renderer calls, `assets/js/index.js` holds three pieces of
real logic. This project models them and proves what they compute:

- **Accretion-disk ring tiling** (`generateAcretionDisks`, module
  `AccretionDisk`). The span `[min, max]` is cut into bands of width `gap`.
  Band `i` is `[min + i·gap, min + (i+1)·gap]`. The loop runs
  `for (i = 0; i < ringCount; i += 2)` with `ringCount = (max − min) / gap`,
  so every even band becomes a ring and every odd band stays empty.
- **Star scattering** (`getDir`, `generateStars`, module `StarField`). Each
  pass of a loop that steps by 2 makes one star. A star has three magnitudes
  in `[inner, outer)`, and each magnitude's sign is then flipped on its own
  random draw.
- **Per-tick ring rotation** (the ring loop in `animate`, module
  `RingRotation`). Every tick, every ring's `rotation.z` grows by 0.1.

The loop shared by both generators is in module `Loops`. `TripCount(bound)`
is the number of passes of `for (i = 0; i < bound; i += 2)`. That is
`ceil(bound / 2)` for a positive bound, and 0 otherwise.

Randomness is an input. Each `Math.random()` call becomes the next value of
an explicit sequence of draws. `generateStars` takes six draws per star, in
the order the source calls `Math.random()`: the x, y and z magnitudes, then
the sign draws of `getDir(x)`, `getDir(y)` and `getDir(z)`. A tick takes one
draw per ring. Where a bound needs it, the draws are required to lie in
`[0, 1)`, the range of `Math.random()`.

The source's constants are parameters here: `min = 2`, `max = 5`,
`gap = 0.01`, 1000 stars, radii 25 and 250. Lemma `SourceDisk` instantiates
the disk with the first three; `SourceStarCount` and `SourceStarShell`
instantiate the star field with the count and both radii.

Behaviour of the code worth stating plainly:

- Ring count. The loop emits one ring per even `i < ringCount`, so it emits
  `ceil(ringCount / 2)` rings. A partial last band is kept: when `ringCount`
  has a fractional part and an even floor, the last ring reaches past `max`.
  `PartialBandKept` shows this with `(0, 1, 0.4)`, whose last ring is
  `[0.8, 1.2]`; `LastRingFits` states exactly when the last ring stays
  inside `max`.
- Star count. The counter steps by 2 while `i < count`, so `ceil(count / 2)`
  stars are made: 500 for a count of 1000.
- Star coordinates. With draws in `[0, 1)`, each magnitude lies in the
  half-open range `[inner, outer)`; `outer` itself is never reached.
- Rotation gate. The guard `!Math.ceil(int) === 1` is easy to read as a gate
  that lets a ring turn only on some ticks. It parses as
  `(!Math.ceil(int)) === 1`, which compares a boolean with a number under
  strict equality and so is always false. The `continue` never runs, and
  every ring turns by 0.1 on every tick (`SkipsRing`, `RotateStep`, `Tick`).

## Model

| member | source | states |
|---|---|---|
| `Loops.TripCount` | assets/js/index.js:20 | the loop `for (i = 0; i < bound; i += 2)` runs n times: pass n−1 has 2(n−1) < bound, pass n has 2n ≥ bound; n = 0 for bound ≤ 0, and bound/2 ≤ n < bound/2 + 1 otherwise |
| `Loops.PassRuns` | assets/js/index.js:20 | the pass with counter 2k runs exactly when k < TripCount(bound) (both directions) |
| `Loops.TripCountOfInt` | assets/js/index.js:30 | for an integer bound ≥ 0 the loop runs (bound + 1) / 2 times, i.e. ceil(bound / 2) |
| `AccretionDisk.RingCount` | assets/js/index.js:18 | defines `ringCount = (max − min) / gap`; its contract states ringCount·gap = max − min, so it is the number of gap-wide bands in the span, not necessarily whole |
| `AccretionDisk.BandAt` | assets/js/index.js:21-22 | defines band i as `[min + i·gap, min + (i+1)·gap]` (offsets by `Offset`, equal to i·gap by `OffsetIsProduct`); every band is exactly gap wide |
| `AccretionDisk.Disks` | assets/js/index.js:17-26 | defines generateAcretionDisks' result: the first TripCount(ringCount) rings, so it has one ring per pass of the step-2 loop |
| `AccretionDisk.Layout` | assets/js/index.js:19-24 | the list of the first n pushed rings has exactly n entries |
| `AccretionDisk.GenerateAcretionDisks` | assets/js/index.js:17-26 | the loop returns exactly `Disks(min, max, gap)`: TripCount(ringCount) rings, ring k being band 2k |
| `AccretionDisk.OffsetIsProduct` | assets/js/index.js:22 | band i's offset from min, laid out one gap at a time, equals the product i·gap the source computes |
| `AccretionDisk.LayoutAt` | assets/js/index.js:20-23 | the k-th pushed ring is `[min + 2k·gap, min + (2k+1)·gap]` |
| `AccretionDisk.RingWidth` | assets/js/index.js:21-22 | every ring has outer − inner = gap, so inner < outer when gap > 0 |
| `AccretionDisk.RingSpacing` | assets/js/index.js:20-23 | consecutive rings start 2·gap apart, and each ends exactly one gap before the next begins |
| `AccretionDisk.RingsDisjoint` | assets/js/index.js:20-23 | for any two rings j < k, ring j ends at least one gap before ring k begins: rings are sorted and do not overlap |
| `AccretionDisk.RingsWithinBounds` | assets/js/index.js:18-22 | every emitted ring has min ≤ inner < max and outer < max + gap |
| `AccretionDisk.LastRingFits` | assets/js/index.js:18-22 | the last ring ends at or before max exactly when 2n − 1 ≤ ringCount, n being the number of rings |
| `AccretionDisk.SourceDisk` | assets/js/index.js:5-23 | with (2, 5, 0.01): ringCount = 300, 150 rings, the first [2, 2.01], the last [4.98, 4.99] |
| `AccretionDisk.PartialBandKept` | assets/js/index.js:18-23 | with (0, 1, 0.4): ringCount = 2.5, two rings, the second [0.8, 1.2] reaching past max = 1 |
| `StarField.GetDir` | assets/js/index.js:15 | the result is num or −num, so its absolute value is num's; for every non-zero num it is −num exactly when the draw exceeds 0.5 |
| `StarField.Magnitude` | assets/js/index.js:31-33 | for a draw in [0, 1) and inner < outer, the scaled magnitude lies in [inner, outer) |
| `StarField.StarFrom` | assets/js/index.js:31-34 | defines one star from six consecutive draws: x, y, z magnitudes from the first three, signs from the last three; each coordinate's absolute value is its magnitude |
| `StarField.Stars` | assets/js/index.js:28-37 | defines generateStars' result: the first TripCount(count) stars, one per pass of the step-2 loop |
| `StarField.Field` | assets/js/index.js:29-35 | the list of the first n pushed stars has exactly n entries |
| `StarField.GenerateStars` | assets/js/index.js:28-37 | the loop returns exactly `Stars(count, inner, outer, draws)`, one star per pass, and consumes exactly 6·TripCount(count) draws |
| `StarField.FieldAt` | assets/js/index.js:30-34 | the k-th star is built from draws 6k … 6k + 5: three magnitudes, then three sign draws |
| `StarField.StarsInShell` | assets/js/index.js:31-34 | with draws in [0, 1) and 0 ≤ inner < outer, every coordinate of every star has absolute value in [inner, outer) |
| `StarField.StarSigns` | assets/js/index.js:34 | with inner > 0, each coordinate is negative exactly when its own sign draw exceeds 0.5, independently per axis |
| `StarField.StarCount` | assets/js/index.js:30 | the field has (count + 1) / 2 stars, because the counter steps by 2 |
| `StarField.SourceStarCount` | assets/js/index.js:9 | with 1000 as the star count, 500 stars are made from 3000 draws |
| `StarField.SourceStarShell` | assets/js/index.js:9-11 | with 1000 stars, radii 25 and 250 and draws from [0, 1): 500 stars, each coordinate with absolute value in [25, 250) |
| `RingRotation.Ceil` | assets/js/index.js:134 | `Math.ceil(x)` is the integer c with c − 1 < x ≤ c |
| `RingRotation.Not` | assets/js/index.js:134 | JavaScript `!`: on a number it is true exactly when the number is 0 (NaN is not modelled), on a boolean it negates |
| `RingRotation.StrictEquals` | assets/js/index.js:134 | `===` is never true for values of different types (a boolean and a number) |
| `RingRotation.SkipsRing` | assets/js/index.js:134 | the guard `!Math.ceil(int) === 1` is false for every draw |
| `RingRotation.RotateStep` | assets/js/index.js:133-135 | one pass of the loop body adds exactly 0.1 to the ring's rotation, whatever the draw |
| `RingRotation.Ring.constructor` | assets/js/index.js:93-96 | a ring mesh keeps its band's radii and starts unrotated |
| `RingRotation.Tick` | assets/js/index.js:132-136 | one tick adds exactly 0.1 to every ring's rotation.z; only the rings change, their radii are constant, and the list keeps its length and order |
| `RingRotation.Animate` | assets/js/index.js:130-136 | after t ticks, every ring's rotation.z has grown by exactly 0.1·t |

## Left out

- Scene assembly (assets/js/index.js:46-122): sphere, lobes, ring and star meshes, lights, fog, camera and orbit-control settings. These are calls into three.js with no semantics visible here. Only a ring mesh's radii and rotation are modelled (`Ring`).
- `thetaStart` (assets/js/index.js:13, 92). It only feeds a three.js geometry constructor.
- The resize handler (assets/js/index.js:124-128). It is window and DOM I/O.
- Frame scheduling with `setTimeout` and `requestAnimationFrame`, `controls.update()` and `renderer.render` (assets/js/index.js:131, 137-143). These are host timing and library calls. `Animate` stands for a finite run of ticks.
- Floating point. Radii, magnitudes and rotations are exact `real`s, so the rounding of `min + i·gap` and of repeated `+= 0.1` is not modelled. The real-valued `ringCount` is exact too.
- `Math.random` as a global source. It is replaced by explicit sequences of draws. `GenerateStars` requires enough draws for every star, and `Tick` requires exactly one draw per ring.
- JavaScript values other than booleans and finite numbers (`NaN`, infinities, strings). `Math.random()` never returns them, so `JsValue` and `Not` leave them out.
- `GenerateAcretionDisks`: requires gap > 0. With gap = 0 and max > min, `ringCount` is Infinity and the source's loop never ends; gap < 0 is outside what the source's constant gap of 0.01 exercises.
- `Tick`: requires the listed rings to be distinct objects, as the meshes the source pushes are. A ring listed twice would turn twice.
