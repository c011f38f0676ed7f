# Binaural panner core, modelled in Dafny

This project models the signal core of a family of LV2 binaural panner
plugins. Each plugin places its input sources on an arc in front of a
listener and renders them to two ears. Every source gets one integer delay
and one attenuation per ear.

The core has three parts:

- **Smoothing filters.** `movingaverage.hpp` and `triangularaverage.hpp`
  hold integers in three parallel circular arrays with a fill cursor and a
  read cursor. The flat filter keeps a box sum. The triangular filter keeps
  a slope accumulator fed by three taps at fixed offsets, and divides by
  `h(h + 1)` for half-window `h`.
- **The read-side panner (`pan.hpp`).** Every input is copied into its own
  ring buffer. Each output frame sums the inputs read `delay` frames back,
  each times its attenuation. After a change of geometry or window, the
  delays ramp through one triangular filter per ear and source. The filters
  are read in batches at fractional positions until a timer passes its
  overrun and the panner falls back to the plain delays.
- **The write-side panners (`pan9.cpp`, `pan5.cpp`).** Every source block,
  times its attenuation, is added into a stereo output ring buffer `delay`
  slots after the buffer pointer. This takes one or two passes. The output
  block is then read from the pointer and every slot read is cleared. One
  class (`ScatterPan.Panner`) serves both files. `Pan9` and `Pan5` supply
  the source count, the buffer size and the spacing clamp.

The modules, one per file:

| file | module | models |
|---|---|---|
| `modular.dfy` | `Modular` | helper lemmas on `%` |
| `movingaverage.dfy` | `MovingAverageFilter` | class `MovingAverage` and its specification on values |
| `triangularaverage.dfy` | `TriangularAverageFilter` | class `TriangularAverage`, its specification, the triangular-weighted window of any input and the settling of a constant input |
| `geometry.dfy` | `Geometry` | the spacing clamps, the angle layout and the attenuation normalisation of `update_data` |
| `scatterpan.dfy` | `ScatterPan` | the scatter-add delay line of `pan9.cpp` and `pan5.cpp` |
| `pan9.dfy`, `pan5.dfy` | `Pan9`, `Pan5` | per-file constants, construction, `update_data`, `getInterpolatedFrame` |
| `panbase.dfy` | `PanBase` | class `Pan` of `pan.hpp`, its ramp state machine and the mixing specifications |

How the source is modelled:

- Samples, attenuations and the scaled filter outputs are Dafny `real`s.
  The filters' integer histories are `int`s.
- Each class keeps the source's arrays as Dafny arrays and its cursors as
  fields.
- Each method is proved against a specification function over the arrays'
  contents: `Pushed`, `Landed`, `Mixed`, `Copied`, `SteadyMix`, `RampMix`,
  `Window`, `Cleared` and the like.
- Lemmas state what those functions guarantee: where every sample lands,
  which slots are cleared, coherence of the running sum, the settling of
  the triangular filter, the relative-delay shift, and the ramp state
  machine.

### Where the code departs from the behaviour its names and comments suggest (the model follows the code)

- **Product of the normalised attenuations.** The comment "Normalize
  attenuation" (pan.hpp:340) suggests a product of 1 afterwards. The code
  instead multiplies every attenuation by `1/P`, where `P` is the raw
  product (pan.hpp:340-345, pan9.cpp:280-285, pan5.cpp:239-244). For `N`
  sources the normalised product is then `P^(1-2N)`.
  `Geometry.ScaledProduct` proves the product for any factor, and
  `Geometry.NormalisedProduct` proves this form for `1/P`.
- **Spacing clamp.** The spacing angle `2 asin(pdist / 2r)` is defined only
  for `pdist <= 2r`. The three files guard that bound differently:
  - `pan.hpp` keeps `pdist` and sets the angle to π (pan.hpp:279). It also
    turns a zero radius into 0.01 (pan.hpp:276).
  - `pan9.cpp` cuts `pdist` to `2r` and sets the angle to 2π
    (pan9.cpp:227-232).
  - `pan5.cpp` replaces an oversize `pdist` by `r`, not `2r`, and always
    takes `2 asin` (pan5.cpp:190-191).
- **Rotation offset unit.** The comment at pan.hpp:297 says the offset is
  in degrees and must be converted, and `pan.hpp` converts it (pan.hpp:298).
  The nine- and five-source files add `a0` as it is (pan9.cpp:251,
  pan5.cpp:210).
- **Odd layout.** A symmetric layout of `CHANNELS` sources gives every
  source an angle. For an odd count the loop of `pan.hpp` runs only to
  `CHANNELS / 2` (pan.hpp:292), so the two outermost angles are never
  assigned. The other two files run to `(CHANNELS + 1) / 2`.
- **Filter taps.** The textbook recursive triangular filter updates its
  step from the new value and two delayed values. The code reads three
  delayed taps besides the new value (triangularaverage.hpp:103-106).
  `TriangularAverageFilter.WeightedWindow` proves that this update yields
  the triangular weights `1, 2, …, h, h, …, 2, 1` over the last `2h` values.

## Model

| member | source | states |
|---|---|---|
| MovingAverageFilter.MovingAverage.constructor | movingaverage.hpp:32-40 | the three arrays have capacity `size`, every slot is 0, and both cursors are 0 |
| MovingAverageFilter.MovingAverage.Clean | movingaverage.hpp:42-51 | every slot of `vecData`, `vecSum` and `vecSumScaled` is 0 and both cursors are 0 |
| MovingAverageFilter.MovingAverage.WriteSlot | movingaverage.hpp:75-81 | the slot takes the value; its sum is the previous slot's sum (the last slot for slot 0) minus the overwritten value plus the value; its scaled sum is that sum over `iSize` |
| MovingAverageFilter.MovingAverage.FillTo | movingaverage.hpp:84-93 | the non-wrapping loop writes the slots up to `target` in order, continuing the same run of writes |
| MovingAverageFilter.MovingAverage.FillAround | movingaverage.hpp:94-116 | the wrapping branch writes to the end, then slot 0, then up to the rescaled target, continuing the same run of writes |
| MovingAverageFilter.MovingAverage.PushData | movingaverage.hpp:54-117 | a length below 1 changes nothing; otherwise the arrays are `length` successive slot writes from the old fill cursor, `ptrFill` becomes `(old ptrFill + length) mod iSize`, and `ptrRead` is untouched |
| MovingAverageFilter.MovingAverage.PopData | movingaverage.hpp:120-123 | returns the scaled value under the read cursor after wrapping it from `iSize` to 0, then advances the cursor; no array changes and the cursor stays in `[0, iSize]` |
| MovingAverageFilter.MovingAverage.ReadData | movingaverage.hpp:126-132 | returns `vecSumScaled[(ptrRead + offset) mod iSize]` for any integer offset and changes nothing |
| MovingAverageFilter.MovingAverage.ResetPointers | movingaverage.hpp:134-137 | both cursors are 0 and the arrays are untouched |
| MovingAverageFilter.PushedData | movingaverage.hpp:75-116 | for `count <= n`, a push writes `value` into exactly the `count` slots from the fill cursor (mod `n`) and leaves every other data slot as it was |
| MovingAverageFilter.PushedSum | movingaverage.hpp:75-116 | each written slot's sum is the previous slot's sum minus the overwritten value plus `value`; the previous slot is read before the push for the first slot and as freshly written for later ones |
| MovingAverageFilter.CleanCoherent | movingaverage.hpp:42-51 | after `clean` the slot before the fill cursor holds the sum of all data, and every scaled slot is its sum over `n` |
| MovingAverageFilter.WriteCoherent | movingaverage.hpp:75-81 | one slot write keeps that coherence: the written slot holds the new total of the data |
| MovingAverageFilter.PushedCoherent | movingaverage.hpp:75-116 | a push of any length keeps coherence with the advanced fill cursor |
| MovingAverageFilter.PushedAverage | movingaverage.hpp:75-116 | after a push from a coherent state, the last written scaled slot is the sum of all stored values over `n` |
| TriangularAverageFilter.ClampedWindow | triangularaverage.hpp:55-58 | the window kept is even and at most `capacity - 1`; it is not above the request and at most one below it (or below `capacity - 1`); an even request below the capacity is kept as it is |
| TriangularAverageFilter.DefaultWindow | triangularaverage.hpp:47-49 | the default window is the floor of 95 % of the capacity: `20 w <= 19 size < 20 (w + 1)` |
| TriangularAverageFilter.TriangularAverage.constructor | triangularaverage.hpp:32-45 | the arrays have capacity `size`; the window is the clamped request, or the default window when the request is 0; the state is clean with both cursors at 0 |
| TriangularAverageFilter.TriangularAverage.ResetWindowSize | triangularaverage.hpp:47-49 | the window becomes the clamped default window and the filter is clean |
| TriangularAverageFilter.TriangularAverage.GetWindowSize | triangularaverage.hpp:51-53 | returns the window, which is even and below the capacity |
| TriangularAverageFilter.TriangularAverage.SetWindowSize | triangularaverage.hpp:55-68 | the window is `ClampedWindow(size, iSize)`; the offsets are `[-(W+1), -(W/2+1), -(W/2)]`; the scaling factor is `(1 + W/2)(W/2)`; the arrays, accumulator and cursors are clean |
| TriangularAverageFilter.TriangularAverage.Clean | triangularaverage.hpp:70-81 | the three arrays, `iStep` and both cursors are 0 |
| TriangularAverageFilter.TriangularAverage.Reduce | triangularaverage.hpp:83-86 | any integer is mapped to the congruent slot in `[0, iSize)` |
| TriangularAverageFilter.TriangularAverage.GetAbsPos | triangularaverage.hpp:92-95 | returns `position mod iSize` |
| TriangularAverageFilter.TriangularAverage.GetRelPos | triangularaverage.hpp:88-90 | returns `(position + ptrFill) mod iSize` |
| TriangularAverageFilter.TriangularAverage.Accumulated | triangularaverage.hpp:103-106 | the new accumulator is the old one plus the value plus the first tap minus the other two, all read before the slot is written |
| TriangularAverageFilter.TriangularAverage.Slots | triangularaverage.hpp:107-110 | returns the slot under the fill cursor and the slot before it, round the ring |
| TriangularAverageFilter.TriangularAverage.WriteSlot | triangularaverage.hpp:107-110 | the slot takes the value; its sum is the previous slot's sum plus the accumulator; its scaled sum is that over the scaling factor |
| TriangularAverageFilter.TriangularAverage.StepAt | triangularaverage.hpp:103-110 | one loop iteration is the specification's `Step` on the reduced fill cursor |
| TriangularAverageFilter.TriangularAverage.Fill | triangularaverage.hpp:101-111 | the loop performs `length` steps and leaves the unreduced fill cursor `length` further on |
| TriangularAverageFilter.TriangularAverage.PushData | triangularaverage.hpp:98-114 | a length below 1 is a no-op; otherwise `length` steps from the fill cursor, ending at `(old ptrFill + length) mod iSize` |
| TriangularAverageFilter.TriangularAverage.PopData | triangularaverage.hpp:117-120 | returns the scaled value under the read cursor after wrapping it from `iSize` to 0, then advances it; no array changes |
| TriangularAverageFilter.TriangularAverage.ReadData | triangularaverage.hpp:123-128 | returns `vecSumScaled[(ptrRead + offset) mod iSize]` and changes nothing |
| TriangularAverageFilter.TriangularAverage.ResetPointers | triangularaverage.hpp:130-133 | both cursors are 0 and the arrays are untouched |
| TriangularAverageFilter.PushedAppend | triangularaverage.hpp:98-114 | pushing `a` copies, then `b` more from where the first push left the cursor, is the same as pushing `a + b` copies at once |
| TriangularAverageFilter.SlopeValue | triangularaverage.hpp:103-106 | under a constant input from clean, the accumulator climbs by `c` for `h` pushes, falls back to 0 by push `2h + 1`, and stays there |
| TriangularAverageFilter.AreaRising | triangularaverage.hpp:109 | while the accumulator climbs, twice the running sum is `c t (t + 1)` |
| TriangularAverageFilter.AreaFalling | triangularaverage.hpp:109 | past the peak, twice the running sum follows the falling half of the triangle |
| TriangularAverageFilter.AreaFlat | triangularaverage.hpp:109 | once the window has passed, the running sum stays at `c h (h + 1)` |
| TriangularAverageFilter.ScaledExact | triangularaverage.hpp:60-67 | the scaling factor divides the settled sum `c h (h + 1)` back to exactly `c` |
| TriangularAverageFilter.ConstantHistory | triangularaverage.hpp:98-114 | for every number of pushes of a constant from clean, the data, the accumulator and the last written sum are as the settling description gives them |
| TriangularAverageFilter.ConstantSettles | triangularaverage.hpp:98-114 | for `W >= 2` and at least `W + 1` pushes of `c` from clean, the accumulator is 0, the last written sum is `c h (h + 1)`, and the scaled output there is exactly `c` |
| TriangularAverageFilter.PaddedNext | triangularaverage.hpp:103-109 | one more push adds to the triangular-weighted window exactly the sum of the `h` latest values minus the `h` values before the one that follows them |
| TriangularAverageFilter.SlotsApart | triangularaverage.hpp:83-95 | two positions fewer than `iSize` apart reduce to different slots, so a write never overwrites a value still in the window |
| TriangularAverageFilter.StreamStep | triangularaverage.hpp:103-110 | one loop iteration keeps the stream invariant: the last `n` slots hold the last `n` values, the accumulator is that difference of two runs, and the latest sum is the weighted window |
| TriangularAverageFilter.StreamHistory | triangularaverage.hpp:98-114 | from clean, every prefix of any input stream leaves that invariant |
| TriangularAverageFilter.PaddedWeighted | triangularaverage.hpp:70-81 | the zero history that `clean` leaves contributes nothing: the window over the first `t` values is the weighted sum of those alone |
| TriangularAverageFilter.WeightedWindow | triangularaverage.hpp:98-114 | for any input, the sum at the slot the latest push wrote is `Σ_{j < min(W, t)} w_j x_{t-1-j}` with weights `1, 2, …, h, h, …, 2, 1` from the newest, and the scaled output there is that sum over `(1 + h) h` |
| TriangularAverageFilter.StreamRun | triangularaverage.hpp:98-114 | `pushData(v, L)` in the middle of a stream equals `L` single pushes of `v`, so the weighted-window result covers pushes of any length |
| Geometry.BaseRadius | pan.hpp:276 | the radius used is never 0, and any non-zero radius is kept |
| Geometry.BaseClampDomain | pan.hpp:279 | for a positive radius, `asin` gets a ratio of at most 1, and the angle is a half turn exactly when the spacing exceeds the diameter |
| Geometry.NineClampDomain | pan9.cpp:227-232 | for a positive radius, the spacing left is at most the diameter and `asin`'s ratio is at most 1; a full turn happens exactly if the spacing exceeded the diameter; otherwise the spacing is kept |
| Geometry.FiveClampDomain | pan5.cpp:190-191 | for a positive radius, the spacing left is at most the diameter; an oversize spacing becomes the radius with ratio 1/2; otherwise the spacing is kept |
| Geometry.PlaceEven | pan.hpp:285-289 | the even loop gives source `h + i` the angle `(0.5 + i) alpha` and its mirror `h - 1 - i` the opposite angle |
| Geometry.PlaceOdd | pan9.cpp:243-249 | the odd loop puts the centre at 0 and `c +- i` at `+-(i alpha)` for `1 <= i < limit`; every other entry stays unassigned |
| Geometry.Displace | pan9.cpp:251 | every assigned angle is moved by the displacement and unassigned ones stay unassigned |
| Geometry.Layout | pan.hpp:285-298 | returns the even or odd placement moved by the displacement, with the odd loop's bound as a parameter |
| Geometry.PlacedEven | pan.hpp:285-289 | the even layout gives source `N/2 + i` the angle `(0.5 + i) alpha` and its mirror `N/2 - 1 - i` the opposite angle |
| Geometry.PlacedOdd | pan9.cpp:244-247 | the odd layout's centre is 0, and `c + i`, `c - i` get `i alpha` and `-(i alpha)` for every `i` below the bound |
| Geometry.PlacedOddOutside | pan.hpp:290-296 | an odd-layout entry beyond the loop bound is never assigned |
| Geometry.MirrorPlaced | pan9.cpp:238-249 | with the bound `(N + 1) / 2`, mirrored sources are both assigned and get opposite angles |
| Geometry.FullLayout | pan9.cpp:238-251 | with the bound `(N + 1) / 2` every angle is assigned, an odd layout's centre is at the displacement, and the layout is symmetric about it |
| Geometry.OuterAnglesUnassigned | pan.hpp:290-296 | with `pan.hpp`'s bound `N / 2` and odd `N >= 3`, exactly the two outermost angles stay unassigned |
| Geometry.EvenLayoutComplete | pan.hpp:285-289 | for an even count both loop bounds give the same complete layout |
| Geometry.ScaledProduct | pan.hpp:340-345 | scaling both ears by `k` multiplies the product of `n` sources by `(k^2)^n` |
| Geometry.NormalisedProduct | pan.hpp:340-345 | with the normalisation's factor `1/P` for a non-zero raw product `P` of `n` sources, the normalised product times `P^(2n)` is `P`, that is, the normalised product is `P^(1-2n)` and not 1 |
| Geometry.ScaledRatios | pan9.cpp:280-285 | the normalisation scales every attenuation by the same non-zero factor, so the ratio `x_i / y_j` of any two attenuations is the same before and after |
| ScatterPan.LandsAt | pan9.cpp:148-153 | sample `f` of a block written from `start` is added to slot `(start + f) mod n` |
| ScatterPan.LandsNowhereElse | pan9.cpp:148-153 | a slot that no sample of the block lands in keeps its value |
| ScatterPan.PlanFits | pan9.cpp:123-145 | for `ptr <= n` and `delay + nframes <= n`, there are one or two passes, each in range, taking the block in order without gaps; the pass sizes are non-negative and sum to `nframes` |
| ScatterPan.OnePassLands | pan9.cpp:124-129 | one pass from a start that fits before the end lands the block exactly as the ring-wrapped placement does |
| ScatterPan.TwoPassesLand | pan9.cpp:130-138 | the two passes of a block crossing the end land it exactly as the ring-wrapped placement does |
| ScatterPan.PlanLands | pan9.cpp:123-153 | in every case the planned passes add the block exactly at `(ptr + delay + f) mod n` and nowhere else |
| ScatterPan.MixedIsSum | pan9.cpp:120-188 | after all sources, each slot holds its old value plus every source's contribution (superposition) |
| ScatterPan.ClearedExactly | pan9.cpp:190-220 | a slot is set to 0 exactly when some frame of the output block reads it; every other slot keeps its value |
| ScatterPan.NextPtrBounds | pan9.cpp:191-220 | the buffer pointer stays in `[0, n]` and moves `nframes` on round the ring; it equals `n` only after a block ending exactly at the end of the buffer |
| ScatterPan.DrainOnePass | pan9.cpp:211-220 | the single read-and-clear pass returns the ring-wrapped window and clears exactly it |
| ScatterPan.DrainTwoPasses | pan9.cpp:191-210 | the two read-and-clear passes return the ring-wrapped window and clear exactly it |
| ScatterPan.Panner.constructor | pan9.cpp:27-38 | both output buffers have `bufferSize` slots; the per-source arrays have `count` entries |
| ScatterPan.Panner.Activate | pan9.cpp:88-94 | every slot of both buffers is 0 and the pointer is 0 (likewise pan5.cpp lines 50-56) |
| ScatterPan.Panner.AddPassTo | pan9.cpp:148-153 | one pass adds `input[inputStart + f] * gain` at `bufferStart + f` for `f < size` and changes nothing else |
| ScatterPan.Panner.ScatterAdd | pan9.cpp:121-153 | one side of one source: the block times the gain lands `delay` slots after the pointer, round the ring |
| ScatterPan.Panner.ScatterSource | pan9.cpp:121-187 | source `i` lands in the left buffer with `samples_l` and `attenuation_l`, and in the right one with `samples_r` and `attenuation_r` |
| ScatterPan.Panner.Scatter | pan9.cpp:120-188 | both buffers become the old contents with every source's block landed in order (likewise pan5.cpp lines 82-150) |
| ScatterPan.Panner.ReadClear | pan9.cpp:213-219 | one read-and-clear loop returns the `k` slots from the pointer, zeroes them and moves the pointer `k` on |
| ScatterPan.Panner.DrainWrapped | pan9.cpp:191-210 | a block past the end is read and cleared to the end and then from slot 0; the pointer ends at `ptr + nframes - n` |
| ScatterPan.Panner.DrainStraight | pan9.cpp:211-220 | a block before the end is read and cleared in one pass |
| ScatterPan.Panner.Drain | pan9.cpp:190-220 | the output is the pre-read contents at `(ptr + f) mod n`; exactly those slots are cleared; the pointer moves on as `NextPtr` gives it (likewise pan5.cpp lines 152-182) |
| ScatterPan.Panner.Run | pan9.cpp:112-220 | after the geometry, the output is the window of the mixed buffers; the mixed buffers are left cleared there; the pointer stays in range (likewise pan5.cpp lines 74-183) |
| ScatterPan.Panner.Store | pan9.cpp:258-278 | the delays and raw attenuations are stored and their product is built over both ears of every source |
| ScatterPan.Panner.Normalise | pan9.cpp:280-285 | every attenuation of both ears is multiplied by the same factor |
| ScatterPan.Panner.SetSources | pan9.cpp:256-285 | the delays are stored, and the attenuations become the raw ones times `1/P` for the raw product `P` |
| Pan9.Create | pan9.cpp:27-38 | a panner of nine sources with the buffer size given |
| Pan9.UpdateData | pan9.cpp:223-286 | the nine-source clamp, the full layout moved by `a0`, and the stored delays and normalised attenuations |
| Pan9.NineLayout | pan9.cpp:243-251 | all nine angles are assigned, the centre one is `a0`, and the layout is symmetric about it |
| Pan9.InterpolatedFrame | pan9.cpp:288-299 | as written, for any position above -1 (the base frame is the position truncated toward zero): `None` exactly past the last frame, and the last frame at exactly `nframes - 1` |
| Pan9.InterpolatedFrameAtWhole | pan9.cpp:295-297 | as written, at a whole position `k` before the last frame the result is frame `k + 1`, not frame `k` |
| Pan9.InterpolatedFrameCounterexample | pan9.cpp:295-297 | the frames `[0, 1]` read at position 0 give 1 |
| Pan9.InterpolatedFrameFixed | pan9.cpp:288-299 | with the weights the right way round, for any position above -1: `None` exactly past the last frame, and the last frame at `nframes - 1` |
| Pan9.InterpolatedBeforeStart | pan9.cpp:295-297 | at `-1 < i < 0` the position truncates to frame 0, and the result as written is `source[0] * i + source[1] * (1 - i)`, an extrapolation with a negative weight |
| Pan9.InterpolatedFixedBeforeStart | pan9.cpp:295-297 | at `-1 < i < 0` the corrected weights give `source[0] * (1 - i) + source[1] * i` |
| Pan9.InterpolatedBeforeStartExample | pan9.cpp:295-297 | the frames `[2, 4]` read at position `-0.5` give 5, outside the range of the frames |
| Pan9.InterpolatedFrameFixedExact | pan9.cpp:295-297 | the corrected interpolation returns the frame itself at every whole position, and otherwise a value between its two neighbours |
| Pan5.Create | pan5.cpp:6-12 | a panner of five sources with the fixed 10000-slot buffers |
| Pan5.UpdateData | pan5.cpp:185-245 | the five-source clamp, the five-angle layout moved by `a0`, and the stored delays and normalised attenuations |
| Pan5.FiveLayout | pan5.cpp:197-208 | before the displacement the five angles are `-2a, -a, 0, a, 2a` |
| PanBase.BatchSize | pan.hpp:67-69 | the batch size is 8, 4, 2 or 1, divides the sample rate, and is the largest of 8, 4, 2 that does |
| PanBase.RestartForgets | pan.hpp:189-220 | a change of geometry restarts the ramp with timer 0 whatever ran before; it stays active exactly if one block does not pass the overrun |
| PanBase.RampRuns | pan.hpp:213-220 | while the frames counted stay within `timerOverrun`, the ramp runs on and the timer grows by `nframes` per block |
| PanBase.RampEnds | pan.hpp:266-269 | once the frames counted pass `timerOverrun`, the ramp is off and the timer is back at 0 |
| PanBase.IdleStays | pan.hpp:213-270 | once the ramp is off and the controls are left alone, `runBase` never changes the ramp state again |
| PanBase.InterpolatedWhole | pan.hpp:168-185 | at a whole offset, the interpolated read equals `getInputValue`'s look-back |
| PanBase.FloorWrap | pan.hpp:175-181 | adding whole buffer lengths to the position changes neither its fraction nor its two slots |
| PanBase.CopiedExactly | pan.hpp:222-234 | frame `i` of an input lands in slot `(ptr + i) mod BUFFER_SIZE` and every other slot is left alone |
| PanBase.CopiedRow | pan.hpp:225-233 | the one- or two-pass copy loops leave the ring buffer as the ring-wrapped copy describes |
| PanBase.Least | pan.hpp:327-332 | the minimum is one of the delays and no delay is below it |
| PanBase.RelativeDelays | pan.hpp:325-338 | after the shift by the least delay, no delay is negative, one of them is 0, and every difference between a left and a right delay is kept |
| PanBase.RampMatchesSteady | pan.hpp:237-265 | once the smoothed delays are the whole delays, the ramping mix equals the steady mix |
| Geometry.Truncate | pan.hpp:193 | C++'s float-to-int conversion truncates toward zero: for `x >= 0` the result is the integer `k` with `k <= x < k + 1`, and for `x < 0` the one with `k - 1 < x <= k` |
| PanBase.PushedView | triangularaverage.hpp:98-114 | a filter after `pushData` as a value: the read cursor and window are kept; the fill cursor moves `length` on (mod `n`) or stays for a length below 1 |
| PanBase.PoppedView | triangularaverage.hpp:117-120 | a filter after `popData` as a value: only the read cursor moves, to the wrapped cursor plus one |
| PanBase.PushKeepsPace | pan.hpp:215-217 | a filter whose read cursor sat on its fill cursor is `length` slots behind after a push of `length` |
| PanBase.PopAdvance | pan.hpp:253-255 | pop number `b` reads slot `(p + b) mod n`; after `b` pops the cursor is `b` slots on, round the ring, and stays in `[0, n]` |
| PanBase.Pan.SyncedAfterPops | pan.hpp:251-255 | filters popped `b` times from `b` slots behind have their read and fill cursors congruent again |
| PanBase.Pan.PaceKept | pan.hpp:213-220 | after the push every filter's read cursor trails its fill cursor by `nframes / avgBatchSize`, round the ring |
| PanBase.Pan.constructor | pan.hpp:53-107 | sets up the batch size, `2 srate / avgBatchSize` filter slots with half of them as window, unit attenuations, zero delays, zeroed input buffers, the overrun `(batches / 2 + 2) avgBatchSize`, and a ramp about to start |
| PanBase.Pan.MakeFilters | pan.hpp:77-89 | each ear gets one filter per source, each `init(batches)` then `setWindowSize(batches / 2)`, owning its own arrays |
| PanBase.Pan.AddFilter | pan.hpp:83-88 | one more such filter is appended and the earlier ones are kept |
| PanBase.Pan.NewFilter | pan.hpp:84-85 | a fresh filter of `batches` slots, clean, with the window clamped from `batches / 2` |
| PanBase.Pan.ActivateBase | pan.hpp:139-152 | every input buffer is zeroed, every filter is cleaned with its window kept, the pointer and timer are 0, and a ramp is about to start |
| PanBase.Pan.ActivateSource | pan.hpp:141-148 | one source's buffer is zeroed and both its filters are cleaned; the others are as they were |
| PanBase.Pan.ZeroRow | pan.hpp:142-144 | one input's ring buffer is zeroed and the others are untouched |
| PanBase.Pan.CleanOne | pan.hpp:145-147 | one filter is cleaned and every other filter is as it was |
| PanBase.Pan.ChangeWindow | pan.hpp:189-199 | the window target is taken; every filter is set to the clamped `window * srate / avgBatchSize` and cleaned; the timer is 0 with overrun `(w + 2) avgBatchSize`; a ramp starts |
| PanBase.Pan.ResizeAll | pan.hpp:191-195 | every filter is set to the clamped window and cleaned |
| PanBase.Pan.ResizeOne | pan.hpp:193 | one filter is set to the clamped window and cleaned; every other filter is as it was |
| PanBase.Pan.PushAll | pan.hpp:213-220 | while ramping, each filter is pushed its current delay `nframes / avgBatchSize` times and the timer grows by `nframes`; otherwise nothing changes |
| PanBase.Pan.PushPair | pan.hpp:216-217 | both ears' filters of one source are pushed with their delays; the rest are as they were |
| PanBase.Pan.PushOne | pan.hpp:216 | one filter is pushed and every other filter is as it was |
| PanBase.Pan.PopOne | pan.hpp:255 | one filter is popped, its scaled value under the wrapped read cursor is returned, and every other filter is as it was |
| PanBase.Pan.GetInputValue | pan.hpp:157-166 | returns `inputBuffer[ch][(offset + ptr) mod BUFFER_SIZE]` for any integer offset, positive or negative |
| PanBase.Pan.GetInterpolatedValue | pan.hpp:168-185 | returns the linear interpolation between slots `floor(position) mod n` and the one after, weighted by the fraction |
| PanBase.Pan.BufferInput | pan.hpp:222-234 | every input's block is copied into its ring buffer from the pointer on, round the ring |
| PanBase.Pan.CopyChannel | pan.hpp:224-233 | one input's block is copied in one or two passes, and the other inputs are untouched |
| PanBase.Pan.StoreSources | pan.hpp:303-323 | the delays and raw attenuations are stored and their product is built |
| PanBase.Pan.SmallestDelay | pan.hpp:327-332 | returns a delay of either ear that no delay undercuts |
| PanBase.Pan.LowerDelays | pan.hpp:333-337 | the minimum is taken off every delay of both ears |
| PanBase.Pan.RelativeDelayStep | pan.hpp:325-338 | with `rel_delay > 0.5` every delay is lowered by the least delay; otherwise the delays are kept |
| PanBase.Pan.NormaliseAttenuations | pan.hpp:340-345 | every attenuation of both ears is multiplied by the same factor |
| PanBase.Pan.UpdateData | pan.hpp:275-349 | the clamp, the layout (outer two angles unassigned for an odd count), the stored delays (relative when asked), the attenuations times `1/P`, then timer 0 and a ramp |
| PanBase.Pan.SteadyFrame | pan.hpp:241-247 | one steady frame is the sum over sources of the input read `delay` frames back, times its attenuation |
| PanBase.Pan.SteadyAdd | pan.hpp:244-246 | one more source is added to the steady frame |
| PanBase.Pan.SteadyOutput | pan.hpp:239-249 | every frame below `nframes` of both ears is the steady mix; other frames are untouched |
| PanBase.Pan.PopEar | pan.hpp:255 | every filter of one ear is popped once, in source order, each giving its scaled value |
| PanBase.Pan.RampAdd | pan.hpp:259-261 | one more source, read at its fractional popped delay, is added to the ramping frame |
| PanBase.Pan.RampFrame | pan.hpp:257-262 | one ramping frame is the sum over sources of the interpolated input at the popped delay, times its attenuation |
| PanBase.Pan.RampBatch | pan.hpp:256-263 | every frame of one batch is that ramping frame for the batch's pops |
| PanBase.Pan.EarBatch | pan.hpp:253-264 | batch `b` of one ear pops every filter once, from where `b` pops left it, and mixes the batch at those delays |
| PanBase.Pan.RampEar | pan.hpp:252-264 | every whole batch of one ear is mixed at the pops of that batch, and each of the ear's read cursors moves `batches` on |
| PanBase.Pan.RampOutput | pan.hpp:250-265 | both ears are mixed batch by batch at the popped delays; frames of the incomplete last batch are untouched; the filters end synced again |
| PanBase.Pan.CheckOverrun | pan.hpp:266-269 | a timer above `timerOverrun` ends the ramp and resets the timer |
| PanBase.Pan.AdvancePointer | pan.hpp:271-272 | the pointer becomes `(old + nframes) mod BUFFER_SIZE` and stays in `[0, BUFFER_SIZE)` |
| PanBase.Pan.Retarget | pan.hpp:188-211 | a new window cleans every filter to it; a new geometry recomputes delays and attenuations; the ramp state is `Started` on the old one |
| PanBase.Pan.Feed | pan.hpp:213-234 | the push step, then the input copy |
| PanBase.Pan.Emit | pan.hpp:236-270 | the steady or ramping output, then the overrun check while ramping |
| PanBase.Pan.Render | pan.hpp:213-272 | the push, the input copy, the output and the pointer advance, with the ramp state `Ran` on the old one |
| PanBase.Pan.RunBase | pan.hpp:187-273 | one block: the ramp state is `Tick` of the old one; the delays, attenuations, input buffers, filters and output are as the steps above give them; the pointer moves `nframes` on |

## Left out

- The LV2 glue is not part of this model, because it only binds the plugin to its host. This covers:
  - `connect_port`/`connect_portBase` (pan.hpp:109-137, pan9.cpp:40-86, pan5.cpp:14-48);
  - the descriptor registrations;
  - `deactivate`;
  - `pan4.cpp`.
- The DAZ/FTZ CPU-mode calls (pan.hpp:29-30) and the destructors' `delete[]` are left out: they are process environment and memory management.
- The trigonometry, `sqrt`, `pow` and `round` of `update_data` are floating-point numerics. The spacing angle `alpha`, the displacement in radians, the integer delays and the raw attenuations they produce are parameters.
- The floating-point `BUFFER_SIZE` formula (pan.hpp:60, pan9.cpp:35) is a floating-point computation; the buffer size is a constructor parameter instead.
- The float window length `window * sample_rate / avgBatchSize` (pan.hpp:193) is a floating-point computation. It is modelled as an exact real product truncated toward zero (`Truncate`).
- Floating-point rounding is not modelled: samples, attenuations and scaled filter outputs are exact reals.
- Integer overflow of `int`, `long` and `uint32_t` is not modelled: integers are unbounded.
- PanBase.Pan.constructor: takes the sample rate from `srate`. The member `sample_rate` of `pan.hpp` is never assigned, although `BUFFER_SIZE`, the window length and the delays read it.
- PanBase.Pan.RampOutput: frames after the last whole batch, when `nframes` is not a multiple of the batch size, are stated to be unwritten. The source likewise does not write them (pan.hpp:214).
- `delayBuffer` (pan.hpp:381), the scratch array of popped delays, is a local sequence, because nothing outside one batch reads it.
- MovingAverageFilter.MovingAverage.PushData: requires `length <= iSize`, the limit the source's comment assumes. Longer pushes are not modelled.
- TriangularAverageFilter.TriangularAverage.PushData: requires a non-zero scaling factor. A window of 0 makes the source divide by 0.0 in floating point.
- PanBase.Pan.ChangeWindow: the same non-zero scaling factor is required of the new window (through `RunBase` and `Retarget`).
- Pan9.InterpolatedFrame (and `Pan9.InterpolatedFrameFixed`): requires `i > -1` and, for a negative `i` with `nframes >= 1`, at least two frames. At `i <= -1` the truncated base is negative and the source reads `source[base]` before the start of the buffer. At `-1 < i < 0` it reads `source[1]`. Both reads are undefined behaviour in C++ when they fall outside the buffer, so the model excludes them and covers every position the source reads defined memory at.
- PanBase.Pan.UpdateData: requires a non-zero raw attenuation product, which `1/P` divides by. `ScatterPan.Panner.SetSources`, `Pan9.UpdateData` and `Pan5.UpdateData` have the same requirement.
- ScatterPan.Panner.Run: requires `d + nframes <= BUFFER_SIZE` for every delay `d`, and `nframes <= BUFFER_SIZE`. This is narrower than the range where the source stays in bounds. The three branches at pan9.cpp:123-145, and likewise 157-179 for the right ear, stay inside the buffer exactly when `buffer_ptr + d + nframes <= 2 * BUFFER_SIZE`; past that, the wrapped pass writes beyond the end. The model's bound holds at every pointer position. It follows the sizing at pan9.cpp:35, which makes the buffer twice the delay of the largest distance.
- PanBase.Pan.RunBase: requires the output arrays to be distinct from the panner's own arrays. Aliasing between the host's ports and the plugin's buffers is not modelled.
- PanBase.Pan.RunBase: requires `nframes <= bufferSize`, and so do Render, Feed, BufferInput and CopyChannel. Past that bound, the wrapped copy at pan.hpp:229-232 writes the second part over the first. The pointer update at pan.hpp:271-272 also subtracts `BUFFER_SIZE` only once, so it could leave the pointer out of range.
- ScatterPan.Panner.constructor: the per-source arrays hold arbitrary values until the first `update_data`, as the uninitialised arrays of `pan9.cpp` do.
- The geometry targets and the comparison that triggers `update_data` in `pan9.cpp` and `pan5.cpp` (pan9.cpp:101-110, pan9.cpp:310-313, pan5.cpp:255-258) are not modelled: `Run` starts after the geometry step.

## Findings

| source | as written | input that shows it | evidently intended | confidence | as-written member | corrected member |
|---|---|---|---|---|---|---|
| pan9.cpp:295-297 | `getInterpolatedFrame` weights `source[base]` by the fraction and `source[base + 1]` by one minus the fraction, so the weights are reversed | `source = [0, 1]`, `nframes = 2`, `i = 0` gives 1 instead of `source[0] = 0` | `source[base] * (1 - frac) + source[base + 1] * frac`, which returns the frame itself at whole positions | high (not executed) | Pan9.InterpolatedFrameCounterexample | Pan9.InterpolatedFrameFixedExact |
