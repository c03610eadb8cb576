# musa, modelled in Dafny

musa is a desktop music player with an animated, audio-reactive
background, and it has a small Python backend for users and playlists.
This project models the player's core as Dafny modules, one per source file, and proves
properties about them. Numbers in `f32` are modelled as `real`. `sin`, `cos`, `exp`, `tanh` and
`sqrt` are a record of function values, `Numeric.Math`, constrained by the laws in
`Numeric.Lawful`. Clocks, the audio device and tag reading become parameters.

What is modelled:

- **Playback.** The sample ring buffer the audio thread fills (`VisBuffers`, `src/player/vis.rs`).
  The tapping source that feeds it (`Tap`, `src/player/tap.rs`). Playlist navigation, pausing and
  seeking of the player (`Playback`, `src/player/playback.rs`).
- **Waveform visualiser** (`Visualizer`, `src/app/visualizer.rs`). The per-frame pipeline runs a prefix
  sum of squares, then the backward hop walk over fast and slow windows, onset weighting, the
  90th-percentile gain control, soft saturation, Catmull-Rom resampling, two 1-2-1 blurs,
  attack/release integration and the final in-place smoothing pass.
- **Flow-field background.**
  - The 32-bit hash and `rand01` (`TimeRng`).
  - The seeded oscillator parameters (`Flow`).
  - The resolution-keyed grid cache, with its padded buffers, trig tables, triangle indices and blur (`Cache`).
  - The field evaluation (`Field`).
  - The numeric helpers and the least-squares plane fit (`PaintMath`).
  - The per-row bias (`Surface`).
  - The per-vertex shading (`Render`).
  - The driver that runs them in order (`Driver`).
- **App state.**
  - Frame timing, key handling and audio-reactive motion (`Reactivity` for the rules on values,
    `App.MusaApp` for the in-place updates, `src/app/update.rs`).
  - The theme transition animator (`ThemeAnimation`, `src/app/anim/state.rs`).
  - The configuration clamp and colour accessors (`Config`, `src/config/mod.rs`).
- **Library naming heuristics.**
  - Track scanning, the artist/title split and track-number stripping (`Tracks`, `src/track.rs`).
  - Album-title cleaning (`TextClean`, `src/util/text.rs`).
  - Path-based artist, album and disc inference (`PathHeuristics`).
  - Filename and tag precedence (`TrackMeta`).
  - Audio extensions and the home directory (`FsUtil`), and time formatting (`TimeFormat`).
- **The command-line player** (`Cli`, `src/main.rs`): command parsing, playlist collection, and the
  index and volume steps of its loop.
- **The backend models** (`Users`, `Playlists`): the user and playlist records and their
  builders.

`Chars`, `Paths` and `Sorting` model the standard-library operations the core relies on:
ASCII case folding, `trim` and `find`; `Path` components, `file_name`, `file_stem`, `extension`
and the ordering of paths; and `sort_by` and `select_nth_unstable`. `Wrappers` holds `Option` and
`Result`; `Colour` holds the colour types.

Where the program's tests and its code differ, the model follows the code:

- `test_create_valid_user` builds a user without an email or a password and expects success. The
  builder refuses that user for the missing email, and `Users.TestCreateValidUser` proves the refusal.

The superseded copies `src/app.rs`, `src/player.rs` and `src/config.rs` are cited only where the
module version is not part of this model (the `Player` struct and its constructor, `set_volume`,
`stop` and the position clock).

`src/track.rs:8-11` and `:146-149` call `crate::util::normalize_ws` and `clean_album_for_display`, which
only the superseded `src/util.rs` defines. The model uses the `src/util/text.rs` versions
(`TextClean.NormalizeWs`, `TextClean.CleanAlbumForDisplay`). The two `normalize_ws` differ on a name
whose only whitespace is not one of `_`, space, tab, line feed and carriage return (a lone form feed
or no-break space): `src/util.rs` collapses and trims it, `src/util/text.rs` returns the name unchanged.

The command-line loop (`Cli.Session`) starts from the constructor's state, with no sink.
`Cli.Session.Start` is the first `play_file` before the loop, whose error ends the program; a loop
begun without it moves on from the empty sink at once, so it is always run first.

## Model

| member | source | states |
|---|---|---|
| VisBuffers.Pushed | src/player/vis.rs:19-26 | below capacity the sample is appended; at capacity the oldest is dropped; the length never exceeds the capacity and the newest sample is last |
| VisBuffers.PushedAll | src/player/vis.rs:19-26 | a run of pushes on a buffer within capacity stays within capacity |
| VisBuffers.Recent | src/player/vis.rs:27-31 | the window holds `min(n, len)` samples |
| VisBuffers.PushedIsRecent | src/player/vis.rs:19-26 | one push keeps exactly the newest `cap` samples of the old contents and the new sample |
| VisBuffers.PushedAllKeepsNewest | src/player/vis.rs:19-26 | after any run of pushes the buffer holds exactly the newest `cap` samples of everything it has seen |
| VisBuffers.RecentOfRecent | src/player/vis.rs:22-25 | windowing, appending and windowing again equals windowing once |
| VisBuffers.SilenceFillsWindow | src/player/vis.rs:27-31 | after `cap >= 4096` silent samples the latest 4096 are all zero |
| VisBuffers.VisBuffer.constructor | src/player/vis.rs:13-18 | a new buffer is empty with the given capacity |
| VisBuffers.VisBuffer.Push | src/player/vis.rs:19-26 | the deque becomes `Pushed` of the old deque, and the capacity invariant is kept |
| VisBuffers.VisBuffer.TakeRecent | src/player/vis.rs:27-31 | the reversed-take-reversed walk returns the newest `min(n, len)` samples in chronological order, and nothing for `n == 0` |
| Tap.TapSource.constructor | src/player/tap.rs:11-16 | the tap wraps the given source and shares the given buffer |
| Tap.TapSource.Next | src/player/tap.rs:24-29 | the tap returns what the wrapped source returns and pushes exactly that sample, if any, into the buffer |
| Tap.TapSource.Channels | src/player/tap.rs:39-41 | the channel count is the wrapped source's |
| Tap.TapSource.SampleRate | src/player/tap.rs:42-44 | the sample rate is the wrapped source's |
| Tap.TapSource.CurrentFrameLen | src/player/tap.rs:36-38 | the frame length is the wrapped source's |
| Tap.TapSource.TotalDuration | src/player/tap.rs:45-47 | the total duration is the wrapped source's |
| Tap.TapSource.Pull | src/player/tap.rs:24-29 | pulling `k` samples hands on the first `min(k, left)` samples unchanged, and the buffer ends with the newest `cap` of all it has seen |
| Tap.FreshBufferAfterPulls | src/player/tap.rs:24-29 | a fresh buffer after a run of pulls holds the newest `cap` pulled samples, in order |
| Playback.NextIndex | src/player/playback.rs:65 | the next index stays in range, steps by one, and wraps from the last track to the first |
| Playback.PrevIndex | src/player/playback.rs:73-77 | the previous index stays in range, steps back by one, and wraps from the first track to the last |
| Playback.PrevUndoesNext | src/player/playback.rs:61-79 | stepping back undoes stepping forward and the other way round |
| Playback.AfterPlay | src/player/playback.rs:16-30 | with no current track nothing is done and the result is success; a decoder error changes nothing; a sink error records the total, leaves the player stopped and keeps the position base; a successful start records the total, plays from `pos` and starts the clock; the index never changes |
| Playback.Stepped | src/player/playback.rs:61-79 | an empty playlist is success with nothing done; otherwise the index moves with wrap-around and the new track starts |
| Playback.SteppedInRange | src/player/playback.rs:61-79 | a step keeps the index inside a non-empty playlist, and a successful start plays from the beginning |
| Playback.Toggled | src/player/playback.rs:36-52 | without a sink nothing changes; otherwise the paused flag flips and only the position fields move |
| Playback.PauseKeepsPosition | src/player/playback.rs:41-49 | pausing folds the elapsed time into the base, so the position is unchanged and the clock stops |
| Playback.PausedPositionFrozen | src/player.rs:88-93 | while paused the position is the base, whatever the clock says |
| Playback.ResumeContinues | src/player/playback.rs:38-40 | resuming continues from the paused position, and the position then grows with elapsed time |
| Playback.Player.constructor | src/player.rs:47-60 | a new player has no playlist, full volume, no sink, a stopped clock and an empty visualiser buffer of capacity 96000 |
| Playback.Player.SetVolume | src/player.rs:95-100 | the volume is clamped into `[0, 2]` and nothing else changes |
| Playback.Player.Stop | src/player.rs:102-108 | the sink is dropped and the clock stops; nothing else changes |
| Playback.Player.PlayCurrentFrom | src/player/playback.rs:16-30 | the new state and result are `AfterPlay` of the old state |
| Playback.Player.TogglePause | src/player/playback.rs:36-52 | the new state is `Toggled` of the old state |
| Playback.Player.SeekToSecs | src/player/playback.rs:54-59 | a non-finite or negative position is ignored with success; otherwise the track restarts at that position |
| Playback.Player.Next | src/player/playback.rs:61-67 | the new state and result are a forward `Stepped`, and the index stays in range |
| Playback.Player.Prev | src/player/playback.rs:69-79 | the new state and result are a backward `Stepped`, and the index stays in range |
| Playback.Player.AutoAdvanceIfNeeded | src/player/playback.rs:81-93 | nothing happens unless the sink has run dry on a non-empty playlist; then the same track restarts under repeat-one, otherwise the next one (with wrap-around) |
| Visualizer.CatmullRomConstant | src/app/visualizer.rs:4-11 | four equal control points give that value at every parameter |
| Visualizer.CatmullRomInterpolates | src/app/visualizer.rs:4-11 | the spline passes through `y1` at 0 and `y2` at 1 |
| Visualizer.P90InPlace | src/app/visualizer.rs:14-29 | never below `1e-4`; exactly `1e-4` for an empty buffer |
| Visualizer.P90Rank | src/app/visualizer.rs:19-25 | on a non-empty buffer: the value of rank `min(floor(0.9 len), len - 1)` in ascending order, raised to `1e-4`, so a value of the buffer or the floor |
| Visualizer.BandHeight | src/app/visualizer.rs:34 | the band is between 80 and 200 high |
| Visualizer.BandNeverTooShort | src/app/visualizer.rs:39-41 | the band is never below 40, so that early return never fires |
| Visualizer.FastWindow | src/app/visualizer.rs:54 | the fast window lies in `[32, 256]` |
| Visualizer.SlowWindow | src/app/visualizer.rs:55 | the slow window lies in `[fast_w + 8, 2048]` and is always exactly `4 fast_w` |
| Visualizer.Hop | src/app/visualizer.rs:56 | the hop is at least 12 and always exactly half the fast window |
| Visualizer.SatSub | src/app/visualizer.rs:91-96 | `saturating_sub`: the difference, or 0 when it would be negative |
| Visualizer.PeakAbsBounds | src/app/visualizer.rs:82-88 | no sample of the window exceeds its peak in magnitude |
| Visualizer.PeakAbsAttained | src/app/visualizer.rs:82-88 | the peak of a non-empty window is the magnitude of one of its samples |
| Visualizer.SumSqWindow | src/app/visualizer.rs:79-93 | the squares of a window are the difference of two prefix sums |
| Visualizer.HopIdx | src/app/visualizer.rs:76-96 | the walk's index never exceeds the sample count |
| Visualizer.HopIdxMonotone | src/app/visualizer.rs:96 | the walk only moves backwards |
| Visualizer.Onset | src/app/visualizer.rs:104-108 | one value per position: 75% of the fast value plus 60% of its rise over the slow one |
| Visualizer.InvNorm | src/app/visualizer.rs:125-126 | `1 / tanh(1.8)` exceeds 1 |
| Visualizer.SaturateZero | src/app/visualizer.rs:121-129 | a zero value stays zero through the gain and the knee |
| Visualizer.SaturateBounded | src/app/visualizer.rs:127-129 | the knee maps every value into `(-inv_norm, inv_norm)` |
| Visualizer.Saturate | src/app/visualizer.rs:121-129 | each value is scaled by the gain and then bent by `tanh(1.8 v) inv_norm` |
| Visualizer.ResampleIdx | src/app/visualizer.rs:133-140 | the four clamped control-point indices are valid indices of the values |
| Visualizer.ResampleConstant | src/app/visualizer.rs:131-145 | constant values resample to that constant on every bar |
| Visualizer.Blur | src/app/visualizer.rs:149-155 | a pass keeps both ends and sets every interior bar to `0.25 prev + 0.5 cur + 0.25 next` of the pass's input |
| Visualizer.BlurWithin | src/app/visualizer.rs:149-155 | a blur pass keeps every bar within the input's range |
| Visualizer.Integrate | src/app/visualizer.rs:163-168 | each bar follows its target with `a_up` when rising and `a_dn` otherwise, and ends between its old value and the target |
| Visualizer.SmoothUpToShape | src/app/visualizer.rs:170-172 | the final pass reads the already smoothed left neighbour and the untouched right one; bars not yet visited are unchanged |
| Visualizer.MaxAbs | src/app/visualizer.rs:170-172 | bounds every bar in magnitude |
| Visualizer.SmoothUpToBounded | src/app/visualizer.rs:170-172 | bars bounded by `b` in magnitude stay so through the final smoothing |
| Visualizer.Reversed | src/app/visualizer.rs:101-102 | `Vec::reverse`: entry `i` is entry `len - 1 - i` of the input |
| Visualizer.ReversedTwice | src/app/visualizer.rs:101-102 | reversing twice gives the input back |
| Visualizer.PrefixSquares | src/app/visualizer.rs:70-73 | entry `i` of the result is the sum of the squares of the first `i` samples |
| Visualizer.PeakOf | src/app/visualizer.rs:82-88 | the loop computes the peak magnitude of the window |
| Visualizer.FastValue | src/app/visualizer.rs:78-89 | the fast value at `idx` is `0.65 rms + 0.35 peak` of the window before `idx` |
| Visualizer.SlowValue | src/app/visualizer.rs:91-94 | the slow value is the rms of the up to `slow_w` samples before `idx` |
| Visualizer.FastRunAt | src/app/visualizer.rs:76-97 | entry `j` of the fast run is the fast value at the `j`-th hop position |
| Visualizer.SlowRunAt | src/app/visualizer.rs:76-97 | entry `j` of the slow run is the slow value at the `j`-th hop position |
| Visualizer.HopValues | src/app/visualizer.rs:78-94 | one step of the walk appends exactly the values at its position |
| Visualizer.HopWalk | src/app/visualizer.rs:76-97 | at most `n` values, the same number of fast and slow ones, each the value at its hop position; the walk stops when the fast window no longer fits |
| Visualizer.ResampleBars | src/app/visualizer.rs:131-145 | bar `k` is the Catmull-Rom curve through the values at `k (m - 1)/(n - 1)` |
| Visualizer.BlurPass | src/app/visualizer.rs:149-155 | the in-place pass, with `prev` saved, computes `Blur` of its input |
| Visualizer.IntegrateBars | src/app/visualizer.rs:163-168 | the loop computes `Integrate` |
| Visualizer.FinalSmooth | src/app/visualizer.rs:170-172 | the loop leaves the smoothing of every interior bar |
| Visualizer.Resampled | src/app/visualizer.rs:131-145 | `n` bars, bar `k` resampled from the values |
| Visualizer.Resized | src/app/visualizer.rs:49-52 | `resize(n, 0.0)`: the old bars followed by zeros up to `n` |
| Visualizer.ResizedMaxAbs | src/app/visualizer.rs:49-52 | padding with zeros adds no larger bar |
| Visualizer.SilentWindows | src/app/visualizer.rs:78-94 | over silent samples every fast and slow value is 0 |
| Visualizer.SilentRuns | src/app/visualizer.rs:76-97 | over silent samples the whole walk yields zeros |
| Visualizer.SilentShaped | src/app/visualizer.rs:104-129 | silent values stay silent through onset weighting, gain and knee |
| Visualizer.SilentTarget | src/app/visualizer.rs:131-156 | silent values resample and blur to silent targets |
| Visualizer.BarsTowardSilence | src/app/visualizer.rs:158-172 | integrating toward silent targets and smoothing never raises the largest bar |
| Visualizer.OnsetValues | src/app/visualizer.rs:104-108 | the loop computes `Onset` |
| Visualizer.GainAndKnee | src/app/visualizer.rs:121-129 | the two in-place loops compute `Saturate` |
| Visualizer.GainTarget | src/app/visualizer.rs:117 | the gain target lies between the gain bounds |
| Visualizer.VisualizerState.constructor | src/app/pages/mod.rs:45-59 | `n_points` silent bars, empty scratch buffers, envelope 0.05, gain 1.0, target 0.55, gain bounds 0.8 and 3.0 |
| Visualizer.VisualizerState.DrawVisualizerBg | src/app/visualizer.rs:31-173 | with fewer than 512 recent samples nothing changes; otherwise the bars are grown to at least 120 and one frame runs; silent input never raises the largest bar; the gain settings stay |
| Visualizer.VisualizerState.Frame | src/app/visualizer.rs:58-172 | fewer than 8 walk positions leave the bars alone, otherwise the state is the shaped frame; silent input never raises the largest bar |
| Visualizer.VisualizerState.Shape | src/app/visualizer.rs:101-172 | from the walk's values to the new envelope, gain, targets and bars |
| Visualizer.VisualizerState.UpdateGain | src/app/visualizer.rs:110-119 | the envelope follows the 90th percentile with `alpha(dt, 0.8)`, the gain follows the clamped target ratio with `alpha(dt, 0.25)`; the bars and values are untouched |
| Visualizer.Extract | src/app/visualizer.rs:70-97 | the prefix sums and the walked fast and slow values; silent samples give silent values |
| Visualizer.Settle | src/app/visualizer.rs:131-172 | the targets are the twice-blurred resampling and the bars the smoothed integration toward them; silent values never raise the largest bar |
| TimeRng.UnhashHash | src/app/anim/time_rng.rs:11-18 | every step of `hash1` is undone by its inverse, so no two seeds collide and the seed can be read back from the hash |
| TimeRng.HashUnhash | src/app/anim/time_rng.rs:11-18 | every 32-bit word is the hash of some seed: `hash1` is onto |
| TimeRng.Hash1Injective | src/app/anim/time_rng.rs:11-18 | two seeds have the same hash exactly when they are equal |
| TimeRng.Hash1Zero | src/app/anim/time_rng.rs:11-18 | seed 0 hashes to 0 |
| TimeRng.XorShift16Twice | src/app/anim/time_rng.rs:13 | the `x ^= x >> 16` step applied twice is the identity on 32-bit words |
| TimeRng.UnXorShift15Left | src/app/anim/time_rng.rs:15 | the `x ^= x >> 15` step is undone by `y ^ (y >> 15) ^ (y >> 30)` |
| TimeRng.UnXorShift15Right | src/app/anim/time_rng.rs:15 | and that inverse is undone by the step, so the step is a bijection on words |
| TimeRng.MulInverse | src/app/anim/time_rng.rs:14-16 | a `wrapping_mul` by a constant is undone by its inverse modulo 2^32 |
| TimeRng.Rand01 | src/app/anim/time_rng.rs:20-23 | `rand01` lies in the closed unit interval |
| TimeRng.Rand01Endpoints | src/app/anim/time_rng.rs:20-23 | both ends are reached: 0 from seed 0 and 1 from the seed that hashes to `u32::MAX` |
| Flow.OscSeedChecked | src/app/anim/flow.rs:19 | the `u32` product `(i + 1) * 0x9E37_79B9` as written has a value exactly when it fits in 32 bits |
| Flow.OscSeedOverflows | src/app/anim/flow.rs:19 | for every oscillator after the first the product overflows, so a build with overflow checks panics |
| Flow.OscSeed | src/app/anim/flow.rs:19 | the per-oscillator seed with a wrapping product agrees with the checked product whenever that one fits |
| Flow.OscSeedsDistinct | src/app/anim/flow.rs:18-19 | the four oscillators get four distinct seeds |
| Flow.Angle | src/app/anim/flow.rs:20 | the wave direction lies in `[0, TAU]` |
| Flow.Mag | src/app/anim/flow.rs:21 | the wave-vector length lies in `[0.22, 0.48]` |
| Flow.Speed | src/app/anim/flow.rs:24 | the angular speed lies in `[0.015, 0.045]` |
| Flow.Phase | src/app/anim/flow.rs:25 | the phase lies in `[0, TAU]` |
| Flow.Warp | src/app/anim/flow.rs:33 | the warp lies in `[0.008, 0.020]` |
| Flow.Params | src/app/anim/flow.rs:12-35 | the parameters are a function of the seed alone: four oscillators, each wave vector `mag * (cos ang, sin ang)`, its speed and phase, and the warp |
| Flow.ParamsInRange | src/app/anim/flow.rs:18-33 | every wave vector has length `Mag` in `[0.22, 0.48]`; speeds, phases and the warp lie in their ranges |
| Flow.MakeParams | src/app/anim/flow.rs:12-35 | the loop over the four oscillators fills exactly the parameters `Params` describes |
| Cache.Src | src/app/anim/paint/cache.rs:101-121 | the cell a ghost cell copies from is an interior cell of the padded buffer |
| Cache.SrcInterior | src/app/anim/paint/cache.rs:101-121 | an interior cell is its own source: padding never overwrites the interior |
| Cache.PaddedCell | src/app/anim/paint/cache.rs:101-121 | after padding, cell `(r, c)` holds the interior cell with row and column clamped into the interior: ghost rows repeat the first and last rows, ghost columns the first and last columns, corners the interior corners |
| Cache.PaddedBeyond | src/app/anim/paint/cache.rs:101-121 | padding leaves everything past the padded area alone |
| Cache.PaddedIdempotent | src/app/anim/paint/cache.rs:101-121 | padding twice is padding once |
| Cache.StageComplete | src/app/anim/paint/cache.rs:101-121 | once the three write phases are done the buffer is exactly the padded original |
| Cache.TopBottomStep | src/app/anim/paint/cache.rs:104-109 | one iteration of the first loop pads column `i` of the top and bottom ghost rows and keeps the loop invariant |
| Cache.SideStep | src/app/anim/paint/cache.rs:110-115 | one iteration of the second loop pads row `j` of the side ghost columns and keeps the loop invariant |
| Cache.CornerStep | src/app/anim/paint/cache.rs:117-120 | each corner write copies the interior corner next to it and keeps the invariant |
| Cache.FillPadding | src/app/anim/paint/cache.rs:101-121 | the array after `fill_padding_for` is `Padded` of the array before |
| Cache.PadCorners | src/app/anim/paint/cache.rs:117-120 | the four corner writes complete the padding |
| Cache.Smoothed | src/app/anim/paint/cache.rs:130-136 | the filtered buffer has the length of the destination |
| Cache.BlurPass | src/app/anim/paint/cache.rs:128-146 | one pass keeps both buffer lengths |
| Cache.BlurN | src/app/anim/paint/cache.rs:123-147 | any number of passes keeps both buffer lengths |
| Cache.PaddedIn | src/app/anim/paint/cache.rs:101-121 | padding copies interior values only, so the padded area stays in the interior's range |
| Cache.SmoothedIn | src/app/anim/paint/cache.rs:134 | the 1-2-1 filter of values in `[lo, hi]` lies in `[lo, hi]` |
| Cache.BlurPassIn | src/app/anim/paint/cache.rs:128-146 | one pass keeps every interior value within the range of the interior before it, so a constant field is a fixed point |
| Cache.BlurNIn | src/app/anim/paint/cache.rs:123-147 | the range bound holds over any number of passes |
| Cache.BlurPassStaleRing | src/app/anim/paint/cache.rs:138-146 | after a pass every ghost cell of the field still holds the nearest interior value from before the vertical half, not after it |
| Cache.SmoothStep | src/app/anim/paint/cache.rs:132-134 | one iteration of a filter loop writes the filter of cell `(j, i)` and keeps the invariant |
| Cache.SmoothDone | src/app/anim/paint/cache.rs:130-136 | a finished filter loop leaves exactly `Smoothed` |
| Cache.Smooth | src/app/anim/paint/cache.rs:130-145 | the filter loop over the interior leaves the destination array equal to `Smoothed` of the source and the old destination |
| Cache.ResizeAt | src/app/anim/paint/cache.rs:50-51 | `resize` keeps the old prefix and fills the new tail with zeros |
| Cache.GridProps | src/app/anim/paint/cache.rs:52-57 | the grid coordinates run from 0 to 1 in equal steps of `1/n` and are symmetric about 1/2 |
| Cache.TableAt | src/app/anim/paint/cache.rs:63-80 | each table slot holds the sine or cosine of the scaled coordinate |
| Cache.Indices | src/app/anim/paint/cache.rs:88-98 | the triangle list has six entries per cell |
| Cache.IndicesCell | src/app/anim/paint/cache.rs:90-97 | cell `(i, j)` owns entries `6 (j nx + i)` to `+6`, the two triangles `i0, i2, i1` and `i1, i2, i3` of that cell |
| Cache.TrisBound | src/app/anim/paint/cache.rs:90-97 | every index names one of the `cols * rows` vertices |
| Cache.FillCoords | src/app/anim/paint/cache.rs:50-57 | the coordinate loop writes `i / n` into every slot |
| Cache.FillTables | src/app/anim/paint/cache.rs:59-80 | the table loops resize the tables to the coordinates and fill them with the sines and cosines of the scaled coordinates |
| Cache.BuildIndices | src/app/anim/paint/cache.rs:88-98 | the index loop builds exactly the triangle list `Indices` |
| Cache.BuildMesh | src/app/anim/paint/cache.rs:45-98 | rebuilding for a new key leaves a mesh shaped for `nx` by `ny` cells with tables of its coordinates |
| Cache.BgCache.constructor | src/app/anim/paint/cache.rs:26-38 | a new cache has key `(0, 0)`, empty buffers, and two distinct field buffers |
| Cache.BgCache.Ensure | src/app/anim/paint/cache.rs:40-99 | with the stored key nothing changes; otherwise the key is stored, the mesh rebuilt and the field buffers resized keeping their old prefix |
| Cache.BgCache.BlurIso | src/app/anim/paint/cache.rs:123-147 | the field and scratch buffers become `BlurN` of their old contents |
| Field.Phases | src/app/anim/paint/field.rs:19-21 | the four time phases, each `w[i] t TAU + ph[i]`; the detail layer's are taken at `0.97 t` |
| Field.UnitCircle | src/app/anim/paint/field.rs:23-26 | `sin` and `cos` lie in `[-1, 1]` and their squares sum to 1 |
| Field.Negate | src/app/anim/paint/field.rs:23-26 | `cos(-x) == cos(x)` and `sin(-x) == -sin(x)`, derived from the addition laws alone |
| Field.SinSum | src/app/anim/paint/field.rs:36 | `sin(a) cos(b) + cos(a) sin(b) == sin(a + b)`: the rotation the tabled factors use |
| Field.CosDiff | src/app/anim/paint/field.rs:35 | `cos(a) cos(b) + sin(a) sin(b) == cos(a - b)` |
| Field.Scaled | src/app/anim/paint/field.rs:45-46 | a product of two factors in `[-1, 1]` times the warp amplitude is at most the amplitude in size |
| Field.WarpBound | src/app/anim/paint/field.rs:45-46 | each warp displacement is at most the warp amplitude in size |
| Field.Layer | src/app/anim/paint/field.rs:45-59 | a warped layer of the field lies in `[-1, 1]` |
| Field.IsoAt | src/app/anim/paint/field.rs:61 | the stored vertex value lies in `[-1, 1]` |
| Field.IsoUnclamped | src/app/anim/paint/field.rs:61 | the 0.6/0.4 blend of two layers already lies in `[-1, 1]`, so the clamp never changes it |
| Field.ColumnForms | src/app/anim/paint/field.rs:23-43 | the table entries of column `i` rotated by the time angles `0.6t` and `0.5t` equal `sin(0.9u + 0.6t)` and `cos(0.6u - 0.5t)` |
| Field.RowForms | src/app/anim/paint/field.rs:25-36 | the table entries of row `j` rotated by `0.4t` and `0.3t` equal `cos(0.7v - 0.4t)` and `sin(0.8v + 0.3t)` |
| Field.RotSin | src/app/anim/paint/field.rs:36 | a tabled pair `(sin x, cos x)` rotated by `y` gives `sin(x + y)` |
| Field.RotCos | src/app/anim/paint/field.rs:35 | a tabled pair rotated back by `y` gives `cos(x - y)` |
| Field.Filled | src/app/anim/paint/field.rs:28-63 | the filled buffer has the input's length |
| Field.FilledCells | src/app/anim/paint/field.rs:28-63 | every vertex `(i, j)` gets the blended field at `(u[i], v[j])` in cell `(j + 1, i + 1)`; ghost cells and the slack keep their values; every vertex value lies in `[-1, 1]` |
| Field.FillStep | src/app/anim/paint/field.rs:40-61 | one write of the inner loop advances the fill by exactly one vertex |
| Field.FillDone | src/app/anim/paint/field.rs:28-63 | when both loops end the buffer is `Filled` |
| Field.CellValue | src/app/anim/paint/field.rs:45-61 | the value computed from the rotated table factors and the detail layer's shifted coordinates is the field `IsoAt` at the vertex |
| Field.Vertex | src/app/anim/paint/field.rs:45-61 | the inner loop's body stores the field value at the vertex |
| Field.FillIso | src/app/anim/paint/field.rs:9-64 | the field buffer afterwards is `Filled` of the old one: every vertex holds its field value and nothing else changes |
| PaintMath.HermiteBounds | src/app/anim/paint/math.rs:13 | the Hermite step `t t (3 - 2t)` stays in `[0, 1]` on `[0, 1]` |
| PaintMath.SmoothstepInv | src/app/anim/paint/math.rs:10-15 | the result lies in `[0, 1]`, is 1 up to `edge0` and 0 from `edge1` on |
| PaintMath.Mirror01 | src/app/anim/paint/math.rs:17-25 | the result lies in `[0, 1]` |
| PaintMath.Mirror01Identity | src/app/anim/paint/math.rs:17-25 | `mirror01` is the identity on `[0, 1]` |
| PaintMath.Mirror01Periodic | src/app/anim/paint/math.rs:17-25 | `mirror01` has period 2 |
| PaintMath.Mirror01Even | src/app/anim/paint/math.rs:17-25 | `mirror01` is even |
| PaintMath.PrecomputeWtph | src/app/anim/paint/math.rs:27-34 | the loop fills the four phases `w[i] t TAU + ph[i]` |
| PaintMath.WtphFrozen | src/app/anim/paint/math.rs:31 | at time 0 each phase is the oscillator's own phase |
| PaintMath.WaveBound | src/app/anim/paint/math.rs:40-43 | each wave term lies in `[-1, 1]` |
| PaintMath.FlowFourSines | src/app/anim/paint/math.rs:36-45 | the result lies in `[-1, 1]` |
| PaintMath.FourSinesUnclamped | src/app/anim/paint/math.rs:44 | the weighted sum divided by the weight total already lies in `[-1, 1]`, so the clamp never changes it |
| PaintMath.P90Abs | src/app/anim/paint/math.rs:47-56 | 0 for no samples; otherwise the magnitude of one of the samples, never negative |
| PaintMath.P90AbsOfMagnitudes | src/app/anim/paint/math.rs:52-55 | on non-negative samples the result is the sample of rank `floor(0.9 len)` (clamped to the last index) in sorted order |
| PaintMath.Cramer | src/app/anim/paint/math.rs:93-99 | the slopes computed by Cramer's rule solve the two normal equations |
| PaintMath.PlaneFrom | src/app/anim/paint/math.rs:93-101 | the plane passes through the mean at the centre `(0.5, 0.5)`; a near-singular system gives the flat plane; otherwise the slopes solve the normal equations |
| PaintMath.SumPass | src/app/anim/paint/math.rs:67-74 | the first loop sums exactly the grid vertices |
| PaintMath.MomentPass | src/app/anim/paint/math.rs:77-91 | the second loop accumulates exactly the moments about `(0.5, 0.5, mean)` |
| PaintMath.FitPlaneForWarpPadded | src/app/anim/paint/math.rs:58-102 | the loops compute exactly the plane `Fit` describes |
| PaintMath.FitIs | src/app/anim/paint/math.rs:58-102 | the fit is the plane built from the mean and the moments |
| PaintMath.MeanFlat | src/app/anim/paint/math.rs:67-75 | the mean of a flat field is its value |
| PaintMath.FlatFit | src/app/anim/paint/math.rs:58-102 | a flat field fits the flat plane at its own height, whatever the coordinates |
| PaintMath.FitInteriorOnly | src/app/anim/paint/math.rs:69-91 | the fit reads only the grid vertices: the ghost ring and the slack past it do not matter |
| PaintMath.FitPadded | src/app/anim/paint/math.rs:58-102 | re-padding the buffer leaves the fit unchanged |
| Surface.Biases | src/app/anim/paint/surface.rs:13-22 | one bias per grid row |
| Surface.ResidualSumSplit | src/app/anim/paint/surface.rs:17-21 | the residual sum of a row splits into the row's field sum, the `a`-weighted `u` sum and `n` copies of the row's offset |
| Surface.BiasIsResidualMean | src/app/anim/paint/surface.rs:12-21 | when the `u` coordinates average 1/2, the stored bias of a row is the mean of what the fitted plane leaves over in that row |
| Surface.GridPrefixSum | src/app/anim/paint/surface.rs:12 | twice `n` times the sum of the first `m` grid coordinates is `m (m - 1)` |
| Surface.GridSumHalf | src/app/anim/paint/surface.rs:12 | the grid coordinates `0, 1/n, ..., 1` average 1/2, which is what `0.5 * a_warp` assumes |
| Surface.CacheBiasIsResidualMean | src/app/anim/paint/surface.rs:4-25 | on the cache's own grid every stored bias is the mean residual of its row |
| Surface.FlatBiases | src/app/anim/paint/surface.rs:4-25 | a flat field leaves no bias in any row |
| Surface.MeshFits | src/app/anim/paint/surface.rs:9-10 | the cache's buffers have the shape the plane fit reads |
| Surface.ComputePlaneAndBias | src/app/anim/paint/surface.rs:4-25 | returns the fitted plane, rewrites exactly the row biases to `Biases` of that plane, and leaves the field and the mesh unchanged |
| Render.LerpBetween | src/app/anim/paint/render.rs:41-47 | a linear blend with `t` in `[0, 1]` stays between its ends |
| Render.Lerp | src/app/anim/paint/render.rs:41-47 | `lerp` is `a` at 0 and `b` at 1 and between the two for `t` in `[0, 1]` |
| Render.BentHeight | src/app/anim/paint/render.rs:56-60 | the gradient coordinate lies in `[0, 1]`, and is the vertex's own `v` when the relief or the warp is zero |
| Render.UnitNormal | src/app/anim/paint/render.rs:68-69 | dividing `(a, b, 1)` by its length gives a unit vector |
| Render.Unit | src/app/anim/paint/render.rs:68-69 | a unit vector pointing along `(a, b, 1)`, whose upward part lies in `(0, 1]` |
| Render.Normal | src/app/anim/paint/render.rs:53-69 | the normal is a unit vector along `(-ddu g, -ddv g, 1)` with `g` the music-scaled depth gain, upward part in `(0, 1]` |
| Render.Lambert | src/app/anim/paint/render.rs:71 | the Lambert term lies in `[0, 1]` |
| Render.Rim | src/app/anim/paint/render.rs:72 | the rim term lies in `[0, 1)` and is 0 where the surface faces the viewer |
| Render.Focus | src/app/anim/paint/render.rs:74-78 | the focus weight lies between `focus` and `1 - focus`: `focus` at the centre, `1 - focus` at the edges |
| Render.Brightness | src/app/anim/paint/render.rs:80-82 | the lit value lies in `[0, 1]`, and is the base value when there is no lift |
| Render.HueWrap | src/app/anim/paint/render.rs:84-90 | the hue step differs from `h_acc - h` by at most one turn, is `h_acc - h` when that is already the short way, and lies in `[-180, 180]` for hues in `[0, 360)` |
| Render.Hue | src/app/anim/paint/render.rs:91 | the pulled hue lies in `[0, 360)` |
| Render.Around | src/app/anim/paint/render.rs:49-54 | the vertex cell and its four neighbours lie inside the padded buffer |
| Render.ShadeAt | src/app/anim/paint/render.rs:51-91 | every intermediate quantity of one vertex lies in the range the renderer relies on: gradient coordinate, unit normal, Lambert, rim, focus, value and hue |
| Render.Vertices | src/app/anim/paint/render.rs:39-96 | `cols rows` vertices |
| Render.RowMajor | src/app/anim/paint/render.rs:39-45 | vertex `(i, j)` is vertex number `j cols + i`: rows outer, columns inner |
| Render.VertexPlace | src/app/anim/paint/render.rs:41-94 | vertex number `j cols + i` sits at `lerp(rect, u[i], v[j])` |
| Render.PaddedAt | src/app/anim/paint/cache.rs:101-121 | each cell of the refilled buffer holds the nearest interior cell |
| Render.GhostCopies | src/app/anim/paint/cache.rs:101-121 | a ghost cell takes the value of its interior neighbour |
| Render.FreshSideBorder | src/app/anim/paint/render.rs:53 | after refilling the padding, an edge column's slope across the edge is one-sided |
| Render.FreshEndBorder | src/app/anim/paint/render.rs:54 | after refilling the padding, an edge row's slope across the edge is one-sided |
| Render.PushRow | src/app/anim/paint/render.rs:45-95 | the inner loop appends exactly the vertices of row `j` |
| Render.PushVertices | src/app/anim/paint/render.rs:39-96 | the loops build exactly `Vertices` |
| Render.RenderMesh | src/app/anim/paint/render.rs:18-99 | one shaded vertex per grid vertex, rows outer and columns inner, and no indices |
| Driver.CheckedMul | src/app/anim/paint/driver.rs:27-29 | a `u32` product as written: present exactly when it fits in 32 bits, and then the true product |
| Driver.SeedChecked | src/app/anim/paint/driver.rs:27-29 | the seed as written exists exactly when all three channel products fit in 32 bits |
| Driver.SeedCheckedRange | src/app/anim/paint/driver.rs:27-29 | the products fit exactly when `r < 59`, `g < 222` and `b < 52` |
| Driver.DefaultAccentOverflows | src/app/anim/paint/driver.rs:27 | the default accent `(120, 160, 255)` already overflows the red product |
| Driver.SeedAgrees | src/app/anim/paint/driver.rs:27-29 | wherever the checked seed exists, the wrapping seed is the same word |
| Driver.LayerSeedsDiffer | src/app/anim/paint/driver.rs:31-32 | the main and detail layers get different seeds from the same accent |
| Driver.Time | src/app/anim/paint/driver.rs:35-39 | the clock reading when the animation is on, 0 when it is off |
| Driver.Decimated | src/app/anim/paint/driver.rs:44 | `step_by(8)` keeps `ceil(len / 8)` samples |
| Driver.DecimatedAt | src/app/anim/paint/driver.rs:44 | decimated sample `i` is the magnitude of raw sample `8 i` |
| Driver.RawMusic | src/app/anim/paint/driver.rs:41-49 | the drive lies in `[0, 1]`, is 0 below 256 samples, and otherwise is the clamped `1.6` times the magnitude of one of every eighth samples |
| Driver.SilentMusic | src/app/anim/paint/driver.rs:41-49 | a silent window gives no drive |
| Driver.LoudMusic | src/app/anim/paint/driver.rs:41-49 | a window whose sampled magnitudes are all at least 0.625 saturates the drive at 1 |
| Driver.Drive | src/app/anim/paint/driver.rs:53 | a share in `[0, 1]` of a non-negative amount lies between 0 and the amount |
| Driver.Music | src/app/anim/paint/driver.rs:51-57 | 0 when the animation is off; otherwise between 0 and `music_amount` |
| Driver.GridCount | src/app/anim/paint/driver.rs:59-60 | the cell count lies in `[90, 220]`, is 90 up to 1800 points and 220 past 4380, and in between is `ceil(extent / 20)` |
| Driver.HalfInvStep | src/app/anim/paint/driver.rs:61-64 | `0.5 / (1 / n)` is `n / 2` |
| Driver.LightLength | src/app/anim/paint/driver.rs:70-72 | the light's horizontal part has length 0.7 and its height is 0.72 |
| Driver.LightFrozen | src/app/anim/paint/driver.rs:35-70 | with the animation off the light stands at its seed's phase whatever the clock says |
| Driver.FrameOf | src/app/anim/paint/driver.rs:51-74 | no music when the animation is off; the half inverse steps are `n/2` of the grid counts; the accent hue is the accent's |
| Driver.FrameFrozen | src/app/anim/paint/driver.rs:35-74 | with the animation off the frame does not depend on the clock |
| Driver.Refreshed | src/app/anim/paint/driver.rs:76-84 | the refreshed buffer has the same length |
| Driver.RefreshedIn | src/app/anim/paint/driver.rs:76-84 | the refreshed field lies in `[-1, 1]` over the padded area and its ghost ring is fresh |
| Driver.PaddedSameGrid | src/app/anim/paint/driver.rs:79-84 | refilling the padding moves no grid vertex |
| Driver.BiasesPadded | src/app/anim/paint/driver.rs:79-84 | refilling the padding after the fit leaves the row biases valid |
| Driver.RefreshField | src/app/anim/paint/driver.rs:76-84 | the field is filled, blurred once and padded; the plane is the fit to the refreshed field and the biases are taken against it; the mesh is unchanged |
| Driver.KeyAndRefresh | src/app/anim/paint/driver.rs:68-84 | the cache is keyed by `(nx, ny)`, its field is the refresh of what `ensure` left, and the returned plane is its fit |
| Driver.IndicesInRange | src/app/anim/paint/driver.rs:89 | every cached index names one of the `(nx + 1)(ny + 1)` vertices |
| Driver.DrawMesh | src/app/anim/paint/driver.rs:86-89 | the shaded vertices followed by the cached triangle list, every index in range |
| Driver.PaintBgGradient | src/app/anim/paint/driver.rs:23-92 | the cache is keyed by the screen's grid counts, its field is refreshed from the accent-seeded layers at the animation clock, and the mesh drawn is this frame's shading with the cached triangles |
| Numeric.Alpha | src/app/update.rs:87-106 | the follower factor `1 - exp(-dt / tau)` lies strictly between 0 and 1 |
| Numeric.Follow | src/app/update.rs:88-110 | a follower step moves strictly toward its target and never overshoots it |
| Numeric.RemEuclid | src/app/anim/paint/render.rs:91 | `rem_euclid` lands in `[0, m)` |
| Numeric.FMod | src/app/update.rs:112-115 | `%` of a non-negative value lands in `[0, m)` and leaves a value already there alone |
| Numeric.Ceil | src/app/anim/paint/driver.rs:59-60 | `ceil` is the least integer not below `x` |
| Numeric.ToUsize | src/app/anim/paint/driver.rs:59-60 | `as usize` truncates a non-negative value and saturates a negative one at 0 |
| Reactivity.InitialInRange | src/app/pages/mod.rs:61-75 | the motion state a new app starts from satisfies every range a frame keeps |
| Reactivity.FrameStep | src/app/update.rs:40-47 | the frame step lies in `[0.001, 0.05]` and is the elapsed time whenever that is in range |
| Reactivity.Mags | src/app/update.rs:79 | one magnitude per sample |
| Reactivity.Target | src/app/update.rs:76-85 | the target lies in `[0, 1]` and is 0 below 256 samples |
| Reactivity.TargetIsSample | src/app/update.rs:79-82 | with enough samples the target is twice the magnitude of one of them, clamped |
| Reactivity.SilentTarget | src/app/update.rs:76-85 | silence gives no target |
| Reactivity.LoudTarget | src/app/update.rs:79-82 | when every sample reaches half scale the target saturates at 1 |
| Reactivity.Decay | src/app/update.rs:95 | `exp(-dt / tau)` lies strictly between 0 and 1 |
| Reactivity.Onset | src/app/update.rs:93 | the onset is never negative and is 0 unless the drive rises above 1.06 times the envelope |
| Reactivity.Decayed | src/app/update.rs:95 | a decayed non-negative value stays between 0 and itself |
| Reactivity.Pulse | src/app/update.rs:94-95 | the pulse stays in `[0, 1]`, and below 1 once anything has decayed it |
| Reactivity.SpeedTargets | src/app/update.rs:97-105 | four targets, each at least 0.7 times its positive base speed |
| Reactivity.Advanced | src/app/update.rs:112-115 | an advanced phase lies in `[0, 1)` |
| Reactivity.Reacted | src/app/update.rs:75-116 | one frame of reactivity keeps the state's shape: four speeds and four phases |
| Reactivity.ReactedInRange | src/app/update.rs:75-116 | a frame keeps drive and envelope in `[0, 1]`, the pulse in `[0, 1]`, the speeds positive and the phases in `[0, 1)` |
| Reactivity.SilenceCalms | src/app/update.rs:87-91 | with no target both followers fall toward 0 and never rise |
| Reactivity.SteadyAtTarget | src/app/update.rs:87-88 | a follower already at its target stays there |
| Reactivity.VolumeUp | src/app/update.rs:64-68 | ArrowUp raises the volume by one step but not past the maximum |
| Reactivity.VolumeDown | src/app/update.rs:69-71 | ArrowDown lowers the volume by one step but not below 0 |
| Reactivity.VolumeStepsUndo | src/app/update.rs:64-71 | away from the bounds, one step down undoes one step up |
| App.Handled | src/app/update.rs:49-73 | keys not pressed change nothing; a volume key leaves the volume in `[0, 2]`, one step up or down from where it was |
| App.HandledKeepsIndex | src/app/update.rs:49-73 | a frame's keys keep the playlist index inside a non-empty playlist |
| App.MusaApp.constructor | src/app/pages/mod.rs:10-76 | a fresh player at the configured volume, the configured accent and stops, title and header derived from the accent, an idle animator, a 1/60 s step and resting motion |
| App.MusaApp.UpdateTiming | src/app/update.rs:40-47 | the step is the clamped time since the last frame, the last frame becomes now and the clock advances by the step |
| App.MusaApp.HandleInput | src/app/update.rs:49-73 | the player's state, volume and the status line afterwards are `Handled` of the state before; the playlist is unchanged |
| App.MusaApp.PressSpace | src/app/update.rs:51-53 | Space toggles pause and changes nothing else |
| App.MusaApp.PressArrow | src/app/update.rs:54-63 | Left steps back and Right forward; an error is written to the status line with its prefix |
| App.MusaApp.PressVolume | src/app/update.rs:64-71 | Up then Down each step the volume within its bounds |
| App.MusaApp.TickAudioReactivity | src/app/update.rs:75-116 | the motion state afterwards is `Reacted` from the drive target of the latest 4096 samples, and stays in range |
| App.AudioTarget | src/app/update.rs:76-85 | sorting the magnitudes and reading rank `min(floor(0.9 len), len - 1)` computes `Target` |
| App.MusaApp.LerpUpdate | src/app/anim/state.rs:53-60 | every shown colour is the `k` blend of its transition |
| App.MusaApp.BeginThemeAnim | src/app/anim/state.rs:62-78 | the animator runs from the shown colours to the new ones, title and header derived from the new accent, for `theme_ms` |
| App.MusaApp.TickThemeAnim | src/app/anim/state.rs:80-95 | the animator and shown colours afterwards are `Ticked` of the ones before |
| ThemeAnimation.NewThemeAnim | src/app/anim/state.rs:30-44 | a new animator is idle, lasts 420 ms, and runs from black to black and white to white |
| ThemeAnimation.Ease | src/app/anim/state.rs:47-49 | the easing lies in `[0, 1]` |
| ThemeAnimation.EaseEnds | src/app/anim/state.rs:47-49 | the easing is exactly 0 up to the start and exactly 1 from the end on |
| ThemeAnimation.EaseClamped | src/app/anim/state.rs:48 | the easing depends on `t` only through its clamp into `[0, 1]` |
| ThemeAnimation.Progress | src/app/anim/state.rs:84 | the progress is non-negative, reaches 1 exactly when the duration has passed, and is 1 for a zero duration |
| ThemeAnimation.Lerped | src/app/anim/state.rs:53-60 | every shown colour is `lerp_srgb` of its two endpoints at `k` |
| ThemeAnimation.Begun | src/app/anim/state.rs:62-78 | an active transition from the shown colours to the requested background and accent, title and header derived from the accent, starting now for `theme_ms` |
| ThemeAnimation.TickedIdle | src/app/anim/state.rs:81-83 | an idle animator changes nothing |
| ThemeAnimation.TickedFinishes | src/app/anim/state.rs:84-94 | once the duration has passed the transition shows exactly its targets and stops |
| ThemeAnimation.TickedRunning | src/app/anim/state.rs:84-87 | before then it stays active and shows the eased blend |
| ThemeAnimation.BeginThenFinish | src/app/anim/state.rs:62-95 | a transition begun and ticked after its duration leaves the requested theme on screen and the animator idle |
| Config.Clamped | src/config/mod.rs:91-98 | the result satisfies the three ranges; nothing else changes; a value already in range is kept; a volume maximum below 0.1 becomes 0.1 |
| Config.ClampedIdempotent | src/config/mod.rs:91-98 | clamping twice is clamping once |
| Config.DefaultInRange | src/config/mod.rs:42-53 | the defaults already satisfy the clamp, so writing them out unclamped loses nothing |
| Config.LoadOrCreate | src/config/mod.rs:73-89 | an existing file is parsed and clamped, a read or parse error is returned; a missing file yields the defaults unless writing them fails; every loaded configuration is in range |
| Config.ToColor32 | src/config/mod.rs:106 | the colour carries the three bytes unchanged |
| Config.Config.Clamp | src/config/mod.rs:91-98 | the configuration afterwards is `Clamped` of the one before |
| Config.Config.AccentColor32 | src/config/mod.rs:100-103 | the accent colour carries the configured bytes |
| Config.Config.BgStopsColor32 | src/config/mod.rs:105-108 | the three stops, top to bottom, each carrying its configured bytes |
| Tracks.FirstSplittingIsFirst | src/track.rs:109-117 | the separator chosen is the first, in the order ` - `, ` – `, ` — `, whose first occurrence leaves two non-blank sides; none means no separator does |
| Tracks.SplitArtistTitle | src/track.rs:108-119 | without a splitting separator: no artist and the trimmed text; otherwise the two trimmed sides of that separator's first occurrence, both non-empty |
| Tracks.DelimNumber | src/track.rs:70 | a numbered prefix holds a number below 1000 and spans at least two characters |
| Tracks.ZeroSpaceNumber | src/track.rs:71 | a zero-led number below 1000 followed by whitespace, spanning at least three characters |
| Tracks.Cleanup | src/track.rs:72 | a delimiter run spans at least one character |
| Tracks.CleanedAll | src/track.rs:82-90 | the inner loop leaves a suffix of the text that starts with no delimiter run |
| Tracks.StrippedFrom | src/track.rs:73-105 | a number once recorded is kept; with nothing to strip the text is only trimmed; the rest is a trimmed piece of the stem |
| Tracks.StrippedNumbers | src/track.rs:67-106 | the number found is below 1000; without one the stem is only trimmed; the rest is a trimmed piece of the stem |
| Tracks.StripLeadingTrackNumbers | src/track.rs:67-106 | the two loops compute `StrippedNumbers` |
| Tracks.NoTrackNumber | src/track.rs:70-71 | `1984 - X` and `99 Luftballons` keep their leading numbers |
| Tracks.FirstNumberWins | src/track.rs:74-79 | only the first number counts: `01 - 02 - Song` is track 1 titled `Song` |
| Tracks.DiscKeyword | src/track.rs:35 | the keyword is `cd` or `disc` in any case, or absent |
| Tracks.ParseDiscFolder | src/track.rs:34-39 | a disc folder's number is below 1000, and its trimmed name starts with the keyword and ends with the digits read |
| Tracks.DiscFolderReadsBack | src/track.rs:34-39 | `CD` followed by a number below 1000 reads back as that number |
| Tracks.DiscFolderAnchored | src/track.rs:35 | a name not starting with the keyword, such as `Bonus CD 2`, is no disc folder |
| Tracks.AlbumDirAndDisc | src/track.rs:41-51 | the album folder is the file's folder, or the one above it exactly when the file's folder is a disc folder, whose number is the disc |
| Tracks.GuessArtistAlbum | src/track.rs:53-65 | the artist is the trimmed name of the folder above the album folder, and the album its own name cleaned for display against that artist |
| Tracks.TrackLeTotalPreorder | src/track.rs:163-177 | the play order (disc, then track number with 10000 for none, then path) is total and transitive |
| Tracks.AudioOnly | src/track.rs:126-137 | exactly the audio files among those found |
| Tracks.BuildTrack | src/track.rs:144-161 | a file's track keeps its path; its track number is the one stripped from the normalised stem, below 1000; its artist is the non-empty one split from the name when there is one, otherwise the folder's; its title is already normalised; album, album folder and disc come from the folders |
| Tracks.BuildAll | src/track.rs:143-161 | one track per file, in order |
| Tracks.ScanTracks | src/track.rs:121-180 | a missing root and a root without audio files are errors with the source's messages; otherwise the tracks are sorted by the play order and are exactly one per audio file |
| TextClean.UnderscoresToSpaces | src/util/text.rs:19 | every `_` becomes a space and every other character is kept |
| TextClean.CollapseSpace | src/util/text.rs:5-20 | the result has no two adjacent whitespace characters and only plain spaces; it is empty exactly when the input is, and starts with whitespace exactly when the input does |
| TextClean.CollapseSingleSpaced | src/util/text.rs:20 | collapsing an already single-spaced text changes nothing |
| TextClean.NormalizeSlow | src/util/text.rs:19-20 | the slow path leaves single-spaced, trimmed text without underscores |
| TextClean.NormalizeWs | src/util/text.rs:15-21 | a text without `_`, space, tab, line feed or carriage return comes back unchanged; any other comes back single-spaced, trimmed and without underscores |
| TextClean.NormalizeWsIdempotent | src/util/text.rs:15-21 | normalising twice is normalising once |
| TextClean.OtherWhitespaceTwoPaths | src/util/text.rs:16-20 | other whitespace survives the fast path (`"\x0Ca"` is kept) but is trimmed on the slow one (`"\x0Ca "` becomes `a`) |
| TextClean.YearPrefix1 | src/util/text.rs:6 | a match of the first year-prefix pattern spans at least its four digits and a separator |
| TextClean.YearPrefix2 | src/util/text.rs:7 | a match of the bracketed year-prefix pattern spans at least the bracketed four digits |
| TextClean.StripYearPrefix | src/util/text.rs:24-33 | the result is a trimmed piece of the input, and just the trimmed input when neither prefix matches |
| TextClean.YearPrefixExample | src/util/text.rs:24-33 | `1999 - Abbey Road` becomes `Abbey Road` |
| TextClean.FirstYearSuffix | src/util/text.rs:8 | the leftmost position where the year suffix matches, or none when it matches nowhere |
| TextClean.StripYearSuffix | src/util/text.rs:36-44 | the result is a trimmed piece of the input, and just the trimmed input when no suffix matches |
| TextClean.FirstClose | src/util/text.rs:10 | the first closing bracket at or after `i` |
| TextClean.TechAt | src/util/text.rs:10 | a technical note spans at least its two brackets |
| TextClean.FirstTech | src/util/text.rs:10 | the leftmost technical note, or none when none matches anywhere |
| TextClean.TechReplaceOnce | src/util/text.rs:50 | without a note the text is unchanged; otherwise it loses at least the note's two brackets |
| TextClean.TechRemoved | src/util/text.rs:49-55 | what the loop stops on is a fixpoint of the replacement and holds no technical note |
| TextClean.StripTechBrackets | src/util/text.rs:47-57 | the loop ends on the text with every technical note removed, then trimmed |
| TextClean.SkipLetters | src/util/text.rs:12 | the end of the run of ASCII letters from `i` |
| TextClean.FirstCatalog | src/util/text.rs:12 | the leftmost position where a catalogue suffix matches, or none |
| TextClean.CatalogReplaceOnce | src/util/text.rs:63 | without a suffix the text is unchanged; otherwise it is cut to a shorter prefix of itself |
| TextClean.CatalogRemoved | src/util/text.rs:62-68 | what the loop stops on is a prefix of the input holding no catalogue suffix |
| TextClean.CatalogStripped | src/util/text.rs:60-70 | the result is a trimmed piece of the input |
| TextClean.StripCatalogSuffix | src/util/text.rs:60-70 | the loop ends on the text with every catalogue suffix cut, then trimmed |
| TextClean.StripArtistPrefix | src/util/text.rs:73-82 | when the album starts with `artist` and one of the three separators, ASCII case ignored, that prefix is dropped; otherwise the album is unchanged |
| TextClean.AsWrittenAgrees | src/util/text.rs:73-82 | wherever the byte-slicing version does not panic, it agrees with the character version |
| TextClean.ArtistPrefixPanics | src/util/text.rs:76-77 | album `Добро` under artist `AC` makes the byte slice panic, while the character version keeps the album |
| TextClean.CleanAlbumForDisplay | src/util/text.rs:85-93 | the displayed album is already normalised |
| PathHeuristics.IsBucket | src/util/path_heur.rs:15-18 | a bucket exactly when the name equals one of the 28 bucket names, ignoring ASCII case |
| PathHeuristics.LabelAt | src/util/path_heur.rs:20-21 | a label match yields a number below 100 and starts at a word boundary with `cd`, `disc` or `disk` |
| PathHeuristics.FirstLabel | src/util/path_heur.rs:24-26 | the leftmost position where a label match starts, or none when none does |
| PathHeuristics.ParseDiscLabel | src/util/path_heur.rs:23-29 | a number below 100, present exactly when some label matches, read from the leftmost match |
| PathHeuristics.DiscLabelSpaced | src/util/path_heur.rs:21 | `Disc 2` is disc 2 |
| PathHeuristics.DiscLabelDashed | src/util/path_heur.rs:21 | `CD-07` is disc 7 |
| PathHeuristics.NotDiscLabels | src/util/path_heur.rs:21 | neither `CD123` (three digits) nor `Discography` (no word boundary) is a label |
| PathHeuristics.NoLabelInside | src/util/path_heur.rs:21 | inside a run of word characters no label can start |
| PathHeuristics.NormalNames | src/util/path_heur.rs:32-37 | at most one name per component |
| PathHeuristics.Candidates | src/util/path_heur.rs:39-54 | at most one candidate per part |
| PathHeuristics.CandidatesOrdered | src/util/path_heur.rs:39-54 | each candidate is a part that is not a bucket, with its index (the last part by its stem), and the indices ascend |
| PathHeuristics.CandidatesComplete | src/util/path_heur.rs:39-54 | a part is a candidate exactly when its name is not a bucket |
| PathHeuristics.CandidatesStep | src/util/path_heur.rs:51-53 | one more part is appended exactly when it is not a bucket |
| PathHeuristics.DiscSearch | src/util/path_heur.rs:57-62 | the first of the last three candidates, counting from the end, that carries a disc label; none when none of them does |
| PathHeuristics.InferredProperties | src/util/path_heur.rs:31-71 | artist and album come together, exactly when at least three names are not buckets, and neither is a bucket; a disc number is below 100 and comes from one of the last three candidates |
| PathHeuristics.CollectNames | src/util/path_heur.rs:32-37 | the first loop collects exactly the plain names |
| PathHeuristics.CollectCandidates | src/util/path_heur.rs:39-54 | the second loop collects exactly `Candidates` |
| PathHeuristics.FindDisc | src/util/path_heur.rs:56-62 | the third loop finds the disc number `DiscSearch` describes |
| PathHeuristics.InferArtistAlbumFromPath | src/util/path_heur.rs:31-71 | the three loops and the final choice compute `Inferred` |
| PathHeuristics.DiscFolderShiftsGuess | src/util/path_heur.rs:51-70 | a disc folder that is not a bucket (`Disc 1`) is a candidate: it becomes the album, the album folder the artist, and its number the disc |
| TrackMeta.LastNotLineFeed | src/util/track_meta.rs:28-29 | the last position below `hi` that is not a line feed, with only line feeds above it, or none when the whole range is line feeds |
| TrackMeta.RestStart | src/util/track_meta.rs:28-29 | where `.+` starts after the delimiters: strictly inside the name and never on a line feed, which `.` does not match |
| TrackMeta.LineEnd | src/util/track_meta.rs:29 | the first line feed at or after `q`, or the end of the name, with no line feed before it |
| TrackMeta.RestFrom | src/util/track_meta.rs:29-35 | what `.+` captures, trimmed: a trimmed text without line feeds that fits within the line from `q` |
| TrackMeta.RestFromOneLine | src/util/track_meta.rs:29-35 | on a name without line feeds from `q` on, the captured rest is everything from `q`, trimmed |
| TrackMeta.NumberAt | src/util/track_meta.rs:27-39 | one to three digits starting at `a`, read as their value |
| TrackMeta.DiscTrackPrefix | src/util/track_meta.rs:24-37 | the disc form yields a disc below 100, a track below 1000, and as the rest the trimmed line from a position after the numbers that is not a line feed |
| TrackMeta.TrackPrefix | src/util/track_meta.rs:39-44 | the plain form yields a track below 1000, and as the rest the trimmed line from a position after the number that is not a line feed |
| TrackMeta.TrackOnly | src/util/track_meta.rs:46-50 | a bare number is below 1000 |
| TrackMeta.ParseTrackNumber | src/util/track_meta.rs:23-53 | a track below 1000, a disc below 100 only with a track, a trimmed rest without line feeds when there is a track; no track means the trimmed name, and a track means the name starts, after spaces, with a digit |
| TrackMeta.NoLeadingDigit | src/util/track_meta.rs:23-53 | a name that does not start with a digit after spaces has no numbers |
| TrackMeta.DiscAndTrack | src/util/track_meta.rs:24-37 | `1-02. Title` is disc 1, track 2, titled `Title` |
| TrackMeta.YearIsNoTrack | src/util/track_meta.rs:27-46 | `1999 - Song` has no numbers and keeps its name |
| TrackMeta.NumberOnly | src/util/track_meta.rs:46-50 | ` 12 ` is track 12 with an empty rest |
| TrackMeta.TwoDelimitersOnly | src/util/track_meta.rs:39-44 | `01 --` is track 1 with the rest `-`: the greedy delimiter run gives back one character to `.+` |
| TrackMeta.OneDelimiterOnly | src/util/track_meta.rs:39-52 | `01 -` leaves `.+` nothing, so it has no number |
| TrackMeta.LineFeedIsNoRest | src/util/track_meta.rs:39-52 | `01 -` followed by a line feed also leaves `.+` nothing, since `.` does not match a line feed: no number, and the name trimmed to `01 -` |
| TrackMeta.RestEndsAtLineFeed | src/util/track_meta.rs:39-44 | the rest stops at the first line feed: `01. Title` followed by a line feed and `Live` is track 1 titled `Title` |
| TrackMeta.MaybeSplitArtistTitle | src/util/track_meta.rs:55-66 | a split only with a known artist at the first ` - `, and exactly when the trimmed left side equals the trimmed artist ignoring ASCII case; the parts are the trimmed sides |
| TrackMeta.SplitOnlyAtFirst | src/util/track_meta.rs:56 | only the first ` - ` is looked at: `X - Y - Z` with artist `X - Y` is not split |
| TrackMeta.ParseTrackMeta | src/util/track_meta.rs:68-117 | every field comes from the tags first, then the name, then the folders, in the source's order; album and title come out normalised |
| TrackMeta.TitleFromTagOrName | src/util/track_meta.rs:93-105 | the title is the tag's or the name's rest, without a leading copy of the artist, technical notes stripped and whitespace normalised |
| TrackMeta.NothingKnown | src/util/track_meta.rs:68-117 | with no tags, no number in the name and no candidate folders, everything but the title is empty |
| FsUtil.IsAudioFile | src/util/fs.rs:7-25 | audio exactly when the final extension, ASCII case ignored, is one of the thirteen audio extensions |
| FsUtil.FinalExtensionOnly | src/util/fs.rs:9 | only the last extension counts: `a.mp3.txt` is not audio |
| FsUtil.UpperCaseExtension | src/util/fs.rs:12-24 | ASCII case does not matter: `a.txt.MP3` is audio |
| FsUtil.NoExtensionNoAudio | src/util/fs.rs:9-11 | a name without an extension, or a dot-file such as `.flac`, is never audio |
| FsUtil.HomeDir | src/util/fs.rs:27-31 | `$HOME` when set, the root otherwise |
| TimeFormat.Decimal | src/util/timefmt.rs:6 | `{}`: decimal digits that read back as the number, one digit below 10 |
| TimeFormat.Pad2 | src/util/timefmt.rs:6 | `{:02}`: at least two digits that read back as the number, exactly two below 100 |
| TimeFormat.TruncU64 | src/util/timefmt.rs:5 | `as u64` truncates a non-negative value and saturates at `u64::MAX` |
| TimeFormat.SecondsToMmss | src/util/timefmt.rs:1-7 | a non-finite or negative time gives `--:--` |
| TimeFormat.MmssReadsBack | src/util/timefmt.rs:5-6 | the text reads back as the whole seconds: the digits before the last `:` are the minutes, the two after it the seconds, below 60 |
| TimeFormat.MmssFiveChars | src/util/timefmt.rs:6 | below 100 minutes the text is exactly five characters |
| Cli.IsAudioFile | src/main.rs:26-34 | audio exactly when the lower-cased final extension is one of the nine the player knows |
| Cli.CliAudioIsLibraryAudio | src/main.rs:26-34 | every file the command-line player accepts, the library scan accepts too |
| Cli.AudioAmong | src/main.rs:45-60 | exactly the audio files among the entries, in order |
| Cli.FromInput | src/main.rs:39-62 | an input contributes only audio files, or its read error |
| Cli.Gathered | src/main.rs:37-63 | the gathered files are all audio, or the first read error |
| Cli.Dedup | src/main.rs:65 | `dedup` keeps the first element and the same set of elements, never growing |
| Cli.DedupSortedIsStrict | src/main.rs:64-65 | a sorted list without repeated neighbours is strictly ascending |
| Cli.SortedUnique | src/main.rs:64-65 | sorting then deduplicating gives a strictly ascending list of the same files, empty only when the input is |
| Cli.PlaylistProperties | src/main.rs:36-70 | a playlist is never empty, strictly ascending, holds only audio files and every audio file gathered; with no read error and no audio file the error is `No audio files were found` |
| Cli.RecursiveIgnoresListing | src/main.rs:44-50 | in recursive mode a folder's listing is never read, so its error cannot surface |
| Cli.CollectPlaylist | src/main.rs:36-70 | the loops compute `Playlist` |
| Cli.ReadInput | src/main.rs:39-62 | one pass of the outer loop computes `FromInput` |
| Cli.KeepAudio | src/main.rs:52-60 | the listing loop keeps exactly the audio entries, in order |
| Cli.AudioAmongAppend | src/main.rs:57-59 | one more entry is kept at the end exactly when it is audio |
| Cli.GatheredKeepsError | src/main.rs:41-58 | once gathering has failed (`?`), later inputs do not change the error |
| Cli.ParseCmd | src/main.rs:159-170 | the trimmed line is one of the six hotkeys and gives its command, or it is an unknown command carrying the trimmed line |
| Cli.KeyRoundTrip | src/main.rs:159-170 | each hotkey, with any whitespace around it, reads back as its command |
| Cli.ParseCmdTrims | src/main.rs:160 | whitespace around a line never changes its command |
| Cli.Player.constructor | src/main.rs:85-91 | no sink, volume 1 |
| Cli.Player.Stop | src/main.rs:93-98 | the sink is dropped |
| Cli.Player.PlayFile | src/main.rs:100-108 | on success a new playing sink replaces the old one; on failure the player is unchanged and the error is returned |
| Cli.Player.TogglePause | src/main.rs:110-118 | a paused sink plays and a playing one pauses; without a sink nothing happens |
| Cli.Player.SetVolume | src/main.rs:120-125 | the volume is clamped into `[0, 2]` |
| Cli.Player.IsPlaying | src/main.rs:127-129 | playing exactly when there is a sink and it is not paused |
| Cli.Player.IsSinkEmpty | src/main.rs:131-133 | empty exactly when there is no sink or it has run dry |
| Cli.VolumeStep | src/main.rs:222-231 | a step stays in `[0, 2]` and moves by exactly 0.1 when that stays in range |
| Cli.VolumeStepsUndo | src/main.rs:222-231 | away from the ends `-` undoes `+`; `+` stays at 2 and `-` at 0 |
| Cli.Played | src/main.rs:208-212 | playing track `i` moves the index there; a track that opens gives a new playing sink, an error leaves the sink and the volume as they were |
| Cli.Command | src/main.rs:200-243 | `n` and `b` drop the sink and move to the next or previous index, wrapping, with a new playing sink when the track opens and none when it fails; `p` toggles a sink's pause and leaves no sink as none; `+` and `-` step the volume; `q` and anything else change nothing |
| Cli.Advance | src/main.rs:245-251 | an empty sink (none, or run dry) moves on to the next index, wrapping, and plays it, keeping the old sink on an error; a live sink changes nothing |
| Cli.PassStep | src/main.rs:199-252 | a pass that does not quit is the command's effect followed by the empty-sink check |
| Cli.OpenedTrackNotSkipped | src/main.rs:199-252 | after an `n` or `b` whose track opens, the same pass's empty-sink check changes nothing |
| Cli.FailedNextSkipsAgain | src/main.rs:199-252 | after an `n` whose track fails, the same pass's empty-sink check moves on once more: two tracks forward |
| Cli.Session.constructor | src/main.rs:181-182 | a fresh player at volume 1 on index 0 of a non-empty playlist |
| Cli.Session.Start | src/main.rs:184-185 | the first `play_file` before the loop: the first track plays, or its error is returned and the sink is unchanged |
| Cli.Session.PlayAt | src/main.rs:208-212 | the new state is `Played` of the old one; the loop goes on after an error |
| Cli.Session.Handle | src/main.rs:200-243 | quits exactly on `q`; the new index, sink and volume are `Command` of the old ones |
| Cli.Session.AutoAdvance | src/main.rs:245-251 | the new index, sink and volume are `Advance` of the old ones; after a track opens the player is playing and its sink is not empty |
| Cli.Session.Pass | src/main.rs:199-252 | quits exactly on `q`, and then nothing changes; otherwise the new state is `PassStep` of the old one |
| Users.Verified | backend/app/models/user.py:18 | a user is verified exactly when both address and passport are present and non-empty |
| Users.CheckAgainst | backend/app/models/user.py:23-26 | a missing or empty stored hash never matches; otherwise the result is the hash check of the password against it |
| Users.HashedPasswordChecks | backend/app/models/user.py:23-26 | for a sound hasher, a password checks against the hash generated from it, for any salt |
| Users.BuildError | backend/app/models/user.py:64-70 | build fails exactly when a name is missing or empty, or the email or password is missing; the names error comes first, then email, then password |
| Users.EmptyCredentialsPass | backend/app/models/user.py:67-70 | an empty email and an empty password pass the checks, since only a missing one is refused |
| Users.User.constructor | backend/app/models/user.py:5-21 | the fields are stored as given, the user is verified iff address and passport are both truthy, and there is no id |
| Users.User.CheckPassword | backend/app/models/user.py:23-26 | check_password agrees with the stored-hash check |
| Users.UserBuilder.constructor | backend/app/models/user.py:32-38 | a new builder has every field unset |
| Users.UserBuilder.SetFirstName | backend/app/models/user.py:40-42 | sets the first name and nothing else |
| Users.UserBuilder.SetLastName | backend/app/models/user.py:44-46 | sets the last name and nothing else |
| Users.UserBuilder.SetAddress | backend/app/models/user.py:48-50 | sets the address and nothing else |
| Users.UserBuilder.SetPassport | backend/app/models/user.py:52-54 | sets the passport and nothing else |
| Users.UserBuilder.SetEmail | backend/app/models/user.py:56-58 | sets the email and nothing else |
| Users.UserBuilder.SetPassword | backend/app/models/user.py:60-62 | sets the password and nothing else |
| Users.UserBuilder.Build | backend/app/models/user.py:64-72 | fails with the first failing check's message exactly when a check fails; otherwise a fresh user carrying the builder's fields and the password's hash, whose verified flag follows address and passport, and against which the password checks |
| Users.TestCreateValidUser | backend/tests/test_models.py:12-22 | the builder used by the valid-user test (no email, no password) is refused for the missing email |
| Users.TestMissingName | backend/tests/test_models.py:24-34 | a builder with only one of the two names is refused with the names message |
| Playlists.Playlist.constructor | backend/app/models/playlist.py:4-8 | a new playlist has the given name and owner, no tracks and no id |
| Playlists.Playlist.AddTrack | backend/app/models/playlist.py:10-11 | the track is appended at the end |
| Playlists.PlaylistBuilder.constructor | backend/app/models/playlist.py:18-21 | a new builder has the default name, no tracks and no owner |
| Playlists.PlaylistBuilder.SetName | backend/app/models/playlist.py:23-25 | sets the name |
| Playlists.PlaylistBuilder.SetOwner | backend/app/models/playlist.py:27-29 | sets the owner |
| Playlists.PlaylistBuilder.AddTrack | backend/app/models/playlist.py:31-33 | the track is appended at the end |
| Playlists.PlaylistBuilder.Build | backend/app/models/playlist.py:35-39 | a fresh playlist with the builder's name and owner and exactly its tracks in order |
| Playlists.BuiltIsIndependent | backend/app/models/playlist.py:35-39 | a playlist built earlier keeps its tracks when the builder gets another one afterwards |
| Playlists.TestEmptyPlaylist | backend/tests/test_models.py:43-47 | a builder given only a name builds a playlist with that name and no tracks |
| Playlists.TestAddingTracks | backend/tests/test_models.py:49-58 | two tracks added to a built playlist give two tracks, both present |
| Sorting.SortBy | src/app/update.rs:80 | `sort_by` returns a permutation of its input, ordered by the comparison whenever that is a total preorder |
| Sorting.InsertByKeepsSorted | src/track.rs:163 | inserting into a sequence sorted by a total preorder keeps it sorted |
| Sorting.MapPermutation | src/app/update.rs:79-80 | mapping two permutations of one another element-wise gives permutations of one another |
| Sorting.Rank90 | src/app/visualizer.rs:19-20 | the 90th-percentile rank is floor(0.9 len), clamped to the last index |
| Sorting.NthSmallestUnique | src/app/visualizer.rs:22 | every ordered arrangement of a sequence of reals puts the same value at position k, so the selected pivot does not depend on the selection algorithm |
| Sorting.SortedRealsUnique | src/app/anim/paint/math.rs:54 | two sorted sequences of reals with the same multiset of values are equal |
| Chars.Trim | src/util/text.rs:20 | `trim` returns the slice from the first non-space character, cutting only whitespace from either end, and the result has no whitespace at either end |
| Chars.TrimIdempotent | src/util/text.rs:20 | trimming twice is trimming once |
| Chars.Find | src/util/track_meta.rs:56 | `find` returns the first occurrence of the pattern, and nothing when it does not occur |
| Chars.AnyIgnoringCaseLowered | src/util/fs.rs:12-24 | against lower-case words, matching one ignoring ASCII case is finding the lowered text among them |
| Paths.Extension | src/util/fs.rs:9 | `extension` is the part of the file name after its final dot, and contains no dot |
| Paths.FileStem | src/util/track_meta.rs:73 | `file_stem` is the file name up to its final dot, or the whole name when it has no extension |
| Paths.PathCmpLawful | src/main.rs:64-65 | path ordering is a strict total order: equal only on equal paths, antisymmetric and transitive |

## Left out

- Concurrency. The `Mutex`/`Arc` around the sample buffer and the audio thread are left out, and the buffer has one sequential owner. The stdin thread of the command-line player is left out too: its lines arrive as a parameter.
- Audio I/O. Opening, decoding and the sink (rodio, symphonia) are left out. They are a `PlayIo` parameter that may fail, together with the sink's paused and empty flags.
- Clocks. The process start time, the `Instant` reads and `time_now` are parameters.
- Floating point. `f32` is `real`: no rounding, NaN or infinity except where the code tests finiteness. That is modelled with the `Numeric.F32` value, which is finite, infinite or NaN. So steps such as `volume + 0.05` and `0.1` are exact. The `partial_cmp(..).unwrap()` panic of the drive-target sort on a NaN sample is not modelled.
- Transcendentals. `sin`, `cos`, `exp`, `tanh` and `sqrt` obey only the laws listed in `Numeric.Lawful`: ranges, `sin² + cos² = 1`, angle addition, the values at 0 and monotonicity where used.
- Colour science. `rgb_to_hsv`, `hsv_to_rgb`, `lerp_srgb`, `base_gradient` and `title_from_accent` are the function values of `Colour.Palette`, with hue in `[0, 360)` and blends with `k = 0` and `k = 1` giving their ends. The sRGB curve, the HSV conversion and palette extraction are not modelled.
- Painting. Layout, egui painter calls, the visualiser's line drawing after the smoothing pass, and the mesh hand-off to the painter are left out.
- `MusaApp::update`. The whole per-frame sequence, and the pages that call it, are left out. Its steps are modelled one by one.
- App.MusaApp.TickThemeAnim: requires a positive duration or some elapsed time. With `theme_ms = 0` at the very frame the animation begins, `t` is `0/0`, which is NaN in `f32`.
- VisBuffers.Pushed: requires capacity at least 1. With capacity 0, `drain(..1)` on an empty deque panics, and the player always uses 96000.
- Cache.BgCache.Ensure: requires `nx, ny >= 1`. The driver only asks for resolutions in `[90, 220]`.
- Regular expressions. `\d` is taken as ASCII digits, `\s` as whitespace characters and `\b` as an ASCII word boundary, and `(?i)` folds ASCII case only. `.` matches any character except a line feed, as it does without the `s` flag, so a name's rest ends at its first line feed. Unicode digits, letters and case folding beyond ASCII are not modelled.
- Strings. They are sequences of Unicode scalar values, so a file name that is not valid UTF-8 (where the code's `to_str` gives `None`) cannot be expressed. Windows path prefixes are left out as well.
- Cli.IsAudioFile: lower-cases ASCII letters only, where the code uses Unicode `to_lowercase`. No audio extension contains a non-ASCII letter.
- Filesystem. Directory walking (`WalkDir`, `read_dir`), `is_file`/`is_dir` and `canonicalize` are not modelled. Each command-line input is given as a `Cli.Input`: a file, a folder (what reading it lists, or an error, and what walking it finds) or neither. The model assumes that every path given is already canonical, that `canonicalize` never fails, and that listings and walks hold only regular files. A per-entry error from `read_dir` counts as the listing's error and carries the folder message. So a failing `canonicalize` (src/main.rs:41, 48, 58) cannot be expressed, and two different paths to one file (a link and its target) stay two playlist entries, where the source's sort and `dedup` of canonical paths keep one. The library scan's walk takes its found files the same way.
- Tags. `read_tags` is a parameter giving the tag fields of each file.
- Configuration persistence. TOML parsing, the config directory and `save_to_default` are left out. `Config.LoadOrCreate` takes the file's parsed contents, or the read error, and the result of writing the defaults as parameters.
- Backend hashing. Werkzeug's `generate_password_hash`/`check_password_hash` are the function values of `Users.Hasher`. A salt parameter stands for the randomness of the hash.
- Python method chaining. The setters return `self`; here they are methods on the builder, and chained calls are successive calls.
- `backend/app/models/track.py`. It is only a `__str__` and is not part of this model, and neither are the web handlers and logging.

## Findings

| source | as written | input that shows it | evidently intended | confidence | as-written member | corrected member |
|---|---|---|---|---|---|---|
| src/app/anim/paint/driver.rs:27-29 | the accent seed multiplies each `u32` channel by a large prime with plain `*`, which panics on overflow in a debug build | the default accent, red 120: `120 * 73856093` exceeds `u32::MAX` (any red >= 59, green >= 222 or blue >= 52 does) | a wrapping product, as in release builds | not executed | Driver.DefaultAccentOverflows | Driver.SeedAgrees |
| src/app/anim/flow.rs:19 | the oscillator seed multiplies `(i + 1)` by `0x9E3779B9` with plain `*` | oscillator `i = 1`: `2 * 0x9E3779B9` exceeds `u32::MAX` | a wrapping product, giving four distinct seeds | not executed | Flow.OscSeedOverflows | Flow.OscSeedsDistinct |
| src/util/text.rs:76-77 | `strip_artist_prefix` slices the album at the byte length of `artist + sep`, which panics when that length is not a character boundary | album `"Добро"`, artist `"AC"`: the 5-byte prefix ends inside the third Cyrillic letter | compare and slice on character boundaries, returning the album unchanged when the prefix cannot match | not executed | TextClean.ArtistPrefixPanics | TextClean.StripArtistPrefix |
