/**
 * The per-frame timing and audio-reactivity rules of the app
 * (src/app/update.rs): the frame step, the music drive target taken from
 * the latest samples, the followers that smooth it, the pulse, and the
 * four slowly drifting background phases. The state they update lives in
 * `App.MusaApp`; this module holds the rules as functions of values.
 */
module Reactivity {
  import opened Numeric
  import opened Sorting

  /** How many of the latest samples a frame looks at. */
  const WINDOW: nat := 4096
  /** Below this many samples the target is 0. */
  const MIN_SAMPLES: nat := 256
  /** The frame step is clamped into `[DT_MIN, DT_MAX]` seconds. */
  const DT_MIN: real := 0.001
  const DT_MAX: real := 0.05
  /** The volume change of one arrow key press. */
  const VOLUME_STEP: real := 0.05
  /** The resting drift speeds of the four background phases. */
  const BASE_SPEEDS: seq<real> := [0.010, 0.008, 0.006, 0.007]

  /** The audio-reactive part of the app state. */
  datatype Motion = Motion(drive: real, env: real, pulse: real, phase: seq<real>, speed: seq<real>)

  /** The values a new app starts from. */
  const INITIAL_MOTION := Motion(0.0, 0.0, 0.0, [0.0, 0.35, 0.62, 0.17], BASE_SPEEDS)

  predicate Shaped(mo: Motion) {
    |mo.phase| == 4 && |mo.speed| == 4
  }

  /** Drive, envelope and pulse in `[0, 1]`, every phase in `[0, 1)` and every speed positive. */
  predicate InRange(mo: Motion) {
    && Shaped(mo)
    && 0.0 <= mo.drive <= 1.0 && 0.0 <= mo.env <= 1.0 && 0.0 <= mo.pulse <= 1.0
    && (forall i :: 0 <= i < 4 ==> 0.0 <= mo.phase[i] < 1.0)
    && (forall i :: 0 <= i < 4 ==> mo.speed[i] > 0.0)
  }

  lemma InitialInRange()
    ensures InRange(INITIAL_MOTION)
  {
  }

  /** The frame step: the time since the last frame, never negative, clamped into `[DT_MIN, DT_MAX]`. */
  function FrameStep(last: real, now: real): (dt: real)
    ensures DT_MIN <= dt <= DT_MAX
    ensures DT_MIN <= now - last <= DT_MAX ==> dt == now - last
    ensures now - last < DT_MIN ==> dt == DT_MIN
    ensures now - last > DT_MAX ==> dt == DT_MAX
  {
    Clamp(Max(now - last, 0.0), DT_MIN, DT_MAX)
  }

  /** The magnitudes of the samples. */
  function Mags(s: seq<real>): (r: seq<real>)
    ensures |r| == |s|
    ensures forall i :: 0 <= i < |s| ==> r[i] == Abs(s[i])
  {
    seq(|s|, i requires 0 <= i < |s| => Abs(s[i]))
  }

  /**
   * The drive target: with at least `MIN_SAMPLES` samples, twice the
   * magnitude at the 90th-percentile rank, clamped into `[0, 1]`; otherwise 0.
   */
  function Target(recent: seq<real>): (r: real)
    ensures 0.0 <= r <= 1.0
    ensures |recent| < MIN_SAMPLES ==> r == 0.0
  {
    if |recent| >= MIN_SAMPLES then
      var v := Mags(recent);
      Clamp(NthSmallest(v, Rank90(|v|)) * 2.0, 0.0, 1.0)
    else 0.0
  }

  /** The target is twice the magnitude of one of the samples, clamped. */
  lemma TargetIsSample(recent: seq<real>)
    requires |recent| >= MIN_SAMPLES
    ensures exists i :: 0 <= i < |recent| && Target(recent) == Clamp(Abs(recent[i]) * 2.0, 0.0, 1.0)
  {
    var v := Mags(recent);
    var x := NthSmallest(v, Rank90(|v|));
    var i :| 0 <= i < |v| && v[i] == x;
    assert Target(recent) == Clamp(Abs(recent[i]) * 2.0, 0.0, 1.0);
  }

  /** Silence gives no target. */
  lemma SilentTarget(recent: seq<real>)
    requires forall i :: 0 <= i < |recent| ==> recent[i] == 0.0
    ensures Target(recent) == 0.0
  {
    if |recent| >= MIN_SAMPLES {
      TargetIsSample(recent);
    }
  }

  /** When every sample reaches half scale, the target saturates at 1. */
  lemma LoudTarget(recent: seq<real>)
    requires |recent| >= MIN_SAMPLES
    requires forall i :: 0 <= i < |recent| ==> Abs(recent[i]) >= 0.5
    ensures Target(recent) == 1.0
  {
    TargetIsSample(recent);
  }

  /** The decay factor `exp(-dt / tau)`, strictly between 0 and 1. */
  function Decay(m: Math, dt: real, tau: real): (d: real)
    requires Lawful(m) && dt > 0.0 && tau > 0.0
    ensures 0.0 < d < 1.0
  {
    assert -dt / tau < 0.0;
    m.exp(-dt / tau)
  }

  /** The onset: how far the fast drive rises above 1.06 times the slow envelope, or 0. */
  function Onset(drive: real, env: real): (r: real)
    ensures r >= 0.0
    ensures drive <= env * 1.06 ==> r == 0.0
  {
    Max(drive - env * 1.06, 0.0)
  }

  /** `x` scaled by a decay factor: it shrinks toward 0 but keeps its sign. */
  function Decayed(x: real, d: real): (r: real)
    ensures 0.0 <= x && 0.0 < d < 1.0 ==> 0.0 <= r <= x
  {
    if 0.0 <= x && 0.0 < d < 1.0 then Part(d, x) else x * d
  }

  /** The pulse after a frame: bumped by the onset, capped at 1, then decayed. */
  function Pulse(pulse: real, onset: real, decay: real): (r: real)
    ensures 0.0 <= pulse && 0.0 <= onset && 0.0 < decay < 1.0 ==> 0.0 <= r <= 1.0
    ensures 0.0 < decay < 1.0 && pulse + onset * 2.4 > 0.0 ==> r < 1.0
  {
    var bumped := Min(pulse + onset * 2.4, 1.0);
    if 0.0 < decay < 1.0 && bumped > 0.0 then
      MulStrict(bumped, decay, 1.0);
      Decayed(bumped, decay)
    else
      Decayed(bumped, decay)
  }

  /** The speed every phase is steered toward: its base speed times `0.7 + 0.9 env`. */
  function SpeedTargets(env: real): (r: seq<real>)
    ensures |r| == 4
    ensures env >= 0.0 ==> forall i :: 0 <= i < 4 ==> r[i] >= 0.7 * BASE_SPEEDS[i] > 0.0
  {
    var mul := 0.7 + 0.9 * env;
    [BASE_SPEEDS[0] * mul, BASE_SPEEDS[1] * mul, BASE_SPEEDS[2] * mul, BASE_SPEEDS[3] * mul]
  }

  /** A phase advanced by `speed dt` and wrapped by `% 1.0`. */
  function Advanced(phase: real, speed: real, dt: real): (r: real)
    ensures 0.0 <= phase && 0.0 <= speed && 0.0 <= dt ==> 0.0 <= r < 1.0
  {
    if 0.0 <= speed && 0.0 <= dt then
      MulNonNeg(speed, dt);
      FMod(phase + speed * dt, 1.0)
    else
      FMod(phase + speed * dt, 1.0)
  }

  /**
   * `tick_audio_reactivity` on values: both followers move toward the
   * target (fast and slow), the pulse takes the onset and decays, the
   * speeds follow their targets and the phases advance by one frame.
   */
  function Reacted(m: Math, mo: Motion, target: real, dt: real): (r: Motion)
    requires Lawful(m) && dt > 0.0 && Shaped(mo)
    ensures Shaped(r)
  {
    var drive := Follow(mo.drive, target, Alpha(m, dt, 0.15));
    var env := Follow(mo.env, target, Alpha(m, dt, 0.90));
    var pulse := Pulse(mo.pulse, Onset(drive, env), Decay(m, dt, 0.45));
    var tgt := SpeedTargets(env);
    var av := Alpha(m, dt, 0.70);
    var speed := [Follow(mo.speed[0], tgt[0], av), Follow(mo.speed[1], tgt[1], av),
                  Follow(mo.speed[2], tgt[2], av), Follow(mo.speed[3], tgt[3], av)];
    var phase := [Advanced(mo.phase[0], speed[0], dt), Advanced(mo.phase[1], speed[1], dt),
                  Advanced(mo.phase[2], speed[2], dt), Advanced(mo.phase[3], speed[3], dt)];
    Motion(drive, env, pulse, phase, speed)
  }

  /**
   * A frame keeps every value in its range: drive and envelope stay in
   * `[0, 1]` since they only move toward a target in `[0, 1]`, the pulse is
   * capped and decayed, the speeds follow positive targets and the phases wrap.
   */
  lemma ReactedInRange(m: Math, mo: Motion, target: real, dt: real)
    requires Lawful(m) && dt > 0.0 && InRange(mo) && 0.0 <= target <= 1.0
    ensures InRange(Reacted(m, mo, target, dt))
  {
    var r := Reacted(m, mo, target, dt);
    var tgt := SpeedTargets(r.env);
    forall i | 0 <= i < 4
      ensures r.speed[i] > 0.0
    {
      assert r.speed[i] == Follow(mo.speed[i], tgt[i], Alpha(m, dt, 0.70));
    }
    forall i | 0 <= i < 4
      ensures 0.0 <= r.phase[i] < 1.0
    {
      assert r.phase[i] == Advanced(mo.phase[i], r.speed[i], dt);
    }
  }

  /** Without sound both followers fall toward 0 and never rise. */
  lemma SilenceCalms(m: Math, mo: Motion, dt: real)
    requires Lawful(m) && dt > 0.0 && InRange(mo)
    ensures Reacted(m, mo, 0.0, dt).drive <= mo.drive
    ensures Reacted(m, mo, 0.0, dt).env <= mo.env
    ensures mo.drive > 0.0 ==> Reacted(m, mo, 0.0, dt).drive < mo.drive
  {
  }

  /** A steady target leaves a follower already at it where it is. */
  lemma SteadyAtTarget(m: Math, mo: Motion, dt: real)
    requires Lawful(m) && dt > 0.0 && Shaped(mo)
    ensures Reacted(m, mo, mo.drive, dt).drive == mo.drive
  {
  }

  /** ArrowUp: up one step, but not past the configured maximum. */
  function VolumeUp(volume: real, maxValue: real): (r: real)
    ensures r <= maxValue && r <= volume + VOLUME_STEP
    ensures r == maxValue || r == volume + VOLUME_STEP
  {
    Min(volume + VOLUME_STEP, maxValue)
  }

  /** ArrowDown: down one step, but not below 0. */
  function VolumeDown(volume: real): (r: real)
    ensures r >= 0.0 && r >= volume - VOLUME_STEP
    ensures r == 0.0 || r == volume - VOLUME_STEP
  {
    Max(volume - VOLUME_STEP, 0.0)
  }

  /** Away from the bounds, one step down undoes one step up. */
  lemma VolumeStepsUndo(volume: real, maxValue: real)
    requires 0.0 <= volume && volume + VOLUME_STEP <= maxValue
    ensures VolumeDown(VolumeUp(volume, maxValue)) == volume
  {
  }
}
