/**
 * The app state the per-frame update and the theme animator change
 * (`MusaApp` of src/app/state.rs), with the steps of src/app/update.rs
 * (`update_timing`, `handle_input`, `tick_audio_reactivity`) and of
 * src/app/anim/state.rs (`lerp_update`, `begin_theme_anim`,
 * `tick_theme_anim`) as its methods. Instants are seconds passed in by the
 * caller; the keys pressed in a frame are a parameter.
 */
module App {
  import opened Wrappers
  import opened Numeric
  import opened Colour
  import opened Config
  import opened VisBuffers
  import opened Playback
  import opened Reactivity
  import opened ThemeAnimation

  /** The keys `handle_input` reacts to, as pressed this frame. */
  datatype Keys = Keys(space: bool, left: bool, right: bool, up: bool, down: bool)

  /** What `handle_input` leaves: the player's playback state, its volume and the status line. */
  datatype Input = Input(snap: Snapshot, volume: real, status: string)

  /**
   * `handle_input` on values, key by key in the source's order: Space
   * toggles pause, Left steps back and Right steps forward (an error lands
   * in the status line), Up and Down step the volume, which `set_volume`
   * clamps into `[0, 2]`.
   */
  function Handled(keys: Keys, s: Snapshot, len: nat, volume: real, maxValue: real, status: string,
                   now: real, ioPrev: PlayIo, ioNext: PlayIo): (r: Input)
    ensures !keys.space && !keys.left && !keys.right ==> r.snap == s && r.status == status
    ensures !keys.up && !keys.down ==> r.volume == volume
    ensures keys.up || keys.down ==> 0.0 <= r.volume <= 2.0
    ensures keys.up && !keys.down ==> r.volume == Clamp(VolumeUp(volume, maxValue), 0.0, 2.0)
    ensures keys.down && !keys.up ==> r.volume == Clamp(VolumeDown(volume), 0.0, 2.0)
  {
    var s1 := if keys.space then Toggled(s, now) else s;
    var p := if keys.left then Stepped(s1, len, now, ioPrev, false) else (s1, Ok(()));
    var st1 := if p.1.Err? then "Prev error: " + p.1.error else status;
    var n := if keys.right then Stepped(p.0, len, now, ioNext, true) else (p.0, Ok(()));
    var st2 := if n.1.Err? then "Next error: " + n.1.error else st1;
    var v1 := if keys.up then Clamp(VolumeUp(volume, maxValue), 0.0, 2.0) else volume;
    var v2 := if keys.down then Clamp(VolumeDown(v1), 0.0, 2.0) else v1;
    Input(n.0, v2, st2)
  }

  /** A key press keeps the index inside a non-empty playlist. */
  lemma HandledKeepsIndex(keys: Keys, s: Snapshot, len: nat, volume: real, maxValue: real, status: string,
                          now: real, ioPrev: PlayIo, ioNext: PlayIo)
    requires len > 0 ==> s.index < len
    ensures var r := Handled(keys, s, len, volume, maxValue, status, now, ioPrev, ioNext);
      len > 0 ==> r.snap.index < len
  {
  }

  /** The background-motion, theme and playback state of `MusaApp`. */
  class MusaApp {
    var cfg: Settings
    const player: Player
    var status: string

    var bgColors: seq<Color32>
    var accent: Color32
    var titleColor: Color32
    var headerColor: Color32
    var anim: ThemeAnim

    var lastFrame: real
    var dtSec: real
    var bgTime: real
    var bgMusicDrive: real
    var bgMusicEnv: real
    var bgPulse: real
    var bgPhase: seq<real>
    var bgSpeed: seq<real>

    function Motion(): Motion
      reads this
    {
      Reactivity.Motion(bgMusicDrive, bgMusicEnv, bgPulse, bgPhase, bgSpeed)
    }

    function Shown(): Colours
      reads this
    {
      Colours(bgColors, accent, titleColor, headerColor)
    }

    /**
     * The frame step lies in its clamp range, every motion value in its
     * range, and the colour triples have three stops.
     */
    ghost predicate Valid()
      reads this
    {
      && DT_MIN <= dtSec <= DT_MAX
      && Reactivity.InRange(Motion())
      && |bgColors| == 3 && |anim.fromBg| == 3 && |anim.toBg| == 3
    }

    /**
     * The state `new_app` builds around a fresh player: the accent and the
     * gradient stops from the configuration, title and header derived from
     * the accent, an idle animator, a 1/60 s frame step and resting motion.
     */
    constructor (pal: Palette, cfg: Settings, stops: seq<Color32>, now: real)
      requires |stops| == 3
      ensures this.cfg == cfg && status == "" && fresh(player) && player.volume == cfg.player.initialVolume
      ensures player.playlist == [] && player.Valid()
      ensures Shown() == Colours(stops, ToColor32(cfg.theme.accent), pal.titleFromAccent(ToColor32(cfg.theme.accent)),
        pal.titleFromAccent(ToColor32(cfg.theme.accent)))
      ensures anim == NewThemeAnim(now)
      ensures lastFrame == now && dtSec == 1.0 / 60.0 && bgTime == 0.0
      ensures Motion() == INITIAL_MOTION
      ensures Valid()
    {
      this.cfg := cfg;
      var p := new Player();
      p.volume := cfg.player.initialVolume;
      player := p;
      status := "";
      var a := ToColor32(cfg.theme.accent);
      bgColors := stops;
      accent := a;
      titleColor := pal.titleFromAccent(a);
      headerColor := pal.titleFromAccent(a);
      anim := NewThemeAnim(now);
      lastFrame := now;
      dtSec := 1.0 / 60.0;
      bgTime := 0.0;
      bgMusicDrive, bgMusicEnv, bgPulse := 0.0, 0.0, 0.0;
      bgPhase := [0.0, 0.35, 0.62, 0.17];
      bgSpeed := BASE_SPEEDS;
      InitialInRange();
    }

    /** `update_timing`: clamp the time since the last frame and add it to the background clock. */
    method UpdateTiming(now: real)
      modifies this`dtSec, this`lastFrame, this`bgTime
      ensures dtSec == FrameStep(old(lastFrame), now) && DT_MIN <= dtSec <= DT_MAX
      ensures lastFrame == now && bgTime == old(bgTime) + dtSec
      ensures old(Valid()) ==> Valid()
    {
      dtSec := Clamp(Max(now - lastFrame, 0.0), DT_MIN, DT_MAX);
      lastFrame := now;
      bgTime := bgTime + dtSec;
    }

    /**
     * `handle_input`: the keys of this frame act on the player in the
     * source's order; an error from a step lands in the status line.
     */
    method HandleInput(keys: Keys, now: real, ioPrev: PlayIo, ioNext: PlayIo)
      requires player.Valid()
      modifies this`status, player
      ensures Input(player.Snap(), player.volume, status)
        == Handled(keys, old(player.Snap()), |player.playlist|, old(player.volume), cfg.ui.volume.maxValue, old(status), now, ioPrev, ioNext)
      ensures player.Valid() && player.playlist == old(player.playlist) && player.repeatOne == old(player.repeatOne)
    {
      hide Stepped, Toggled, AfterPlay, VolumeUp, VolumeDown, Clamp;
      PressSpace(keys.space, now);
      PressArrow(keys.left, false, now, ioPrev);
      PressArrow(keys.right, true, now, ioNext);
      PressVolume(keys.up, keys.down);
    }

    /** Space: toggle pause. */
    method PressSpace(pressed: bool, now: real)
      requires player.Valid()
      modifies player
      ensures player.Snap() == if pressed then Toggled(old(player.Snap()), now) else old(player.Snap())
      ensures player.Valid() && player.playlist == old(player.playlist) && player.repeatOne == old(player.repeatOne)
      ensures player.volume == old(player.volume)
    {
      if pressed {
        player.TogglePause(now);
      }
    }

    /** Left (`forward` false) or Right (`forward` true): step through the playlist, reporting an error. */
    method PressArrow(pressed: bool, forward: bool, now: real, io: PlayIo)
      requires player.Valid()
      modifies this`status, player
      ensures var r := if pressed then Stepped(old(player.Snap()), |player.playlist|, now, io, forward) else (old(player.Snap()), Ok(()));
        && player.Snap() == r.0
        && status == if r.1.Err? then (if forward then "Next error: " else "Prev error: ") + r.1.error else old(status)
      ensures player.Valid() && player.playlist == old(player.playlist) && player.repeatOne == old(player.repeatOne)
      ensures player.volume == old(player.volume)
    {
      if pressed {
        var r;
        if forward {
          r := player.Next(now, io);
        } else {
          r := player.Prev(now, io);
        }
        if r.Err? {
          status := (if forward then "Next error: " else "Prev error: ") + r.error;
        }
      }
    }

    /** Up and Down: step the volume within its bounds. */
    method PressVolume(up: bool, down: bool)
      modifies player
      ensures var v1 := if up then Clamp(VolumeUp(old(player.volume), cfg.ui.volume.maxValue), 0.0, 2.0) else old(player.volume);
        player.volume == if down then Clamp(VolumeDown(v1), 0.0, 2.0) else v1
      ensures player.Snap() == old(player.Snap()) && player.playlist == old(player.playlist) && player.repeatOne == old(player.repeatOne)
    {
      if up {
        var maxv := cfg.ui.volume.maxValue;
        player.SetVolume(VolumeUp(player.volume, maxv));
      }
      if down {
        player.SetVolume(VolumeDown(player.volume));
      }
    }

    /**
     * `tick_audio_reactivity`: take the latest samples, derive the drive
     * target from their 90th-percentile magnitude, and advance the motion
     * state by one frame.
     */
    method TickAudioReactivity(m: Math)
      requires Lawful(m) && Valid()
      modifies this`bgMusicDrive, this`bgMusicEnv, this`bgPulse, this`bgSpeed, this`bgPhase
      ensures Motion() == Reacted(m, old(Motion()), Target(Recent(player.visBuf.q, WINDOW)), dtSec)
      ensures Valid()
    {
      hide Lawful, Alpha, Follow, Pulse, Decay, SpeedTargets, Advanced, Onset, Target, Recent;
      var recent := player.visBuf.TakeRecent(WINDOW);
      var target := AudioTarget(recent);
      var dt := dtSec;
      var aFast := Alpha(m, dt, 0.15);
      bgMusicDrive := Follow(bgMusicDrive, target, aFast);
      var aSlow := Alpha(m, dt, 0.90);
      bgMusicEnv := Follow(bgMusicEnv, target, aSlow);
      var onset := Onset(bgMusicDrive, bgMusicEnv);
      bgPulse := Pulse(bgPulse, onset, Decay(m, dt, 0.45));
      var targets := SpeedTargets(bgMusicEnv);
      var av := Alpha(m, dt, 0.70);
      bgSpeed := [Follow(bgSpeed[0], targets[0], av), Follow(bgSpeed[1], targets[1], av),
                  Follow(bgSpeed[2], targets[2], av), Follow(bgSpeed[3], targets[3], av)];
      bgPhase := [Advanced(bgPhase[0], bgSpeed[0], dt), Advanced(bgPhase[1], bgSpeed[1], dt),
                  Advanced(bgPhase[2], bgSpeed[2], dt), Advanced(bgPhase[3], bgSpeed[3], dt)];
      ReactedInRange(m, old(Motion()), target, dt);
    }

    /** `lerp_update`: show every colour blended `k` of the way along its transition. */
    method LerpUpdate(pal: Palette, k: real)
      requires |anim.fromBg| == 3 && |anim.toBg| == 3
      modifies this`bgColors, this`accent, this`titleColor, this`headerColor
      ensures Shown() == Lerped(pal, anim, k)
    {
      var bg := [];
      for i := 0 to 3
        invariant |bg| == i
        invariant forall j :: 0 <= j < i ==> bg[j] == pal.lerpSrgb(anim.fromBg[j], anim.toBg[j], k)
      {
        bg := bg + [pal.lerpSrgb(anim.fromBg[i], anim.toBg[i], k)];
      }
      bgColors := bg;
      accent := pal.lerpSrgb(anim.fromAccent, anim.toAccent, k);
      titleColor := pal.lerpSrgb(anim.fromTitle, anim.toTitle, k);
      headerColor := pal.lerpSrgb(anim.fromHeader, anim.toHeader, k);
    }

    /** `begin_theme_anim`: start a transition from the shown colours to a new background and accent. */
    method BeginThemeAnim(pal: Palette, toBg: seq<Color32>, toAccent: Color32, now: real)
      modifies this`anim
      ensures anim == Begun(pal, Shown(), toBg, toAccent, now, cfg.anim.themeMs)
      ensures old(Valid()) && |toBg| == 3 ==> Valid()
    {
      anim := anim.(fromBg := bgColors, toBg := toBg);
      anim := anim.(fromAccent := accent, toAccent := toAccent);
      anim := anim.(fromTitle := titleColor, toTitle := pal.titleFromAccent(toAccent));
      anim := anim.(fromHeader := headerColor, toHeader := pal.titleFromAccent(toAccent));
      anim := anim.(start := now, durMs := cfg.anim.themeMs, active := true);
    }

    /**
     * `tick_theme_anim`: nothing while idle; otherwise show the eased blend
     * and, once the progress reaches 1, the exact targets, and go idle.
     */
    method TickThemeAnim(m: Math, pal: Palette, now: real)
      requires Lawful(m) && Valid()
      requires anim.durMs > 0 || now > anim.start
      modifies this`anim, this`bgColors, this`accent, this`titleColor, this`headerColor
      ensures (anim, Shown()) == Ticked(m, pal, old(anim), old(Shown()), now)
      ensures Valid()
    {
      hide Lawful, Reactivity.InRange, Lerped, Progress, Ease, Max;
      if !anim.active {
        return;
      }
      var t := Progress(Max(now - anim.start, 0.0), anim.durMs);
      var k := Ease(m, t);
      LerpUpdate(pal, k);
      if t >= 1.0 {
        anim := anim.(active := false);
        bgColors := anim.toBg;
        accent := anim.toAccent;
        titleColor := anim.toTitle;
        headerColor := anim.toHeader;
      }
    }
  }

  /**
   * The drive target as the source computes it: magnitudes, a full sort,
   * and the element at `min(floor(0.9 len), len - 1)`, doubled and clamped.
   */
  method AudioTarget(recent: seq<real>) returns (target: real)
    ensures target == Target(recent)
  {
    if |recent| >= MIN_SAMPLES {
      var v := Mags(recent);
      v := Sorting.SortBy(v, Sorting.RealLe);
      var idx := MinNat(ToUsize(|v| as real * 0.90), |v| - 1);
      assert idx == Sorting.Rank90(|v|);
      target := Clamp(v[idx] * 2.0, 0.0, 1.0);
    } else {
      target := 0.0;
    }
  }
}
