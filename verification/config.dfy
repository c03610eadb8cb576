/**
 * The user configuration (src/config): plain records with their defaults,
 * the `Config` object whose `clamp` repairs the three values the rest of
 * the program relies on, and the colour accessors.
 */
module Config {
  import opened Numeric
  import opened Wrappers
  import opened Colour

  /** `[u8; 3]` */
  datatype Rgb = Rgb(r: Byte, g: Byte, b: Byte)

  /** `[[u8; 3]; 3]`: the three background stops, top to bottom. */
  datatype Stops = Stops(top: Rgb, middle: Rgb, bottom: Rgb)

  datatype WindowCfg = WindowCfg(startW: real, startH: real, minW: real, minH: real, vsync: bool)
  datatype ThemeCfg = ThemeCfg(bgStops: Stops, accent: Rgb)
  datatype SeekbarCfg = SeekbarCfg(timeWidth: real, height: real, knobR: real, knobRHover: real)
  datatype ControlsCfg = ControlsCfg(prevD: real, playD: real, nextD: real, repeatD: real, shuffleD: real, rowMinH: real)
  datatype VolumeSliderCfg = VolumeSliderCfg(
    height: real, knobR: real, knobRHover: real, widthFracRight: real, widthMin: real, widthMax: real, maxValue: real)
  datatype UiCfg = UiCfg(gap: real, gapSmall: real, seek: SeekbarCfg, controls: ControlsCfg, volume: VolumeSliderCfg, bottomBarH: real)
  datatype BgAnimCfg = BgAnimCfg(
    enabled: bool,
    musicAmount: real, visGain: real, depthGain: real, focus: real,
    warpBase: real, warpMusic: real,
    hueFollow: real,
    lambertGain: real, rimGain: real,
    volBase: real, volMusic: real)
  datatype AnimCfg = AnimCfg(themeMs: nat, bg: BgAnimCfg)
  datatype VisualizerCfg = VisualizerCfg(nPoints: nat, bandHRatio: real, bandHMin: real, bandHMax: real)
  datatype PlayerCfg = PlayerCfg(initialVolume: real, volumeMax: real)

  /** The value of a whole `Config`. */
  datatype Settings = Settings(
    window: WindowCfg, theme: ThemeCfg, ui: UiCfg, anim: AnimCfg, visualizer: VisualizerCfg, player: PlayerCfg)

  const DEFAULT_BG := BgAnimCfg(true, 1.0, 1.28, 1.15, 0.65, 0.026, 0.040, 0.035, 0.80, 0.12, 0.18, 0.10)

  /** `Config::default()`, assembled from the defaults of every section. */
  const DEFAULT := Settings(
    WindowCfg(900.0, 700.0, 780.0, 900.0, false),
    ThemeCfg(Stops(Rgb(36, 36, 40), Rgb(24, 24, 28), Rgb(12, 12, 14)), Rgb(120, 160, 255)),
    UiCfg(8.0, 6.0,
      SeekbarCfg(68.0, 10.0, 6.5, 7.5),
      ControlsCfg(40.0, 48.0, 40.0, 36.0, 36.0, 28.0),
      VolumeSliderCfg(8.0, 4.0, 4.8, 0.18, 90.0, 140.0, 2.0),
      84.0),
    AnimCfg(420, DEFAULT_BG),
    VisualizerCfg(120, 0.28, 80.0, 200.0),
    PlayerCfg(1.0, 2.0))

  /** A configuration with the three clamped values zeroed: the part `clamp` must leave alone. */
  function Rest(s: Settings): Settings {
    s.(ui := s.ui.(volume := s.ui.volume.(maxValue := 0.0)),
       player := s.player.(initialVolume := 0.0),
       visualizer := s.visualizer.(nPoints := 0))
  }

  /** The values `clamp` guarantees. */
  predicate InRange(s: Settings) {
    && s.ui.volume.maxValue >= 0.1
    && 0.0 <= s.player.initialVolume <= s.ui.volume.maxValue
    && 16 <= s.visualizer.nPoints <= 4096
  }

  /** What `Config::clamp` makes of a configuration. */
  function Clamped(s: Settings): (r: Settings)
    ensures InRange(r)
    ensures Rest(r) == Rest(s)
    ensures s.ui.volume.maxValue >= 0.1 ==> r.ui.volume.maxValue == s.ui.volume.maxValue
    ensures s.ui.volume.maxValue < 0.1 ==> r.ui.volume.maxValue == 0.1
    ensures 0.0 <= s.player.initialVolume <= r.ui.volume.maxValue ==> r.player.initialVolume == s.player.initialVolume
    ensures 16 <= s.visualizer.nPoints <= 4096 ==> r.visualizer.nPoints == s.visualizer.nPoints
    ensures InRange(s) ==> r == s
  {
    var maxValue := Max(s.ui.volume.maxValue, 0.1);
    var initial := Clamp(s.player.initialVolume, 0.0, maxValue);
    var nPoints := MinNat(if s.visualizer.nPoints >= 16 then s.visualizer.nPoints else 16, 4096);
    s.(ui := s.ui.(volume := s.ui.volume.(maxValue := maxValue)),
       player := s.player.(initialVolume := initial),
       visualizer := s.visualizer.(nPoints := nPoints))
  }

  /** Clamping twice is clamping once. */
  lemma ClampedIdempotent(s: Settings)
    ensures Clamped(Clamped(s)) == Clamped(s)
  {
  }

  /** The defaults already satisfy the clamp, so writing them unclamped loses nothing. */
  lemma DefaultInRange()
    ensures InRange(DEFAULT) && Clamped(DEFAULT) == DEFAULT
  {
  }

  /**
   * `load_or_create`, with the file system as parameters: `existing` is
   * the parsed file when there is one (a read or parse error is the `Err`
   * case), `None` when there is none; `writeError` is the error creating
   * the directory or writing the defaults out fails with, if any.
   */
  function LoadOrCreate(existing: Option<Result<Settings, string>>, writeError: Option<string>): (r: Result<Settings, string>)
    ensures r.Ok? ==> InRange(r.value)
    ensures existing.None? && writeError.None? ==> r == Ok(DEFAULT)
    ensures existing.None? && writeError.Some? ==> r == Err(writeError.value)
    ensures existing.Some? && existing.value.Ok? ==> r == Ok(Clamped(existing.value.value))
    ensures existing.Some? && existing.value.Err? ==> r == Err(existing.value.error)
  {
    DefaultInRange();
    match existing
    case None => if writeError.Some? then Err(writeError.value) else Ok(DEFAULT)
    case Some(Ok(s)) => Ok(Clamped(s))
    case Some(Err(e)) => Err(e)
  }

  /** `[r, g, b]` as an opaque colour. */
  function ToColor32(rgb: Rgb): (c: Color32)
    ensures Rgb(c.r, c.g, c.b) == rgb
  {
    Color32(rgb.r, rgb.g, rgb.b)
  }

  /** `Config`: the loaded configuration, repaired in place by `clamp`. */
  class Config {
    var window: WindowCfg
    var theme: ThemeCfg
    var ui: UiCfg
    var anim: AnimCfg
    var visualizer: VisualizerCfg
    var player: PlayerCfg

    function Value(): Settings
      reads this
    {
      Settings(window, theme, ui, anim, visualizer, player)
    }

    /** A configuration holding `s`, as deserialisation or `Config::default()` produces it. */
    constructor (s: Settings)
      ensures Value() == s
    {
      window, theme, ui, anim, visualizer, player := s.window, s.theme, s.ui, s.anim, s.visualizer, s.player;
    }

    /** `Config::clamp` */
    method Clamp()
      modifies this
      ensures Value() == Clamped(old(Value()))
    {
      ui := ui.(volume := ui.volume.(maxValue := Max(ui.volume.maxValue, 0.1)));
      player := player.(initialVolume := Numeric.Clamp(player.initialVolume, 0.0, ui.volume.maxValue));
      var n := visualizer.nPoints;
      if n < 16 {
        n := 16;
      }
      if n > 4096 {
        n := 4096;
      }
      visualizer := visualizer.(nPoints := n);
    }

    /** `accent_color32` */
    function AccentColor32(): (c: Color32)
      reads this
      ensures Rgb(c.r, c.g, c.b) == theme.accent
    {
      ToColor32(theme.accent)
    }

    /** `bg_stops_color32`: the three stops, each mapped componentwise. */
    function BgStopsColor32(): (cs: (Color32, Color32, Color32))
      reads this
      ensures Rgb(cs.0.r, cs.0.g, cs.0.b) == theme.bgStops.top
      ensures Rgb(cs.1.r, cs.1.g, cs.1.b) == theme.bgStops.middle
      ensures Rgb(cs.2.r, cs.2.g, cs.2.b) == theme.bgStops.bottom
    {
      (ToColor32(theme.bgStops.top), ToColor32(theme.bgStops.middle), ToColor32(theme.bgStops.bottom))
    }
  }
}
