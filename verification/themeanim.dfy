/**
 * The theme-transition animator (src/app/anim/state.rs): the record of
 * what a transition runs from and to, the cosine easing, and the colours a
 * frame shows. The app-side steps (`begin_theme_anim`, `tick_theme_anim`,
 * `lerp_update`) are methods of `App.MusaApp`.
 */
module ThemeAnimation {
  import opened Numeric
  import opened Colour

  /** The transition length `ThemeAnim::new` uses, in milliseconds. */
  const NEW_DUR_MS: nat := 420

  const BLACK := Color32(0, 0, 0)
  const WHITE := Color32(255, 255, 255)

  /** `ThemeAnim`; `start` is the instant the transition began, in seconds. */
  datatype ThemeAnim = ThemeAnim(
    active: bool,
    start: real,
    durMs: nat,
    fromBg: seq<Color32>,
    toBg: seq<Color32>,
    fromAccent: Color32,
    toAccent: Color32,
    fromTitle: Color32,
    toTitle: Color32,
    fromHeader: Color32,
    toHeader: Color32)

  /** The colours the app shows: three background stops, accent, title and header. */
  datatype Colours = Colours(bg: seq<Color32>, accent: Color32, title: Color32, header: Color32)

  /** `ThemeAnim::new()`: inactive, 420 ms, black backgrounds and white everything else. */
  function NewThemeAnim(now: real): (a: ThemeAnim)
    ensures !a.active && a.durMs == NEW_DUR_MS && a.start == now
    ensures a.fromBg == a.toBg == [BLACK, BLACK, BLACK]
    ensures a.fromAccent == a.toAccent == a.fromTitle == a.toTitle == a.fromHeader == a.toHeader == WHITE
  {
    ThemeAnim(false, now, NEW_DUR_MS, [BLACK, BLACK, BLACK], [BLACK, BLACK, BLACK], WHITE, WHITE, WHITE, WHITE, WHITE, WHITE)
  }

  /** `ThemeAnim::ease`: `0.5 - 0.5 cos(PI clamp(t, 0, 1))`. */
  function Ease(m: Math, t: real): (k: real)
    requires Lawful(m)
    ensures 0.0 <= k <= 1.0
  {
    0.5 - 0.5 * m.cos(PI * Clamp(t, 0.0, 1.0))
  }

  /** The easing starts at 0 before the transition and ends at exactly 1 after it. */
  lemma EaseEnds(m: Math, t: real)
    requires Lawful(m)
    ensures t <= 0.0 ==> Ease(m, t) == 0.0
    ensures t >= 1.0 ==> Ease(m, t) == 1.0
  {
    if t <= 0.0 {
      assert PI * Clamp(t, 0.0, 1.0) == 0.0;
    } else if t >= 1.0 {
      assert PI * Clamp(t, 0.0, 1.0) == PI;
    }
  }

  /** The easing only looks at `t` through its clamp into `[0, 1]`. */
  lemma EaseClamped(m: Math, t: real)
    requires Lawful(m)
    ensures Ease(m, t) == Ease(m, Clamp(t, 0.0, 1.0))
  {
  }

  /**
   * The transition's progress after `elapsed` seconds: `elapsed / dur`,
   * where a zero duration makes any positive elapsed time infinitely far
   * along (reported as 1, which the easing and the end test treat alike).
   */
  function Progress(elapsed: real, durMs: nat): (t: real)
    requires elapsed > 0.0 || durMs > 0
    ensures durMs == 0 ==> t == 1.0
    ensures durMs > 0 && elapsed >= 0.0 ==> t >= 0.0
    ensures durMs > 0 && elapsed >= durMs as real / 1000.0 ==> t >= 1.0
    ensures durMs > 0 && 0.0 <= elapsed < durMs as real / 1000.0 ==> t < 1.0
  {
    if durMs == 0 then 1.0
    else
      var d := durMs as real / 1000.0;
      RatioBounds(elapsed, d);
      elapsed / d
  }

  /** Where `e / d` lies against 0 and 1, for a positive `d`. */
  lemma RatioBounds(e: real, d: real)
    requires d > 0.0
    ensures e >= 0.0 ==> e / d >= 0.0
    ensures e >= d ==> e / d >= 1.0
    ensures 0.0 <= e < d ==> e / d < 1.0
  {
    var q := e / d;
    assert d * q == e;
    if e >= 0.0 && q < 0.0 {
      MulStrict(d, q, 0.0);
    }
    if e >= d && q < 1.0 {
      MulStrict(d, q, 1.0);
    }
    if 0.0 <= e < d && q >= 1.0 {
      MulNonNeg(d, q - 1.0);
    }
  }

  /** The colours at easing factor `k`: every pair of endpoints blended by `lerp_srgb`. */
  function Lerped(pal: Palette, a: ThemeAnim, k: real): (c: Colours)
    requires |a.fromBg| == 3 && |a.toBg| == 3
    ensures |c.bg| == 3
    ensures forall i :: 0 <= i < 3 ==> c.bg[i] == pal.lerpSrgb(a.fromBg[i], a.toBg[i], k)
    ensures c.accent == pal.lerpSrgb(a.fromAccent, a.toAccent, k)
    ensures c.title == pal.lerpSrgb(a.fromTitle, a.toTitle, k)
    ensures c.header == pal.lerpSrgb(a.fromHeader, a.toHeader, k)
  {
    Colours(seq(3, i requires 0 <= i < 3 => pal.lerpSrgb(a.fromBg[i], a.toBg[i], k)),
      pal.lerpSrgb(a.fromAccent, a.toAccent, k),
      pal.lerpSrgb(a.fromTitle, a.toTitle, k),
      pal.lerpSrgb(a.fromHeader, a.toHeader, k))
  }

  /** The colours a transition ends on. */
  function Targets(a: ThemeAnim): Colours {
    Colours(a.toBg, a.toAccent, a.toTitle, a.toHeader)
  }

  /**
   * `begin_theme_anim`: start from the colours now shown, head for the new
   * background and accent, and derive title and header from the accent.
   */
  function Begun(pal: Palette, shown: Colours, toBg: seq<Color32>, toAccent: Color32, now: real, themeMs: nat): (a: ThemeAnim)
    ensures a.active && a.start == now && a.durMs == themeMs
    ensures a.fromBg == shown.bg && a.fromAccent == shown.accent && a.fromTitle == shown.title && a.fromHeader == shown.header
    ensures Targets(a) == Colours(toBg, toAccent, pal.titleFromAccent(toAccent), pal.titleFromAccent(toAccent))
  {
    ThemeAnim(true, now, themeMs, shown.bg, toBg, shown.accent, toAccent, shown.title,
      pal.titleFromAccent(toAccent), shown.header, pal.titleFromAccent(toAccent))
  }

  /**
   * One frame of `tick_theme_anim` on values: an inactive transition shows
   * what it showed; a running one shows the eased blend, and once the
   * progress reaches 1 it shows exactly its targets and stops.
   */
  function Ticked(m: Math, pal: Palette, a: ThemeAnim, shown: Colours, now: real): (r: (ThemeAnim, Colours))
    requires Lawful(m) && |a.fromBg| == 3 && |a.toBg| == 3
    requires a.durMs > 0 || now > a.start
  {
    if !a.active then (a, shown)
    else
      var t := Progress(Max(now - a.start, 0.0), a.durMs);
      if t >= 1.0 then (a.(active := false), Targets(a))
      else (a, Lerped(pal, a, Ease(m, t)))
  }

  /** An inactive animator changes nothing. */
  lemma TickedIdle(m: Math, pal: Palette, a: ThemeAnim, shown: Colours, now: real)
    requires Lawful(m) && |a.fromBg| == 3 && |a.toBg| == 3 && (a.durMs > 0 || now > a.start)
    requires !a.active
    ensures Ticked(m, pal, a, shown, now) == (a, shown)
  {
  }

  /** Once its duration has passed, a transition ends on its targets and stops. */
  lemma TickedFinishes(m: Math, pal: Palette, a: ThemeAnim, shown: Colours, now: real)
    requires Lawful(m) && |a.fromBg| == 3 && |a.toBg| == 3 && a.active
    requires a.durMs > 0 || now > a.start
    requires now - a.start >= a.durMs as real / 1000.0
    ensures Ticked(m, pal, a, shown, now) == (a.(active := false), Targets(a))
  {
  }

  /** Before its duration has passed, a transition stays active and shows the eased blend. */
  lemma TickedRunning(m: Math, pal: Palette, a: ThemeAnim, shown: Colours, now: real)
    requires Lawful(m) && |a.fromBg| == 3 && |a.toBg| == 3 && a.active
    requires a.durMs > 0 && now - a.start < a.durMs as real / 1000.0
    ensures var t := Progress(Max(now - a.start, 0.0), a.durMs);
      0.0 <= t < 1.0 && Ticked(m, pal, a, shown, now) == (a, Lerped(pal, a, Ease(m, t)))
  {
  }

  /**
   * A transition that has just begun, ticked after its duration, leaves
   * the new theme on screen: the requested background and accent and the
   * title and header derived from that accent.
   */
  lemma BeginThenFinish(m: Math, pal: Palette, shown: Colours, toBg: seq<Color32>, toAccent: Color32, start: real, themeMs: nat, now: real)
    requires Lawful(m) && |shown.bg| == 3 && |toBg| == 3
    requires themeMs > 0 || now > start
    requires now - start >= themeMs as real / 1000.0
    ensures var a := Begun(pal, shown, toBg, toAccent, start, themeMs);
      Ticked(m, pal, a, shown, now).1 == Colours(toBg, toAccent, pal.titleFromAccent(toAccent), pal.titleFromAccent(toAccent))
      && !Ticked(m, pal, a, shown, now).0.active
  {
    var a := Begun(pal, shown, toBg, toAccent, start, themeMs);
    TickedFinishes(m, pal, a, shown, now);
  }
}
