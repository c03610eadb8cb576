/**
 * Colours as the renderer and the theme animator see them. The conversions
 * themselves (the sRGB transfer curve, HSV) are colour science outside this
 * model: they are carried as a record of function values, and the only fact
 * used about them is the range of the HSV triple `rgb_to_hsv` returns.
 */
module Colour {
  /** `u8` */
  newtype Byte = x: int | 0 <= x < 256

  /** An opaque `egui::Color32`, as `Color32::from_rgb` builds it. */
  datatype Color32 = Color32(r: Byte, g: Byte, b: Byte)

  /** The colour conversions of the theme: `lerp_srgb`, `rgb_to_hsv`, `hsv_to_rgb`, `title_from_accent`. */
  datatype Palette = Palette(
    lerpSrgb: (Color32, Color32, real) -> Color32,
    rgbToHsv: Color32 -> (real, real, real),
    hsvToRgb: (real, real, real) -> Color32,
    titleFromAccent: Color32 -> Color32)

  /** `rgb_to_hsv` returns a hue in `[0, 360)` and a saturation and value in `[0, 1]`. */
  ghost predicate HsvRange(pal: Palette) {
    forall c :: HsvIn(pal.rgbToHsv(c))
  }

  predicate HsvIn(hsv: (real, real, real)) {
    0.0 <= hsv.0 < 360.0 && 0.0 <= hsv.1 <= 1.0 && 0.0 <= hsv.2 <= 1.0
  }

  /**
   * `base_gradient`: the background colour at height `v`, blending the
   * first two stops over the upper half and the last two over the lower half.
   */
  function BaseGradient(pal: Palette, stops: (Color32, Color32, Color32), v: real): Color32 {
    if v <= 0.5 then pal.lerpSrgb(stops.0, stops.1, v * 2.0)
    else pal.lerpSrgb(stops.1, stops.2, (v - 0.5) * 2.0)
  }
}
