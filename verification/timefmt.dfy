/**
 * `seconds_to_mmss` (src/util/timefmt.rs): a position in seconds shown as
 * zero-padded minutes and seconds, or a placeholder for values that are
 * not a time.
 */
module TimeFormat {
  import opened Numeric
  import opened Chars

  /** What a non-finite or negative input is shown as. */
  const PLACEHOLDER: string := "--:--"
  const U64_MAX: nat := 0xFFFF_FFFF_FFFF_FFFF

  predicate AllDigits(s: string) {
    forall k :: 0 <= k < |s| ==> IsDigit(s[k])
  }

  /** `{}` on an integer: its decimal digits, without leading zeros. */
  function Decimal(n: nat): (r: string)
    ensures |r| >= 1 && AllDigits(r)
    ensures DigitsValue(r) == n
    ensures n < 10 ==> |r| == 1
    ensures n < 100 ==> |r| <= 2
    ensures n < 1000 ==> |r| <= 3
  {
    var d := ['0' + (n % 10) as char];
    if n < 10 then d else Decimal(n / 10) + d
  }

  /** `{:02}`: the decimal digits, padded with a leading zero to at least two. */
  function Pad2(n: nat): (r: string)
    ensures |r| >= 2 && AllDigits(r)
    ensures DigitsValue(r) == n
    ensures n < 100 ==> |r| == 2
  {
    if n < 10 then
      var r := "0" + Decimal(n);
      assert r[..|r| - 1] == "0";
      r
    else Decimal(n)
  }

  /** `secs as u64` on a finite non-negative value: truncation, saturating at `u64::MAX`. */
  function TruncU64(x: real): (s: nat)
    requires x >= 0.0
    ensures s <= U64_MAX
    ensures x < U64_MAX as real ==> s as real <= x < s as real + 1.0
  {
    if x >= U64_MAX as real then U64_MAX else x.Floor
  }

  /** `seconds_to_mmss`. */
  function SecondsToMmss(secs: F32): (r: string)
    ensures !secs.IsFinite() || secs.value < 0.0 ==> r == PLACEHOLDER
  {
    if !secs.IsFinite() || secs.value < 0.0 then PLACEHOLDER
    else
      var s := TruncU64(secs.value);
      Pad2(s / 60) + ":" + Pad2(s % 60)
  }

  /**
   * A time reads back as the whole seconds it was truncated to: the digits
   * before the last `:` count minutes, the two after it the seconds, which
   * are below 60.
   */
  lemma MmssReadsBack(x: real)
    requires x >= 0.0
    ensures var r := SecondsToMmss(Finite(x));
      && |r| >= 5 && r[|r| - 3] == ':'
      && AllDigits(r[..|r| - 3]) && AllDigits(r[|r| - 2..])
      && DigitsValue(r[|r| - 2..]) < 60
      && DigitsValue(r[..|r| - 3]) * 60 + DigitsValue(r[|r| - 2..]) == TruncU64(x)
  {
    var s := TruncU64(x);
    var r := SecondsToMmss(Finite(x));
    var mm := Pad2(s / 60);
    var ss := Pad2(s % 60);
    assert r == mm + ":" + ss;
    assert r[..|r| - 3] == mm;
    assert r[|r| - 2..] == ss;
  }

  /** Below 100 minutes the text is exactly `mm:ss`, five characters. */
  lemma MmssFiveChars(x: real)
    requires 0.0 <= x < 6000.0
    ensures |SecondsToMmss(Finite(x))| == 5
  {
    var s := TruncU64(x);
    assert s < 6000;
    assert s / 60 < 100;
  }
}
