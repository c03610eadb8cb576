/**
 * Characters and the small string operations the naming rules are built
 * from: Unicode whitespace (what Rust's `trim` and the regex class `\s`
 * remove), ASCII digits, ASCII case folding, trimming, substring search
 * and the UTF-8 length Rust measures strings by.
 */
module Chars {
  import opened Wrappers

  /** Unicode `White_Space`: the characters `str::trim` and `\s` treat as space. */
  predicate IsSpace(c: char) {
    || ('\t' <= c <= '\r') || c == ' ' || c == '\U{85}' || c == '\U{A0}' || c == '\U{1680}'
    || ('\U{2000}' <= c <= '\U{200A}') || c == '\U{2028}' || c == '\U{2029}'
    || c == '\U{202F}' || c == '\U{205F}' || c == '\U{3000}'
  }

  predicate IsDigit(c: char) {
    '0' <= c <= '9'
  }

  predicate IsAsciiLetter(c: char) {
    ('a' <= c <= 'z') || ('A' <= c <= 'Z')
  }

  /** A word character of a regex `\b`, over the ASCII range. */
  predicate IsWordChar(c: char) {
    IsAsciiLetter(c) || IsDigit(c) || c == '_'
  }

  /** `u8::to_ascii_lowercase` lifted to characters. */
  function AsciiLower(c: char): (r: char)
    ensures 'A' <= c <= 'Z' ==> 'a' <= r <= 'z' && r as int == c as int + 32
    ensures !('A' <= c <= 'Z') ==> r == c
  {
    if 'A' <= c <= 'Z' then (c as int + 32) as char else c
  }

  /** `str::eq_ignore_ascii_case`. */
  predicate EqIgnoreAsciiCase(a: string, b: string) {
    |a| == |b| && forall i :: 0 <= i < |a| ==> AsciiLower(a[i]) == AsciiLower(b[i])
  }

  /** `str::to_ascii_lowercase`. */
  function LowerAscii(s: string): (r: string)
    ensures |r| == |s| && forall k :: 0 <= k < |s| ==> r[k] == AsciiLower(s[k])
  {
    seq(|s|, k requires 0 <= k < |s| => AsciiLower(s[k]))
  }

  /** `s` is already in ASCII lower case. */
  predicate IsLowered(s: string) {
    forall k :: 0 <= k < |s| ==> AsciiLower(s[k]) == s[k]
  }

  /** `words.iter().any(|w| s.eq_ignore_ascii_case(w))`. */
  function AnyIgnoringCase(s: string, words: seq<string>): bool {
    |words| > 0 && (EqIgnoreAsciiCase(s, words[0]) || AnyIgnoringCase(s, words[1..]))
  }

  /** Against lower-case words, matching one ignoring case is finding the lowered text among them. */
  lemma {:induction false} AnyIgnoringCaseLowered(s: string, words: seq<string>)
    requires forall i :: 0 <= i < |words| ==> IsLowered(words[i])
    ensures AnyIgnoringCase(s, words) <==> LowerAscii(s) in words
  {
    if |words| > 0 {
      AnyIgnoringCaseLowered(s, words[1..]);
      assert words == [words[0]] + words[1..];
      if EqIgnoreAsciiCase(s, words[0]) {
        assert LowerAscii(s) == words[0];
      }
    }
  }

  /** Matching one of the words ignoring case is matching some word at an index. */
  lemma {:induction false} AnyIgnoringCaseSome(s: string, words: seq<string>)
    ensures AnyIgnoringCase(s, words) <==> exists i :: 0 <= i < |words| && EqIgnoreAsciiCase(s, words[i])
  {
    if |words| > 0 {
      AnyIgnoringCaseSome(s, words[1..]);
      if exists i :: 0 <= i < |words| && EqIgnoreAsciiCase(s, words[i]) {
        var i :| 0 <= i < |words| && EqIgnoreAsciiCase(s, words[i]);
        if i > 0 {
          assert words[1..][i - 1] == words[i];
        }
      }
    }
  }

  /** Each string is equal to itself up to ASCII case. */
  lemma EqIgnoreAsciiCaseRefl(a: string)
    ensures EqIgnoreAsciiCase(a, a)
  {
  }

  /** The first index at or after `i` that is not whitespace, or `|s|`. */
  function SkipSpace(s: string, i: nat): (j: nat)
    requires i <= |s|
    ensures i <= j <= |s|
    ensures forall k :: i <= k < j ==> IsSpace(s[k])
    ensures j == |s| || !IsSpace(s[j])
    decreases |s| - i
  {
    if i < |s| && IsSpace(s[i]) then SkipSpace(s, i + 1) else i
  }

  /** The first index at or after `i` that is not an ASCII digit, or `|s|`. */
  function SkipDigits(s: string, i: nat): (j: nat)
    requires i <= |s|
    ensures i <= j <= |s|
    ensures forall k :: i <= k < j ==> IsDigit(s[k])
    ensures j == |s| || !IsDigit(s[j])
    decreases |s| - i
  {
    if i < |s| && IsDigit(s[i]) then SkipDigits(s, i + 1) else i
  }

  /** The start of the whitespace run that ends at `j`. */
  function BackSpace(s: string, j: nat): (i: nat)
    requires j <= |s|
    ensures i <= j
    ensures forall k :: i <= k < j ==> IsSpace(s[k])
    ensures i == 0 || !IsSpace(s[i - 1])
  {
    if j > 0 && IsSpace(s[j - 1]) then BackSpace(s, j - 1) else j
  }

  /** The start of the run of ASCII digits that ends at `j`. */
  function BackDigits(s: string, j: nat): (i: nat)
    requires j <= |s|
    ensures i <= j
    ensures forall k :: i <= k < j ==> IsDigit(s[k])
    ensures i == 0 || !IsDigit(s[i - 1])
  {
    if j > 0 && IsDigit(s[j - 1]) then BackDigits(s, j - 1) else j
  }

  /** A digit run `[i, j)` that nothing digit precedes is the run `BackDigits` finds. */
  lemma {:induction false} BackDigitsRun(s: string, i: nat, j: nat)
    requires i <= j <= |s|
    requires forall k :: i <= k < j ==> IsDigit(s[k])
    requires i == 0 || !IsDigit(s[i - 1])
    ensures BackDigits(s, j) == i
    decreases j
  {
    if j > i {
      BackDigitsRun(s, i, j - 1);
    }
  }

  /** `str::trim_start`. */
  function TrimStart(s: string): (r: string)
    ensures r == s[SkipSpace(s, 0)..]
  {
    s[SkipSpace(s, 0)..]
  }

  /** `str::trim_end`. */
  function TrimEnd(s: string): (r: string)
    ensures r == s[..BackSpace(s, |s|)]
  {
    s[..BackSpace(s, |s|)]
  }

  predicate Trimmed(s: string) {
    |s| == 0 || (!IsSpace(s[0]) && !IsSpace(s[|s| - 1]))
  }

  /**
   * `str::trim`: the slice of `s` from its first non-space character, with
   * only whitespace cut from either end.
   */
  function Trim(s: string): (r: string)
    ensures Trimmed(r)
    ensures SkipSpace(s, 0) + |r| <= |s| && r == s[SkipSpace(s, 0)..SkipSpace(s, 0) + |r|]
    ensures forall k :: SkipSpace(s, 0) + |r| <= k < |s| ==> IsSpace(s[k])
  {
    var t := TrimStart(s);
    var r := TrimEnd(t);
    assert |t| > 0 ==> !IsSpace(t[0]);
    r
  }

  /** Trimming a trimmed string changes nothing. */
  lemma TrimTrimmed(s: string)
    requires Trimmed(s)
    ensures Trim(s) == s
  {
    assert SkipSpace(s, 0) == 0;
    assert BackSpace(s, |s|) == |s|;
  }

  /** `str::trim` is idempotent. */
  lemma TrimIdempotent(s: string)
    ensures Trim(Trim(s)) == Trim(s)
  {
    TrimTrimmed(Trim(s));
  }

  /** A string with no whitespace at all is its own trim. */
  lemma TrimNoSpace(s: string)
    requires forall k :: 0 <= k < |s| ==> !IsSpace(s[k])
    ensures Trim(s) == s
  {
    TrimTrimmed(s);
  }

  /** `pat` occurs in `s` at `i`. */
  predicate OccursAt(s: string, pat: string, i: nat) {
    i + |pat| <= |s| && s[i..i + |pat|] == pat
  }

  /** The first occurrence of `pat` in `s` at or after `i` (`str::find` from `i`). */
  function FindFrom(s: string, pat: string, i: nat): (r: Option<nat>)
    requires i <= |s|
    ensures r.Some? ==> i <= r.value && OccursAt(s, pat, r.value)
    ensures r.Some? ==> forall k :: i <= k < r.value ==> !OccursAt(s, pat, k)
    ensures r.None? ==> forall k :: i <= k <= |s| ==> !OccursAt(s, pat, k)
    decreases |s| - i
  {
    if OccursAt(s, pat, i) then Some(i)
    else if i + |pat| >= |s| then
      assert |pat| > 0;
      None
    else FindFrom(s, pat, i + 1)
  }

  /** `str::find`: the first occurrence of `pat` in `s`. */
  function Find(s: string, pat: string): (r: Option<nat>)
    ensures r.Some? ==> OccursAt(s, pat, r.value) && forall k :: 0 <= k < r.value ==> !OccursAt(s, pat, k)
    ensures r.None? ==> forall k :: 0 <= k <= |s| ==> !OccursAt(s, pat, k)
  {
    FindFrom(s, pat, 0)
  }

  /** The value of a run of ASCII digits (`str::parse::<u32>` on at most three of them). */
  function DigitsValue(ds: string): (n: nat)
    ensures |ds| <= 1 ==> n < 10
    ensures |ds| <= 2 ==> n < 100
    ensures |ds| <= 3 ==> n < 1000
  {
    if |ds| == 0 then 0
    else DigitsValue(ds[..|ds| - 1]) * 10 + DigitOf(ds[|ds| - 1])
  }

  function DigitOf(c: char): (d: nat)
    ensures d <= 9
  {
    if IsDigit(c) then c as int - '0' as int else 0
  }

  /** The bytes `c` takes in UTF-8. */
  function Utf8Len(c: char): (n: nat)
    ensures 1 <= n <= 4
    ensures n == 1 <==> c as int < 0x80
  {
    if c as int < 0x80 then 1
    else if c as int < 0x800 then 2
    else if c as int < 0x10000 then 3
    else 4
  }

  /** `str::len`: the length of `s` in UTF-8 bytes. */
  function ByteLen(s: string): (n: nat)
    ensures n >= |s|
  {
    if |s| == 0 then 0 else Utf8Len(s[0]) + ByteLen(s[1..])
  }

  /**
   * The number of characters of `s` that take exactly `n` bytes, or `None`
   * when byte offset `n` falls inside a character or past the end: the
   * check `str` slicing makes before it panics.
   */
  function CharsInBytes(s: string, n: nat): (r: Option<nat>)
    ensures r.Some? ==> r.value <= |s| && ByteLen(s[..r.value]) == n
  {
    if n == 0 then Some(0)
    else if |s| == 0 || Utf8Len(s[0]) > n then None
    else
      match CharsInBytes(s[1..], n - Utf8Len(s[0]))
      case None => None
      case Some(k) =>
        assert s[..k + 1][1..] == s[1..][..k];
        Some(k + 1)
  }

  /** Offset `ByteLen(s[..k])` is a character boundary, and it is the `k`-th one. */
  lemma {:induction false} CharsInBytesPrefix(s: string, k: nat)
    requires k <= |s|
    ensures CharsInBytes(s, ByteLen(s[..k])) == Some(k)
  {
    if k > 0 {
      assert s[..k][1..] == s[1..][..k - 1];
      CharsInBytesPrefix(s[1..], k - 1);
    }
  }

  /** Strings equal up to ASCII case take the same number of bytes. */
  lemma {:induction false} EqIgnoreAsciiCaseBytes(a: string, b: string)
    requires EqIgnoreAsciiCase(a, b)
    ensures ByteLen(a) == ByteLen(b)
  {
    if |a| > 0 {
      assert EqIgnoreAsciiCase(a[1..], b[1..]) by {
        forall i | 0 <= i < |a[1..]| ensures AsciiLower(a[1..][i]) == AsciiLower(b[1..][i]) {
          assert AsciiLower(a[i + 1]) == AsciiLower(b[i + 1]);
        }
      }
      EqIgnoreAsciiCaseBytes(a[1..], b[1..]);
      assert AsciiLower(a[0]) == AsciiLower(b[0]);
    }
  }

  /** A prefix takes no more bytes than the whole. */
  lemma {:induction false} ByteLenPrefix(s: string, k: nat)
    requires k <= |s|
    ensures ByteLen(s[..k]) <= ByteLen(s)
  {
    if k > 0 {
      assert s[..k][1..] == s[1..][..k - 1];
      ByteLenPrefix(s[1..], k - 1);
    }
  }
}
