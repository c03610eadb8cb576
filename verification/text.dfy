/**
 * The text clean-up applied to album and title names (src/util/text.rs):
 * whitespace normalisation, year prefixes and suffixes, bracketed
 * technical notes, catalogue numbers and a leading artist name. Each
 * regular expression of the source is a small hand-written matcher here.
 */
module TextClean {
  import opened Wrappers
  import opened Chars

  // ---------------------------------------------------------------------
  // normalize_ws

  /** The characters whose presence sends `normalize_ws` down its slow path. */
  predicate IsFastPathBreaker(c: char) {
    c == '_' || c == ' ' || c == '\t' || c == '\n' || c == '\r'
  }

  predicate HasBreaker(s: string) {
    exists k :: 0 <= k < |s| && IsFastPathBreaker(s[k])
  }

  /** `s.replace('_', " ")`. */
  function UnderscoresToSpaces(s: string): (r: string)
    ensures |r| == |s|
    ensures forall k :: 0 <= k < |s| ==> r[k] == (if s[k] == '_' then ' ' else s[k])
  {
    seq(|s|, k requires 0 <= k < |s| => if s[k] == '_' then ' ' else s[k])
  }

  /** Every whitespace character is a plain space and no two are adjacent. */
  predicate SingleSpaced(s: string) {
    && (forall k :: 0 <= k < |s| && IsSpace(s[k]) ==> s[k] == ' ')
    && (forall k :: 0 <= k < |s| - 1 ==> !(IsSpace(s[k]) && IsSpace(s[k + 1])))
  }

  predicate NoUnderscore(s: string) {
    forall k :: 0 <= k < |s| ==> s[k] != '_'
  }

  /** `RE_WS.replace_all(s, " ")`: every run of whitespace becomes one space. */
  function CollapseSpace(s: string): (r: string)
    ensures SingleSpaced(r)
    ensures |r| > 0 <==> |s| > 0
    ensures |s| > 0 ==> (IsSpace(r[0]) <==> IsSpace(s[0]))
    ensures NoUnderscore(s) ==> NoUnderscore(r)
    decreases |s|
  {
    if |s| == 0 then ""
    else if IsSpace(s[0]) then
      var t := s[SkipSpace(s, 0)..];
      var rest := CollapseSpace(t);
      assert NoUnderscore(s) ==> NoUnderscore(t) by {
        if NoUnderscore(s) {
          forall k | 0 <= k < |t| ensures t[k] != '_' {
            assert t[k] == s[SkipSpace(s, 0) + k];
          }
        }
      }
      " " + rest
    else
      var rest := CollapseSpace(s[1..]);
      assert NoUnderscore(s) ==> NoUnderscore(s[1..]) by {
        if NoUnderscore(s) {
          forall k | 0 <= k < |s[1..]| ensures s[1..][k] != '_' {
            assert s[1..][k] == s[k + 1];
          }
        }
      }
      [s[0]] + rest
  }

  /** Collapsing a single-spaced string changes nothing. */
  lemma {:induction false} CollapseSingleSpaced(s: string)
    requires SingleSpaced(s)
    ensures CollapseSpace(s) == s
    decreases |s|
  {
    if |s| > 0 {
      if IsSpace(s[0]) {
        assert SkipSpace(s, 0) == 1 by {
          assert |s| == 1 || !IsSpace(s[1]);
        }
      }
      assert SingleSpaced(s[1..]) by {
        forall k | 0 <= k < |s[1..]| - 1 ensures !(IsSpace(s[1..][k]) && IsSpace(s[1..][k + 1])) {
          assert s[1..][k] == s[k + 1] && s[1..][k + 1] == s[k + 2];
        }
      }
      CollapseSingleSpaced(s[1..]);
      assert s == [s[0]] + s[1..];
    }
  }

  /** A slice of a single-spaced string without underscores is one too. */
  lemma SliceSingleSpaced(s: string, i: nat, j: nat)
    requires i <= j <= |s| && SingleSpaced(s) && NoUnderscore(s)
    ensures SingleSpaced(s[i..j]) && NoUnderscore(s[i..j])
  {
    var t := s[i..j];
    forall k | 0 <= k < |t| - 1 ensures !(IsSpace(t[k]) && IsSpace(t[k + 1])) {
      assert t[k] == s[i + k] && t[k + 1] == s[i + k + 1];
    }
  }

  /** The slow path: underscores to spaces, whitespace runs collapsed, ends trimmed. */
  function NormalizeSlow(s: string): (r: string)
    ensures SingleSpaced(r) && NoUnderscore(r) && Trimmed(r)
  {
    var c := CollapseSpace(UnderscoresToSpaces(s));
    var r := Trim(c);
    SliceSingleSpaced(c, SkipSpace(c, 0), SkipSpace(c, 0) + |r|);
    r
  }

  /**
   * `normalize_ws`: a string holding none of `_`, space, tab, line feed and
   * carriage return is returned unchanged; any other goes the slow path.
   */
  function NormalizeWs(s: string): (r: string)
    ensures !HasBreaker(s) ==> r == s
    ensures HasBreaker(s) ==> SingleSpaced(r) && NoUnderscore(r) && Trimmed(r)
  {
    if !HasBreaker(s) then s else NormalizeSlow(s)
  }

  /** Normalising twice is normalising once. */
  lemma NormalizeWsIdempotent(s: string)
    ensures NormalizeWs(NormalizeWs(s)) == NormalizeWs(s)
  {
    var r := NormalizeWs(s);
    if HasBreaker(s) && HasBreaker(r) {
      assert UnderscoresToSpaces(r) == r;
      CollapseSingleSpaced(r);
      TrimTrimmed(r);
    }
  }

  /**
   * Whitespace other than the five breakers survives when nothing else
   * sends the text down the slow path: a form feed in front of a name is
   * kept alone, but dropped once a space appears anywhere in the name.
   */
  lemma OtherWhitespaceTwoPaths()
    ensures NormalizeWs("\U{C}a") == "\U{C}a"
    ensures NormalizeWs("\U{C}a ") == "a"
  {
    assert !HasBreaker("\U{C}a");
    var s := "\U{C}a ";
    assert IsFastPathBreaker(s[2]);
    assert UnderscoresToSpaces(s) == s;
    var c := CollapseSpace(s);
    assert SkipSpace(s, 0) == 1;
    assert s[1..] == "a ";
    assert CollapseSpace("a ") == "a" + CollapseSpace(" ");
    assert CollapseSpace(" ") == " ";
    assert c == " a ";
    assert SkipSpace(c, 0) == 1;
    assert Trim(c) == "a";
  }

  // ---------------------------------------------------------------------
  // Year prefixes and suffixes

  predicate IsYearSep(c: char) {
    c == '-' || c == '_' || c == '.'
  }

  predicate IsOpen(c: char) {
    c == '(' || c == '['
  }

  predicate IsClose(c: char) {
    c == ')' || c == ']'
  }

  /** Four ASCII digits at `i`. */
  predicate FourDigitsAt(s: string, i: nat) {
    i + 4 <= |s| && IsDigit(s[i]) && IsDigit(s[i + 1]) && IsDigit(s[i + 2]) && IsDigit(s[i + 3])
  }

  /** Where `RE_YEAR_PREFIX1` (`1999 - `) ends when it matches at the start of `s`. */
  function YearPrefix1(s: string): (e: Option<nat>)
    ensures e.Some? ==> 5 <= e.value <= |s|
  {
    var i := SkipSpace(s, 0);
    if !FourDigitsAt(s, i) then None
    else
      var j := SkipSpace(s, i + 4);
      if j < |s| && IsYearSep(s[j]) then Some(SkipSpace(s, j + 1)) else None
  }

  /** Where `RE_YEAR_PREFIX2` (`(1999) - ` or `[1999]`) ends when it matches at the start of `s`. */
  function YearPrefix2(s: string): (e: Option<nat>)
    ensures e.Some? ==> 6 <= e.value <= |s|
  {
    var i := SkipSpace(s, 0);
    if !(i < |s| && IsOpen(s[i])) then None
    else
      var j := SkipSpace(s, i + 1);
      if !FourDigitsAt(s, j) then None
      else
        var k := SkipSpace(s, j + 4);
        if !(k < |s| && IsClose(s[k])) then None
        else
          var l := SkipSpace(s, k + 1);
          var m := if l < |s| && IsYearSep(s[l]) then l + 1 else l;
          Some(SkipSpace(s, m))
  }

  /** `t` is a piece of `s`: it starts at some index of `s` and runs on inside it. */
  ghost predicate PieceOf(t: string, s: string) {
    exists i :: 0 <= i <= |s| && t <= s[i..]
  }

  lemma PieceOfTrim(s: string)
    ensures PieceOf(Trim(s), s)
  {
    assert Trim(s) <= s[SkipSpace(s, 0)..];
  }

  lemma PieceOfTrans(a: string, b: string, c: string)
    requires PieceOf(a, b) && PieceOf(b, c)
    ensures PieceOf(a, c)
  {
    var i :| 0 <= i <= |b| && a <= b[i..];
    var j :| 0 <= j <= |c| && b <= c[j..];
    assert a <= c[j + i..];
  }

  /** `strip_year_prefix`: drop a leading year (either form, in that order), then trim. */
  function StripYearPrefix(s: string): (r: string)
    ensures Trimmed(r) && PieceOf(r, s)
    ensures YearPrefix1(s).None? && YearPrefix2(s).None? ==> r == Trim(s)
  {
    var t := match YearPrefix1(s) case Some(e) => s[e..] case None => s;
    var u := match YearPrefix2(t) case Some(e) => t[e..] case None => t;
    assert PieceOf(t, s) by { assert t <= s[|s| - |t|..]; }
    assert PieceOf(u, t) by { assert u <= t[|t| - |u|..]; }
    PieceOfTrans(u, t, s);
    PieceOfTrim(u);
    PieceOfTrans(Trim(u), u, s);
    Trim(u)
  }

  /** `RE_YEAR_SUFFIX` matches from `i` to the end of `s`: `(1999)` or `[1999]` closing the text. */
  predicate YearSuffixAt(s: string, i: nat)
    requires i <= |s|
  {
    var j := SkipSpace(s, i);
    j < |s| && IsOpen(s[j]) &&
    var k := SkipSpace(s, j + 1);
    FourDigitsAt(s, k) &&
    var l := SkipSpace(s, k + 4);
    l < |s| && IsClose(s[l]) && SkipSpace(s, l + 1) == |s|
  }

  /** The leftmost index at or after `i` where the year suffix matches. */
  function FirstYearSuffix(s: string, i: nat): (r: Option<nat>)
    requires i <= |s|
    ensures r.Some? ==> i <= r.value <= |s| && YearSuffixAt(s, r.value)
    ensures r.Some? ==> forall k :: i <= k < r.value ==> !YearSuffixAt(s, k)
    ensures r.None? ==> forall k :: i <= k <= |s| ==> !YearSuffixAt(s, k)
    decreases |s| - i
  {
    if YearSuffixAt(s, i) then Some(i)
    else if i == |s| then None
    else FirstYearSuffix(s, i + 1)
  }

  /** `strip_year_suffix`: cut a closing `(1999)` with the space before it, then trim. */
  function StripYearSuffix(s: string): (r: string)
    ensures Trimmed(r) && PieceOf(r, s)
    ensures FirstYearSuffix(s, 0).None? ==> r == Trim(s)
  {
    var t := match FirstYearSuffix(s, 0) case Some(i) => s[..i] case None => s;
    assert PieceOf(t, s) by { assert t <= s[0..]; }
    PieceOfTrim(t);
    PieceOfTrans(Trim(t), t, s);
    Trim(t)
  }

  /** A year in front is dropped: `1999 - Abbey Road` shows as `Abbey Road`. */
  lemma YearPrefixExample()
    ensures StripYearPrefix("1999 - Abbey Road") == "Abbey Road"
  {
    hide YearPrefix1, YearPrefix2, Trim;
    YearDashPrefix();
    assert "1999 - Abbey Road"[7..] == "Abbey Road";
    AbbeyRoadPlain();
  }

  /** `1999 - ` is the first form of year prefix. */
  lemma YearDashPrefix()
    ensures YearPrefix1("1999 - Abbey Road") == Some(7)
  {
    var s := "1999 - Abbey Road";
    assert SkipSpace(s, 0) == 0;
    assert SkipSpace(s, 4) == 5 by { assert SkipSpace(s, 5) == 5; }
    assert SkipSpace(s, 6) == 7 by { assert SkipSpace(s, 7) == 7; }
  }

  /** `Abbey Road` has no second year prefix and is already trimmed. */
  lemma AbbeyRoadPlain()
    ensures YearPrefix2("Abbey Road").None? && Trim("Abbey Road") == "Abbey Road"
  {
    var t := "Abbey Road";
    assert SkipSpace(t, 0) == 0;
    TrimTrimmed(t);
  }

  // ---------------------------------------------------------------------
  // Bracketed technical notes

  /** The words that mark a bracket as a technical note (case as written). */
  const TECH_WORDS: seq<string> :=
    ["kHz", "Hz", "bit", "kbps", "VBR", "CBR", "FLAC", "ALAC", "MP3", "AAC", "OGG", "OPUS", "DSD", "mono", "stereo"]

  /** `t` contains one of `words`. */
  predicate MentionsAny(t: string, words: seq<string>) {
    |words| > 0 && (Find(t, words[0]).Some? || MentionsAny(t, words[1..]))
  }

  /** The first closing bracket at or after `i`. */
  function FirstClose(s: string, i: nat): (r: Option<nat>)
    requires i <= |s|
    ensures r.Some? ==> i <= r.value < |s| && IsClose(s[r.value])
    ensures r.Some? ==> forall k :: i <= k < r.value ==> !IsClose(s[k])
    decreases |s| - i
  {
    if i == |s| then None
    else if IsClose(s[i]) then Some(i)
    else FirstClose(s, i + 1)
  }

  /**
   * Where `RE_TECH` ends when it matches from `i`: optional whitespace, an
   * opening bracket, and up to the first closing bracket a text that
   * mentions one of the technical words.
   */
  function TechAt(s: string, i: nat): (e: Option<nat>)
    requires i <= |s|
    ensures e.Some? ==> i + 2 <= e.value <= |s|
  {
    var b := SkipSpace(s, i);
    if !(b < |s| && IsOpen(s[b])) then None
    else
      match FirstClose(s, b + 1)
      case None => None
      case Some(c) => if MentionsAny(s[b + 1..c], TECH_WORDS) then Some(c + 1) else None
  }

  /** The leftmost technical note at or after `i`, as its start and end. */
  function FirstTech(s: string, i: nat): (r: Option<(nat, nat)>)
    requires i <= |s|
    ensures r.Some? ==> i <= r.value.0 <= |s| && TechAt(s, r.value.0) == Some(r.value.1)
    ensures r.None? ==> forall k :: i <= k <= |s| ==> TechAt(s, k).None?
    decreases |s| - i
  {
    match TechAt(s, i)
    case Some(e) => Some((i, e))
    case None => if i == |s| then None else FirstTech(s, i + 1)
  }

  /** `RE_TECH.replace(s, "")`: the first technical note removed, if there is one. */
  function TechReplaceOnce(s: string): (r: string)
    ensures FirstTech(s, 0).None? ==> r == s
    ensures FirstTech(s, 0).Some? ==> |r| + 2 <= |s|
  {
    match FirstTech(s, 0)
    case None => s
    case Some((i, e)) => s[..i] + s[e..]
  }

  /** The text once no technical note is left: a fixpoint of the replacement. */
  function TechRemoved(s: string): (r: string)
    ensures TechReplaceOnce(r) == r
    ensures FirstTech(r, 0).None?
    ensures |r| <= |s|
    decreases |s|
  {
    var t := TechReplaceOnce(s);
    if t == s then s else TechRemoved(t)
  }

  /** `strip_tech_brackets` as a value: every technical note removed, then trimmed. */
  function TechStripped(s: string): (r: string)
    ensures Trimmed(r) && |r| <= |s|
  {
    Trim(TechRemoved(s))
  }

  /**
   * `strip_tech_brackets`: replace the first technical note until the text
   * no longer changes, then trim.
   */
  method StripTechBrackets(s: string) returns (r: string)
    ensures r == TechStripped(s)
    ensures FirstTech(TechRemoved(s), 0).None?
  {
    var cur := s;
    while true
      invariant TechRemoved(cur) == TechRemoved(s)
      decreases |cur|
    {
      var replaced := TechReplaceOnce(cur);
      if replaced == cur {
        break;
      }
      cur := replaced;
    }
    r := Trim(cur);
  }

  // ---------------------------------------------------------------------
  // Catalogue suffixes

  /** The first index at or after `i` that is not an ASCII letter. */
  function SkipLetters(s: string, i: nat): (j: nat)
    requires i <= |s|
    ensures i <= j <= |s|
    ensures forall k :: i <= k < j ==> IsAsciiLetter(s[k])
    ensures j == |s| || !IsAsciiLetter(s[j])
    decreases |s| - i
  {
    if i < |s| && IsAsciiLetter(s[i]) then SkipLetters(s, i + 1) else i
  }

  /** From `i` on, only digits, whitespace and hyphens. */
  predicate DigitsSpacesHyphens(b: string, i: nat) {
    forall k :: i <= k < |b| ==> IsDigit(b[k]) || IsSpace(b[k]) || b[k] == '-'
  }

  /**
   * The inside of a catalogue bracket: up to five letters and optional
   * whitespace, then a digit, then digits, whitespace and hyphens.
   */
  predicate CatalogBody(b: string) {
    var l := SkipLetters(b, 0);
    if l == 0 then |b| > 0 && IsDigit(b[0]) && DigitsSpacesHyphens(b, 1)
    else
      var w := SkipSpace(b, l);
      l <= 5 && w < |b| && IsDigit(b[w]) && DigitsSpacesHyphens(b, w + 1)
  }

  /** `RE_CATALOG_SUFFIX` matches from `i` to the end: `[ABC 123-45]` closing the text. */
  predicate CatalogAt(s: string, i: nat)
    requires i <= |s|
  {
    var j := SkipSpace(s, i);
    j < |s| && s[j] == '[' &&
    match FindFrom(s, "]", j + 1)
    case None => false
    case Some(k) => CatalogBody(s[j + 1..k]) && SkipSpace(s, k + 1) == |s|
  }

  /** The leftmost index at or after `i` where a catalogue suffix matches. */
  function FirstCatalog(s: string, i: nat): (r: Option<nat>)
    requires i <= |s|
    ensures r.Some? ==> i <= r.value && r.value + 3 <= |s| && CatalogAt(s, r.value)
    ensures r.None? ==> forall k :: i <= k <= |s| ==> !CatalogAt(s, k)
    decreases |s| - i
  {
    if CatalogAt(s, i) then
      var j := SkipSpace(s, i);
      var k := FindFrom(s, "]", j + 1).value;
      assert k >= j + 2 by { assert |s[j + 1..k]| > 0; }
      Some(i)
    else if i == |s| then None
    else FirstCatalog(s, i + 1)
  }

  /** `RE_CATALOG_SUFFIX.replace(s, "")`: the suffix cut off, if there is one. */
  function CatalogReplaceOnce(s: string): (r: string)
    ensures FirstCatalog(s, 0).None? ==> r == s
    ensures FirstCatalog(s, 0).Some? ==> |r| + 3 <= |s|
    ensures r <= s
  {
    match FirstCatalog(s, 0)
    case None => s
    case Some(i) => s[..i]
  }

  /** The text once no catalogue suffix is left: a fixpoint of the replacement. */
  function CatalogRemoved(s: string): (r: string)
    ensures CatalogReplaceOnce(r) == r
    ensures FirstCatalog(r, 0).None?
    ensures r <= s
    decreases |s|
  {
    var t := CatalogReplaceOnce(s);
    if t == s then s else CatalogRemoved(t)
  }

  /** `strip_catalog_suffix` as a value: every trailing catalogue number cut, then trimmed. */
  function CatalogStripped(s: string): (r: string)
    ensures Trimmed(r) && PieceOf(r, s)
  {
    var t := CatalogRemoved(s);
    assert PieceOf(t, s) by { assert t <= s[0..]; }
    PieceOfTrim(t);
    PieceOfTrans(Trim(t), t, s);
    Trim(t)
  }

  /** `strip_catalog_suffix`: cut the suffix until the text no longer changes, then trim. */
  method StripCatalogSuffix(s: string) returns (r: string)
    ensures r == CatalogStripped(s)
    ensures FirstCatalog(CatalogRemoved(s), 0).None?
  {
    var cur := s;
    while true
      invariant CatalogRemoved(cur) == CatalogRemoved(s)
      decreases |cur|
    {
      var replaced := CatalogReplaceOnce(cur);
      if replaced == cur {
        break;
      }
      cur := replaced;
    }
    r := Trim(cur);
  }

  // ---------------------------------------------------------------------
  // Artist prefixes

  /** The separators tried between artist and album: hyphen, en dash, em dash, each spaced. */
  const ARTIST_SEPS: seq<string> := [" - ", " \U{2013} ", " \U{2014} "]

  /** `s` starts with `pref`, ignoring ASCII case. */
  predicate PrefixedIgnoringCase(s: string, pref: string) {
    |s| >= |pref| && EqIgnoreAsciiCase(s[..|pref|], pref)
  }

  function StripArtistPrefixFrom(album: string, artist: string, i: nat): (r: string)
    requires i <= |ARTIST_SEPS|
    ensures (exists j :: i <= j < |ARTIST_SEPS| && PrefixedIgnoringCase(album, artist + ARTIST_SEPS[j]))
      ==> |album| >= |artist| + 3 && r == album[|artist| + 3..]
    ensures (forall j :: i <= j < |ARTIST_SEPS| ==> !PrefixedIgnoringCase(album, artist + ARTIST_SEPS[j]))
      ==> r == album
    decreases |ARTIST_SEPS| - i
  {
    if i == |ARTIST_SEPS| then album
    else
      var pref := artist + ARTIST_SEPS[i];
      if PrefixedIgnoringCase(album, pref) then album[|pref|..]
      else StripArtistPrefixFrom(album, artist, i + 1)
  }

  /**
   * `strip_artist_prefix`, comparing characters: the album without a
   * leading `artist + separator` (ignoring ASCII case) when it has one, the
   * album unchanged otherwise.
   */
  function StripArtistPrefix(album: string, artist: string): (r: string)
    ensures (exists j :: 0 <= j < |ARTIST_SEPS| && PrefixedIgnoringCase(album, artist + ARTIST_SEPS[j]))
      ==> |album| >= |artist| + 3 && r == album[|artist| + 3..]
    ensures (forall j :: 0 <= j < |ARTIST_SEPS| ==> !PrefixedIgnoringCase(album, artist + ARTIST_SEPS[j]))
      ==> r == album
  {
    StripArtistPrefixFrom(album, artist, 0)
  }

  /**
   * `strip_artist_prefix` as written: it measures the prefix in bytes and
   * slices the album at that byte offset, which panics (`None`) when the
   * offset falls inside a multi-byte character of the album.
   */
  function StripArtistPrefixAsWritten(album: string, artist: string, i: nat): (r: Option<string>)
    requires i <= |ARTIST_SEPS|
    decreases |ARTIST_SEPS| - i
  {
    if i == |ARTIST_SEPS| then Some(album)
    else
      var pref := artist + ARTIST_SEPS[i];
      var n := ByteLen(pref);
      if ByteLen(album) >= n then
        match CharsInBytes(album, n)
        case None => None
        case Some(k) =>
          if EqIgnoreAsciiCase(album[..k], pref) then Some(album[k..])
          else StripArtistPrefixAsWritten(album, artist, i + 1)
      else StripArtistPrefixAsWritten(album, artist, i + 1)
  }

  /** Whenever the byte-slicing version does not panic, it agrees with the character version. */
  lemma {:induction false} AsWrittenAgrees(album: string, artist: string, i: nat)
    requires i <= |ARTIST_SEPS|
    requires StripArtistPrefixAsWritten(album, artist, i).Some?
    ensures StripArtistPrefixAsWritten(album, artist, i).value == StripArtistPrefixFrom(album, artist, i)
    decreases |ARTIST_SEPS| - i
  {
    if i < |ARTIST_SEPS| {
      var pref := artist + ARTIST_SEPS[i];
      var n := ByteLen(pref);
      if PrefixedIgnoringCase(album, pref) {
        EqIgnoreAsciiCaseBytes(album[..|pref|], pref);
        CharsInBytesPrefix(album, |pref|);
        ByteLenPrefix(album, |pref|);
      } else if ByteLen(album) >= n && CharsInBytes(album, n).Some? {
        var k := CharsInBytes(album, n).value;
        assert !EqIgnoreAsciiCase(album[..k], pref);
        AsWrittenAgrees(album, artist, i + 1);
      } else {
        AsWrittenAgrees(album, artist, i + 1);
      }
    }
  }

  /**
   * A Cyrillic album under a Latin artist name makes the byte-slicing
   * version panic: `AC - ` is five bytes, and byte five of `Добро` is the
   * middle of its third letter. The character version keeps the album.
   */
  lemma ArtistPrefixPanics()
    ensures StripArtistPrefixAsWritten("\U{414}\U{43E}\U{431}\U{440}\U{43E}", "AC", 0).None?
    ensures StripArtistPrefix("\U{414}\U{43E}\U{431}\U{440}\U{43E}", "AC") == "\U{414}\U{43E}\U{431}\U{440}\U{43E}"
  {
    var album := "\U{414}\U{43E}\U{431}\U{440}\U{43E}";
    assert "AC" + ARTIST_SEPS[0] == "AC - ";
    assert ByteLen("AC - ") == 5;
    assert ByteLen(album) == 10;
    assert CharsInBytes(album[2..], 1).None?;
    assert CharsInBytes(album[1..], 3).None?;
    assert CharsInBytes(album, 5).None?;
  }

  // ---------------------------------------------------------------------
  // clean_album_for_display

  /**
   * `clean_album_for_display`: trim, drop a year prefix and a year suffix,
   * strip technical notes and catalogue numbers, drop the artist prefix,
   * and normalise whitespace. The result is already normalised.
   */
  function CleanAlbumForDisplay(raw: string, artist: string): (r: string)
    ensures NormalizeWs(r) == r
  {
    var s := StripYearSuffix(StripYearPrefix(Trim(raw)));
    var t := StripArtistPrefix(CatalogStripped(TechStripped(s)), artist);
    NormalizeWsIdempotent(t);
    NormalizeWs(t)
  }
}
