/**
 * Tracks and the naming rules that build them from file names and
 * folders (src/track.rs): leading track numbers, an `artist - title`
 * split, disc folders, and the order a scanned library is played in.
 */
module Tracks {
  import opened Wrappers
  import opened Chars
  import opened Paths
  import opened Sorting
  import opened TextClean
  import opened FsUtil
  import TimeFormat

  /** A playable file with the names shown for it. */
  datatype Track = Track(
    path: Path,
    title: string,
    artist: string,
    album: string,
    albumDir: Path,
    trackNo: Option<nat>,
    discNo: Option<nat>)

  // ---------------------------------------------------------------------
  // split_artist_title

  /** The two trimmed sides of `s` around the separator occurring at `idx`. */
  function Sides(s: string, idx: nat): (string, string)
    requires idx + 3 <= |s|
  {
    (Trim(s[..idx]), Trim(s[idx + 3..]))
  }

  /** Separator `j` occurs in `s` and both sides of its first occurrence are non-blank. */
  predicate SplitsAt(s: string, j: nat)
    requires j < |ARTIST_SEPS|
  {
    match Find(s, ARTIST_SEPS[j])
    case None => false
    case Some(idx) => |Sides(s, idx).0| > 0 && |Sides(s, idx).1| > 0
  }

  /** The first separator, from the `i`-th on, that splits `s`. */
  function FirstSplitting(s: string, i: nat): (r: Option<nat>)
    requires i <= |ARTIST_SEPS|
    ensures r.Some? ==> i <= r.value < |ARTIST_SEPS|
    ensures r.Some? ==> Find(s, ARTIST_SEPS[r.value]).Some? && Find(s, ARTIST_SEPS[r.value]).value + 3 <= |s|
    decreases |ARTIST_SEPS| - i
  {
    if i == |ARTIST_SEPS| then None
    else if SplitsAt(s, i) then
      SeparatorLength(i);
      Some(i)
    else FirstSplitting(s, i + 1)
  }

  /** Every separator is three characters long. */
  lemma SeparatorLength(j: nat)
    requires j < |ARTIST_SEPS|
    ensures |ARTIST_SEPS[j]| == 3
  {
  }

  /** The separator found is the first one, from the `i`-th on, that splits `s`. */
  lemma {:induction false} FirstSplittingIsFirst(s: string, i: nat)
    requires i <= |ARTIST_SEPS|
    ensures FirstSplitting(s, i).Some? ==> SplitsAt(s, FirstSplitting(s, i).value)
    ensures FirstSplitting(s, i).Some? ==> forall j :: i <= j < FirstSplitting(s, i).value ==> !SplitsAt(s, j)
    ensures FirstSplitting(s, i).None? ==> forall j :: i <= j < |ARTIST_SEPS| ==> !SplitsAt(s, j)
    decreases |ARTIST_SEPS| - i
  {
    hide SplitsAt;
    if i < |ARTIST_SEPS| && !SplitsAt(s, i) {
      FirstSplittingIsFirst(s, i + 1);
    }
  }

  function SplitFrom(s: string, i: nat): (r: (Option<string>, string))
    requires i <= |ARTIST_SEPS|
    ensures FirstSplitting(s, i).None? ==> r == (None, Trim(s))
    ensures FirstSplitting(s, i).Some? ==> r.0.Some?
    ensures FirstSplitting(s, i).Some? ==> (r.0.value, r.1) == Sides(s, Find(s, ARTIST_SEPS[FirstSplitting(s, i).value]).value)
    decreases |ARTIST_SEPS| - i
  {
    if i == |ARTIST_SEPS| then (None, Trim(s))
    else
      match Find(s, ARTIST_SEPS[i])
      case Some(idx) =>
        var sides := Sides(s, idx);
        if |sides.0| > 0 && |sides.1| > 0 then (Some(sides.0), sides.1) else SplitFrom(s, i + 1)
      case None => SplitFrom(s, i + 1)
  }

  /**
   * `split_artist_title`: the separators are tried in order, each at its
   * first occurrence; the first whose two trimmed sides are both non-blank
   * splits `s` into artist and title. Otherwise there is no artist and the
   * title is `s` trimmed.
   */
  function SplitArtistTitle(s: string): (r: (Option<string>, string))
    ensures FirstSplitting(s, 0).None? ==> r == (None, Trim(s))
    ensures FirstSplitting(s, 0).Some? ==> r.0.Some?
    ensures FirstSplitting(s, 0).Some? ==> (r.0.value, r.1) == Sides(s, Find(s, ARTIST_SEPS[FirstSplitting(s, 0).value]).value)
    ensures r.0.Some? ==> |r.0.value| > 0 && |r.1| > 0
  {
    SplitFrom(s, 0)
  }

  // ---------------------------------------------------------------------
  // strip_leading_track_numbers

  predicate IsNumberDelim(c: char) {
    c == ')' || c == ']' || c == '-' || c == '.' || c == '_'
  }

  function SkipDelims(s: string, i: nat): (j: nat)
    requires i <= |s|
    ensures i <= j <= |s|
    ensures forall k :: i <= k < j ==> IsNumberDelim(s[k])
    ensures j == |s| || !IsNumberDelim(s[j])
    decreases |s| - i
  {
    if i < |s| && IsNumberDelim(s[i]) then SkipDelims(s, i + 1) else i
  }

  /**
   * `re_delim` at the start of `s`: one to three digits, then a run of
   * `)`, `]`, `-`, `.`, `_`, with whitespace around; the number and where
   * the match ends.
   */
  function DelimNumber(s: string): (r: Option<(nat, nat)>)
    ensures r.Some? ==> 2 <= r.value.1 <= |s| && r.value.0 < 1000
  {
    var i := SkipSpace(s, 0);
    var d := SkipDigits(s, i);
    if !(1 <= d - i <= 3) then None
    else
      var j := SkipSpace(s, d);
      var e := SkipDelims(s, j);
      if e == j then None else Some((DigitsValue(s[i..d]), SkipSpace(s, e)))
  }

  /** `re_zero_space` at the start of `s`: a `0` and one or two more digits, then whitespace. */
  function ZeroSpaceNumber(s: string): (r: Option<(nat, nat)>)
    ensures r.Some? ==> 3 <= r.value.1 <= |s| && r.value.0 < 1000
  {
    var i := SkipSpace(s, 0);
    var d := SkipDigits(s, i);
    if !(2 <= d - i <= 3 && s[i] == '0') then None
    else
      var w := SkipSpace(s, d);
      if w == d then None else Some((DigitsValue(s[i..d]), w))
  }

  /** `re_cleanup` at the start of `s`: where a run of delimiters (with whitespace) ends. */
  function Cleanup(s: string): (r: Option<nat>)
    ensures r.Some? ==> 1 <= r.value <= |s|
  {
    var i := SkipSpace(s, 0);
    var e := SkipDelims(s, i);
    if e == i then None else Some(SkipSpace(s, e))
  }

  /** `s` with leading delimiter runs cut until none is left (the inner loop). */
  function CleanedAll(s: string): (r: string)
    ensures Cleanup(r).None?
    ensures |r| <= |s| && r == s[|s| - |r|..]
    decreases |s|
  {
    match Cleanup(s)
    case None => s
    case Some(e) => CleanedAll(s[e..])
  }

  /** The first number if one was already recorded, else `n`. */
  function Keep(first: Option<nat>, n: nat): (r: Option<nat>)
    ensures r.Some?
    ensures first.Some? ==> r == first
  {
    if first.None? then Some(n) else first
  }

  /**
   * The stripping loop as a value, from the text left so far and the
   * number recorded so far: strip a numbered prefix and any delimiters
   * after it, or a zero-led number and its whitespace, until neither
   * matches; then trim.
   */
  function StrippedFrom(s: string, first: Option<nat>): (r: (Option<nat>, string))
    ensures first.Some? ==> r.0 == first
    ensures DelimNumber(s).None? && ZeroSpaceNumber(s).None? ==> r == (first, Trim(s))
    ensures first.None? && r.0.None? ==> r.1 == Trim(s)
    ensures r.0.Some? ==> r.0.value < 1000 || r.0 == first
    ensures Trimmed(r.1) && PieceOf(r.1, s)
    decreases |s|
  {
    match DelimNumber(s)
    case Some((n, e)) =>
      var t := CleanedAll(s[e..]);
      var r := StrippedFrom(t, Keep(first, n));
      assert PieceOf(t, s) by { assert t <= s[|s| - |t|..]; }
      PieceOfTrans(r.1, t, s);
      r
    case None =>
      match ZeroSpaceNumber(s)
      case Some((n, e)) =>
        var r := StrippedFrom(s[e..], Keep(first, n));
        assert PieceOf(s[e..], s) by { assert s[e..] <= s[e..]; }
        PieceOfTrans(r.1, s[e..], s);
        r
      case None =>
        PieceOfTrim(s);
        (first, Trim(s))
  }

  /**
   * `strip_leading_track_numbers` as a value: the first number found (if
   * any) and the rest of the stem, trimmed. Without a number nothing but
   * the trim is done.
   */
  function StrippedNumbers(stem: string): (r: (Option<nat>, string))
    ensures r.0.Some? ==> r.0.value < 1000
    ensures r.0.None? ==> r.1 == Trim(stem)
    ensures Trimmed(r.1) && PieceOf(r.1, stem)
  {
    StrippedFrom(stem, None)
  }

  /** `strip_leading_track_numbers`: the loop, with its inner clean-up loop. */
  method StripLeadingTrackNumbers(stem: string) returns (first: Option<nat>, rest: string)
    ensures (first, rest) == StrippedNumbers(stem)
  {
    var s := stem;
    first := None;
    while true
      invariant StrippedFrom(s, first) == StrippedNumbers(stem)
      decreases |s|
    {
      var delim := DelimNumber(s);
      if delim.Some? {
        if first.None? {
          first := Some(delim.value.0);
        }
        s := s[delim.value.1..];
        while true
          invariant StrippedFrom(CleanedAll(s), first) == StrippedNumbers(stem)
          decreases |s|
        {
          var m := Cleanup(s);
          if m.Some? {
            s := s[m.value..];
            continue;
          }
          break;
        }
        continue;
      }
      var zero := ZeroSpaceNumber(s);
      if zero.Some? {
        if first.None? {
          first := Some(zero.value.0);
        }
        s := s[zero.value.1..];
        continue;
      }
      break;
    }
    rest := Trim(s);
  }

  /** A year-like or plain leading number is kept: `1984 - X` and `99 Luftballons` have no track number. */
  lemma NoTrackNumber()
    ensures StrippedNumbers("1984 - X") == (None, "1984 - X")
    ensures StrippedNumbers("99 Luftballons") == (None, "99 Luftballons")
  {
    hide DelimNumber, ZeroSpaceNumber, Trim;
    YearNotNumbered();
    NumberNotDelimited();
  }

  /** `1984 - X`: four digits are too many for either prefix. */
  lemma YearNotNumbered()
    ensures DelimNumber("1984 - X").None? && ZeroSpaceNumber("1984 - X").None?
    ensures Trim("1984 - X") == "1984 - X"
  {
    var a := "1984 - X";
    assert SkipSpace(a, 0) == 0;
    assert SkipDigits(a, 0) == 4 by { assert SkipDigits(a, 4) == 4; }
    TrimTrimmed(a);
  }

  /** `99 Luftballons`: no delimiter after the number, and it does not start with `0`. */
  lemma NumberNotDelimited()
    ensures DelimNumber("99 Luftballons").None? && ZeroSpaceNumber("99 Luftballons").None?
    ensures Trim("99 Luftballons") == "99 Luftballons"
  {
    var b := "99 Luftballons";
    assert SkipSpace(b, 0) == 0;
    assert SkipDigits(b, 0) == 2 by { assert SkipDigits(b, 2) == 2; }
    assert SkipSpace(b, 2) == 3 by { assert SkipSpace(b, 3) == 3; }
    assert SkipDelims(b, 3) == 3;
    TrimTrimmed(b);
  }

  /** `01 - ` is a numbered prefix of `01 - 02 - Song`, ending where `02` starts. */
  lemma FirstPrefix()
    ensures DelimNumber("01 - 02 - Song") == Some((1, 5))
  {
    var s := "01 - 02 - Song";
    assert SkipSpace(s, 0) == 0;
    assert SkipDigits(s, 0) == 2 by { assert SkipDigits(s, 2) == 2; }
    assert SkipSpace(s, 2) == 3 by { assert SkipSpace(s, 3) == 3; }
    assert SkipDelims(s, 3) == 4 by { assert SkipDelims(s, 4) == 4; }
    assert SkipSpace(s, 4) == 5 by { assert SkipSpace(s, 5) == 5; }
    assert s[0..2] == "01";
    assert DigitsValue("01") == 1;
  }

  /** `02 - ` is a numbered prefix of `02 - Song`, ending where `Song` starts. */
  lemma SecondDelim()
    ensures DelimNumber("02 - Song") == Some((2, 5))
  {
    var t := "02 - Song";
    assert SkipSpace(t, 0) == 0;
    assert SkipDigits(t, 0) == 2 by { assert SkipDigits(t, 2) == 2; }
    assert SkipSpace(t, 2) == 3 by { assert SkipSpace(t, 3) == 3; }
    assert SkipDelims(t, 3) == 4 by { assert SkipDelims(t, 4) == 4; }
    assert SkipSpace(t, 4) == 5 by { assert SkipSpace(t, 5) == 5; }
    assert t[0..2] == "02";
    assert DigitsValue("02") == 2;
  }

  /** `Song` has nothing to strip. */
  lemma PlainTitle()
    ensures Cleanup("Song").None? && DelimNumber("Song").None? && ZeroSpaceNumber("Song").None?
    ensures Trim("Song") == "Song"
  {
    var u := "Song";
    assert SkipSpace(u, 0) == 0;
    assert SkipDelims(u, 0) == 0;
    assert SkipDigits(u, 0) == 0;
    TrimNoSpace(u);
  }

  /** After the first number, `02 - Song` loses its own number and leaves `Song`. */
  lemma SecondPrefix()
    ensures StrippedFrom("02 - Song", Some(1)) == (Some(1), "Song")
  {
    hide DelimNumber, ZeroSpaceNumber, Cleanup, Trim;
    SecondDelim();
    PlainTitle();
    assert "02 - Song"[5..] == "Song";
    assert CleanedAll("Song") == "Song";
  }

  /** Only the first number is kept: `01 - 02 - Song` is track 1, titled `Song`. */
  lemma FirstNumberWins()
    ensures StrippedNumbers("01 - 02 - Song") == (Some(1), "Song")
  {
    hide DelimNumber, ZeroSpaceNumber, Cleanup, Trim;
    FirstPrefix();
    SecondDelim();
    PlainTitle();
    assert "01 - 02 - Song"[5..] == "02 - Song";
    SecondCleaned();
    SecondPrefix();
  }

  /** Nothing is cleaned off `02 - Song`: it starts with a digit. */
  lemma SecondCleaned()
    ensures CleanedAll("02 - Song") == "02 - Song"
  {
    var t := "02 - Song";
    assert SkipSpace(t, 0) == 0;
    assert SkipDelims(t, 0) == 0;
  }

  // ---------------------------------------------------------------------
  // Disc folders

  /** `\s*[-_ ]?\s*`: whitespace with at most one `-` or `_` in it. */
  predicate DiscSeparator(m: string) {
    var a := SkipSpace(m, 0);
    a == |m| || ((m[a] == '-' || m[a] == '_') && SkipSpace(m, a + 1) == |m|)
  }

  /** The length of the `cd` or `disc` (any case) that `t` starts with, or 0. */
  function DiscKeyword(t: string): (n: nat)
    ensures n == 0 || n == 2 || n == 4
    ensures n <= |t|
  {
    if |t| >= 2 && LowerAscii(t[..2]) == "cd" then 2
    else if |t| >= 4 && LowerAscii(t[..4]) == "disc" then 4
    else 0
  }

  /**
   * `parse_disc_folder`: the whole trimmed name is `cd` or `disc` in any
   * case, an optional separator, and one to three digits, read as the
   * disc number.
   */
  function ParseDiscFolder(name: string): (r: Option<nat>)
    ensures r.Some? ==> r.value < 1000
    ensures r.Some? ==> DiscKeyword(Trim(name)) > 0
    ensures r.Some? ==> var t := Trim(name); var ds := BackDigits(t, |t|);
      1 <= |t| - ds <= 3 && r.value == DigitsValue(t[ds..])
  {
    var t := Trim(name);
    var kw := DiscKeyword(t);
    var ds := BackDigits(t, |t|);
    if kw > 0 && kw <= ds && 1 <= |t| - ds <= 3 && DiscSeparator(t[kw..ds]) then Some(DigitsValue(t[ds..]))
    else None
  }

  /** `CD` followed by a disc number up to 999 reads back as that number. */
  lemma DiscFolderReadsBack(n: nat)
    requires n < 1000
    ensures ParseDiscFolder("CD" + TimeFormat.Decimal(n)) == Some(n)
  {
    var t := "CD" + TimeFormat.Decimal(n);
    DiscNameParts(n);
    assert DiscSeparator(t[2..2]);
  }

  /** How `CD` and a number's digits split into the parts the parse looks at. */
  lemma DiscNameParts(n: nat)
    requires n < 1000
    ensures var t := "CD" + TimeFormat.Decimal(n);
      Trim(t) == t && DiscKeyword(t) == 2 && BackDigits(t, |t|) == 2 && 1 <= |t| - 2 <= 3 && t[2..] == TimeFormat.Decimal(n)
  {
    var d := TimeFormat.Decimal(n);
    var t := "CD" + d;
    CdKeyword(d);
    hide DiscKeyword, LowerAscii, BackDigits, Trim;
    forall k | 0 <= k < |t|
      ensures !IsSpace(t[k]) && (k >= 2 ==> IsDigit(t[k]))
    {
      if k >= 2 {
        assert t[k] == d[k - 2];
      }
    }
    TrimNoSpace(t);
    BackDigitsRun(t, 2, |t|);
    assert t[2..] == d;
  }

  /** `CD` in front of anything is read as the keyword. */
  lemma CdKeyword(d: string)
    ensures DiscKeyword("CD" + d) == 2
  {
    var t := "CD" + d;
    assert t[..2] == "CD" && LowerAscii("CD") == "cd";
  }

  /** A name that does not start with the keyword is not a disc folder: `Bonus CD 2` is none. */
  lemma DiscFolderAnchored(name: string)
    requires DiscKeyword(Trim(name)) == 0
    ensures ParseDiscFolder(name).None?
  {
  }

  /**
   * `album_dir_and_disc`: the album folder is the file's folder, one level
   * further up exactly when that folder's name is a disc folder, whose
   * number is then the disc number.
   */
  function AlbumDirAndDisc(file: Path): (r: (Path, Option<nat>))
    ensures var dir := Parent(file).UnwrapOr(ROOT);
      var disc := if FileName(dir).Some? then ParseDiscFolder(FileName(dir).value) else None;
      && r.1 == disc
      && (disc.None? ==> r.0 == dir)
      && (disc.Some? ==> |dir| > 0 && r.0 + [dir[|dir| - 1]] == dir)
  {
    var dir := Parent(file).UnwrapOr(ROOT);
    match FileName(dir)
    case None => (dir, None)
    case Some(name) =>
      match ParseDiscFolder(name)
      case None => (dir, None)
      case Some(d) => (Parent(dir).UnwrapOr(dir), Some(d))
  }

  /**
   * `guess_artist_album`: the album folder's name (cleaned for display)
   * and the name of the folder above it, trimmed, as the artist.
   */
  function GuessArtistAlbum(file: Path): (r: (string, string, Path, Option<nat>))
    ensures (r.2, r.3) == AlbumDirAndDisc(file)
    ensures r.0 == Trim(match Parent(r.2) case Some(p) => FileName(p).UnwrapOr("") case None => "")
    ensures r.1 == CleanAlbumForDisplay(FileName(r.2).UnwrapOr(""), r.0)
  {
    var (albumDir, discNo) := AlbumDirAndDisc(file);
    var albumNameRaw := FileName(albumDir).UnwrapOr("");
    var artist := Trim(match Parent(albumDir) case Some(p) => FileName(p).UnwrapOr("") case None => "");
    (artist, CleanAlbumForDisplay(albumNameRaw, artist), albumDir, discNo)
  }

  // ---------------------------------------------------------------------
  // scan_tracks

  /**
   * The track `scan_tracks` builds for one file: the stem normalised, its
   * leading number taken as the track number, an `artist - title` split,
   * and the folders for album, disc and (when the name gives none) artist.
   */
  function BuildTrack(path: Path): (r: Track)
    ensures r.path == path
    ensures var stem := NormalizeWs(FileStem(path).UnwrapOr(""));
      r.trackNo == StrippedNumbers(stem).0
    ensures r.trackNo.Some? ==> r.trackNo.value < 1000
    ensures var split := SplitArtistTitle(StrippedNumbers(NormalizeWs(FileStem(path).UnwrapOr(""))).1);
      && (split.0.Some? ==> r.artist == split.0.value && |r.artist| > 0)
      && (split.0.None? ==> r.artist == GuessArtistAlbum(path).0)
    ensures NormalizeWs(r.title) == r.title
    ensures var g := GuessArtistAlbum(path); r.album == g.1 && r.albumDir == g.2 && r.discNo == g.3
  {
    var stem := NormalizeWs(FileStem(path).UnwrapOr(""));
    var (leadingNo, s1) := StrippedNumbers(stem);
    var (artistFromFile, s2) := SplitArtistTitle(s1);
    NormalizeWsIdempotent(s2);
    var title := NormalizeWs(s2);
    var (artistFromDir, album, albumDir, discNo) := GuessArtistAlbum(path);
    var artist := artistFromFile.UnwrapOr(artistFromDir);
    Track(path, title, artist, album, albumDir, leadingNo, discNo)
  }

  /** The play order: disc (none counts as 0), then track (none counts as 10000), then path. */
  function TrackCmp(a: Track, b: Track): Ordering {
    var ad := a.discNo.UnwrapOr(0);
    var bd := b.discNo.UnwrapOr(0);
    if ad < bd then Less
    else if ad > bd then Greater
    else
      var at := a.trackNo.UnwrapOr(10000);
      var bt := b.trackNo.UnwrapOr(10000);
      if at < bt then Less
      else if at > bt then Greater
      else PathCmp(a.path, b.path)
  }

  predicate TrackLe(a: Track, b: Track) {
    TrackCmp(a, b) != Greater
  }

  /** The play order is total and transitive, so sorting by it is well defined. */
  lemma TrackLeTotalPreorder()
    ensures TotalPreorder(TrackLe)
  {
    PathCmpLawful();
    forall a: Track, b: Track
      ensures TrackLe(a, b) || TrackLe(b, a)
    {
      assert PathCmp(b.path, a.path) == PathCmp(a.path, b.path).Flip();
    }
    forall a: Track, b: Track, c: Track | TrackLe(a, b) && TrackLe(b, c)
      ensures TrackLe(a, c)
    {
      if PathCmp(a.path, b.path) == Equal {
        assert a.path == b.path;
      }
      if PathCmp(b.path, c.path) == Equal {
        assert b.path == c.path;
      }
    }
  }

  /** The files a scan keeps: those the file filter accepts as audio. */
  function AudioOnly(files: seq<Path>): (r: seq<Path>)
    ensures forall k :: 0 <= k < |r| ==> IsAudioFile(r[k])
    ensures forall p :: p in files && IsAudioFile(p) ==> p in r
    ensures forall p :: p in r ==> p in files
  {
    if |files| == 0 then []
    else
      var rest := AudioOnly(files[1..]);
      assert files == [files[0]] + files[1..];
      if IsAudioFile(files[0]) then [files[0]] + rest else rest
  }

  /** The loop of `scan_tracks` that builds one track per file, in order. */
  method BuildAll(files: seq<Path>) returns (out: seq<Track>)
    ensures out == MapSeq(BuildTrack, files)
  {
    hide *;
    out := [];
    for i := 0 to |files|
      invariant out == MapSeq(BuildTrack, files[..i])
    {
      out := out + [BuildTrack(files[i])];
    }
    assert files[..|files|] == files;
  }

  /**
   * `scan_tracks`, given whether the root exists and the files the walk
   * found under it (the root itself when it is a file): an error for a
   * missing root or one without audio files; otherwise one track per
   * audio file, in play order.
   */
  method ScanTracks(rootExists: bool, rootName: string, walked: seq<Path>) returns (r: Result<seq<Track>, string>)
    ensures !rootExists ==> r == Err("Path does not exist: " + rootName)
    ensures rootExists && |AudioOnly(walked)| == 0 ==> r == Err("No audio files in " + rootName)
    ensures rootExists && |AudioOnly(walked)| > 0 ==> r.Ok?
    ensures r.Ok? ==> SortedBy(r.value, TrackLe)
    ensures r.Ok? ==> multiset(r.value) == multiset(MapSeq(BuildTrack, AudioOnly(walked)))
  {
    hide *;
    if !rootExists {
      return Err("Path does not exist: " + rootName);
    }
    var files := AudioOnly(walked);
    if |files| == 0 {
      return Err("No audio files in " + rootName);
    }
    var sortedFiles := SortBy(files, PathLe);
    var out := BuildAll(sortedFiles);
    MapPermutation(BuildTrack, files, sortedFiles);
    TrackLeTotalPreorder();
    r := Ok(SortBy(out, TrackLe));
  }
}
