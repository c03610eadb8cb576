/**
 * Track metadata from tags with the file's name and folders as fallback
 * (src/util/track_meta.rs): the leading `disc-track` or `track` number of
 * a file name, an `Artist - Title` name split against a known artist, and
 * the precedence between tags, name and folders.
 */
module TrackMeta {
  import opened Wrappers
  import opened Chars
  import opened Paths
  import opened TextClean
  import opened PathHeuristics

  /** `TrackMeta`. */
  datatype Meta = Meta(artist: string, album: string, title: string, trackNo: Option<nat>, discNo: Option<nat>)

  /** The tag fields `parse_track_meta` reads; a file whose tags cannot be read has none. */
  datatype Tags = Tags(
    artist: Option<string>,
    albumArtist: Option<string>,
    album: Option<string>,
    title: Option<string>,
    trackNo: Option<nat>,
    discNo: Option<nat>)

  const NO_TAGS := Tags(None, None, None, None, None, None)

  // ---------------------------------------------------------------------
  // parse_track_number

  /** The closing delimiters `[.)\-_]` after a track number. */
  predicate IsCloser(c: char) {
    c == '.' || c == ')' || c == '-' || c == '_'
  }

  /** The first index at or after `i` that is not a closing delimiter. */
  function SkipClosers(s: string, i: nat): (j: nat)
    requires i <= |s|
    ensures i <= j <= |s|
    ensures forall k :: i <= k < j ==> IsCloser(s[k])
    ensures j == |s| || !IsCloser(s[j])
    decreases |s| - i
  {
    if i < |s| && IsCloser(s[i]) then SkipClosers(s, i + 1) else i
  }

  /** A text without line feeds: what `.` matches, as the patterns have no `s` flag. */
  predicate OneLine(t: string) {
    forall k :: 0 <= k < |t| ==> t[k] != '\n'
  }

  /** The last index in `[lo, hi)` that is not a line feed, scanning down from `hi`. */
  function LastNotLineFeed(s: string, lo: nat, hi: nat): (p: Option<nat>)
    requires lo <= hi <= |s|
    ensures p.Some? ==> lo <= p.value < hi && s[p.value] != '\n'
    ensures p.Some? ==> forall k :: p.value < k < hi ==> s[k] == '\n'
    ensures p.None? ==> forall k :: lo <= k < hi ==> s[k] == '\n'
    decreases hi - lo
  {
    if hi == lo then None
    else if s[hi - 1] != '\n' then Some(hi - 1)
    else LastNotLineFeed(s, lo, hi - 1)
  }

  /**
   * Where `(?P<rest>.+)` starts, for a track number ending at `e`:
   * `\s*[.)\-_]+\s*` and then at least one character other than a line
   * feed. When no such character follows the delimiters and spaces, the
   * regex gives back the last space that is not a line feed, or else the
   * last of two or more delimiters, to the rest.
   */
  function RestStart(s: string, e: nat): (q: Option<nat>)
    requires e <= |s|
    ensures q.Some? ==> e < q.value < |s| && s[q.value] != '\n'
  {
    var f := SkipSpace(s, e);
    var g := SkipClosers(s, f);
    var h := SkipSpace(s, g);
    if g == f then None
    else if h < |s| then Some(h)
    else match LastNotLineFeed(s, g, h)
      case Some(p) => Some(p)
      case None => if g - f >= 2 then Some(g - 1) else None
  }

  /** Where the line holding `q` ends: the first line feed at or after `q`, or the end. */
  function LineEnd(s: string, q: nat): (e: nat)
    requires q <= |s|
    ensures q <= e <= |s| && OneLine(s[q..e])
    ensures e == |s| || s[e] == '\n'
    decreases |s| - q
  {
    if q == |s| || s[q] == '\n' then q
    else
      var e := LineEnd(s, q + 1);
      assert s[q..e] == [s[q]] + s[q + 1..e];
      e
  }

  /** What `(?P<rest>.+)` captures from `q`, trimmed: the rest of that line. */
  function RestFrom(s: string, q: nat): (r: string)
    requires q <= |s|
    ensures Trimmed(r) && OneLine(r)
    ensures q + |r| <= LineEnd(s, q)
  {
    var line := s[q..LineEnd(s, q)];
    var r := Trim(line);
    var a := SkipSpace(line, 0);
    assert forall k :: 0 <= k < |r| ==> r[k] == line[a + k];
    r
  }

  /** On a name without line feeds from `q` on, the line runs to the end. */
  lemma {:induction false} LineEndOneLine(s: string, q: nat)
    requires q <= |s| && OneLine(s[q..])
    ensures LineEnd(s, q) == |s|
    decreases |s| - q
  {
    if q < |s| {
      assert s[q] == s[q..][0];
      var t := s[q + 1..];
      assert OneLine(t) by {
        forall k | 0 <= k < |t| ensures t[k] != '\n' {
          assert t[k] == s[q..][k + 1];
        }
      }
      LineEndOneLine(s, q + 1);
    }
  }

  /** On a name without line feeds from `q` on, the rest is everything from `q`, trimmed. */
  lemma RestFromOneLine(s: string, q: nat)
    requires q <= |s| && OneLine(s[q..])
    ensures RestFrom(s, q) == Trim(s[q..])
  {
    LineEndOneLine(s, q);
    assert s[q..LineEnd(s, q)] == s[q..];
  }

  /** The track number (one to three digits) that starts at `a`, and where it ends. */
  function NumberAt(s: string, a: nat, maxDigits: nat): (r: Option<(nat, nat)>)
    requires a <= |s|
    ensures r.Some? ==> a < r.value.1 <= a + maxDigits && r.value.1 <= |s|
    ensures r.Some? ==> r.value.1 == SkipDigits(s, a) && r.value.0 == DigitsValue(s[a..r.value.1])
  {
    var e := SkipDigits(s, a);
    if a < e <= a + maxDigits then Some((DigitsValue(s[a..e]), e)) else None
  }

  /**
   * `re_disc`: disc (two digits at most), a `-`, `_` or `.`, the track,
   * delimiters, the rest: the trimmed rest of the line where `.+` starts.
   */
  function DiscTrackPrefix(s: string): (r: Option<(nat, nat, string)>)
    ensures r.Some? ==> r.value.0 < 100 && r.value.1 < 1000
    ensures r.Some? ==> exists q :: 0 < q < |s| && s[q] != '\n' && r.value.2 == RestFrom(s, q)
  {
    match NumberAt(s, SkipSpace(s, 0), 2)
    case None => None
    case Some((disc, e1)) =>
      var b := SkipSpace(s, e1);
      if b < |s| && (s[b] == '-' || s[b] == '_' || s[b] == '.') then
        match NumberAt(s, SkipSpace(s, b + 1), 3)
        case None => None
        case Some((track, e2)) =>
          match RestStart(s, e2)
          case None => None
          case Some(q) => Some((disc, track, RestFrom(s, q)))
      else None
  }

  /** `re`: the track, delimiters, the rest: the trimmed rest of the line where `.+` starts. */
  function TrackPrefix(s: string): (r: Option<(nat, string)>)
    ensures r.Some? ==> r.value.0 < 1000
    ensures r.Some? ==> exists q :: 0 < q < |s| && s[q] != '\n' && r.value.1 == RestFrom(s, q)
  {
    match NumberAt(s, SkipSpace(s, 0), 3)
    case None => None
    case Some((track, e)) =>
      match RestStart(s, e)
      case None => None
      case Some(q) => Some((track, RestFrom(s, q)))
  }

  /** `re_only`: nothing but a track number and whitespace. */
  function TrackOnly(s: string): (r: Option<nat>)
    ensures r.Some? ==> r.value < 1000
  {
    match NumberAt(s, SkipSpace(s, 0), 3)
    case None => None
    case Some((track, e)) => if SkipSpace(s, e) == |s| then Some(track) else None
  }

  /**
   * `parse_track_number`: (track, disc, rest) from the first of the three
   * patterns that matches, else no numbers and the trimmed name.
   */
  function ParseTrackNumber(s: string): (r: (Option<nat>, Option<nat>, string))
    ensures r.0.Some? ==> r.0.value < 1000
    ensures r.1.Some? ==> r.1.value < 100 && r.0.Some?
    ensures Trimmed(r.2)
    ensures r.0.Some? ==> OneLine(r.2)
    ensures r.0.None? ==> r.2 == Trim(s)
    ensures r.0.Some? ==> var a := SkipSpace(s, 0); a < |s| && IsDigit(s[a])
  {
    match DiscTrackPrefix(s)
    case Some((disc, track, rest)) => (Some(track), Some(disc), rest)
    case None =>
      match TrackPrefix(s)
      case Some((track, rest)) => (Some(track), None, rest)
      case None =>
        match TrackOnly(s)
        case Some(track) => (Some(track), None, "")
        case None => (None, None, Trim(s))
  }

  /** A name that does not start (after spaces) with a digit has no numbers. */
  lemma NoLeadingDigit(s: string)
    requires var a := SkipSpace(s, 0); a == |s| || !IsDigit(s[a])
    ensures ParseTrackNumber(s) == (None, None, Trim(s))
  {
  }

  /** `1-02. Title` is disc 1, track 2. */
  lemma DiscAndTrack()
    ensures ParseTrackNumber("1-02. Title") == (Some(2), Some(1), "Title")
  {
    hide NumberAt, SkipSpace, RestStart, Trim;
    DiscPart();
    TrackAfterDisc();
    RestAfterTrack();
    TrimNoSpace("Title");
    assert "1-02. Title"[6..] == "Title";
    RestFromOneLine("1-02. Title", 6);
  }

  lemma DiscPart()
    ensures var s := "1-02. Title";
      SkipSpace(s, 0) == 0 && NumberAt(s, 0, 2) == Some((1, 1)) && SkipSpace(s, 1) == 1
  {
    var s := "1-02. Title";
    assert SkipDigits(s, 0) == 1;
    assert s[0..1] == "1";
  }

  lemma TrackAfterDisc()
    ensures var s := "1-02. Title";
      SkipSpace(s, 2) == 2 && NumberAt(s, 2, 3) == Some((2, 4))
  {
    var s := "1-02. Title";
    assert SkipDigits(s, 2) == 4 by {
      assert SkipDigits(s, 4) == 4;
    }
    assert s[2..4] == "02";
    assert DigitsValue("02") == 2 by {
      assert "02"[..1] == "0";
    }
  }

  lemma RestAfterTrack()
    ensures RestStart("1-02. Title", 4) == Some(6)
  {
    var s := "1-02. Title";
    assert SkipSpace(s, 4) == 4;
    assert SkipClosers(s, 4) == 5 by {
      assert SkipClosers(s, 5) == 5;
    }
    assert SkipSpace(s, 5) == 6 by {
      assert SkipSpace(s, 6) == 6;
    }
  }

  /** Four leading digits are a year, not a track: `1999 - Song` keeps its name. */
  lemma YearIsNoTrack()
    ensures ParseTrackNumber("1999 - Song") == (None, None, "1999 - Song")
  {
    var s := "1999 - Song";
    assert SkipSpace(s, 0) == 0;
    assert SkipDigits(s, 0) == 4 by {
      assert SkipDigits(s, 4) == 4;
    }
    TrimTrimmed(s);
  }

  /** A bare number is a track number with an empty rest. */
  lemma NumberOnly()
    ensures ParseTrackNumber(" 12 ") == (Some(12), None, "")
  {
    var s := " 12 ";
    assert SkipSpace(s, 0) == 1 by {
      assert SkipSpace(s, 1) == 1;
    }
    assert SkipDigits(s, 1) == 3 by {
      assert SkipDigits(s, 3) == 3;
    }
    assert s[1..3] == "12";
    assert DigitsValue("12") == 12 by {
      assert "12"[..1] == "1";
    }
    assert SkipSpace(s, 3) == 4;
    assert SkipClosers(s, 4) == 4;
  }

  /** When only delimiters follow the number, `.+` takes the last of two: `01 --` is track 1 with the rest `-`. */
  lemma TwoDelimitersOnly()
    ensures ParseTrackNumber("01 --") == (Some(1), None, "-")
  {
    hide NumberAt, SkipSpace, RestStart, Trim;
    LeadingOne();
    NoSecondNumber();
    TwoDelimitersRest();
    TrimNoSpace("-");
    assert "01 --"[4..] == "-";
    RestFromOneLine("01 --", 4);
  }

  lemma LeadingOne()
    ensures var s := "01 --";
      SkipSpace(s, 0) == 0 && NumberAt(s, 0, 2) == Some((1, 2)) && NumberAt(s, 0, 3) == Some((1, 2))
  {
    var s := "01 --";
    assert SkipDigits(s, 0) == 2 by {
      assert SkipDigits(s, 2) == 2;
    }
    assert s[0..2] == "01";
    assert DigitsValue("01") == 1 by {
      assert "01"[..1] == "0";
    }
  }

  /** After `01 -` the dash is no track number, so the disc form does not match. */
  lemma NoSecondNumber()
    ensures var s := "01 --";
      SkipSpace(s, 2) == 3 && SkipSpace(s, 4) == 4 && NumberAt(s, 4, 3).None?
  {
    var s := "01 --";
    assert SkipSpace(s, 2) == 3 by {
      assert SkipSpace(s, 3) == 3;
    }
    assert SkipDigits(s, 4) == 4;
  }

  lemma TwoDelimitersRest()
    ensures RestStart("01 --", 2) == Some(4)
  {
    var s := "01 --";
    assert SkipSpace(s, 2) == 3 by {
      assert SkipSpace(s, 3) == 3;
    }
    assert SkipClosers(s, 3) == 5;
    assert SkipSpace(s, 5) == 5;
  }

  /** A single delimiter with nothing after it leaves `.+` nothing: `01 -` has no number. */
  lemma OneDelimiterOnly()
    ensures ParseTrackNumber("01 -") == (None, None, "01 -")
  {
    var t := "01 -";
    assert SkipSpace(t, 0) == 0;
    assert SkipDigits(t, 0) == 2 by {
      assert SkipDigits(t, 2) == 2;
    }
    assert SkipSpace(t, 2) == 3 by {
      assert SkipSpace(t, 3) == 3;
    }
    assert SkipClosers(t, 3) == 4;
    assert SkipSpace(t, 4) == 4;
    assert RestStart(t, 2).None?;
    assert DiscTrackPrefix(t).None?;
    assert TrackPrefix(t).None?;
    assert TrackOnly(t).None?;
    TrimTrimmed(t);
  }

  /**
   * A line feed is no character for `.+`: in `01 -\n` the only thing
   * after the single delimiter is a line feed, so no pattern matches and
   * the name comes back trimmed.
   */
  lemma LineFeedIsNoRest()
    ensures ParseTrackNumber("01 -\n") == (None, None, "01 -")
  {
    var s := "01 -\n";
    hide Trim;
    assert SkipSpace(s, 0) == 0;
    assert SkipDigits(s, 0) == 2 by {
      assert SkipDigits(s, 2) == 2;
    }
    assert SkipSpace(s, 2) == 3 by {
      assert SkipSpace(s, 3) == 3;
    }
    assert SkipSpace(s, 4) == 5;
    assert SkipDigits(s, 5) == 5;
    assert SkipClosers(s, 3) == 4;
    assert LastNotLineFeed(s, 4, 5).None?;
    assert RestStart(s, 2).None?;
    assert DiscTrackPrefix(s).None?;
    assert TrackPrefix(s).None?;
    assert TrackOnly(s).None?;
    LineFeedTrimmed();
  }

  lemma LineFeedTrimmed()
    ensures Trim("01 -\n") == "01 -"
  {
    var s := "01 -\n";
    assert SkipSpace(s, 0) == 0;
    assert BackSpace(s, 5) == 4 by {
      assert BackSpace(s, 4) == 4;
    }
    assert TrimEnd(s) == "01 -";
    assert SkipSpace("01 -", 0) == 0;
  }

  /** The rest ends at the first line feed: `01. Title\nLive` is track 1 titled `Title`. */
  lemma RestEndsAtLineFeed()
    ensures ParseTrackNumber("01. Title\nLive") == (Some(1), None, "Title")
  {
    hide NumberAt, SkipSpace, RestStart, RestFrom;
    FirstLineNumber();
    FirstLineRest();
  }

  lemma FirstLineNumber()
    ensures var s := "01. Title\nLive";
      SkipSpace(s, 0) == 0 && NumberAt(s, 0, 2) == Some((1, 2)) && NumberAt(s, 0, 3) == Some((1, 2))
      && SkipSpace(s, 2) == 2 && SkipSpace(s, 3) == 4 && NumberAt(s, 4, 3).None?
  {
    var s := "01. Title\nLive";
    assert SkipDigits(s, 0) == 2 by {
      assert SkipDigits(s, 2) == 2;
    }
    assert s[0..2] == "01";
    assert DigitsValue("01") == 1 by {
      assert "01"[..1] == "0";
    }
    assert SkipSpace(s, 3) == 4 by {
      assert SkipSpace(s, 4) == 4;
    }
    assert SkipDigits(s, 4) == 4;
  }

  lemma FirstLineRest()
    ensures RestStart("01. Title\nLive", 2) == Some(4) && RestFrom("01. Title\nLive", 4) == "Title"
  {
    var s := "01. Title\nLive";
    assert SkipSpace(s, 2) == 2;
    assert SkipClosers(s, 2) == 3 by {
      assert SkipClosers(s, 3) == 3;
    }
    assert SkipSpace(s, 3) == 4 by {
      assert SkipSpace(s, 4) == 4;
    }
    assert LineEnd(s, 4) == 9 by {
      assert LineEnd(s, 9) == 9;
    }
    assert s[4..9] == "Title";
    TrimNoSpace("Title");
  }

  // ---------------------------------------------------------------------
  // maybe_split_artist_title

  /**
   * `maybe_split_artist_title`: at the first ` - `, split when the trimmed
   * left side is the known artist (trimmed), ignoring ASCII case.
   */
  function MaybeSplitArtistTitle(stem: string, knownArtist: Option<string>): (r: Option<(string, string)>)
    ensures r.Some? ==> knownArtist.Some? && Find(stem, " - ").Some?
    ensures r.Some? ==> var idx := Find(stem, " - ").value;
      r.value == (Trim(stem[..idx]), Trim(stem[idx + 3..])) && EqIgnoreAsciiCase(r.value.0, Trim(knownArtist.value))
    ensures knownArtist.Some? && Find(stem, " - ").Some? && EqIgnoreAsciiCase(Trim(stem[..Find(stem, " - ").value]), Trim(knownArtist.value)) ==> r.Some?
  {
    match Find(stem, " - ")
    case None => None
    case Some(idx) =>
      match knownArtist
      case None => None
      case Some(ka) =>
        var left := stem[..idx];
        var right := stem[idx + 3..];
        if EqIgnoreAsciiCase(Trim(left), Trim(ka)) then Some((Trim(left), Trim(right))) else None
  }

  /** Only the first ` - ` is looked at: `X - Y - Z` with artist `X - Y` is not split. */
  lemma SplitOnlyAtFirst()
    ensures MaybeSplitArtistTitle("X - Y - Z", Some("X - Y")).None?
  {
    hide Find, Trim;
    FirstDash();
    assert "X - Y - Z"[..1] == "X";
    TrimNoSpace("X");
    TrimTrimmed("X - Y");
  }

  lemma FirstDash()
    ensures Find("X - Y - Z", " - ") == Some(1)
  {
    assert OccursAt("X - Y - Z", " - ", 1) by {
      assert "X - Y - Z"[1..4] == " - ";
    }
    assert !OccursAt("X - Y - Z", " - ", 0) by {
      assert "X - Y - Z"[0..3][0] == 'X';
    }
  }

  // ---------------------------------------------------------------------
  // parse_track_meta

  /**
   * `parse_track_meta` for a file with tags `tags`: every field comes from
   * the tags when they have it, and otherwise from the file name or the
   * folders, in the order the fallbacks are written.
   */
  function ParseTrackMeta(tags: Tags, path: Path): (m: Meta)
    ensures var (pathArtist, pathAlbum, pathDisc) := Inferred(path);
      && m.artist == tags.artist.Or(tags.albumArtist).Or(pathArtist).UnwrapOr("")
      && m.trackNo == tags.trackNo.Or(ParseTrackNumber(FileStem(path).UnwrapOr("")).0)
      && m.discNo == tags.discNo.Or(ParseTrackNumber(FileStem(path).UnwrapOr("")).1).Or(pathDisc)
      && (m.artist == "" ==> m.album == NormalizeWs(tags.album.Or(pathAlbum).UnwrapOr("")))
      && (m.artist != "" ==> m.album == CleanAlbumForDisplay(tags.album.Or(pathAlbum).UnwrapOr(""), m.artist))
    ensures NormalizeWs(m.album) == m.album
    ensures NormalizeWs(m.title) == m.title
  {
    var (artistFromPath, albumFromPath, discFromPath) := Inferred(path);
    var stem := FileStem(path).UnwrapOr("");
    var (trackFromName, discFromName, nameRest) := ParseTrackNumber(stem);
    var artist := tags.artist.Or(tags.albumArtist).Or(artistFromPath).UnwrapOr("");
    var albumRaw := tags.album.Or(albumFromPath).UnwrapOr("");
    var album := if artist == "" then NormalizeWs(albumRaw) else CleanAlbumForDisplay(albumRaw, artist);
    var title0 := tags.title.UnwrapOr(nameRest);
    var title := match MaybeSplitArtistTitle(title0, if artist == "" then None else Some(artist))
      case Some((_, t)) => NormalizeWs(TechStripped(t))
      case None => NormalizeWs(TechStripped(title0));
    NormalizeWsIdempotent(albumRaw);
    NormalizeWsIdempotent(TechStripped(title0));
    NormalizeWsIdempotent(if MaybeSplitArtistTitle(title0, if artist == "" then None else Some(artist)).Some?
      then TechStripped(MaybeSplitArtistTitle(title0, if artist == "" then None else Some(artist)).value.1) else "");
    Meta(artist, album, title, tags.trackNo.Or(trackFromName), tags.discNo.Or(discFromName).Or(discFromPath))
  }

  /**
   * The title: the tag's title, or else what follows the name's number; a
   * leading ` - `-separated copy of the artist is dropped, and then the
   * technical notes and extra whitespace.
   */
  lemma TitleFromTagOrName(tags: Tags, path: Path)
    ensures var m := ParseTrackMeta(tags, path);
      var title0 := tags.title.UnwrapOr(ParseTrackNumber(FileStem(path).UnwrapOr("")).2);
      var split := MaybeSplitArtistTitle(title0, if m.artist == "" then None else Some(m.artist));
      && (split.Some? ==> m.title == NormalizeWs(TechStripped(split.value.1)))
      && (split.None? ==> m.title == NormalizeWs(TechStripped(title0)))
  {
  }

  /** Without tags, a name without a number and folders without candidates leave everything empty but the title. */
  lemma NothingKnown(path: Path)
    requires Inferred(path) == (None, None, None)
    requires ParseTrackNumber(FileStem(path).UnwrapOr("")).0.None?
    ensures var m := ParseTrackMeta(NO_TAGS, path);
      m.artist == "" && m.album == "" && m.trackNo.None? && m.discNo.None?
  {
    assert !HasBreaker("");
  }
}
