/**
 * Guessing artist, album and disc from the folders a file sits in
 * (src/util/path_heur.rs): generic folder names ("buckets") are skipped,
 * a disc label is looked for among the last three remaining names, and
 * the third- and second-last names are taken as artist and album.
 */
module PathHeuristics {
  import opened Wrappers
  import opened Chars
  import opened Paths

  /** Folder names that say nothing about artist or album. */
  const BUCKETS: seq<string> := [
    "albums", "album", "singles", "single", "eps", "ep", "compilations", "compilation",
    "records", "releases", "collections", "library", "audio", "music", "media",
    "disc", "discs", "disk", "cd", "cds", "cd1", "cd2", "cd3", "dvd",
    "tracks", "track", "songs", "song"]

  /** `is_bucket`: the name is one of the buckets, ignoring ASCII case. */
  function IsBucket(name: string): (r: bool)
    ensures r <==> exists i :: 0 <= i < |BUCKETS| && EqIgnoreAsciiCase(name, BUCKETS[i])
  {
    AnyIgnoringCaseSome(name, BUCKETS);
    AnyIgnoringCase(name, BUCKETS)
  }

  // ---------------------------------------------------------------------
  // The disc label `\b(?:cd|disc|disk)\s*-?\s*(\d{1,2})\b`, any case

  /** A regex `\b`: a word character on exactly one side of `i`. */
  predicate WordBoundary(s: string, i: nat)
    requires i <= |s|
  {
    (i > 0 && IsWordChar(s[i - 1])) != (i < |s| && IsWordChar(s[i]))
  }

  /** The length of the `cd`, `disc` or `disk` (any ASCII case) at `i`, or 0. */
  function LabelKeyword(s: string, i: nat): (n: nat)
    requires i <= |s|
    ensures n == 0 || n == 2 || n == 4
    ensures i + n <= |s|
  {
    if i + 2 <= |s| && AsciiLower(s[i]) == 'c' && AsciiLower(s[i + 1]) == 'd' then 2
    else if i + 4 <= |s| && AsciiLower(s[i]) == 'd' && AsciiLower(s[i + 1]) == 'i' && AsciiLower(s[i + 2]) == 's'
      && (AsciiLower(s[i + 3]) == 'c' || AsciiLower(s[i + 3]) == 'k') then 4
    else 0
  }

  /** Where the digits must start after a keyword ending at `j`: past `\s*-?\s*`. */
  function DigitsStart(s: string, j: nat): (p: nat)
    requires j <= |s|
    ensures j <= p <= |s|
  {
    var a := SkipSpace(s, j);
    if a < |s| && s[a] == '-' then SkipSpace(s, a + 1) else a
  }

  /**
   * The disc number of a label match starting at `i`, if one starts
   * there. Two digits are taken when there are two; a third digit (or a
   * letter) right after them leaves no word boundary, and then there is
   * no match at `i`, since one digit is followed by a digit too.
   */
  function LabelAt(s: string, i: nat): (r: Option<nat>)
    requires i <= |s|
    ensures r.Some? ==> r.value < 100
    ensures r.Some? ==> LabelKeyword(s, i) > 0 && WordBoundary(s, i)
  {
    var kw := LabelKeyword(s, i);
    if kw == 0 || !WordBoundary(s, i) then None
    else
      var p := DigitsStart(s, i + kw);
      if p < |s| && IsDigit(s[p]) then
        var nd := if p + 1 < |s| && IsDigit(s[p + 1]) then 2 else 1;
        if WordBoundary(s, p + nd) then Some(DigitsValue(s[p..p + nd])) else None
      else None
  }

  /** The leftmost position at or after `i` where a label match starts. */
  function FirstLabel(s: string, i: nat): (r: Option<nat>)
    requires i <= |s|
    ensures r.Some? ==> i <= r.value <= |s| && LabelAt(s, r.value).Some?
    ensures r.Some? ==> forall j :: i <= j < r.value ==> LabelAt(s, j).None?
    ensures r.None? ==> forall j :: i <= j <= |s| ==> LabelAt(s, j).None?
    decreases |s| - i
  {
    if LabelAt(s, i).Some? then Some(i)
    else if i == |s| then None
    else FirstLabel(s, i + 1)
  }

  /** `parse_disc_label`: the number of the leftmost disc label in `s`. */
  function ParseDiscLabel(s: string): (r: Option<nat>)
    ensures r.Some? ==> r.value < 100
    ensures r.Some? <==> FirstLabel(s, 0).Some?
    ensures r.Some? ==> r == LabelAt(s, FirstLabel(s, 0).value)
  {
    match FirstLabel(s, 0)
    case None => None
    case Some(i) => LabelAt(s, i)
  }

  /** A folder called `Disc 2` is disc 2. */
  lemma DiscLabelSpaced()
    ensures ParseDiscLabel("Disc 2") == Some(2)
  {
    hide LabelAt;
    SpacedLabel();
  }

  lemma SpacedLabel()
    ensures LabelAt("Disc 2", 0) == Some(2)
  {
    var s := "Disc 2";
    assert LabelKeyword(s, 0) == 4;
    assert WordBoundary(s, 0) && WordBoundary(s, 6);
    assert DigitsStart(s, 4) == 5 by {
      assert SkipSpace(s, 5) == 5;
    }
    assert s[5..6] == "2";
    hide LabelKeyword, WordBoundary, DigitsStart;
  }

  /** `CD-07` is disc 7: a dash may separate the keyword from the number. */
  lemma DiscLabelDashed()
    ensures ParseDiscLabel("CD-07") == Some(7)
  {
    hide LabelAt;
    DashedLabel();
  }

  lemma DashedLabel()
    ensures LabelAt("CD-07", 0) == Some(7)
  {
    hide DigitsValue;
    var s := "CD-07";
    assert LabelKeyword(s, 0) == 2;
    assert WordBoundary(s, 0) && WordBoundary(s, 5);
    assert DigitsStart(s, 2) == 3 by {
      assert SkipSpace(s, 2) == 2;
      assert SkipSpace(s, 3) == 3;
    }
    assert s[3..5] == "07";
    SevenWithZero();
    hide LabelKeyword, WordBoundary, DigitsStart;
  }

  lemma SevenWithZero()
    ensures DigitsValue("07") == 7
  {
    assert "07"[..1] == "0";
  }

  /** Three digits are no label (`CD123`), and neither is a longer word (`Discography`). */
  lemma NotDiscLabels()
    ensures ParseDiscLabel("CD123").None?
    ensures ParseDiscLabel("Discography").None?
  {
    hide LabelAt;
    NoLabelInNumber();
    NoLabelInWord();
  }

  lemma NoLabelInNumber()
    ensures forall j :: 0 <= j <= 5 ==> LabelAt("CD123", j).None?
  {
    var s := "CD123";
    assert LabelAt(s, 0).None? by {
      assert DigitsStart(s, 2) == 2 by {
        assert SkipSpace(s, 2) == 2;
      }
    }
    hide LabelAt;
    NoLabelInside(s);
  }

  lemma NoLabelInWord()
    ensures forall j :: 0 <= j <= 11 ==> LabelAt("Discography", j).None?
  {
    hide LabelAt;
    NoLabelAtWordStart();
    AllWordChars("Discography");
    NoLabelInside("Discography");
  }

  /** `Disc` starts `Discography`, but no digit follows it. */
  lemma NoLabelAtWordStart()
    ensures LabelAt("Discography", 0).None?
  {
    var s := "Discography";
    assert DigitsStart(s, 4) == 4 by {
      assert SkipSpace(s, 4) == 4;
    }
  }

  lemma AllWordChars(s: string)
    requires s == "Discography"
    ensures forall k :: 0 <= k < |s| ==> IsWordChar(s[k])
  {
    forall k | 0 <= k < |s| ensures IsWordChar(s[k]) {
      assert IsAsciiLetter(s[k]);
    }
  }

  /** In a run of word characters, no label starts after the first character. */
  lemma NoLabelInside(s: string)
    requires forall k :: 0 <= k < |s| ==> IsWordChar(s[k])
    ensures forall j :: 0 < j <= |s| ==> LabelAt(s, j).None?
  {
    forall j | 0 < j <= |s| ensures LabelAt(s, j).None? {
      assert !WordBoundary(s, j) || LabelKeyword(s, j) == 0;
    }
  }

  // ---------------------------------------------------------------------
  // infer_artist_album_from_path

  /** The plain names among a path's components, in order. */
  function NormalNames(p: Path): (r: seq<string>)
    ensures |r| <= |p|
  {
    if |p| == 0 then []
    else NormalNames(p[..|p| - 1]) + (if p[|p| - 1].Normal? then [p[|p| - 1].name] else [])
  }

  /** The name part `i` contributes: the file stem for the last part, the whole name otherwise. */
  function StemAt(parts: seq<string>, i: nat): string
    requires i < |parts|
  {
    if i + 1 == |parts| then SplitAtDot(parts[i]).0 else parts[i]
  }

  /** The candidates among the first `n` parts: index and name of every part that is not a bucket. */
  function Candidates(parts: seq<string>, n: nat): (r: seq<(nat, string)>)
    requires n <= |parts|
    ensures |r| <= n
  {
    if n == 0 then []
    else
      var prev := Candidates(parts, n - 1);
      var stem := StemAt(parts, n - 1);
      if IsBucket(stem) then prev else prev + [(n - 1, stem)]
  }

  /** Each candidate is a part that is not a bucket, with its index; the indices ascend. */
  lemma {:induction false} CandidatesOrdered(parts: seq<string>, n: nat)
    requires n <= |parts|
    ensures forall k :: 0 <= k < |Candidates(parts, n)| ==> Candidates(parts, n)[k].0 < n
    ensures forall k :: 0 <= k < |Candidates(parts, n)| ==>
      var c := Candidates(parts, n)[k]; c.1 == StemAt(parts, c.0) && !IsBucket(c.1)
    ensures forall k, m :: 0 <= k < m < |Candidates(parts, n)| ==> Candidates(parts, n)[k].0 < Candidates(parts, n)[m].0
  {
    hide IsBucket, StemAt, Candidates;
    if n > 0 {
      CandidatesOrdered(parts, n - 1);
      CandidatesStep(parts, n);
      var prev := Candidates(parts, n - 1);
      assert forall k :: 0 <= k < |prev| ==> prev[k].0 < n - 1;
    }
  }

  /** Every part whose name is not a bucket is a candidate, and no other part is. */
  lemma {:induction false} CandidatesComplete(parts: seq<string>, n: nat)
    requires n <= |parts|
    ensures forall i :: 0 <= i < n ==> (!IsBucket(StemAt(parts, i)) <==> (i, StemAt(parts, i)) in Candidates(parts, n))
  {
    hide IsBucket, StemAt, Candidates;
    if n > 0 {
      CandidatesComplete(parts, n - 1);
      CandidatesOrdered(parts, n - 1);
      var prev := Candidates(parts, n - 1);
      var stem := StemAt(parts, n - 1);
      assert forall k :: 0 <= k < |prev| ==> prev[k].0 < n - 1;
      assert (n - 1, stem) !in prev;
      CandidatesStep(parts, n);
      forall i | 0 <= i < n
        ensures !IsBucket(StemAt(parts, i)) <==> (i, StemAt(parts, i)) in Candidates(parts, n)
      {
        if i < n - 1 {
          assert (i, StemAt(parts, i)) != (n - 1, stem);
        }
      }
    }
  }

  /** One more part: it is appended when it is not a bucket. */
  lemma CandidatesStep(parts: seq<string>, n: nat)
    requires 0 < n <= |parts|
    ensures IsBucket(StemAt(parts, n - 1)) ==> Candidates(parts, n) == Candidates(parts, n - 1)
    ensures !IsBucket(StemAt(parts, n - 1)) ==> Candidates(parts, n) == Candidates(parts, n - 1) + [(n - 1, StemAt(parts, n - 1))]
  {
  }

  /** The name of the candidate `j` places before the last. */
  function FromEnd(cand: seq<(nat, string)>, j: nat): string
    requires j < |cand|
  {
    cand[|cand| - 1 - j].1
  }

  /**
   * How many candidates, counting back from the last and from `k`, are
   * passed over before one carries a disc label; at most the last three
   * are looked at.
   */
  function DiscSearch(cand: seq<(nat, string)>, k: nat): (r: Option<nat>)
    requires k <= 3 && k <= |cand|
    ensures r.Some? ==> k <= r.value < 3 && r.value < |cand|
    ensures r.Some? ==> ParseDiscLabel(FromEnd(cand, r.value)).Some?
    ensures r.Some? ==> forall j :: k <= j < r.value ==> ParseDiscLabel(FromEnd(cand, j)).None?
    ensures r.None? ==> forall j :: k <= j < 3 && j < |cand| ==> ParseDiscLabel(FromEnd(cand, j)).None?
    decreases 3 - k
  {
    if k == 3 || k == |cand| then None
    else if ParseDiscLabel(FromEnd(cand, k)).Some? then Some(k)
    else DiscSearch(cand, k + 1)
  }

  /** The disc number found among the last three candidates, if any. */
  function DiscOf(cand: seq<(nat, string)>): Option<nat> {
    match DiscSearch(cand, 0)
    case None => None
    case Some(j) => ParseDiscLabel(FromEnd(cand, j))
  }

  /** Artist and album from the third- and second-last candidates, with the disc number. */
  function GuessFrom(cand: seq<(nat, string)>): (Option<string>, Option<string>, Option<nat>) {
    if |cand| >= 3 then (Some(cand[|cand| - 3].1), Some(cand[|cand| - 2].1), DiscOf(cand))
    else (None, None, DiscOf(cand))
  }

  /** What `infer_artist_album_from_path` returns, as a function of the path. */
  function Inferred(p: Path): (Option<string>, Option<string>, Option<nat>)
  {
    var parts := NormalNames(p);
    GuessFrom(Candidates(parts, |parts|))
  }

  /**
   * What the guess promises: artist and album come together, exactly when
   * at least three names are not buckets, and neither is ever a bucket;
   * a disc number is below 100 and comes from one of the last three such
   * names.
   */
  lemma InferredProperties(p: Path)
    ensures var r := Inferred(p);
      var parts := NormalNames(p);
      var cand := Candidates(parts, |parts|);
      && (r.0.Some? <==> |cand| >= 3)
      && (r.0.Some? <==> r.1.Some?)
      && (r.0.Some? ==> !IsBucket(r.0.value) && !IsBucket(r.1.value))
      && (r.2.Some? ==> r.2.value < 100)
      && (r.2.Some? ==> exists j :: 0 <= j < 3 && j < |cand| && ParseDiscLabel(FromEnd(cand, j)) == r.2)
  {
    var parts := NormalNames(p);
    var cand := Candidates(parts, |parts|);
    CandidatesOrdered(parts, |parts|);
    match DiscSearch(cand, 0)
    case None =>
    case Some(j) =>
      assert ParseDiscLabel(FromEnd(cand, j)) == Inferred(p).2;
  }

  /** The first loop of `infer_artist_album_from_path`: the plain names of `p`. */
  method CollectNames(p: Path) returns (parts: seq<string>)
    ensures parts == NormalNames(p)
  {
    parts := [];
    for i := 0 to |p|
      invariant parts == NormalNames(p[..i])
    {
      assert p[..i + 1][..i] == p[..i];
      if p[i].Normal? {
        parts := parts + [p[i].name];
      }
    }
    assert p[..|p|] == p;
  }

  /** The second loop: the parts that are not buckets, the last one by its stem. */
  method CollectCandidates(parts: seq<string>) returns (cand: seq<(nat, string)>)
    ensures cand == Candidates(parts, |parts|)
  {
    hide IsBucket, SplitAtDot;
    cand := [];
    for i := 0 to |parts|
      invariant cand == Candidates(parts, i)
    {
      var last := i + 1 == |parts|;
      var stem := if last then SplitAtDot(parts[i]).0 else parts[i];
      assert stem == StemAt(parts, i);
      if !IsBucket(stem) {
        cand := cand + [(i, stem)];
      }
    }
  }

  /** The third loop: the first disc label among the last three candidates, from the end. */
  method FindDisc(cand: seq<(nat, string)>) returns (discNo: Option<nat>)
    ensures discNo == DiscOf(cand)
  {
    discNo := None;
    var k := 0;
    while k < 3 && k < |cand|
      invariant k <= 3 && k <= |cand|
      invariant DiscSearch(cand, 0) == DiscSearch(cand, k)
      invariant discNo.None?
    {
      var d := ParseDiscLabel(cand[|cand| - 1 - k].1);
      if d.Some? {
        discNo := d;
        break;
      }
      k := k + 1;
    }
  }

  /**
   * `infer_artist_album_from_path`: collect the plain names, keep those
   * that are not buckets (the last one by its stem), look for a disc label
   * among the last three from the end, and take the third- and second-last
   * as artist and album.
   */
  method InferArtistAlbumFromPath(p: Path) returns (artist: Option<string>, album: Option<string>, discNo: Option<nat>)
    ensures (artist, album, discNo) == Inferred(p)
  {
    hide NormalNames, Candidates, DiscOf;
    var parts := CollectNames(p);
    var cand := CollectCandidates(parts);
    discNo := FindDisc(cand);
    if |cand| >= 3 {
      return Some(cand[|cand| - 3].1), Some(cand[|cand| - 2].1), discNo;
    }
    return None, None, discNo;
  }

  /**
   * A disc folder that is not itself a bucket (`Disc 1`, unlike `CD1`) is a
   * candidate like any other: when it holds the file, it is returned as the
   * album, the album folder above it as the artist, and its label as the
   * disc number.
   */
  lemma DiscFolderShiftsGuess(p: Path)
    requires var parts := NormalNames(p); var cand := Candidates(parts, |parts|);
      |cand| >= 3 && ParseDiscLabel(FromEnd(cand, 0)).None? && ParseDiscLabel(FromEnd(cand, 1)).Some?
    ensures var parts := NormalNames(p); var cand := Candidates(parts, |parts|);
      Inferred(p) == (Some(FromEnd(cand, 2)), Some(FromEnd(cand, 1)), ParseDiscLabel(FromEnd(cand, 1)))
  {
    hide NormalNames, Candidates, ParseDiscLabel, IsBucket;
    var parts := NormalNames(p);
    var cand := Candidates(parts, |parts|);
    assert DiscSearch(cand, 1) == Some(1);
  }
}
