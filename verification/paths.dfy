/**
 * Paths as `std::path` sees them: a sequence of components, the file name,
 * stem and extension taken from the last one, the parent, and the order
 * `Ord for Path` sorts by (component by component, names by their bytes).
 */
module Paths {
  import opened Wrappers

  datatype Component = RootDir | CurDir | ParentDir | Normal(name: string)

  /** A path as the sequence `Path::components` yields. */
  type Path = seq<Component>

  /** The root directory `/`. */
  const ROOT: Path := [RootDir]

  /** `Path::file_name`: the last component when it is a plain name. */
  function FileName(p: Path): (r: Option<string>)
    ensures r.Some? <==> |p| > 0 && p[|p| - 1].Normal?
    ensures r.Some? ==> r.value == p[|p| - 1].name
  {
    if |p| > 0 && p[|p| - 1].Normal? then Some(p[|p| - 1].name) else None
  }

  /** `Path::parent`: everything but the last component, unless that is the root or nothing. */
  function Parent(p: Path): (r: Option<Path>)
    ensures r.Some? <==> |p| > 0 && p[|p| - 1] != RootDir
    ensures r.Some? ==> r.value + [p[|p| - 1]] == p
  {
    if |p| > 0 && p[|p| - 1] != RootDir then Some(p[..|p| - 1]) else None
  }

  /** The index of the last `.` in `name`, if any. */
  function LastDot(name: string): (r: Option<nat>)
    ensures r.Some? ==> r.value < |name| && name[r.value] == '.'
    ensures r.Some? ==> forall k :: r.value < k < |name| ==> name[k] != '.'
    ensures r.None? ==> forall k :: 0 <= k < |name| ==> name[k] != '.'
  {
    if |name| == 0 then None
    else if name[|name| - 1] == '.' then Some(|name| - 1)
    else LastDot(name[..|name| - 1])
  }

  /** The last dot of `a + "." + b` is the one after `a` when `b` has none. */
  lemma {:induction false} LastDotOf(a: string, b: string)
    requires forall k :: 0 <= k < |b| ==> b[k] != '.'
    ensures LastDot(a + "." + b) == Some(|a|)
  {
    if |b| > 0 {
      LastDotOf(a, b[..|b| - 1]);
      assert (a + "." + b)[..|a + "." + b| - 1] == a + "." + b[..|b| - 1];
    }
  }

  /**
   * The split of a file name at its last dot (`rsplit_file_at_dot`): `..`,
   * a name without a dot and a name whose only dot leads it have no
   * extension, and the stem is then the whole name.
   */
  function SplitAtDot(name: string): (r: (string, Option<string>))
    ensures r.1.None? ==> r.0 == name
    ensures r.1.Some? ==> |r.0| > 0 && name == r.0 + "." + r.1.value
    ensures r.1.Some? ==> forall k :: 0 <= k < |r.1.value| ==> r.1.value[k] != '.'
  {
    if name == ".." then (name, None)
    else
      match LastDot(name)
      case None => (name, None)
      case Some(k) =>
        if k == 0 then (name, None)
        else
          assert name == name[..k] + "." + name[k + 1..];
          (name[..k], Some(name[k + 1..]))
  }

  /** `Path::file_stem`. */
  function FileStem(p: Path): (r: Option<string>)
    ensures r.Some? <==> FileName(p).Some?
    ensures r.Some? ==> r.value == SplitAtDot(FileName(p).value).0
  {
    match FileName(p)
    case None => None
    case Some(n) => Some(SplitAtDot(n).0)
  }

  /** `Path::extension`: only the part after the final dot. */
  function Extension(p: Path): (r: Option<string>)
    ensures r.Some? ==> FileName(p).Some? && r == SplitAtDot(FileName(p).value).1
    ensures r.Some? ==> forall k :: 0 <= k < |r.value| ==> r.value[k] != '.'
  {
    match FileName(p)
    case None => None
    case Some(n) => SplitAtDot(n).1
  }

  datatype Ordering = Less | Equal | Greater {
    function Flip(): Ordering {
      match this
      case Less => Greater
      case Equal => Equal
      case Greater => Less
    }
  }

  /** What a comparison `sort` and `dedup` can rely on: equality, antisymmetry, transitivity. */
  ghost predicate LawfulCmp<T(!new)>(cmp: (T, T) -> Ordering) {
    && (forall a, b :: cmp(a, b) == Equal <==> a == b)
    && (forall a, b :: cmp(b, a) == cmp(a, b).Flip())
    && (forall a, b, c :: cmp(a, b) == Less && cmp(b, c) == Less ==> cmp(a, c) == Less)
  }

  /** The lexicographic order over sequences that `Ord` derives from an element order. */
  function Lex<T>(a: seq<T>, b: seq<T>, cmp: (T, T) -> Ordering): Ordering
  {
    if |a| == 0 then (if |b| == 0 then Equal else Less)
    else if |b| == 0 then Greater
    else if cmp(a[0], b[0]) != Equal then cmp(a[0], b[0])
    else Lex(a[1..], b[1..], cmp)
  }

  lemma {:induction false} LexEqual<T(!new)>(a: seq<T>, b: seq<T>, cmp: (T, T) -> Ordering)
    requires LawfulCmp(cmp)
    ensures Lex(a, b, cmp) == Equal <==> a == b
    decreases |a|
  {
    if |a| > 0 && |b| > 0 && cmp(a[0], b[0]) == Equal {
      LexEqual(a[1..], b[1..], cmp);
      assert a == [a[0]] + a[1..] && b == [b[0]] + b[1..];
    }
  }

  lemma {:induction false} LexFlip<T(!new)>(a: seq<T>, b: seq<T>, cmp: (T, T) -> Ordering)
    requires LawfulCmp(cmp)
    ensures Lex(b, a, cmp) == Lex(a, b, cmp).Flip()
    decreases |a|
  {
    if |a| > 0 && |b| > 0 && cmp(a[0], b[0]) == Equal {
      LexFlip(a[1..], b[1..], cmp);
    }
  }

  lemma {:induction false} LexTrans<T(!new)>(a: seq<T>, b: seq<T>, c: seq<T>, cmp: (T, T) -> Ordering)
    requires LawfulCmp(cmp)
    requires Lex(a, b, cmp) == Less && Lex(b, c, cmp) == Less
    ensures Lex(a, c, cmp) == Less
    decreases |a|
  {
    if |a| > 0 && |b| > 0 && |c| > 0 && cmp(a[0], b[0]) == Equal && cmp(b[0], c[0]) == Equal {
      LexTrans(a[1..], b[1..], c[1..], cmp);
    }
  }

  function CharCmp(a: char, b: char): Ordering {
    if a < b then Less else if a == b then Equal else Greater
  }

  /** Names compare by their bytes; for UTF-8 that is the order of their code points. */
  function NameCmp(a: string, b: string): Ordering {
    Lex(a, b, CharCmp)
  }

  /** The rank of each kind of component in the derived `Ord for Component`. */
  function Rank(c: Component): nat {
    match c
    case RootDir => 0
    case CurDir => 1
    case ParentDir => 2
    case Normal(_) => 3
  }

  function ComponentCmp(a: Component, b: Component): Ordering {
    if Rank(a) < Rank(b) then Less
    else if Rank(a) > Rank(b) then Greater
    else if a.Normal? && b.Normal? then NameCmp(a.name, b.name)
    else Equal
  }

  /** `Ord for Path`: component by component. */
  function PathCmp(a: Path, b: Path): Ordering {
    Lex(a, b, ComponentCmp)
  }

  lemma ComponentCmpLawful()
    ensures LawfulCmp(ComponentCmp)
  {
    assert LawfulCmp(CharCmp);
    forall a: Component, b: Component
      ensures ComponentCmp(a, b) == Equal <==> a == b
      ensures ComponentCmp(b, a) == ComponentCmp(a, b).Flip()
    {
      if a.Normal? && b.Normal? {
        LexEqual(a.name, b.name, CharCmp);
        LexFlip(a.name, b.name, CharCmp);
      }
    }
    forall a: Component, b: Component, c: Component | ComponentCmp(a, b) == Less && ComponentCmp(b, c) == Less
      ensures ComponentCmp(a, c) == Less
    {
      if a.Normal? && b.Normal? && c.Normal? {
        LexTrans(a.name, b.name, c.name, CharCmp);
      }
    }
  }

  /** `Ord for Path` is a strict total order: equal only on equal paths, antisymmetric, transitive. */
  lemma PathCmpLawful()
    ensures LawfulCmp(PathCmp)
  {
    ComponentCmpLawful();
    forall a: Path, b: Path
      ensures PathCmp(a, b) == Equal <==> a == b
      ensures PathCmp(b, a) == PathCmp(a, b).Flip()
    {
      LexEqual(a, b, ComponentCmp);
      LexFlip(a, b, ComponentCmp);
    }
    forall a: Path, b: Path, c: Path | PathCmp(a, b) == Less && PathCmp(b, c) == Less
      ensures PathCmp(a, c) == Less
    {
      LexTrans(a, b, c, ComponentCmp);
    }
  }

  /** `a <= b` for paths. */
  predicate PathLe(a: Path, b: Path) {
    PathCmp(a, b) != Greater
  }
}
