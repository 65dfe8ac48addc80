/** Moves across an `archive/` boundary: the scanner's test for one, and where a document's references then look. */
module ArchiveMoves {
  import opened Common

  /** A path is the sequence of its components. */
  type Path = seq<string>

  const DOCS := "docs"
  const ARCHIVE := "archive"

  predicate Ordinary(path: Path) {
    forall i :: 0 <= i < |path| ==> path[i] != "" && path[i] != "." && path[i] != ".."
  }

  predicate InsertedAt(was: Path, moved: Path, i: nat) {
    i < |was| && i < |moved| && moved[i] == ARCHIVE && moved[..i] == was[..i] && moved[i + 1..] == was[i..]
  }

  /** The scanner's test: `moved` is `was` with exactly one `archive` inserted below `docs`. */
  predicate IsArchiveMove(was: Path, moved: Path) {
    && Ordinary(was) && Ordinary(moved)
    && |was| > 0 && was[0] == DOCS && ARCHIVE !in was && |moved| == |was| + 1
    && exists i :: 1 <= i < |was| && InsertedAt(was, moved, i)
  }

  /** The scanner's loop over the places an `archive` may stand. */
  method FindArchiveMove(was: Path, moved: Path) returns (found: bool)
    ensures found == IsArchiveMove(was, moved)
  {
    if !Ordinary(was) || !Ordinary(moved) { return false; }
    if |was| == 0 || was[0] != DOCS || ARCHIVE in was || |moved| != |was| + 1 { return false; }
    for i := 1 to |was|
      invariant forall j :: 1 <= j < i ==> !InsertedAt(was, moved, j)
    {
      if moved[i] == ARCHIVE && moved[..i] == was[..i] && moved[i + 1..] == was[i..] {
        assert InsertedAt(was, moved, i);
        return true;
      }
    }
    return false;
  }

  // ---- twins ----

  /** An `archive` removed at `i`, or inserted before the component at `i`. */
  function TwinAt(parts: Path, i: nat): Path
    requires i < |parts|
  {
    if parts[i] == ARCHIVE then parts[..i] + parts[i + 1..] else parts[..i] + [ARCHIVE] + parts[i..]
  }

  predicate IsTwin(parts: Path, twin: Path) {
    exists i :: 0 <= i < |parts| && twin == TwinAt(parts, i)
  }

  predicate BelowDocs(path: Path) {
    |path| > 0 && path[0] == DOCS
  }

  predicate IsArchiveTwin(path: Path, twin: Path) {
    BelowDocs(path) && BelowDocs(twin) && IsTwin(path[1..], twin[1..])
  }

  /** Lists exactly the twins, so nothing for a path outside `docs`. */
  method ArchiveTwins(path: Path) returns (twins: seq<Path>)
    ensures forall t :: t in twins <==> IsArchiveTwin(path, t)
    ensures BelowDocs(path) ==> |twins| == |path| - 1
  {
    twins := [];
    if !BelowDocs(path) { return; }
    var parts := path[1..];
    for i := 0 to |parts|
      invariant |twins| == i && forall j :: 0 <= j < i ==> twins[j] == [DOCS] + TwinAt(parts, j)
    {
      if parts[i] == ARCHIVE {
        twins := twins + [[DOCS] + (parts[..i] + parts[i + 1..])];
      } else {
        twins := twins + [[DOCS] + (parts[..i] + [ARCHIVE] + parts[i..])];
      }
    }
    forall t ensures t in twins <==> IsArchiveTwin(path, t) {
      if t in twins {
        var j :| 0 <= j < |twins| && twins[j] == t;
        assert t[1..] == TwinAt(parts, j);
      }
      if IsArchiveTwin(path, t) {
        var j :| 0 <= j < |parts| && t[1..] == TwinAt(parts, j);
        assert t == [DOCS] + t[1..];
        assert twins[j] == t;
      }
    }
  }

  // ---- the two definitions agree ----

  lemma InsertIsTwin(was: Path, moved: Path, i: nat)
    requires 1 <= i < |was| && ARCHIVE !in was && |moved| == |was| + 1 && BelowDocs(was)
    ensures InsertedAt(was, moved, i) <==> BelowDocs(moved) && moved[1..] == TwinAt(was[1..], i - 1)
  {
    var parts := was[1..];
    assert parts[i - 1] == was[i] && was[i] in was;
    var twin := [DOCS] + TwinAt(parts, i - 1);
    assert twin == was[..i] + [ARCHIVE] + was[i..];
    if InsertedAt(was, moved, i) {
      assert moved == moved[..i] + [moved[i]] + moved[i + 1..];
    }
    if BelowDocs(moved) && moved[1..] == TwinAt(parts, i - 1) {
      assert moved == [DOCS] + moved[1..];
      assert moved == twin;
    }
  }

  /** For ordinary paths the scanner's test holds exactly when the source is an unarchived path below `docs` and the
      destination is one of its twins. */
  lemma MoveIffTwin(was: Path, moved: Path)
    requires Ordinary(was) && Ordinary(moved)
    ensures IsArchiveMove(was, moved) <==> ARCHIVE !in was && IsArchiveTwin(was, moved)
  {
    if BelowDocs(was) && ARCHIVE !in was {
      if IsArchiveMove(was, moved) {
        var i :| 1 <= i < |was| && InsertedAt(was, moved, i);
        InsertIsTwin(was, moved, i);
      }
      if IsArchiveTwin(was, moved) {
        var j :| 0 <= j < |was[1..]| && moved[1..] == TwinAt(was[1..], j);
        assert was[1..][j] in was;
        InsertIsTwin(was, moved, j + 1);
        assert InsertedAt(was, moved, j + 1);
      }
    }
  }

  // ---- symmetry ----

  /** Something other than `archive` stands at or after `i`. */
  predicate NamedFrom(parts: Path, i: nat) {
    exists j :: i <= j < |parts| && parts[j] != ARCHIVE
  }

  lemma TwinBack(parts: Path, i: nat, j: nat)
    requires i <= j < |parts| && parts[j] != ARCHIVE && forall k :: i <= k < j ==> parts[k] == ARCHIVE
    ensures IsTwin(TwinAt(parts, i), parts)
  {
    var twin := TwinAt(parts, i);
    if i == j {
      assert twin[i] == ARCHIVE;
      assert TwinAt(twin, i) == parts;
    } else {
      assert twin[j - 1] == parts[j];
      assert TwinAt(twin, j - 1) == parts;
    }
  }

  lemma {:induction false} FirstNamed(parts: Path, i: nat, j: nat) returns (k: nat)
    requires i <= j < |parts| && parts[j] != ARCHIVE
    ensures i <= k <= j && parts[k] != ARCHIVE && forall m :: i <= m < k ==> parts[m] == ARCHIVE
    decreases j - i
  {
    if parts[i] != ARCHIVE { k := i; } else { k := FirstNamed(parts, i + 1, j); }
  }

  lemma NoWayBack(parts: Path, i: nat)
    requires i < |parts| && !NamedFrom(parts, i)
    ensures !IsTwin(TwinAt(parts, i), parts)
  {
    assert parts[i] == ARCHIVE;
    var twin := TwinAt(parts, i);
    forall k | 0 <= k < |twin| ensures parts != TwinAt(twin, k) {
      if twin[k] != ARCHIVE {
        assert forall m :: i <= m < |twin| ==> twin[m] == parts[m + 1];
        assert k < i && twin[k] == parts[k];
        assert TwinAt(twin, k)[k] == ARCHIVE;
      } else {
        assert |TwinAt(twin, k)| == |twin| - 1;
      }
    }
  }

  /** A twin's twins include the path it came from exactly when the crossing was not out of a trailing run of `archive`
      components; so always when the path does not end in `archive`. */
  lemma TwinsAreMutual(parts: Path, i: nat)
    requires i < |parts|
    ensures IsTwin(TwinAt(parts, i), parts) <==> NamedFrom(parts, i)
    ensures parts[|parts| - 1] != ARCHIVE ==> IsTwin(TwinAt(parts, i), parts)
  {
    if NamedFrom(parts, i) {
      var j :| i <= j < |parts| && parts[j] != ARCHIVE;
      var k := FirstNamed(parts, i, j);
      TwinBack(parts, i, k);
    } else {
      NoWayBack(parts, i);
    }
  }

  /** The smallest path whose twin does not lead back: the twin of `archive`
      itself is the folder above, with no twin. */
  lemma TrailingArchiveIsOneWay()
    ensures TwinAt([ARCHIVE], 0) == [] && !IsTwin([], [ARCHIVE])
  {
  }

  // ---- references ----

  predicate ResolvesWithArchive(files: set<Path>, path: Path) {
    path in files || exists t :: t in files && IsArchiveTwin(path, t)
  }

  /** Among any files: a reference still resolves after its target crossed one boundary to a twin, and a reference to
      the new place resolves after the target went back, if the crossing was not out of a trailing run; where the target
      is the only file, only then. */
  lemma ReferenceSurvives(files: set<Path>, parts: Path, i: nat)
    requires i < |parts|
    ensures [DOCS] + TwinAt(parts, i) in files ==> ResolvesWithArchive(files, [DOCS] + parts)
    ensures [DOCS] + parts in files && NamedFrom(parts, i) ==> ResolvesWithArchive(files, [DOCS] + TwinAt(parts, i))
    ensures files == {[DOCS] + parts} ==>
              (ResolvesWithArchive(files, [DOCS] + TwinAt(parts, i)) <==> NamedFrom(parts, i))
  {
    var here, there := [DOCS] + parts, [DOCS] + TwinAt(parts, i);
    assert here[1..] == parts && there[1..] == TwinAt(parts, i);
    assert IsArchiveTwin(here, there);
    TwinsAreMutual(parts, i);
    assert NamedFrom(parts, i) ==> IsArchiveTwin(there, here);
    assert |here| != |there|;
  }

  /** Following a relative link from a folder; `..` goes up, and `.` or an empty component stays. */
  function Follow(base: Path, target: Path): Path {
    if target == [] then base
    else
      var at := Follow(base, target[..|target| - 1]);
      var last := target[|target| - 1];
      if last == ".." then (if at == [] then [] else at[..|at| - 1])
      else if last == "." || last == "" then at
      else at + [last]
  }

  /** The folders a document's links are tried from: its own, and the one above when it lies in an `archive`. */
  function Bases(folder: Path): seq<Path> {
    if folder != [] && folder[|folder| - 1] == ARCHIVE then [folder, folder[..|folder| - 1]] else [folder]
  }

  predicate LinkResolves(files: set<Path>, document: Path, target: Path)
    requires document != []
  {
    exists b :: b in Bases(document[..|document| - 1]) && ResolvesWithArchive(files, Follow(b, target))
  }

  /** Archiving a document keeps its links: what resolved from its own folder resolves from the `archive` beside it,
      also when the link's target has crossed a boundary meanwhile. */
  lemma LinkSurvivesBothMoves(files: set<Path>, folder: Path, name: string, target: Path, i: nat)
    requires BelowDocs(Follow(folder, target)) && i < |Follow(folder, target)[1..]|
    requires Follow(folder, target) in files || [DOCS] + TwinAt(Follow(folder, target)[1..], i) in files
    ensures LinkResolves(files, folder + [ARCHIVE] + [name], target)
  {
    var document := folder + [ARCHIVE] + [name];
    assert document[..|document| - 1] == folder + [ARCHIVE];
    assert (folder + [ARCHIVE])[..|folder|] == folder;
    assert Bases(folder + [ARCHIVE])[1] == folder;
    var path := Follow(folder, target);
    assert path == [DOCS] + path[1..];
    ReferenceSurvives(files, path[1..], i);
  }

  // ---- staged renames ----

  const REGULAR_MODES: set<string> := {"100644", "100755"}

  /** One staged rename as Git lists it: five header fields and two paths, `None` where the bytes are no text. */
  datatype Rename = Rename(header: seq<string>, was: Option<Path>, moved: Option<Path>)

  predicate Digits(s: string, top: char) {
    s != "" && forall i :: 0 <= i < |s| ==> '0' <= s[i] <= top
  }

  predicate Hex(s: string) {
    forall i :: 0 <= i < |s| ==> '0' <= s[i] <= '9' || 'a' <= s[i] <= 'f'
  }

  predicate AllZero(s: string) {
    forall i :: 0 <= i < |s| ==> s[i] == '0'
  }

  /** Two octal modes, two hexadecimal blobs of the given length and a rename score. */
  predicate HeaderSound(h: seq<string>, idLength: nat) {
    && |h| == 5 && |h[0]| == 6 && Digits(h[0], '7') && |h[1]| == 6 && Digits(h[1], '7')
    && |h[2]| == idLength && Hex(h[2]) && |h[3]| == idLength && Hex(h[3])
    && |h[4]| > 1 && h[4][0] == 'R' && Digits(h[4][1..], '9')
  }

  predicate Identical(h: seq<string>)
    requires |h| == 5
  {
    h[4] == "R100" && h[0] == h[1] && h[1] in REGULAR_MODES && h[2] == h[3] && !AllZero(h[3])
  }

  predicate RenameSound(r: Rename, idLength: nat) {
    HeaderSound(r.header, idLength) && r.was.Some? && r.moved.Some?
  }

  predicate Exempt(r: Rename, idLength: nat) {
    RenameSound(r, idLength) && Identical(r.header) && IsArchiveMove(r.was.value, r.moved.value)
  }

  /** One malformed record exempts nothing; otherwise exactly the destinations of identical archive moves are exempt. */
  method ByteIdenticalMoves(renames: seq<Rename>, idLength: nat) returns (moves: set<Path>)
    ensures (exists r :: r in renames && !RenameSound(r, idLength)) ==> moves == {}
    ensures (forall r :: r in renames ==> RenameSound(r, idLength)) ==>
              forall p :: p in moves <==> exists r :: r in renames && Exempt(r, idLength) && r.moved.value == p
  {
    moves := {};
    for i := 0 to |renames|
      invariant forall j :: 0 <= j < i ==> RenameSound(renames[j], idLength)
      invariant forall p ::
                  p in moves <==> exists j :: 0 <= j < i && Exempt(renames[j], idLength) && renames[j].moved.value == p
    {
      var r := renames[i];
      if !RenameSound(r, idLength) { return {}; }
      var move := FindArchiveMove(r.was.value, r.moved.value);
      if Identical(r.header) && move { moves := moves + {r.moved.value}; }
    }
    forall p ensures p in moves <==> exists r :: r in renames && Exempt(r, idLength) && r.moved.value == p {
      if p in moves {
        var j :| 0 <= j < |renames| && Exempt(renames[j], idLength) && renames[j].moved.value == p;
        assert renames[j] in renames;
      }
    }
  }

  /** An exempted path stays below `docs`, in an `archive` it was not in before, with the blob it had. */
  lemma ExemptIsATwin(r: Rename, idLength: nat)
    requires Exempt(r, idLength)
    ensures BelowDocs(r.moved.value) && ARCHIVE in r.moved.value && ARCHIVE !in r.was.value
    ensures IsArchiveTwin(r.was.value, r.moved.value) && r.header[2] == r.header[3]
  {
    MoveIffTwin(r.was.value, r.moved.value);
    var i :| 1 <= i < |r.was.value| && InsertedAt(r.was.value, r.moved.value, i);
    assert r.moved.value[i] == ARCHIVE;
  }
}
