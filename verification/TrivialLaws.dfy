/**
 The verdicts of pkg/trivial.go in terms of the patch itself: what its lines are, which of them are read, and how many
 of which kind there may be.
 */
module TrivialLaws {
  import opened TrivialDiff

  /* ---------- lines ---------- */

  predicate NoNewlines(lines: seq<string>) {
    forall i :: 0 <= i < |lines| ==> '\n' !in lines[i]
  }

  /** The lines with a newline between each two. */
  function Joined(lines: seq<string>): string
    requires lines != []
  {
    if |lines| == 1 then lines[0] else lines[0] + "\n" + Joined(lines[1..])
  }

  lemma {:induction false} LinesJoin(s: string)
    ensures NoNewlines(Lines(s)) && Joined(Lines(s)) == s
  {
    if s != "" {
      var rest := Lines(s[1..]);
      LinesJoin(s[1..]);
      assert s == [s[0]] + s[1..];
      if s[0] == '\n' {
        assert ([""] + rest)[1..] == rest;
        assert "" + "\n" + s[1..] == s;
      } else {
        var first := [s[0]] + rest[0];
        assert Lines(s) == [first] + rest[1..] && Lines(s)[1..] == rest[1..];
        assert '\n' !in first;
        if |rest| > 1 {
          assert [s[0]] + (rest[0] + "\n" + Joined(rest[1..])) == first + "\n" + Joined(rest[1..]);
        }
      }
    }
  }

  lemma LinesOfFirst(line: string, rest: string)
    requires '\n' !in line
    ensures Lines(line + "\n" + rest) == [line] + Lines(rest)
    decreases line
  {
    var s := line + "\n" + rest;
    if line == "" {
      assert s == "\n" + rest && s[1..] == rest;
    } else {
      assert s[1..] == line[1..] + "\n" + rest;
      LinesOfFirst(line[1..], rest);
      assert [line[0]] + line[1..] == line;
      assert ([line[1..]] + Lines(rest))[1..] == Lines(rest);
    }
  }

  lemma {:induction false} OneLine(s: string)
    requires '\n' !in s
    ensures Lines(s) == [s]
  {
    if s != "" {
      OneLine(s[1..]);
      assert [s[0]] + s[1..] == s;
    }
  }

  lemma {:induction false} LinesOfJoined(lines: seq<string>)
    requires lines != [] && NoNewlines(lines)
    ensures Lines(Joined(lines)) == lines
  {
    if |lines| == 1 {
      OneLine(lines[0]);
    } else {
      LinesOfJoined(lines[1..]);
      LinesOfFirst(lines[0], Joined(lines[1..]));
      assert lines == [lines[0]] + lines[1..];
    }
  }

  /** The lines of a text are the one way to write it as lines without newlines, joined by newlines. */
  lemma LinesAreUnique(s: string, lines: seq<string>)
    ensures Lines(s) == lines <==> lines != [] && NoNewlines(lines) && Joined(lines) == s
  {
    LinesJoin(s);
    if lines != [] && NoNewlines(lines) && Joined(lines) == s {
      LinesOfJoined(lines);
    }
  }

  /* ---------- the lines that are read ---------- */

  /** Removed and added lines, but for those that look like file headers. */
  predicate IsRemoved(line: string) {
    line != "" && line[0] == '-' && !(|line| >= 3 && line[..3] == "---")
  }

  predicate IsAdded(line: string) {
    line != "" && line[0] == '+' && !(|line| >= 3 && line[..3] == "+++")
  }

  lemma ReadLines(line: string)
    ensures Changed(line) <==> IsRemoved(line) || IsAdded(line)
    ensures Removes(line) <==> IsRemoved(line)
  {
    assert |line| >= 2 ==> line[0] == line[..2][0];
    assert |line| >= 3 ==> line[0] == line[..3][0];
  }

  predicate AllRead(lines: seq<string>, matches: string -> bool) {
    forall i :: 0 <= i < |lines| && (IsRemoved(lines[i]) || IsAdded(lines[i])) ==> matches(lines[i])
  }

  lemma AllReadMatch(lines: seq<string>, matches: string -> bool)
    ensures AllMatch(lines, matches) <==> AllRead(lines, matches)
    ensures AppendsOnly(lines) <==> forall i :: 0 <= i < |lines| ==> !IsRemoved(lines[i])
  {
    forall i | 0 <= i < |lines|
      ensures Changed(lines[i]) <==> IsRemoved(lines[i]) || IsAdded(lines[i])
      ensures Removes(lines[i]) <==> IsRemoved(lines[i])
    {
      ReadLines(lines[i]);
    }
  }

  /* ---------- counting ---------- */

  function Tally(lines: seq<string>, p: string -> bool): nat {
    if lines == [] then 0 else Tally(lines[..|lines| - 1], p) + if p(lines[|lines| - 1]) then 1 else 0
  }

  lemma {:induction false} BagCounts<T>(lines: seq<string>, mark: string -> multiset<T>, x: T, p: string -> bool)
    requires forall i :: 0 <= i < |lines| ==> mark(lines[i])[x] == if p(lines[i]) then 1 else 0
    ensures Bag(lines, mark)[x] == Tally(lines, p)
  {
    if lines != [] {
      BagCounts(lines[..|lines| - 1], mark, x, p);
    }
  }

  lemma {:induction false} TallyIsPositive(lines: seq<string>, p: string -> bool)
    ensures Tally(lines, p) > 0 <==> exists i :: 0 <= i < |lines| && p(lines[i])
  {
    if lines != [] {
      var init := lines[..|lines| - 1];
      TallyIsPositive(init, p);
      if i :| 0 <= i < |lines| && p(lines[i]) {
        assert i == |init| || init[i] == lines[i];
      }
      if i :| 0 <= i < |init| && p(init[i]) {
        assert lines[i] == init[i];
      }
    }
  }

  /* ---------- go.sum ---------- */

  /** The hash of a go.mod file, and not of the module. */
  predicate ForGoMod(version: string) {
    |version| >= 7 && version[|version| - 7..] == "/go.mod"
  }

  function RemovedFrom(r: GoSum, path: string, goMod: bool): string -> bool {
    line => IsRemoved(line) && r.path(line[1..]) == path && ForGoMod(r.version(line[1..])) == goMod
  }

  function AddedTo(r: GoSum, path: string, goMod: bool): string -> bool {
    line => IsAdded(line) && r.path(line[1..]) == path && ForGoMod(r.version(line[1..])) == goMod
  }

  /** The two lines replace the hash of one module at one version. */
  predicate Rehashes(r: GoSum, a: string, b: string) {
    IsRemoved(a) && IsAdded(b) && r.path(a[1..]) == r.path(b[1..]) && r.version(a[1..]) == r.version(b[1..])
  }

  lemma KeysCount(r: GoSum, lines: seq<string>, path: string, goMod: bool)
    ensures var keys, key := Bag(lines, KeyMark(r)), ModuleKey(path, goMod);
            && keys[Removed(key)] == Tally(lines, RemovedFrom(r, path, goMod))
            && keys[Added(key)] == Tally(lines, AddedTo(r, path, goMod))
  {
    var key := ModuleKey(path, goMod);
    forall i | 0 <= i < |lines|
      ensures KeyMark(r)(lines[i])[Removed(key)] == if RemovedFrom(r, path, goMod)(lines[i]) then 1 else 0
      ensures KeyMark(r)(lines[i])[Added(key)] == if AddedTo(r, path, goMod)(lines[i]) then 1 else 0
    {
      ReadLines(lines[i]);
    }
    BagCounts(lines, KeyMark(r), Removed(key), RemovedFrom(r, path, goMod));
    BagCounts(lines, KeyMark(r), Added(key), AddedTo(r, path, goMod));
  }

  lemma ExactIffVersion(r: GoSum, a: string, b: string)
    requires a != "" && b != ""
    ensures ExactOf(r, a) == ExactOf(r, b)
            <==> r.path(a[1..]) == r.path(b[1..]) && r.version(a[1..]) == r.version(b[1..])
  {
    var v, w := r.version(a[1..]), r.version(b[1..]);
    if ForGoMod(v) && ForGoMod(w) {
      assert v == v[..|v| - 7] + "/go.mod" && w == w[..|w| - 7] + "/go.mod";
    }
  }

  function RemovedExactly(r: GoSum, exact: ModuleLine): string -> bool {
    line => IsRemoved(line) && ExactOf(r, line) == exact
  }

  function AddedExactly(r: GoSum, exact: ModuleLine): string -> bool {
    line => IsAdded(line) && ExactOf(r, line) == exact
  }

  lemma ExactsCount(r: GoSum, lines: seq<string>, exact: ModuleLine)
    ensures var exacts := Bag(lines, ExactMark(r));
            && exacts[Removed(exact)] == Tally(lines, RemovedExactly(r, exact))
            && exacts[Added(exact)] == Tally(lines, AddedExactly(r, exact))
  {
    forall i | 0 <= i < |lines|
      ensures ExactMark(r)(lines[i])[Removed(exact)] == if RemovedExactly(r, exact)(lines[i]) then 1 else 0
      ensures ExactMark(r)(lines[i])[Added(exact)] == if AddedExactly(r, exact)(lines[i]) then 1 else 0
    {
      ReadLines(lines[i]);
    }
    BagCounts(lines, ExactMark(r), Removed(exact), RemovedExactly(r, exact));
    BagCounts(lines, ExactMark(r), Added(exact), AddedExactly(r, exact));
  }

  predicate NoneIsRehashed(r: GoSum, lines: seq<string>) {
    forall i, j :: 0 <= i < |lines| && 0 <= j < |lines| ==> !Rehashes(r, lines[i], lines[j])
  }

  lemma RehashIff(r: GoSum, lines: seq<string>)
    ensures (exists exact :: Removed(exact) in Bag(lines, ExactMark(r)) && Added(exact) in Bag(lines, ExactMark(r)))
            <==> !NoneIsRehashed(r, lines)
  {
    if exact :| Removed(exact) in Bag(lines, ExactMark(r)) && Added(exact) in Bag(lines, ExactMark(r)) {
      ExactsCount(r, lines, exact);
      TallyIsPositive(lines, RemovedExactly(r, exact));
      TallyIsPositive(lines, AddedExactly(r, exact));
      var i :| 0 <= i < |lines| && RemovedExactly(r, exact)(lines[i]);
      var j :| 0 <= j < |lines| && AddedExactly(r, exact)(lines[j]);
      ExactIffVersion(r, lines[i], lines[j]);
      assert Rehashes(r, lines[i], lines[j]);
    }
    if i, j :| 0 <= i < |lines| && 0 <= j < |lines| && Rehashes(r, lines[i], lines[j]) {
      var exact := ExactOf(r, lines[i]);
      ExactIffVersion(r, lines[i], lines[j]);
      ExactsCount(r, lines, exact);
      TallyIsPositive(lines, RemovedExactly(r, exact));
      TallyIsPositive(lines, AddedExactly(r, exact));
      assert RemovedExactly(r, exact)(lines[i]) && AddedExactly(r, exact)(lines[j]);
    }
  }

  /** The lines of a go.sum patch pair up exactly when no module, and no go.mod of a module, loses more lines than it
      gains, and no hash is replaced at an unchanged version. */
  lemma PairedIff(r: GoSum, lines: seq<string>)
    ensures Paired(r, lines)
            <==> (forall path, goMod ::
                    Tally(lines, RemovedFrom(r, path, goMod)) <= Tally(lines, AddedTo(r, path, goMod)))
                 && NoneIsRehashed(r, lines)
  {
    var keys := Bag(lines, KeyMark(r));
    RehashIff(r, lines);
    forall path, goMod
      ensures keys[Removed(ModuleKey(path, goMod))] == Tally(lines, RemovedFrom(r, path, goMod))
      ensures keys[Added(ModuleKey(path, goMod))] == Tally(lines, AddedTo(r, path, goMod))
    {
      KeysCount(r, lines, path, goMod);
    }
    if forall path, goMod :: Tally(lines, RemovedFrom(r, path, goMod)) <= Tally(lines, AddedTo(r, path, goMod)) {
      forall key: ModuleKey
        ensures keys[Removed(key)] <= keys[Added(key)]
      {
        KeysCount(r, lines, key.path, key.goMod);
      }
    }
  }

  /* ---------- casks ---------- */

  function CaskLines(r: Cask, removed: bool, version: bool): string -> bool {
    line => (if removed then IsRemoved(line) else IsAdded(line))
            && (if version then r.isVersion(line) else !r.isVersion(line) && r.isSHA256(line))
  }

  predicate OneOfEach(r: Cask, lines: seq<string>) {
    Tally(lines, CaskLines(r, true, true)) == Tally(lines, CaskLines(r, false, true))
    == Tally(lines, CaskLines(r, true, false)) == Tally(lines, CaskLines(r, false, false)) == 1
  }

  function Stray(r: Cask, removed: bool): string -> bool {
    line => (if removed then IsRemoved(line) else IsAdded(line)) && !r.isVersion(line) && !r.isSHA256(line)
  }

  lemma KindCounts(r: Cask, lines: seq<string>, kind: CaskKind, removed: string -> bool, added: string -> bool)
    requires forall line :: removed(line) <==> IsRemoved(line) && KindOf(r, line) == kind
    requires forall line :: added(line) <==> IsAdded(line) && KindOf(r, line) == kind
    ensures Bag(lines, KindMark(r))[Removed(kind)] == Tally(lines, removed)
    ensures Bag(lines, KindMark(r))[Added(kind)] == Tally(lines, added)
  {
    forall i | 0 <= i < |lines|
      ensures KindMark(r)(lines[i])[Removed(kind)] == if removed(lines[i]) then 1 else 0
      ensures KindMark(r)(lines[i])[Added(kind)] == if added(lines[i]) then 1 else 0
    {
      ReadLines(lines[i]);
    }
    BagCounts(lines, KindMark(r), Removed(kind), removed);
    BagCounts(lines, KindMark(r), Added(kind), added);
  }

  lemma KindsCount(r: Cask, lines: seq<string>)
    ensures var bag := Bag(lines, KindMark(r));
            && bag[Removed(Version)] == Tally(lines, CaskLines(r, true, true))
            && bag[Added(Version)] == Tally(lines, CaskLines(r, false, true))
            && bag[Removed(SHA256)] == Tally(lines, CaskLines(r, true, false))
            && bag[Added(SHA256)] == Tally(lines, CaskLines(r, false, false))
            && bag[Removed(Other)] == Tally(lines, Stray(r, true)) && bag[Added(Other)] == Tally(lines, Stray(r, false))
  {
    KindCounts(r, lines, Version, CaskLines(r, true, true), CaskLines(r, false, true));
    KindCounts(r, lines, SHA256, CaskLines(r, true, false), CaskLines(r, false, false));
    KindCounts(r, lines, Other, Stray(r, true), Stray(r, false));
  }

  /** The cask verdict: one version line and one hash line on each side, and every line read is one or the other. */
  lemma OneBumpIff(r: Cask, lines: seq<string>)
    ensures Bag(lines, KindMark(r)) == ONE_BUMP
            <==> OneOfEach(r, lines) && AllRead(lines, line => r.isVersion(line) || r.isSHA256(line))
  {
    var bag := Bag(lines, KindMark(r));
    KindsCount(r, lines);
    TallyIsPositive(lines, Stray(r, true));
    TallyIsPositive(lines, Stray(r, false));
    if bag[Removed(Other)] == 0 && bag[Added(Other)] == 0 {
      TallyIsOneBump(bag, bag[Removed(Version)], bag[Added(Version)], bag[Removed(SHA256)], bag[Added(SHA256)]);
    }
    assert ONE_BUMP[Removed(Other)] == 0 && ONE_BUMP[Added(Other)] == 0;
  }

  /* ---------- files ---------- */

  predicate Under(name: string, directory: string, extension: string) {
    |name| >= |directory| && |name| >= |extension|
    && name[..|directory|] == directory && name[|name| - |extension|..] == extension
  }

  /** The files a trivial pull request may change. */
  datatype Kind = GoModFile | GoSumFile | Dockerfile | Changelog | Workflow | CaskFile

  predicate IsA(name: string, kind: Kind) {
    match kind
    case GoModFile => name == "go.mod"
    case GoSumFile => name == "go.sum"
    case Dockerfile => name == "Dockerfile"
    case Changelog => name == "CHANGELOG.md"
    case Workflow => Under(name, ".github/workflows/", ".yml")
    case CaskFile => Under(name, "Casks/", ".rb")
  }

  /** What a patch of each kind may do. */
  ghost predicate Obeys(p: Patterns, lines: seq<string>, kind: Kind) {
    match kind
    case GoModFile => AllRead(lines, p.goMod)
    case GoSumFile =>
      && AllRead(lines, p.goSum.isHashLine) && NoneIsRehashed(p.goSum, lines)
      && forall path, goMod ::
           Tally(lines, RemovedFrom(p.goSum, path, goMod)) <= Tally(lines, AddedTo(p.goSum, path, goMod))
    case Dockerfile => AllRead(lines, p.dockerfile)
    case Changelog => forall i :: 0 <= i < |lines| ==> !IsRemoved(lines[i])
    case Workflow => AllRead(lines, p.workflow)
    case CaskFile => OneOfEach(p.cask, lines) && AllRead(lines, line => p.cask.isVersion(line) || p.cask.isSHA256(line))
  }

  /** A file is mechanical exactly when it has a patch and is of one of the six kinds, and the lines of the patch obey
      the rule of that kind. */
  lemma MechanicalIff(p: Patterns, f: PRFile, lines: seq<string>)
    requires lines != [] && NoNewlines(lines) && Joined(lines) == f.patch
    ensures Mechanical(p, f) <==> f.patch != "" && exists kind :: IsA(f.filename, kind) && Obeys(p, lines, kind)
  {
    LinesAreUnique(f.patch, lines);
    AllReadMatch(lines, p.goMod);
    AllReadMatch(lines, p.goSum.isHashLine);
    AllReadMatch(lines, p.dockerfile);
    AllReadMatch(lines, p.workflow);
    PairedIff(p.goSum, lines);
    OneBumpIff(p.cask, lines);
    KindsAreNames(f.filename);
    if Mechanical(p, f) {
      var kind := KindOfName(f.filename);
      assert IsA(f.filename, kind) && Obeys(p, lines, kind);
    }
  }

  function KindOfName(name: string): Kind {
    if name == "go.mod" then GoModFile
    else if name == "go.sum" then GoSumFile
    else if name == "Dockerfile" then Dockerfile
    else if name == "CHANGELOG.md" then Changelog
    else if Under(name, ".github/workflows/", ".yml") then Workflow
    else CaskFile
  }

  /** No name is of two kinds. */
  lemma KindsAreNames(name: string)
    ensures forall kind :: IsA(name, kind) ==> kind == KindOfName(name)
    ensures Under(name, ".github/workflows/", ".yml") <==> InDirectory(name, ".github/workflows/", ".yml")
    ensures Under(name, "Casks/", ".rb") <==> InDirectory(name, "Casks/", ".rb")
  {
    if Under(name, ".github/workflows/", ".yml") {
      assert name[0] == ".github/workflows/"[0];
    }
    if Under(name, "Casks/", ".rb") {
      assert name[0] == "Casks/"[0] && name[1] == "Casks/"[1];
    }
  }
}
