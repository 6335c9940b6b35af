/**
 pkg/trivial.go: which patches are mechanical. The regular expressions and the field splitter are arbitrary
 functions of a line; what the loops make of them is proved.
 */
module TrivialDiff {
  import PollSpec

  /* ---------- lines ---------- */

  /** `strings.Split(s, "\n")`. */
  function Lines(s: string): (lines: seq<string>)
    ensures lines != []
    ensures lines == [""] <==> s == ""
  {
    if s == "" then [""]
    else
      var rest := Lines(s[1..]);
      if s[0] == '\n' then [""] + rest else [[s[0]] + rest[0]] + rest[1..]
  }

  predicate Scaffolding(line: string) {
    PollSpec.IsPrefix("---", line) || PollSpec.IsPrefix("+++", line) || PollSpec.IsPrefix("@@", line)
  }

  /** A line the patch adds or removes. */
  predicate Changed(line: string) {
    line != "" && !Scaffolding(line) && (line[0] == '+' || line[0] == '-')
  }

  predicate Removes(line: string) {
    Changed(line) && line[0] == '-'
  }

  predicate AllMatch(lines: seq<string>, matches: string -> bool) {
    forall i :: 0 <= i < |lines| && Changed(lines[i]) ==> matches(lines[i])
  }

  /** The marks of all lines. Everything the counting verdicts see of a patch is such a bag. */
  function Bag<T(==)>(lines: seq<string>, mark: string -> multiset<T>): multiset<T> {
    if lines == [] then multiset{} else Bag(lines[..|lines| - 1], mark) + mark(lines[|lines| - 1])
  }

  lemma BagOfOneMore<T>(lines: seq<string>, line: string, mark: string -> multiset<T>)
    ensures Bag(lines + [line], mark) == Bag(lines, mark) + mark(line)
  {
    assert (lines + [line])[..|lines|] == lines;
  }

  lemma {:induction false} BagConcat<T>(a: seq<string>, b: seq<string>, mark: string -> multiset<T>)
    ensures Bag(a + b, mark) == Bag(a, mark) + Bag(b, mark)
  {
    if b == [] {
      assert a + b == a;
    } else {
      var init, last := b[..|b| - 1], b[|b| - 1];
      BagConcat(a, init, mark);
      assert a + b == a + init + [last] && b == init + [last];
      BagOfOneMore(a + init, last, mark);
      BagOfOneMore(init, last, mark);
    }
  }

  lemma BagAround<T>(front: seq<string>, line: string, back: seq<string>, mark: string -> multiset<T>)
    ensures Bag(front + [line] + back, mark) == Bag(front + back, mark) + mark(line)
  {
    BagConcat(front + [line], back, mark);
    BagOfOneMore(front, line, mark);
    BagConcat(front, back, mark);
  }

  /** The lines before and after line `i`. */
  lemma Around(b: seq<string>, i: nat) returns (front: seq<string>, back: seq<string>)
    requires i < |b|
    ensures b == front + [b[i]] + back && multiset(front + back) == multiset(b) - multiset{b[i]}
    ensures |front + back| == |b| - 1
  {
    front, back := b[..i], b[i + 1..];
    assert b == front + [b[i]] + back;
  }

  /** Reordering lines changes no bag. */
  lemma {:induction false} BagIgnoresOrder<T>(a: seq<string>, b: seq<string>, mark: string -> multiset<T>)
    requires multiset(a) == multiset(b)
    ensures Bag(a, mark) == Bag(b, mark)
  {
    if a == [] {
      assert |multiset(b)| == 0;
    } else {
      var init, last := a[..|a| - 1], a[|a| - 1];
      assert a == init + [last];
      assert last in multiset(b);
      var i :| 0 <= i < |b| && b[i] == last;
      var front, back := Around(b, i);
      assert multiset(init) == multiset(front + back);
      BagIgnoresOrder(init, front + back, mark);
      BagAround(front, last, back, mark);
    }
  }

  lemma AllMatchOneMore(lines: seq<string>, i: nat, matches: string -> bool)
    requires i < |lines| && AllMatch(lines[..i], matches)
    ensures AllMatch(lines[..i + 1], matches) <==> (Changed(lines[i]) ==> matches(lines[i]))
    ensures AllMatch(lines, matches) ==> AllMatch(lines[..i + 1], matches)
  {
    assert forall j :: 0 <= j < i ==> lines[..i + 1][j] == lines[..i][j];
  }

  lemma AllMatchIgnoresOrder(a: seq<string>, b: seq<string>, matches: string -> bool)
    requires multiset(a) == multiset(b) && AllMatch(a, matches)
    ensures AllMatch(b, matches)
  {
    forall i | 0 <= i < |b| && Changed(b[i])
      ensures matches(b[i])
    {
      assert b[i] in multiset(a);
    }
  }

  /* ---------- go.sum ---------- */

  /** How a go.sum line reads: whether it is a hash line, and the first two fields after the sign. */
  datatype GoSum = GoSum(isHashLine: string -> bool, path: string -> string, version: string -> string)

  datatype ModuleKey = ModuleKey(path: string, goMod: bool)
  datatype ModuleLine = ModuleLine(path: string, version: string, goMod: bool)

  const GO_MOD := "/go.mod"

  function TrimGoMod(version: string): string {
    if PollSpec.IsSuffix(GO_MOD, version) then version[..|version| - |GO_MOD|] else version
  }

  function KeyOf(r: GoSum, line: string): ModuleKey
    requires line != ""
  {
    ModuleKey(r.path(line[1..]), PollSpec.IsSuffix(GO_MOD, r.version(line[1..])))
  }

  function ExactOf(r: GoSum, line: string): ModuleLine
    requires line != ""
  {
    ModuleLine(r.path(line[1..]), TrimGoMod(r.version(line[1..])), PollSpec.IsSuffix(GO_MOD, r.version(line[1..])))
  }

  /** A changed line with its side. */
  datatype Side<T> = Removed(what: T) | Added(what: T)

  function SideOf<T>(line: string, what: T): Side<T>
  {
    if line != "" && line[0] == '-' then Removed(what) else Added(what)
  }

  function KeyMark(r: GoSum): string -> multiset<Side<ModuleKey>> {
    line => if Changed(line) then multiset{SideOf(line, KeyOf(r, line))} else multiset{}
  }

  function ExactMark(r: GoSum): string -> multiset<Side<ModuleLine>> {
    line => if Changed(line) then multiset{SideOf(line, ExactOf(r, line))} else multiset{}
  }

  /** No module loses a hash line, and no hash is rewritten at an unchanged version. */
  ghost predicate Paired(r: GoSum, lines: seq<string>) {
    PairedBags(Bag(lines, KeyMark(r)), Bag(lines, ExactMark(r)))
  }

  ghost predicate PairedBags(keys: multiset<Side<ModuleKey>>, exacts: multiset<Side<ModuleLine>>) {
    && (forall key :: keys[Removed(key)] <= keys[Added(key)])
    && (forall exact :: !(Removed(exact) in exacts && Added(exact) in exacts))
  }

  function Count<T(==)>(counts: map<T, nat>, key: T): nat {
    if key in counts then counts[key] else 0
  }

  /** The two count maps hold what the bag holds on each side. */
  ghost predicate Counted<T(!new)>(bag: multiset<Side<T>>, removed: map<T, nat>, added: map<T, nat>) {
    forall x :: Count(removed, x) == bag[Removed(x)] && Count(added, x) == bag[Added(x)]
  }

  /** The two sets hold what occurs in the bag on each side. */
  ghost predicate Noted<T(!new)>(bag: multiset<Side<T>>, removed: set<T>, added: set<T>) {
    forall x :: (x in removed <==> Removed(x) in bag) && (x in added <==> Added(x) in bag)
  }

  lemma CountOne<T(!new)>(bag: multiset<Side<T>>, x: T, removed: map<T, nat>, added: map<T, nat>)
    requires Counted(bag, removed, added)
    ensures Counted(bag + multiset{Removed(x)}, removed[x := Count(removed, x) + 1], added)
    ensures Counted(bag + multiset{Added(x)}, removed, added[x := Count(added, x) + 1])
  {
  }

  lemma NoteOne<T(!new)>(bag: multiset<Side<T>>, x: T, removed: set<T>, added: set<T>)
    requires Noted(bag, removed, added)
    ensures Noted(bag + multiset{Removed(x)}, removed + {x}, added)
    ensures Noted(bag + multiset{Added(x)}, removed, added + {x})
  {
  }

  /** One changed line: counts its module and notes its exact line on its side. */
  method Note(r: GoSum, line: string, ghost keys: multiset<Side<ModuleKey>>, ghost exacts: multiset<Side<ModuleLine>>,
              removed: map<ModuleKey, nat>, added: map<ModuleKey, nat>,
              removedExact: set<ModuleLine>, addedExact: set<ModuleLine>)
    returns (removed': map<ModuleKey, nat>, added': map<ModuleKey, nat>,
             removedExact': set<ModuleLine>, addedExact': set<ModuleLine>)
    requires Changed(line) && Counted(keys, removed, added) && Noted(exacts, removedExact, addedExact)
    ensures Counted(keys + KeyMark(r)(line), removed', added')
    ensures Noted(exacts + ExactMark(r)(line), removedExact', addedExact')
  {
    var key, exact := KeyOf(r, line), ExactOf(r, line);
    removed', added', removedExact', addedExact' := removed, added, removedExact, addedExact;
    CountOne(keys, key, removed, added);
    NoteOne(exacts, exact, removedExact, addedExact);
    if line[0] == '-' {
      removed' := removed[key := Count(removed, key) + 1];
      removedExact' := removedExact + {exact};
    } else {
      added' := added[key := Count(added, key) + 1];
      addedExact' := addedExact + {exact};
    }
  }

  /** A go.sum patch is mechanical exactly when it is not empty, every changed line is a hash line, and the
      lines are paired. */
  method GoSumMechanical(r: GoSum, patch: string) returns (ok: bool)
    ensures ok <==> patch != "" && AllMatch(Lines(patch), r.isHashLine) && Paired(r, Lines(patch))
  {
    if patch == "" {
      return false;
    }
    var lines := Lines(patch);
    var removed: map<ModuleKey, nat>, added: map<ModuleKey, nat> := map[], map[];
    var removedExact: set<ModuleLine>, addedExact: set<ModuleLine> := {}, {};
    var i := 0;
    while i < |lines|
      invariant 0 <= i <= |lines| && AllMatch(lines[..i], r.isHashLine)
      invariant Counted(Bag(lines[..i], KeyMark(r)), removed, added)
      invariant Noted(Bag(lines[..i], ExactMark(r)), removedExact, addedExact)
    {
      var line := lines[i];
      ghost var keys, exacts := Bag(lines[..i], KeyMark(r)), Bag(lines[..i], ExactMark(r));
      GoSumLine(r, lines, i);
      i := i + 1;
      if !Changed(line) {
        continue;
      }
      if !r.isHashLine(line) {
        return false;
      }
      removed, added, removedExact, addedExact :=
        Note(r, line, keys, exacts, removed, added, removedExact, addedExact);
    }
    assert lines[..i] == lines;
    ok := Balanced(removed, added, removedExact, addedExact);
    BalancedIsPaired(Bag(lines, KeyMark(r)), Bag(lines, ExactMark(r)), removed, added, removedExact, addedExact);
  }

  lemma GoSumLine(r: GoSum, lines: seq<string>, i: nat)
    requires i < |lines| && AllMatch(lines[..i], r.isHashLine)
    ensures AllMatch(lines[..i + 1], r.isHashLine) <==> (Changed(lines[i]) ==> r.isHashLine(lines[i]))
    ensures AllMatch(lines, r.isHashLine) ==> AllMatch(lines[..i + 1], r.isHashLine)
    ensures Bag(lines[..i + 1], KeyMark(r)) == Bag(lines[..i], KeyMark(r)) + KeyMark(r)(lines[i])
    ensures Bag(lines[..i + 1], ExactMark(r)) == Bag(lines[..i], ExactMark(r)) + ExactMark(r)(lines[i])
    ensures !Changed(lines[i]) ==> KeyMark(r)(lines[i]) == multiset{} && ExactMark(r)(lines[i]) == multiset{}
  {
    assert lines[..i + 1] == lines[..i] + [lines[i]];
    AllMatchOneMore(lines, i, r.isHashLine);
    BagOfOneMore(lines[..i], lines[i], KeyMark(r));
    BagOfOneMore(lines[..i], lines[i], ExactMark(r));
  }

  lemma BalancedIsPaired(keys: multiset<Side<ModuleKey>>, exacts: multiset<Side<ModuleLine>>,
                         removed: map<ModuleKey, nat>, added: map<ModuleKey, nat>,
                         removedExact: set<ModuleLine>, addedExact: set<ModuleLine>)
    requires Counted(keys, removed, added) && Noted(exacts, removedExact, addedExact)
    ensures PairedBags(keys, exacts)
            <==> removedExact !! addedExact && forall key :: Count(removed, key) <= Count(added, key)
  {
    assert forall key :: Count(removed, key) <= Count(added, key) <==> keys[Removed(key)] <= keys[Added(key)];
    assert forall exact :: (exact in removedExact && exact in addedExact)
                           <==> (Removed(exact) in exacts && Added(exact) in exacts);
  }

  /** The two closing loops over the collected maps. */
  method Balanced(removed: map<ModuleKey, nat>, added: map<ModuleKey, nat>,
                  removedExact: set<ModuleLine>, addedExact: set<ModuleLine>) returns (ok: bool)
    ensures ok <==> removedExact !! addedExact && forall key :: Count(removed, key) <= Count(added, key)
  {
    var exacts := removedExact;
    while exacts != {}
      invariant exacts <= removedExact && (removedExact - exacts) !! addedExact
      decreases |exacts|
    {
      var exact :| exact in exacts;
      if exact in addedExact {
        return false;
      }
      exacts := exacts - {exact};
    }
    var keys := removed.Keys;
    while keys != {}
      invariant keys <= removed.Keys
      invariant forall key :: key !in keys ==> Count(removed, key) <= Count(added, key)
      decreases |keys|
    {
      var key :| key in keys;
      if Count(added, key) < removed[key] {
        return false;
      }
      keys := keys - {key};
    }
    return true;
  }

  /** The go.sum verdict does not depend on the order of the lines. */
  lemma {:induction false} GoSumIgnoresOrder(r: GoSum, p: string, q: string)
    requires multiset(Lines(p)) == multiset(Lines(q))
    ensures p == "" <==> q == ""
    ensures AllMatch(Lines(p), r.isHashLine) <==> AllMatch(Lines(q), r.isHashLine)
    ensures Paired(r, Lines(p)) <==> Paired(r, Lines(q))
  {
    SingleLine(Lines(p), Lines(q));
    SingleLine(Lines(q), Lines(p));
    if AllMatch(Lines(p), r.isHashLine) { AllMatchIgnoresOrder(Lines(p), Lines(q), r.isHashLine); }
    if AllMatch(Lines(q), r.isHashLine) { AllMatchIgnoresOrder(Lines(q), Lines(p), r.isHashLine); }
    BagIgnoresOrder(Lines(p), Lines(q), KeyMark(r));
    BagIgnoresOrder(Lines(p), Lines(q), ExactMark(r));
  }

  lemma SingleLine(a: seq<string>, b: seq<string>)
    requires multiset(a) == multiset(b)
    ensures a == [""] ==> b == [""]
  {
    if a == [""] {
      assert |b| == |multiset(b)| == 1;
      assert b[0] in multiset(a);
    }
  }

  /* ---------- casks ---------- */

  /** The two kinds of cask lines, tried in this order. */
  datatype Cask = Cask(isVersion: string -> bool, isSHA256: string -> bool)

  datatype CaskKind = Version | SHA256 | Other

  function KindOf(r: Cask, line: string): CaskKind {
    if r.isVersion(line) then Version else if r.isSHA256(line) then SHA256 else Other
  }

  function KindMark(r: Cask): string -> multiset<Side<CaskKind>> {
    line => if Changed(line) then multiset{SideOf(line, KindOf(r, line))} else multiset{}
  }

  const ONE_BUMP := multiset{Removed(Version), Added(Version), Removed(SHA256), Added(SHA256)}

  /** A cask patch is mechanical exactly when its changed lines are one version and one hash on each side. */
  method CaskMechanical(r: Cask, patch: string) returns (ok: bool)
    ensures ok <==> patch != "" && Bag(Lines(patch), KindMark(r)) == ONE_BUMP
  {
    if patch == "" {
      return false;
    }
    var lines := Lines(patch);
    var removedVersion, addedVersion, removedSHA256, addedSHA256 := 0, 0, 0, 0;
    var i := 0;
    while i < |lines|
      invariant 0 <= i <= |lines|
      invariant Tally(Bag(lines[..i], KindMark(r)), removedVersion, addedVersion, removedSHA256, addedSHA256)
    {
      var line := lines[i];
      CaskLine(r, lines, i, removedVersion, addedVersion, removedSHA256, addedSHA256);
      i := i + 1;
      if !Changed(line) {
        continue;
      }
      if r.isVersion(line) {
        if line[0] == '-' { removedVersion := removedVersion + 1; } else { addedVersion := addedVersion + 1; }
      } else if r.isSHA256(line) {
        if line[0] == '-' { removedSHA256 := removedSHA256 + 1; } else { addedSHA256 := addedSHA256 + 1; }
      } else {
        OtherLineSpoils(r, lines, i - 1);
        return false;
      }
    }
    assert lines[..i] == lines;
    CaskVerdict(r, lines, removedVersion, addedVersion, removedSHA256, addedSHA256);
    ok := removedVersion == 1 && addedVersion == 1 && removedSHA256 == 1 && addedSHA256 == 1;
  }

  lemma CaskVerdict(r: Cask, lines: seq<string>, removedVersion: nat, addedVersion: nat, removedSHA256: nat,
                    addedSHA256: nat)
    requires Tally(Bag(lines, KindMark(r)), removedVersion, addedVersion, removedSHA256, addedSHA256)
    ensures Bag(lines, KindMark(r)) == ONE_BUMP <==> removedVersion == addedVersion == removedSHA256 == addedSHA256 == 1
  {
    TallyIsOneBump(Bag(lines, KindMark(r)), removedVersion, addedVersion, removedSHA256, addedSHA256);
  }

  function One(b: bool): nat {
    if b then 1 else 0
  }

  lemma TallyOne(bag: multiset<Side<CaskKind>>, side: Side<CaskKind>,
                 removedVersion: nat, addedVersion: nat, removedSHA256: nat, addedSHA256: nat)
    requires Tally(bag, removedVersion, addedVersion, removedSHA256, addedSHA256) && !side.what.Other?
    ensures Tally(bag + multiset{side},
                  removedVersion + One(side == Removed(Version)), addedVersion + One(side == Added(Version)),
                  removedSHA256 + One(side == Removed(SHA256)), addedSHA256 + One(side == Added(SHA256)))
  {
  }

  /** What one line does to the four counters. */
  lemma CaskLine(r: Cask, lines: seq<string>, i: nat,
                 removedVersion: nat, addedVersion: nat, removedSHA256: nat, addedSHA256: nat)
    requires i < |lines|
    requires Tally(Bag(lines[..i], KindMark(r)), removedVersion, addedVersion, removedSHA256, addedSHA256)
    ensures var bag, line := Bag(lines[..i + 1], KindMark(r)), lines[i];
            if !Changed(line) then Tally(bag, removedVersion, addedVersion, removedSHA256, addedSHA256)
            else var removes, kind := line[0] == '-', KindOf(r, line);
                 !kind.Other? ==>
                   Tally(bag,
                         removedVersion + One(removes && kind.Version?), addedVersion + One(!removes && kind.Version?),
                         removedSHA256 + One(removes && kind.SHA256?), addedSHA256 + One(!removes && kind.SHA256?))
  {
    assert lines[..i + 1] == lines[..i] + [lines[i]];
    BagOfOneMore(lines[..i], lines[i], KindMark(r));
    if Changed(lines[i]) && !KindOf(r, lines[i]).Other? {
      TallyOne(Bag(lines[..i], KindMark(r)), SideOf(lines[i], KindOf(r, lines[i])),
               removedVersion, addedVersion, removedSHA256, addedSHA256);
    }
  }

  lemma OtherLineSpoils(r: Cask, lines: seq<string>, i: nat)
    requires i < |lines| && Changed(lines[i]) && KindOf(r, lines[i]).Other?
    ensures Bag(lines, KindMark(r)) != ONE_BUMP
  {
    var spoiler := SideOf(lines[i], Other);
    var front, back := Around(lines, i);
    BagAround(front, lines[i], back, KindMark(r));
    assert KindMark(r)(lines[i]) == multiset{spoiler};
    assert spoiler in Bag(lines, KindMark(r)) && spoiler !in ONE_BUMP;
  }

  lemma {:induction false} CaskIgnoresOrder(r: Cask, p: string, q: string)
    requires multiset(Lines(p)) == multiset(Lines(q))
    ensures Bag(Lines(p), KindMark(r)) == ONE_BUMP <==> Bag(Lines(q), KindMark(r)) == ONE_BUMP
  {
    BagIgnoresOrder(Lines(p), Lines(q), KindMark(r));
  }

  predicate Tally(bag: multiset<Side<CaskKind>>, removedVersion: nat, addedVersion: nat, removedSHA256: nat,
                  addedSHA256: nat) {
    && bag[Removed(Version)] == removedVersion && bag[Added(Version)] == addedVersion
    && bag[Removed(SHA256)] == removedSHA256 && bag[Added(SHA256)] == addedSHA256
    && bag[Removed(Other)] == 0 && bag[Added(Other)] == 0
  }

  lemma TallyIsOneBump(bag: multiset<Side<CaskKind>>, removedVersion: nat, addedVersion: nat, removedSHA256: nat,
                       addedSHA256: nat)
    requires Tally(bag, removedVersion, addedVersion, removedSHA256, addedSHA256)
    ensures bag == ONE_BUMP <==> removedVersion == addedVersion == removedSHA256 == addedSHA256 == 1
  {
    if removedVersion == addedVersion == removedSHA256 == addedSHA256 == 1 {
      forall x: Side<CaskKind>
        ensures bag[x] == ONE_BUMP[x]
      {
        match x {
          case Removed(kind) => match kind { case Version => case SHA256 => case Other => }
          case Added(kind) => match kind { case Version => case SHA256 => case Other => }
        }
      }
    }
  }

  /* ---------- patterns and changelogs ---------- */

  method PatchAll(patch: string, matches: string -> bool) returns (ok: bool)
    ensures ok <==> patch != "" && AllMatch(Lines(patch), matches)
  {
    if patch == "" {
      return false;
    }
    var lines := Lines(patch);
    for i := 0 to |lines|
      invariant forall j :: 0 <= j < i && Changed(lines[j]) ==> matches(lines[j])
    {
      var line := lines[i];
      if Scaffolding(line) {
        continue;
      }
      if line != "" && (line[0] == '+' || line[0] == '-') {
        if !matches(line) {
          return false;
        }
      }
    }
    return true;
  }

  predicate AppendsOnly(lines: seq<string>) {
    forall i :: 0 <= i < |lines| ==> !Removes(lines[i])
  }

  method AppendOnly(patch: string) returns (ok: bool)
    ensures ok <==> patch != "" && AppendsOnly(Lines(patch))
  {
    if patch == "" {
      return false;
    }
    var lines := Lines(patch);
    for i := 0 to |lines|
      invariant forall j :: 0 <= j < i ==> !Removes(lines[j])
    {
      var line := lines[i];
      if Scaffolding(line) {
        continue;
      }
      if line != "" && line[0] == '-' {
        return false;
      }
    }
    return true;
  }

  /* ---------- whole pull requests ---------- */

  datatype PRFile = PRFile(filename: string, patch: string)

  /** The patterns of pkg/trivial.go, as functions. */
  datatype Patterns = Patterns(goMod: string -> bool, goSum: GoSum, dockerfile: string -> bool,
                               workflow: string -> bool, cask: Cask)

  predicate InDirectory(filename: string, directory: string, extension: string) {
    PollSpec.IsPrefix(directory, filename) && PollSpec.IsSuffix(extension, filename)
  }

  ghost predicate Mechanical(p: Patterns, f: PRFile) {
    var lines := Lines(f.patch);
    f.patch != "" &&
    if f.filename == "go.mod" then AllMatch(lines, p.goMod)
    else if f.filename == "go.sum" then AllMatch(lines, p.goSum.isHashLine) && Paired(p.goSum, lines)
    else if f.filename == "Dockerfile" then AllMatch(lines, p.dockerfile)
    else if f.filename == "CHANGELOG.md" then AppendsOnly(lines)
    else if InDirectory(f.filename, ".github/workflows/", ".yml") then AllMatch(lines, p.workflow)
    else if InDirectory(f.filename, "Casks/", ".rb") then Bag(lines, KindMark(p.cask)) == ONE_BUMP
    else false
  }

  method IsMechanicalFile(p: Patterns, f: PRFile) returns (ok: bool)
    ensures ok <==> Mechanical(p, f)
  {
    if f.filename == "go.mod" {
      ok := PatchAll(f.patch, p.goMod);
    } else if f.filename == "go.sum" {
      ok := GoSumMechanical(p.goSum, f.patch);
    } else if f.filename == "Dockerfile" {
      ok := PatchAll(f.patch, p.dockerfile);
    } else if f.filename == "CHANGELOG.md" {
      ok := AppendOnly(f.patch);
    } else if InDirectory(f.filename, ".github/workflows/", ".yml") {
      ok := PatchAll(f.patch, p.workflow);
    } else if InDirectory(f.filename, "Casks/", ".rb") {
      ok := CaskMechanical(p.cask, f.patch);
    } else {
      ok := false;
    }
  }

  /** A pull request is trivial exactly when it changes something and every changed file is mechanical. */
  method ClassifyTrivial(p: Patterns, files: seq<PRFile>) returns (trivial: bool)
    ensures trivial <==> files != [] && forall i :: 0 <= i < |files| ==> Mechanical(p, files[i])
  {
    if files == [] {
      return false;
    }
    for i := 0 to |files|
      invariant forall j :: 0 <= j < i ==> Mechanical(p, files[j])
    {
      var ok := IsMechanicalFile(p, files[i]);
      if !ok {
        return false;
      }
    }
    return true;
  }
}
