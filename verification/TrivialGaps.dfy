/**
 What the verdicts of pkg/trivial.go leave unread. The patch of one file has no file headers, so a line that
 begins with a plus or a minus changes the file, whatever follows; the loops skip those that look like headers.
 */
module TrivialGaps {
  import PollSpec
  import opened TrivialDiff
  import TrivialLaws

  /** The line changes the file. */
  predicate Signed(line: string) {
    line != "" && (line[0] == '+' || line[0] == '-')
  }

  /** The line changes the file and is skipped as a file header. */
  predicate HeaderLike(line: string) {
    PollSpec.IsPrefix("---", line) || PollSpec.IsPrefix("+++", line)
  }

  lemma SignedLines(line: string)
    ensures Signed(line) <==> Changed(line) || HeaderLike(line)
    ensures !(Changed(line) && HeaderLike(line))
  {
    if PollSpec.IsPrefix("@@", line) {
      assert line[0] == line[..2][0];
    }
    if PollSpec.IsPrefix("---", line) || PollSpec.IsPrefix("+++", line) {
      assert line[0] == line[..3][0];
    }
  }

  predicate NoHeaderLike(lines: seq<string>) {
    forall i :: 0 <= i < |lines| ==> !HeaderLike(lines[i])
  }

  /* ---------- one pattern for all lines ---------- */

  predicate EveryChangeMatches(lines: seq<string>, matches: string -> bool) {
    forall i :: 0 <= i < |lines| && Signed(lines[i]) ==> matches(lines[i])
  }

  predicate HeadersMatch(lines: seq<string>, matches: string -> bool) {
    forall i :: 0 <= i < |lines| && HeaderLike(lines[i]) ==> matches(lines[i])
  }

  /** A changed line that does not look like a header fails the pattern. */
  predicate SomeLineFails(lines: seq<string>, matches: string -> bool) {
    exists i :: 0 <= i < |lines| && Signed(lines[i]) && !HeaderLike(lines[i]) && !matches(lines[i])
  }

  /** The per-line verdict agrees with "every line beginning with + or - matches" exactly when the lines that
      look like headers match too, or some other changed line fails anyway. */
  lemma EveryLineIsValidatedIff(lines: seq<string>, matches: string -> bool)
    ensures (AllMatch(lines, matches) <==> EveryChangeMatches(lines, matches))
            <==> (HeadersMatch(lines, matches) || SomeLineFails(lines, matches))
    ensures EveryChangeMatches(lines, matches) <==> AllMatch(lines, matches) && HeadersMatch(lines, matches)
  {
    forall i | 0 <= i < |lines|
      ensures Signed(lines[i]) <==> Changed(lines[i]) || HeaderLike(lines[i])
      ensures !(Changed(lines[i]) && HeaderLike(lines[i]))
    {
      SignedLines(lines[i]);
    }
    if AllMatch(lines, matches) && HeadersMatch(lines, matches) {
      assert EveryChangeMatches(lines, matches);
    }
    if !AllMatch(lines, matches) {
      var i :| 0 <= i < |lines| && Changed(lines[i]) && !matches(lines[i]);
      assert Signed(lines[i]) && !HeaderLike(lines[i]);
    }
  }

  /** The concrete miss: whatever the pattern, an added line that begins with two plus signs is never tried. */
  lemma PatchAllMissesAHeaderLikeLine(matches: string -> bool)
    ensures var lines := Lines("+++x");
            AllMatch(lines, matches) && (EveryChangeMatches(lines, matches) <==> matches("+++x"))
  {
    TrivialLaws.OneLine("+++x");
    assert "+++x"[..3] == "+++";
  }

  /* ---------- changelogs ---------- */

  predicate RemovesNothing(lines: seq<string>) {
    forall i :: 0 <= i < |lines| ==> lines[i] == "" || lines[i][0] != '-'
  }

  predicate Dashes(line: string) {
    PollSpec.IsPrefix("---", line)
  }

  /** The append-only check agrees with "removes no line" exactly when no line begins with three dashes, or some
      line begins with one or two. */
  lemma AppendOnlyIsExactIff(lines: seq<string>)
    ensures (AppendsOnly(lines) <==> RemovesNothing(lines))
            <==> ((forall i :: 0 <= i < |lines| ==> !Dashes(lines[i]))
                  || (exists i :: 0 <= i < |lines| && lines[i] != "" && lines[i][0] == '-' && !Dashes(lines[i])))
  {
    forall i | 0 <= i < |lines|
      ensures Removes(lines[i]) <==> lines[i] != "" && lines[i][0] == '-' && !Dashes(lines[i])
      ensures Dashes(lines[i]) ==> lines[i] != "" && lines[i][0] == '-'
    {
      SignedLines(lines[i]);
      if Dashes(lines[i]) {
        assert lines[i][0] == lines[i][..3][0];
      }
      if PollSpec.IsPrefix("+++", lines[i]) {
        assert lines[i][0] == lines[i][..3][0];
      }
    }
  }

  /** The concrete miss: removing the changelog line `-- note` passes as append-only. */
  lemma AppendOnlyMissesADashedLine()
    ensures var lines := Lines("--- note"); AppendsOnly(lines) && !RemovesNothing(lines)
  {
    TrivialLaws.OneLine("--- note");
    assert "--- note"[..3] == "---";
  }

  /* ---------- the counting verdicts ---------- */

  lemma {:induction false} BagsAgree<T>(lines: seq<string>, m: string -> multiset<T>, n: string -> multiset<T>)
    requires forall i :: 0 <= i < |lines| ==> m(lines[i]) == n(lines[i])
    ensures Bag(lines, m) == Bag(lines, n)
  {
    if lines != [] {
      BagsAgree(lines[..|lines| - 1], m, n);
    }
  }

  lemma {:induction false} BagGrows<T>(lines: seq<string>, m: string -> multiset<T>, n: string -> multiset<T>)
    requires forall i :: 0 <= i < |lines| ==> m(lines[i]) <= n(lines[i])
    ensures Bag(lines, m) <= Bag(lines, n) && |Bag(lines, m)| <= |Bag(lines, n)|
    ensures (exists i :: 0 <= i < |lines| && |m(lines[i])| < |n(lines[i])|) ==> |Bag(lines, m)| < |Bag(lines, n)|
  {
    if lines != [] {
      var k := |lines| - 1;
      BagGrows(lines[..k], m, n);
      SizeGrows(m(lines[k]), n(lines[k]));
      assert forall i :: 0 <= i < k ==> lines[..k][i] == lines[i];
    }
  }

  lemma SizeGrows<T>(a: multiset<T>, b: multiset<T>)
    requires a <= b
    ensures |a| <= |b|
  {
    assert b == a + (b - a);
  }

  function EveryKey(r: GoSum): string -> multiset<Side<ModuleKey>> {
    line => if Signed(line) then multiset{SideOf(line, KeyOf(r, line))} else multiset{}
  }

  function EveryExact(r: GoSum): string -> multiset<Side<ModuleLine>> {
    line => if Signed(line) then multiset{SideOf(line, ExactOf(r, line))} else multiset{}
  }

  ghost predicate GoSumAccepts(r: GoSum, lines: seq<string>) {
    AllMatch(lines, r.isHashLine) && Paired(r, lines)
  }

  /** The go.sum rule applied to every line that changes the file. */
  ghost predicate GoSumHolds(r: GoSum, lines: seq<string>) {
    EveryChangeMatches(lines, r.isHashLine) && PairedBags(Bag(lines, EveryKey(r)), Bag(lines, EveryExact(r)))
  }

  /** The modules of the lines that look like headers. */
  function HeaderKey(r: GoSum): string -> multiset<Side<ModuleKey>> {
    line => if HeaderLike(line) then multiset{SideOf(line, KeyOf(r, line))} else multiset{}
  }

  /** Both lines change the file, on opposite sides, with the same exact module line. */
  predicate Rewrites(r: GoSum, a: string, b: string) {
    Signed(a) && Signed(b) && (a[0] == '-') != (b[0] == '-') && ExactOf(r, a) == ExactOf(r, b)
  }

  ghost predicate HeadersRewriteNothing(r: GoSum, lines: seq<string>) {
    forall i, j :: 0 <= i < |lines| && 0 <= j < |lines| && HeaderLike(lines[i]) ==> !Rewrites(r, lines[i], lines[j])
  }

  /** How many more lines a module gains than it loses. */
  function Surplus(keys: multiset<Side<ModuleKey>>, key: ModuleKey): int {
    keys[Added(key)] as int - keys[Removed(key)] as int
  }

  /** What a module loses in lines that look like headers is covered by its surplus in the lines read. */
  ghost predicate HeadersArePaid(r: GoSum, lines: seq<string>) {
    forall key :: -Surplus(Bag(lines, HeaderKey(r)), key) <= Surplus(Bag(lines, KeyMark(r)), key)
  }

  lemma {:induction false} BagSplits<T>(lines: seq<string>, whole: string -> multiset<T>, a: string -> multiset<T>,
                                        b: string -> multiset<T>)
    requires forall i :: 0 <= i < |lines| ==> whole(lines[i]) == a(lines[i]) + b(lines[i])
    ensures Bag(lines, whole) == Bag(lines, a) + Bag(lines, b)
  {
    if lines != [] {
      BagSplits(lines[..|lines| - 1], whole, a, b);
    }
  }

  lemma {:induction false} InBag<T>(lines: seq<string>, mark: string -> multiset<T>, x: T)
    ensures x in Bag(lines, mark) <==> exists i :: 0 <= i < |lines| && x in mark(lines[i])
  {
    if lines != [] {
      var init, last := lines[..|lines| - 1], lines[|lines| - 1];
      InBag(init, mark, x);
      if i :| 0 <= i < |lines| && x in mark(lines[i]) {
        assert i == |init| || init[i] == lines[i];
      }
    }
  }

  ghost predicate LosesNothing(keys: multiset<Side<ModuleKey>>) {
    forall key :: keys[Removed(key)] <= keys[Added(key)]
  }

  lemma SurplusAdds(a: multiset<Side<ModuleKey>>, b: multiset<Side<ModuleKey>>, key: ModuleKey)
    ensures Surplus(a + b, key) == Surplus(a, key) + Surplus(b, key)
  {
  }

  lemma ModulesIff(r: GoSum, lines: seq<string>)
    ensures LosesNothing(Bag(lines, EveryKey(r))) <==> HeadersArePaid(r, lines)
  {
    forall i | 0 <= i < |lines|
      ensures EveryKey(r)(lines[i]) == KeyMark(r)(lines[i]) + HeaderKey(r)(lines[i])
    {
      SignedLines(lines[i]);
    }
    BagSplits(lines, EveryKey(r), KeyMark(r), HeaderKey(r));
    var read, headers, every := Bag(lines, KeyMark(r)), Bag(lines, HeaderKey(r)), Bag(lines, EveryKey(r));
    forall key
      ensures every[Removed(key)] <= every[Added(key)] <==> -Surplus(headers, key) <= Surplus(read, key)
    {
      SurplusAdds(read, headers, key);
    }
  }

  /** Lines on opposite sides with one exact module line are what the rule forbids. */
  lemma RewriteIsSeen(r: GoSum, lines: seq<string>, i: nat, j: nat)
    requires i < |lines| && j < |lines| && Rewrites(r, lines[i], lines[j])
    ensures exists exact :: Removed(exact) in Bag(lines, EveryExact(r)) && Added(exact) in Bag(lines, EveryExact(r))
  {
    var exact := ExactOf(r, lines[i]);
    InBag(lines, EveryExact(r), Removed(exact));
    InBag(lines, EveryExact(r), Added(exact));
    assert SideOf(lines[i], exact) in EveryExact(r)(lines[i]) && SideOf(lines[j], exact) in EveryExact(r)(lines[j]);
  }

  /** A forbidden pair that involves no header-like line is seen by the verdict. */
  lemma ReadRewriteIsSeen(r: GoSum, lines: seq<string>, exact: ModuleLine)
    requires HeadersRewriteNothing(r, lines)
    requires Removed(exact) in Bag(lines, EveryExact(r)) && Added(exact) in Bag(lines, EveryExact(r))
    ensures Removed(exact) in Bag(lines, ExactMark(r)) && Added(exact) in Bag(lines, ExactMark(r))
  {
    InBag(lines, EveryExact(r), Removed(exact));
    InBag(lines, EveryExact(r), Added(exact));
    var i :| 0 <= i < |lines| && Removed(exact) in EveryExact(r)(lines[i]);
    var j :| 0 <= j < |lines| && Added(exact) in EveryExact(r)(lines[j]);
    SignedLines(lines[i]);
    SignedLines(lines[j]);
    assert Rewrites(r, lines[i], lines[j]) && Rewrites(r, lines[j], lines[i]);
    assert Removed(exact) in ExactMark(r)(lines[i]) && Added(exact) in ExactMark(r)(lines[j]);
    InBag(lines, ExactMark(r), Removed(exact));
    InBag(lines, ExactMark(r), Added(exact));
  }

  /** Without header-like lines the verdict is the rule. A patch it accepts obeys the rule exactly when its
      header-like lines are hash lines, no module loses more of them than its surplus of additions, and none of
      them has its exact line on the other side. */
  lemma GoSumIsExactIff(r: GoSum, lines: seq<string>)
    ensures NoHeaderLike(lines) ==> (GoSumAccepts(r, lines) <==> GoSumHolds(r, lines))
    ensures GoSumAccepts(r, lines) ==>
              (GoSumHolds(r, lines)
               <==> HeadersMatch(lines, r.isHashLine) && HeadersArePaid(r, lines) && HeadersRewriteNothing(r, lines))
  {
    EveryLineIsValidatedIff(lines, r.isHashLine);
    if NoHeaderLike(lines) {
      WithoutHeaders(r, lines);
    }
    if GoSumAccepts(r, lines) {
      ModulesIff(r, lines);
      ExactLinesIff(r, lines);
      assert PairedBags(Bag(lines, EveryKey(r)), Bag(lines, EveryExact(r)))
          <==> LosesNothing(Bag(lines, EveryKey(r))) && RewritesNothing(Bag(lines, EveryExact(r)));
    }
  }

  lemma WithoutHeaders(r: GoSum, lines: seq<string>)
    requires NoHeaderLike(lines)
    ensures Bag(lines, KeyMark(r)) == Bag(lines, EveryKey(r)) && Bag(lines, ExactMark(r)) == Bag(lines, EveryExact(r))
  {
    forall i | 0 <= i < |lines|
      ensures EveryKey(r)(lines[i]) == KeyMark(r)(lines[i]) && EveryExact(r)(lines[i]) == ExactMark(r)(lines[i])
    {
      SignedLines(lines[i]);
    }
    BagsAgree(lines, KeyMark(r), EveryKey(r));
    BagsAgree(lines, ExactMark(r), EveryExact(r));
  }

  ghost predicate RewritesNothing(exacts: multiset<Side<ModuleLine>>) {
    forall exact :: !(Removed(exact) in exacts && Added(exact) in exacts)
  }

  lemma ExactLinesIff(r: GoSum, lines: seq<string>)
    requires RewritesNothing(Bag(lines, ExactMark(r)))
    ensures RewritesNothing(Bag(lines, EveryExact(r))) <==> HeadersRewriteNothing(r, lines)
  {
    if HeadersRewriteNothing(r, lines) {
      forall exact | Removed(exact) in Bag(lines, EveryExact(r)) && Added(exact) in Bag(lines, EveryExact(r))
        ensures false
      {
        ReadRewriteIsSeen(r, lines, exact);
      }
    } else {
      var i, j :| 0 <= i < |lines| && 0 <= j < |lines| && HeaderLike(lines[i]) && Rewrites(r, lines[i], lines[j]);
      RewriteIsSeen(r, lines, i, j);
    }
  }

  function EveryKind(r: Cask): string -> multiset<Side<CaskKind>> {
    line => if Signed(line) then multiset{SideOf(line, KindOf(r, line))} else multiset{}
  }

  /** A patch the cask verdict accepts obeys the rule over every changed line exactly when no line looks like a
      header; without such lines the verdict is the rule. */
  lemma CaskIsExactIff(r: Cask, lines: seq<string>)
    ensures var seen, every := Bag(lines, KindMark(r)), Bag(lines, EveryKind(r));
            && (NoHeaderLike(lines) ==> seen == every)
            && (seen == ONE_BUMP ==> (every == ONE_BUMP <==> NoHeaderLike(lines)))
  {
    forall i | 0 <= i < |lines|
      ensures KindMark(r)(lines[i]) <= EveryKind(r)(lines[i])
      ensures HeaderLike(lines[i]) ==> |KindMark(r)(lines[i])| < |EveryKind(r)(lines[i])|
      ensures !HeaderLike(lines[i]) ==> KindMark(r)(lines[i]) == EveryKind(r)(lines[i])
    {
      SignedLines(lines[i]);
    }
    BagGrows(lines, KindMark(r), EveryKind(r));
    if NoHeaderLike(lines) {
      BagsAgree(lines, KindMark(r), EveryKind(r));
    }
  }
}
