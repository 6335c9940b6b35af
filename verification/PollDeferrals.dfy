/**
 The deferral budget: how often an unreadable mechanical-override gate may postpone a head before the head
 is reviewed like any other.
 */
module PollDeferrals {
  import opened Common
  import opened PollSpec
  import opened PollOwner

  /** The state in which a visit reaches the dedupe step, if it does. */
  datatype Decision = Decision(batch: Batch, pr: PullRequest, sha: string)

  function Reached(cfg: Config, b: Batch, pr: PullRequest, o: Oracle): Option<Decision> {
    var details := DetailsFor(b, pr, o);
    if o.filtered || details.None? || details.value.headSHA == "" then None
    else
      var d := details.value;
      var (b1, pr1) := Labelled(cfg, b.(detailsCache := b.detailsCache[pr.key := d]), pr, o);
      var (b2, closed) := TrySupersede(b1.(sideEffectsRun := b1.sideEffectsRun + {pr.key}), pr1, d, o);
      if closed then None
      else
        var b3 := TryUpdateBranch(cfg, b2, pr1, d, o.updateTrust);
        Some(Decision(TryAutoMerge(cfg, b3, pr1, o.armTrust), pr1, d.headSHA))
  }

  /** How a visit evaluated the mechanical override of head `h`: nothing, or one outcome. */
  function Evaluation(cfg: Config, b: Batch, item: Item, h: HeadKey): (e: seq<OverrideOutcome>)
    ensures |e| <= 1
  {
    var reached := Reached(cfg, b, item.pr, item.oracle);
    if reached.None? then []
    else
      var at := reached.value;
      if HeadKey(at.pr.key, at.sha) != h || TryOverride(cfg, at.batch, at.pr, at.sha, item.oracle).1 then []
      else [TryMechanicalOverride(cfg, at.batch, at.pr, at.sha, item.oracle).1]
  }

  function LoopEvaluations(cfg: Config, l: Loop, items: seq<Item>, h: HeadKey): seq<OverrideOutcome>
    decreases |items|
  {
    if items == [] || items[0].cancelled then []
    else Evaluation(cfg, l.batch, items[0], h) + LoopEvaluations(cfg, Visit(cfg, l, items[0]), items[1..], h)
  }

  /** The evaluations of head `h` in the polls of a run whose cursor was saved. */
  function Evaluations(cfg: Config, c: Cursor, inputs: seq<PollInput>, h: HeadKey): seq<OverrideOutcome> {
    if inputs == [] then []
    else
      var n := |inputs| - 1;
      var past := Evaluations(cfg, c, inputs[..n], h);
      if !inputs[n].searchOk || !inputs[n].saveOk then past
      else past + LoopEvaluations(cfg, StartLoop(Polls(cfg, c, inputs[..n]).0), inputs[n].items, h)
  }

  /** How many evaluations in a row were unreadable, up to now. */
  function Unreadable(evaluations: seq<OverrideOutcome>): nat {
    if evaluations == [] then 0
    else
      var n := |evaluations| - 1;
      if evaluations[n].OverrideDeferred? then Unreadable(evaluations[..n]) + 1 else 0
  }

  /** The count the code keeps: one more for every unreadable gate, back to none on the fourth. */
  function Next(count: nat, tried: OverrideOutcome): (next: nat)
    ensures count <= MAX_DEFERRAL_ATTEMPTS ==> next <= MAX_DEFERRAL_ATTEMPTS
  {
    if tried.OverrideDeferred? && count < MAX_DEFERRAL_ATTEMPTS then count + 1 else 0
  }

  function Streak(evaluations: seq<OverrideOutcome>): (count: nat)
    ensures count <= MAX_DEFERRAL_ATTEMPTS
  {
    if evaluations == [] then 0
    else
      var n := |evaluations| - 1;
      Next(Streak(evaluations[..n]), evaluations[n])
  }

  lemma {:induction false} StreakIsUnreadableModuloFour(evaluations: seq<OverrideOutcome>)
    ensures Streak(evaluations) == Unreadable(evaluations) % (MAX_DEFERRAL_ATTEMPTS + 1)
  {
    if evaluations != [] {
      StreakIsUnreadableModuloFour(evaluations[..|evaluations| - 1]);
    }
  }

  lemma StreakAfter(past: seq<OverrideOutcome>, e: OverrideOutcome)
    ensures Streak(past + [e]) == Next(Streak(past), e)
  {
    assert (past + [e])[..|past|] == past;
  }

  /** A head is stored with its count, and not at all when the count is zero. */
  predicate Counted(deferrals: map<HeadKey, int>, count: nat, h: HeadKey) {
    if h in deferrals then deferrals[h] == count && count > 0 else count == 0
  }

  lemma MechanicalCounts(cfg: Config, b: Batch, pr: PullRequest, sha: string, o: Oracle, count: nat)
    requires Counted(b.deferrals, count, HeadKey(pr.key, sha))
    ensures var tried := TryMechanicalOverride(cfg, b, pr, sha, o).1;
            var (b', outcome) := MechanicalOutcome(cfg, b, pr, sha, o);
            && Counted(b'.deferrals, Next(count, tried), HeadKey(pr.key, sha))
            && (tried.OverrideDeferred? ==>
                  outcome == if count < MAX_DEFERRAL_ATTEMPTS then Outcome(pr.updatedAt, true, true) else UNHANDLED)
  {
    assert TryMechanicalOverride(cfg, b, pr, sha, o).0.deferrals == b.deferrals;
  }

  lemma OthersKeepTheirCount(cfg: Config, b: Batch, pr: PullRequest, sha: string, o: Oracle, h: HeadKey)
    requires h != HeadKey(pr.key, sha)
    ensures var after := MechanicalOutcome(cfg, b, pr, sha, o).0.deferrals;
            (h in after <==> h in b.deferrals) && (h in after ==> after[h] == b.deferrals[h])
  {
    assert TryMechanicalOverride(cfg, b, pr, sha, o).0.deferrals == b.deferrals;
  }

  lemma ReachedDecides(cfg: Config, b: Batch, pr: PullRequest, o: Oracle)
    ensures var reached := Reached(cfg, b, pr, o);
            if reached.None? then ProcessPR(cfg, b, pr, o).0.deferrals == b.deferrals
            else ProcessPR(cfg, b, pr, o) == Decide(cfg, reached.value.batch, reached.value.pr, reached.value.sha, o)
                 && reached.value.batch.deferrals == b.deferrals
  {
  }

  lemma DecideCounts(cfg: Config, b: Batch, pr: PullRequest, sha: string, o: Oracle)
    ensures var (b1, overridden) := TryOverride(cfg, b, pr, sha, o);
            Decide(cfg, b, pr, sha, o).0.deferrals
            == if overridden then b.deferrals else MechanicalOutcome(cfg, b, pr, sha, o).0.deferrals
  {
    var (b1, overridden) := TryOverride(cfg, b, pr, sha, o);
    assert b1.deferrals == b.deferrals && (!overridden ==> b1 == b);
    if !overridden {
      var b2 := MechanicalOutcome(cfg, b, pr, sha, o).0;
      assert PublishReviewOutcome(b2, pr, sha, o).0.deferrals == b2.deferrals;
    }
  }

  lemma VisitCounts(cfg: Config, b: Batch, item: Item, past: seq<OverrideOutcome>, h: HeadKey)
    requires Counted(b.deferrals, Streak(past), h)
    ensures Counted(ProcessPR(cfg, b, item.pr, item.oracle).0.deferrals, Streak(past + Evaluation(cfg, b, item, h)), h)
  {
    var reached := Reached(cfg, b, item.pr, item.oracle);
    ReachedDecides(cfg, b, item.pr, item.oracle);
    assert past + [] == past;
    if reached.Some? {
      var at := reached.value;
      DecideCounts(cfg, at.batch, at.pr, at.sha, item.oracle);
      if HeadKey(at.pr.key, at.sha) == h {
        StreakAfter(past, TryMechanicalOverride(cfg, at.batch, at.pr, at.sha, item.oracle).1);
        MechanicalCounts(cfg, at.batch, at.pr, at.sha, item.oracle, Streak(past));
      } else {
        OthersKeepTheirCount(cfg, at.batch, at.pr, at.sha, item.oracle, h);
      }
    }
  }

  lemma LoopStepCounts(cfg: Config, l: Loop, item: Item, past: seq<OverrideOutcome>, h: HeadKey)
    requires Counted(l.batch.deferrals, Streak(past), h)
    ensures Counted(Visit(cfg, l, item).batch.deferrals, Streak(past + Evaluation(cfg, l.batch, item, h)), h)
  {
    VisitCounts(cfg, l.batch, item, past, h);
  }

  lemma LoopUnfolds(cfg: Config, l: Loop, items: seq<Item>, past: seq<OverrideOutcome>, h: HeadKey)
    requires items != [] && !items[0].cancelled
    ensures VisitAll(cfg, l, items) == VisitAll(cfg, Visit(cfg, l, items[0]), items[1..])
    ensures past + LoopEvaluations(cfg, l, items, h)
         == past + Evaluation(cfg, l.batch, items[0], h) + LoopEvaluations(cfg, Visit(cfg, l, items[0]), items[1..], h)
  {
  }

  lemma {:induction false} LoopCounts(cfg: Config, l: Loop, items: seq<Item>, past: seq<OverrideOutcome>, h: HeadKey)
    requires Counted(l.batch.deferrals, Streak(past), h)
    ensures Counted(VisitAll(cfg, l, items).0.batch.deferrals, Streak(past + LoopEvaluations(cfg, l, items, h)), h)
    decreases |items|
  {
    if items == [] || items[0].cancelled {
      assert past + [] == past;
    } else {
      LoopStepCounts(cfg, l, items[0], past, h);
      LoopUnfolds(cfg, l, items, past, h);
      LoopCounts(cfg, Visit(cfg, l, items[0]), items[1..], past + Evaluation(cfg, l.batch, items[0], h), h);
    }
  }

  lemma {:induction false} RunCounts(cfg: Config, c: Cursor, inputs: seq<PollInput>, h: HeadKey)
    requires c.deferrals == map[]
    ensures Counted(Polls(cfg, c, inputs).0.deferrals, Streak(Evaluations(cfg, c, inputs, h)), h)
  {
    if inputs != [] {
      var n := |inputs| - 1;
      RunCounts(cfg, c, inputs[..n], h);
      LoopCounts(cfg, StartLoop(Polls(cfg, c, inputs[..n]).0), inputs[n].items, Evaluations(cfg, c, inputs[..n], h), h);
    }
  }

  /** Over any run of polls that starts without deferrals, a head is stored exactly when the number of
      unreadable evaluations in a row is no multiple of four, and then with that number modulo four. */
  lemma {:induction false} StoredCountIsTheStreak(cfg: Config, c: Cursor, inputs: seq<PollInput>, h: HeadKey)
    requires c.deferrals == map[]
    ensures var stored := Polls(cfg, c, inputs).0.deferrals;
            var inARow := Unreadable(Evaluations(cfg, c, inputs, h));
            && (h in stored <==> inARow % 4 != 0)
            && (h in stored ==> stored[h] == inARow % 4 && 1 <= stored[h] <= MAX_DEFERRAL_ATTEMPTS)
  {
    RunCounts(cfg, c, inputs, h);
    StreakIsUnreadableModuloFour(Evaluations(cfg, c, inputs, h));
  }

  /** The state in the middle of the poll that follows a run. */
  function Midway(cfg: Config, c: Cursor, inputs: seq<PollInput>, batch: seq<Item>): Batch {
    VisitAll(cfg, StartLoop(Polls(cfg, c, inputs).0), batch).0.batch
  }

  function Unread(cfg: Config, c: Cursor, inputs: seq<PollInput>, batch: seq<Item>, h: HeadKey): nat {
    var start := StartLoop(Polls(cfg, c, inputs).0);
    Unreadable(Evaluations(cfg, c, inputs, h) + LoopEvaluations(cfg, start, batch, h))
  }

  lemma MidwayCounts(cfg: Config, c: Cursor, inputs: seq<PollInput>, batch: seq<Item>, h: HeadKey)
    requires c.deferrals == map[]
    ensures Counted(Midway(cfg, c, inputs, batch).deferrals, Unread(cfg, c, inputs, batch, h) % 4, h)
  {
    var start := StartLoop(Polls(cfg, c, inputs).0);
    RunCounts(cfg, c, inputs, h);
    LoopCounts(cfg, start, batch, Evaluations(cfg, c, inputs, h), h);
    StreakIsUnreadableModuloFour(Evaluations(cfg, c, inputs, h) + LoopEvaluations(cfg, start, batch, h));
  }

  /** A visit, after any run and any part of a batch, that finds the gate unreadable: the first three in a row
      defer the head, every fourth clears the count and takes the review path instead. */
  lemma EveryFourthUnreadableGateIsReviewed(cfg: Config, c: Cursor, inputs: seq<PollInput>, batch: seq<Item>,
                                            b: Batch, unread: nat, item: Item, h: HeadKey)
    requires c.deferrals == map[] && b == Midway(cfg, c, inputs, batch) && unread == Unread(cfg, c, inputs, batch, h)
    requires Evaluation(cfg, b, item, h) == [OverrideDeferred]
    ensures DefersOrReviews(cfg, b, item, h, (unread + 1) % 4 != 0)
  {
    assert Counted(b.deferrals, unread % 4, h) by { MidwayCounts(cfg, c, inputs, batch, h); }
    AnotherUnreadableVisit(cfg, b, item, unread, h);
  }

  lemma ReachedKeepsIds(cfg: Config, b: Batch, pr: PullRequest, o: Oracle)
    ensures var reached := Reached(cfg, b, pr, o);
            reached.Some? ==> && reached.value.batch.headSHAs == b.headSHAs && reached.value.pr.key == pr.key
                              && reached.value.pr.updatedAt == pr.updatedAt
  {
  }

  /** A visit either defers the head and remembers nothing, or takes the review path with a cleared count. */
  predicate DefersOrReviews(cfg: Config, b: Batch, item: Item, h: HeadKey, defers: bool) {
    var (b', outcome) := ProcessPR(cfg, b, item.pr, item.oracle);
    if defers then outcome == Outcome(item.pr.updatedAt, true, true) && b'.headSHAs == b.headSHAs
    else h !in b'.deferrals
         && outcome == PublishReviewOutcome(b, item.pr, h.sha, item.oracle).1
         && b'.headSHAs == PublishReviewOutcome(b, item.pr, h.sha, item.oracle).0.headSHAs
  }

  /** What the review path remembers and reports depends on the known ids, the key and the updated-at alone. */
  lemma ReviewPathLooksAt(b: Batch, pr: PullRequest, b2: Batch, pr2: PullRequest, sha: string, o: Oracle)
    requires b.headSHAs == b2.headSHAs && pr.key == pr2.key && pr.updatedAt == pr2.updatedAt
    ensures PublishReviewOutcome(b, pr, sha, o).1 == PublishReviewOutcome(b2, pr2, sha, o).1
    ensures PublishReviewOutcome(b, pr, sha, o).0.headSHAs == PublishReviewOutcome(b2, pr2, sha, o).0.headSHAs
  {
  }

  lemma UnreadableVisit(cfg: Config, b: Batch, item: Item, count: nat, h: HeadKey)
    requires Counted(b.deferrals, count, h) && Evaluation(cfg, b, item, h) == [OverrideDeferred]
    ensures DefersOrReviews(cfg, b, item, h, count < MAX_DEFERRAL_ATTEMPTS)
  {
    var o := item.oracle;
    ReachedDecides(cfg, b, item.pr, o);
    ReachedKeepsIds(cfg, b, item.pr, o);
    var at := Reached(cfg, b, item.pr, o).value;
    assert HeadKey(at.pr.key, at.sha) == h && !TryOverride(cfg, at.batch, at.pr, at.sha, o).1;
    UnreadableDecision(cfg, at.batch, at.pr, at.sha, o, count);
    ReviewPathLooksAt(at.batch, at.pr, b, item.pr, h.sha, o);
  }

  lemma AnotherUnreadableVisit(cfg: Config, b: Batch, item: Item, unread: nat, h: HeadKey)
    requires Counted(b.deferrals, unread % 4, h) && Evaluation(cfg, b, item, h) == [OverrideDeferred]
    ensures DefersOrReviews(cfg, b, item, h, (unread + 1) % 4 != 0)
  {
    UnreadableVisit(cfg, b, item, unread % 4, h);
    assert (unread + 1) % 4 != 0 <==> unread % 4 < MAX_DEFERRAL_ATTEMPTS;
  }

  lemma UnreadableDecision(cfg: Config, b: Batch, pr: PullRequest, sha: string, o: Oracle, count: nat)
    requires Counted(b.deferrals, count, HeadKey(pr.key, sha)) && !TryOverride(cfg, b, pr, sha, o).1
    requires TryMechanicalOverride(cfg, b, pr, sha, o).1.OverrideDeferred?
    ensures var (b', outcome) := Decide(cfg, b, pr, sha, o);
            if count < MAX_DEFERRAL_ATTEMPTS
            then outcome == Outcome(pr.updatedAt, true, true) && b'.headSHAs == b.headSHAs
            else HeadKey(pr.key, sha) !in b'.deferrals
                 && outcome == PublishReviewOutcome(b, pr, sha, o).1
                 && b'.headSHAs == PublishReviewOutcome(b, pr, sha, o).0.headSHAs
  {
    MechanicalCounts(cfg, b, pr, sha, o, count);
    assert TryOverride(cfg, b, pr, sha, o).0 == b;
    assert TryMechanicalOverride(cfg, b, pr, sha, o).0 == b;
    assert ReviewTask(HeadKey(pr.key, sha)) !in b.headSHAs;
  }
}
