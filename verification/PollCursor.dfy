/**
 Where a poll leaves its search cursor, and why a deferred pull request stays inside the next window
 `updated:>=cursor`.
 */
module PollCursor {
  import opened Common
  import opened PollSpec
  import opened PollOwner

  /** The outcome of every visit of the loop, up to a cancellation. */
  function Outcomes(cfg: Config, l: Loop, items: seq<Item>): (outs: seq<Outcome>)
    ensures |outs| <= |items| && (RunsToEnd(items) ==> |outs| == |items|)
    decreases |items|
  {
    if items == [] || items[0].cancelled then []
    else
      assert RunsToEnd(items) ==> RunsToEnd(items[1..]);
      [ProcessPR(cfg, l.batch, items[0].pr, items[0].oracle).1]
      + Outcomes(cfg, Visit(cfg, l, items[0]), items[1..])
  }

  /** A handled pull request moves the cursor by its own updated-at and no other. */
  lemma HandledByItsOwnTime(cfg: Config, b: Batch, pr: PullRequest, o: Oracle)
    ensures var outcome := ProcessPR(cfg, b, pr, o).1;
            outcome.handled ==> outcome.updatedAt == pr.updatedAt
  {
    var details := DetailsFor(b, pr, o);
    if !o.filtered && details.Some? && details.value.headSHA != "" {
      var d := details.value;
      var cached := b.(detailsCache := b.detailsCache[pr.key := d]);
      var (b1, pr1) := Labelled(cfg, cached, pr, o);
      var (b2, closed) := TrySupersede(b1.(sideEffectsRun := b1.sideEffectsRun + {pr.key}), pr1, d, o);
      if !closed {
        DecidedByItsOwnTime(cfg, TryAutoMerge(cfg, TryUpdateBranch(cfg, b2, pr1, d, o.updateTrust), pr1, o.armTrust),
                            pr1, d.headSHA, o);
      }
    }
  }

  lemma DecidedByItsOwnTime(cfg: Config, b: Batch, pr: PullRequest, sha: string, o: Oracle)
    ensures var outcome := Decide(cfg, b, pr, sha, o).1;
            outcome.handled ==> outcome.updatedAt == pr.updatedAt
  {
    var b1 := TryOverride(cfg, b, pr, sha, o).0;
    var (b2, outcome) := MechanicalOutcome(cfg, b1, pr, sha, o);
    assert outcome.handled ==> outcome.updatedAt == pr.updatedAt;
  }

  /** A visit that counts for the cursor's advance, and one that holds it back. */
  predicate Advances(items: seq<Item>, outs: seq<Outcome>, i: int, t: Time) {
    0 <= i < |outs| && i < |items| && outs[i].handled && items[i].pr.updatedAt == t
  }

  predicate HoldsBack(items: seq<Item>, outs: seq<Outcome>, i: int, t: Time) {
    0 <= i < |outs| && i < |items| && outs[i].deferred && items[i].pr.updatedAt == t
  }

  /** The loop's maximum is the newest handled visit, or where it started. */
  ghost predicate IsNewest(start: Time, items: seq<Item>, outs: seq<Outcome>, newest: Time) {
    && start <= newest
    && (forall i, t :: Advances(items, outs, i, t) ==> t <= newest)
    && (newest == start || exists i :: Advances(items, outs, i, newest))
  }

  /** The loop's floor is the oldest deferred visit, if there is one. */
  ghost predicate IsOldest(start: Option<Time>, items: seq<Item>, outs: seq<Outcome>, oldest: Option<Time>) {
    && (forall i, t :: HoldsBack(items, outs, i, t) ==> oldest.Some? && oldest.value <= t)
    && (start.Some? ==> oldest.Some? && oldest.value <= start.value)
    && (oldest == start || (oldest.Some? && exists i :: HoldsBack(items, outs, i, oldest.value)))
  }

  lemma {:induction false} LoopFindsNewest(cfg: Config, l: Loop, items: seq<Item>)
    ensures IsNewest(l.maxUpdatedAt, items, Outcomes(cfg, l, items), VisitAll(cfg, l, items).0.maxUpdatedAt)
    decreases |items|
  {
    if items != [] && !items[0].cancelled {
      var l', outs := Visit(cfg, l, items[0]), Outcomes(cfg, l, items);
      var rest := Outcomes(cfg, l', items[1..]);
      var newest := VisitAll(cfg, l, items).0.maxUpdatedAt;
      HandledByItsOwnTime(cfg, l.batch, items[0].pr, items[0].oracle);
      LoopFindsNewest(cfg, l', items[1..]);
      forall i, t | Advances(items, outs, i, t)
        ensures t <= newest
      {
        assert i == 0 || Advances(items[1..], rest, i - 1, t);
      }
      if newest == l'.maxUpdatedAt != l.maxUpdatedAt {
        assert Advances(items, outs, 0, newest);
      } else if newest != l'.maxUpdatedAt {
        var i :| Advances(items[1..], rest, i, newest);
        assert Advances(items, outs, i + 1, newest);
      }
    }
  }

  lemma {:induction false} LoopFindsOldest(cfg: Config, l: Loop, items: seq<Item>)
    ensures IsOldest(l.deferFloor, items, Outcomes(cfg, l, items), VisitAll(cfg, l, items).0.deferFloor)
    decreases |items|
  {
    if items != [] && !items[0].cancelled {
      var l', outs := Visit(cfg, l, items[0]), Outcomes(cfg, l, items);
      var rest := Outcomes(cfg, l', items[1..]);
      var oldest := VisitAll(cfg, l, items).0.deferFloor;
      LoopFindsOldest(cfg, l', items[1..]);
      forall i, t | HoldsBack(items, outs, i, t)
        ensures oldest.Some? && oldest.value <= t
      {
        assert i == 0 || HoldsBack(items[1..], rest, i - 1, t);
      }
      if oldest == l'.deferFloor != l.deferFloor {
        assert HoldsBack(items, outs, 0, oldest.value);
      } else if oldest != l'.deferFloor {
        var i :| HoldsBack(items[1..], rest, i, oldest.value);
        assert HoldsBack(items, outs, i + 1, oldest.value);
      }
    }
  }

  /** The cursor position after a poll that was searched and saved. */
  function Position(cfg: Config, c: Cursor, items: seq<Item>): Time {
    Poll(cfg, c, PollInput(true, items, true)).0.lastUpdatedAt
  }

  /** A finished poll never moves back, never moves past a deferred pull request, and otherwise moves as far
      as the newest handled one; only a deferred pull request can hold it short of that. */
  lemma FinishedPollPosition(cfg: Config, c: Cursor, items: seq<Item>)
    requires RunsToEnd(items)
    ensures var outs, position := Outcomes(cfg, StartLoop(c), items), Position(cfg, c, items);
            && c.lastUpdatedAt <= position
            && (forall i, t :: HoldsBack(items, outs, i, t) ==> position <= Max(c.lastUpdatedAt, t))
            && (forall i, t :: Advances(items, outs, i, t) ==>
                  t <= position || exists j, u :: HoldsBack(items, outs, j, u) && u <= position)
            && (position == c.lastUpdatedAt
                || (exists i :: Advances(items, outs, i, position) || HoldsBack(items, outs, i, position)))
  {
    var l := StartLoop(c);
    var outs, position, final := Outcomes(cfg, l, items), Position(cfg, c, items), VisitAll(cfg, l, items).0;
    LoopFindsNewest(cfg, l, items);
    LoopFindsOldest(cfg, l, items);
    CompletedIffRunsToEnd(cfg, l, items);
    if final.deferFloor.Some? {
      var j :| HoldsBack(items, outs, j, final.deferFloor.value);
      assert final.maxUpdatedAt <= position || final.deferFloor.value <= position;
    } else {
      assert position == final.maxUpdatedAt;
    }
  }

  /** Some visit handled a newer pull request; some visit deferred one at least as old. */
  ghost predicate NewerHandled(items: seq<Item>, outs: seq<Outcome>, updatedAt: Time)
    requires |outs| <= |items|
  {
    exists i :: 0 <= i < |outs| && outs[i].handled && items[i].pr.updatedAt > updatedAt
  }

  ghost predicate AsOldDeferred(items: seq<Item>, outs: seq<Outcome>, updatedAt: Time)
    requires |outs| <= |items|
  {
    exists i :: 0 <= i < |outs| && outs[i].deferred && items[i].pr.updatedAt <= updatedAt
  }

  lemma NewestDecides(items: seq<Item>, outs: seq<Outcome>, start: Time, newest: Time, updatedAt: Time)
    requires |outs| <= |items| && IsNewest(start, items, outs, newest) && start <= updatedAt
    ensures newest > updatedAt <==> NewerHandled(items, outs, updatedAt)
  {
    if newest > updatedAt {
      var i :| Advances(items, outs, i, newest);
      assert outs[i].handled && items[i].pr.updatedAt > updatedAt;
    }
    if NewerHandled(items, outs, updatedAt) {
      var i :| 0 <= i < |outs| && outs[i].handled && items[i].pr.updatedAt > updatedAt;
      assert Advances(items, outs, i, items[i].pr.updatedAt);
    }
  }

  lemma OldestDecides(items: seq<Item>, outs: seq<Outcome>, oldest: Option<Time>, updatedAt: Time)
    requires |outs| <= |items| && IsOldest(None, items, outs, oldest)
    ensures oldest.Some? && oldest.value <= updatedAt <==> AsOldDeferred(items, outs, updatedAt)
  {
    if oldest.Some? && oldest.value <= updatedAt {
      var i :| HoldsBack(items, outs, i, oldest.value);
      assert outs[i].deferred && items[i].pr.updatedAt <= updatedAt;
    }
    if AsOldDeferred(items, outs, updatedAt) {
      var i :| 0 <= i < |outs| && outs[i].deferred && items[i].pr.updatedAt <= updatedAt;
      assert HoldsBack(items, outs, i, items[i].pr.updatedAt);
    }
  }

  /** After a finished poll a pull request that was in the window, handled or not, still is exactly when no
      newer one was handled, or one as old was deferred. */
  lemma StaysInWindowIff(cfg: Config, c: Cursor, items: seq<Item>, updatedAt: Time)
    requires RunsToEnd(items) && c.lastUpdatedAt <= updatedAt
    ensures var outs := Outcomes(cfg, StartLoop(c), items);
            Position(cfg, c, items) <= updatedAt
            <==> !NewerHandled(items, outs, updatedAt) || AsOldDeferred(items, outs, updatedAt)
  {
    var l, outs := StartLoop(c), Outcomes(cfg, StartLoop(c), items);
    var final := VisitAll(cfg, l, items).0;
    LoopFindsNewest(cfg, l, items);
    LoopFindsOldest(cfg, l, items);
    CompletedIffRunsToEnd(cfg, l, items);
    NewestDecides(items, outs, c.lastUpdatedAt, final.maxUpdatedAt, updatedAt);
    OldestDecides(items, outs, final.deferFloor, updatedAt);
  }

  /** An override that is due and cannot be sent counts as handled and leaves nothing behind: only the search
      window brings it back, so its retry depends on `StaysInWindowIff`. */
  lemma UnsentOverrideIsHandled(cfg: Config, b: Batch, pr: PullRequest, sha: string, o: Oracle)
    requires !Known(b.headSHAs, HeadKey(pr.key, sha))
    requires Unsent(cfg, b, pr, HeadKey(pr.key, sha), o)
             || ((cfg.overrideLabel == "" || cfg.overrideLabel !in pr.labels) && Qualify(cfg, pr, o).Qualifies?
                 && (cfg.autoMergeLabel in pr.labels || o.addLabelOk) && !o.mechanicalSendOk)
    ensures var (b', outcome) := Decide(cfg, b, pr, sha, o);
            outcome == Handled(pr) && b'.headSHAs == b.headSHAs && b'.newHeadSHAs == b.newHeadSHAs
  {
    if Unsent(cfg, b, pr, HeadKey(pr.key, sha), o) {
      assert TryOverride(cfg, b, pr, sha, o) == (b, true);
    } else {
      assert TryOverride(cfg, b, pr, sha, o) == (b, false);
      var (b', tried) := TryMechanicalOverride(cfg, b, pr, sha, o);
      assert tried.OverrideHandled? && b'.headSHAs == b.headSHAs && b'.newHeadSHAs == b.newHeadSHAs;
    }
  }

  /* ---------- cancellation ---------- */

  /** A cancelled poll skips the clamp: it keeps a deferred pull request in the window exactly when nothing
      newer was handled before the cancellation. */
  lemma {:induction false} CancelledPollKeepsWindowIff(cfg: Config, c: Cursor, items: seq<Item>, i: nat)
    requires !RunsToEnd(items) && i < |Outcomes(cfg, StartLoop(c), items)|
    requires Outcomes(cfg, StartLoop(c), items)[i].deferred
    ensures var outs, window := Outcomes(cfg, StartLoop(c), items), Max(c.lastUpdatedAt, items[i].pr.updatedAt);
            Position(cfg, c, items) <= window
            <==> forall j, t :: Advances(items, outs, j, t) ==> t <= window
  {
    LoopFindsNewest(cfg, StartLoop(c), items);
    CompletedIffRunsToEnd(cfg, StartLoop(c), items);
  }

  const NOTHING_ENABLED := OnlyOverrides("")

  /** Nothing enabled but overrides by the label `tag`. */
  function OnlyOverrides(tag: string): Config {
    Config(tag, "", false, [])
  }

  /** An open pull request whose head the coalescer decides on. */
  function Sighting(number: int, updatedAt: Time, decision: Coalesce.Decision, cancelled: bool): Item {
    var details := Details("c0ffee", updatedAt, "feature", OtherState);
    Item(PullRequest(PRKey("o", "r", number), "dev", [], updatedAt),
         Oracle(false, Some(details), None, None, false, Untrusted, false, Untrusted, Untrusted, Untrusted, false,
                Untrusted, None, None, false, Untrusted, false, decision, false, Trusted, true),
         cancelled)
  }

  lemma SightingOutcome(tag: string, b: Batch, number: int, updatedAt: Time, decision: Coalesce.Decision)
    requires PRKey("o", "r", number) !in b.detailsCache
    requires !Known(b.headSHAs, HeadKey(PRKey("o", "r", number), "c0ffee"))
    ensures var item := Sighting(number, updatedAt, decision, false);
            var (b', outcome) := ProcessPR(OnlyOverrides(tag), b, item.pr, item.oracle);
            && (decision.Hold? ==> outcome == Outcome(0, false, true)
                                   && b'.headSHAs == b.headSHAs
                                   && b'.detailsCache.Keys == b.detailsCache.Keys + {item.pr.key})
            && (decision.Settled? ==> outcome == Handled(item.pr) && b'.effects == b.effects
                                      && b'.deferrals == b.deferrals - {HeadKey(item.pr.key, "c0ffee")}
                                      && b'.newHeadSHAs == b.newHeadSHAs[ReviewTask(HeadKey(item.pr.key, "c0ffee"))
                                                                         := "c0ffee"])
  {
    var cfg, item := OnlyOverrides(tag), Sighting(number, updatedAt, decision, false);
    var d := item.oracle.details.value;
    var cached := b.(detailsCache := b.detailsCache[item.pr.key := d]);
    assert ProcessPR(cfg, b, item.pr, item.oracle) == ProcessDetails(cfg, cached, item.pr, d, item.oracle);
    var marked := cached.(sideEffectsRun := cached.sideEffectsRun + {item.pr.key});
    assert ProcessDetails(cfg, cached, item.pr, d, item.oracle)
        == Decide(cfg, marked, item.pr, "c0ffee", item.oracle);
  }

  /** The clamp's promise fails on a cancelled poll: the pull request held at instant 1 falls out of the window
      when the one at instant 5 is settled and the poll is cancelled before the third. */
  lemma CancelledPollCanLoseADeferral()
    ensures var c := Cursor(0, map[], map[]);
            var items := [Sighting(1, 1, Coalesce.Hold, false), Sighting(2, 5, Coalesce.Settled, false),
                          Sighting(3, 9, Coalesce.Settled, true)];
            && HoldsBack(items, Outcomes(NOTHING_ENABLED, StartLoop(c), items), 0, 1)
            && Position(NOTHING_ENABLED, c, items) == 5
  {
    var c := Cursor(0, map[], map[]);
    var a, b, x := Sighting(1, 1, Coalesce.Hold, false), Sighting(2, 5, Coalesce.Settled, false),
                   Sighting(3, 9, Coalesce.Settled, true);
    var l := StartLoop(c);
    SightingOutcome("", l.batch, 1, 1, Coalesce.Hold);
    var l1 := Visit(NOTHING_ENABLED, l, a);
    SightingOutcome("", l1.batch, 2, 5, Coalesce.Settled);
    var l2 := Visit(NOTHING_ENABLED, l1, b);
    assert l1.maxUpdatedAt == 0 && l2.maxUpdatedAt == 5;
    assert [a, b, x][1..] == [b, x] && [b, x][1..] == [x];
    assert VisitAll(NOTHING_ENABLED, l2, [x]) == (l2, false);
    assert VisitAll(NOTHING_ENABLED, l1, [b, x]) == (l2, false);
    assert VisitAll(NOTHING_ENABLED, l, [a, b, x]) == (l2, false);
  }

  /* ---------- an override that is never retried ---------- */

  const OVERRIDING := OnlyOverrides("override")

  /** A trusted author's pull request with the override label; sending the override fails. */
  const UNSENT := Item(PullRequest(PRKey("o", "r", 1), "dev", ["override"], 1),
                       Sighting(1, 1, Coalesce.Emit, false).oracle.(overrideTrust := Trusted), false)

  lemma UnsentIsVisited()
    ensures var l := Visit(OVERRIDING, StartLoop(Cursor(0, map[], map[])), UNSENT);
            && l.maxUpdatedAt == 1 && l.deferFloor == None && l.batch.headSHAs == l.batch.newHeadSHAs == map[]
            && l.batch.deferrals == map[] && l.batch.effects == [] && l.batch.detailsCache.Keys == {UNSENT.pr.key}
  {
    var b := StartLoop(Cursor(0, map[], map[])).batch;
    var d := UNSENT.oracle.details.value;
    var cached := b.(detailsCache := b.detailsCache[UNSENT.pr.key := d]);
    var marked := cached.(sideEffectsRun := cached.sideEffectsRun + {UNSENT.pr.key});
    assert ProcessPR(OVERRIDING, b, UNSENT.pr, UNSENT.oracle)
        == ProcessDetails(OVERRIDING, cached, UNSENT.pr, d, UNSENT.oracle);
    assert ProcessDetails(OVERRIDING, cached, UNSENT.pr, d, UNSENT.oracle)
        == Decide(OVERRIDING, marked, UNSENT.pr, "c0ffee", UNSENT.oracle);
    assert TryOverride(OVERRIDING, marked, UNSENT.pr, "c0ffee", UNSENT.oracle) == (marked, true);
  }

  /** The retry of an unsent override fails in a finished poll: the override at instant 1 is due and not sent, the
      pull request at instant 5 is settled, and the next search starts at 5 with nothing known of the first. */
  lemma UnsentOverrideCanLeaveTheWindow()
    ensures var items := [UNSENT, Sighting(2, 5, Coalesce.Settled, false)];
            && RunsToEnd(items)
            && Poll(OVERRIDING, Cursor(0, map[], map[]), PollInput(true, items, true))
               == (Cursor(5, map[ReviewTask(HeadKey(PRKey("o", "r", 2), "c0ffee")) := "c0ffee"], map[]), [])
  {
    var a, b := UNSENT, Sighting(2, 5, Coalesce.Settled, false);
    var l := StartLoop(Cursor(0, map[], map[]));
    UnsentIsVisited();
    var l1 := Visit(OVERRIDING, l, a);
    SightingOutcome("override", l1.batch, 2, 5, Coalesce.Settled);
    var l2 := Visit(OVERRIDING, l1, b);
    assert [a, b][1..] == [b] && [b][1..] == [];
    assert VisitAll(OVERRIDING, l2, []) == (l2, true);
    assert VisitAll(OVERRIDING, l1, [b]) == (l2, true);
    assert VisitAll(OVERRIDING, l, [a, b]) == (l2, true);
  }

  /* ---------- whole runs ---------- */

  /** The search contract for one open pull request: inside the window it is returned. */
  predicate Searched(c: Cursor, input: PollInput, key: PRKey, updatedAt: Time) {
    input.searchOk && c.lastUpdatedAt <= updatedAt ==>
      exists i :: 0 <= i < |input.items| && input.items[i].pr.key == key && input.items[i].pr.updatedAt == updatedAt
  }

  /** The poll leaves the pull request undecided: it changes nothing, or it finishes and defers every visit. */
  predicate Undecided(cfg: Config, c: Cursor, input: PollInput, key: PRKey) {
    !input.searchOk || !input.saveOk
    || (RunsToEnd(input.items)
        && forall i :: 0 <= i < |input.items| && input.items[i].pr.key == key ==>
             Outcomes(cfg, StartLoop(c), input.items)[i].deferred)
  }

  /** A pull request watched over a run, with its updated-at before each poll and after the last. */
  predicate Watched(cfg: Config, c: Cursor, inputs: seq<PollInput>, key: PRKey, updates: seq<Time>) {
    |updates| == |inputs| + 1 && c.lastUpdatedAt <= updates[0]
    && forall n :: 0 <= n < |inputs| ==>
         && updates[n] <= updates[n + 1]
         && Searched(Polls(cfg, c, inputs[..n]).0, inputs[n], key, updates[n])
         && Undecided(cfg, Polls(cfg, c, inputs[..n]).0, inputs[n], key)
  }

  lemma UndecidedStaysInWindow(cfg: Config, c: Cursor, input: PollInput, key: PRKey, updatedAt: Time)
    requires c.lastUpdatedAt <= updatedAt && Searched(c, input, key, updatedAt) && Undecided(cfg, c, input, key)
    ensures Poll(cfg, c, input).0.lastUpdatedAt <= updatedAt
  {
    if input.searchOk && input.saveOk {
      var outs := Outcomes(cfg, StartLoop(c), input.items);
      FinishedPollPosition(cfg, c, input.items);
      var i :| 0 <= i < |input.items| && input.items[i].pr.key == key && input.items[i].pr.updatedAt == updatedAt;
      assert HoldsBack(input.items, outs, i, updatedAt);
    }
  }

  /** As long as a pull request is only deferred, whatever else the polls handle, it stays in the window: the
      next search that succeeds returns it again. */
  lemma {:induction false} NothingDeferredIsLost(cfg: Config, c: Cursor, inputs: seq<PollInput>, key: PRKey,
                                                 updates: seq<Time>)
    requires Watched(cfg, c, inputs, key, updates)
    ensures Polls(cfg, c, inputs).0.lastUpdatedAt <= updates[|inputs|]
  {
    if inputs != [] {
      var n := |inputs| - 1;
      assert forall m :: 0 <= m <= n ==> inputs[..n][..m] == inputs[..m];
      assert Watched(cfg, c, inputs[..n], key, updates[..|inputs|]);
      NothingDeferredIsLost(cfg, c, inputs[..n], key, updates[..|inputs|]);
      UndecidedStaysInWindow(cfg, Polls(cfg, c, inputs[..n]).0, inputs[n], key, updates[n]);
    }
  }
}
