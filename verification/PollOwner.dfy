/**
 One owner per head over whole runs of polls: a review or a mechanical override is published only for a
 head that nothing has been published for before, as long as every finished poll carries the head over.
 */
module PollOwner {
  import opened Common
  import opened PollSpec

  /** A task that speaks for the head: a review or an override of either kind. */
  predicate Claims(e: Effect, h: HeadKey) {
    match e
    case ReviewPublished(head) => head == h
    case MechanicalPublished(head) => head == h
    case OverridePublished(head) => head == h
    case _ => false
  }

  /** The claims on one head, in the order they were published. */
  function ClaimsIn(effects: seq<Effect>, h: HeadKey): (claims: seq<Effect>)
    ensures forall i :: 0 <= i < |claims| ==> Claims(claims[i], h)
  {
    if effects == [] then []
    else
      var n := |effects| - 1;
      ClaimsIn(effects[..n], h) + (if Claims(effects[n], h) then [effects[n]] else [])
  }

  lemma {:induction false} ClaimsInConcat(a: seq<Effect>, b: seq<Effect>, h: HeadKey)
    ensures ClaimsIn(a + b, h) == ClaimsIn(a, h) + ClaimsIn(b, h)
  {
    if b == [] {
      assert a + b == a;
    } else {
      var n := |b| - 1;
      ClaimsInConcat(a, b[..n], h);
      assert (a + b)[..|a + b| - 1] == a + b[..n];
    }
  }

  lemma ClaimsInDid(b: Batch, e: Effect, h: HeadKey)
    ensures ClaimsIn(Did(b, e).effects, h) == ClaimsIn(b.effects, h) + (if Claims(e, h) then [e] else [])
  {
    assert Did(b, e).effects[..|b.effects|] == b.effects;
  }

  predicate Known(ids: map<TaskId, string>, h: HeadKey) {
    ReviewTask(h) in ids || OverrideTask(h) in ids
  }

  /** Only the first claim on a head may be a review or a mechanical override, and not even that one when
      the head was known from the start. */
  predicate OneOwner(claims: seq<Effect>, known: bool) {
    forall i :: (if known then 0 else 1) <= i < |claims| ==> claims[i].OverridePublished?
  }

  /* ---------- what one visit does to one head ---------- */

  /** The pull request is processed at this head: not filtered, and its details name the head. */
  predicate Reaches(b: Batch, item: Item, h: HeadKey) {
    var details := DetailsFor(b, item.pr, item.oracle);
    !item.oracle.filtered && details.Some? && h == HeadKey(item.pr.key, details.value.headSHA) && h.sha != ""
  }

  /** A label override that is due, allowed, and then fails to be sent. */
  predicate Unsent(cfg: Config, b: Batch, pr: PullRequest, h: HeadKey, o: Oracle) {
    cfg.overrideLabel != "" && cfg.overrideLabel in pr.labels && OverrideTask(h) !in b.headSHAs
    && o.overrideTrust.Trusted? && !o.overrideSendOk
  }

  /** The visit reaches the head and does not end in an unsent label override. */
  predicate Settles(cfg: Config, b: Batch, item: Item, h: HeadKey) {
    Reaches(b, item, h)
    && var d := DetailsFor(b, item.pr, item.oracle).value;
       var (b1, pr) := Labelled(cfg, b, item.pr, item.oracle);
       TrySupersede(b1, pr, d, item.oracle).1 || !Unsent(cfg, b, pr, h, item.oracle)
  }

  /** How a step may change what is known and claimed about one head. */
  predicate OwnerStep(b: Batch, b': Batch, h: HeadKey, settles: bool) {
    var claims, claims' := ClaimsIn(b.effects, h), ClaimsIn(b'.effects, h);
    && (claims' == claims
        || (Known(b'.newHeadSHAs, h)
            && |claims'| == |claims| + 1 && claims'[..|claims|] == claims
            && (claims'[|claims|].OverridePublished? || !Known(b.headSHAs, h))))
    && (Known(b.headSHAs, h) ==> Known(b'.headSHAs, h))
    && (Known(b.newHeadSHAs, h) ==> Known(b'.newHeadSHAs, h))
    && (Known(b'.newHeadSHAs, h) ==> Known(b.newHeadSHAs, h) || (settles && Known(b'.headSHAs, h)))
    && (settles && Known(b.headSHAs, h) ==> Known(b'.newHeadSHAs, h))
  }

  /** Nothing about any head is known, forgotten or claimed between the two states. */
  predicate Idle(b: Batch, b': Batch, h: HeadKey) {
    b'.headSHAs == b.headSHAs && b'.newHeadSHAs == b.newHeadSHAs
    && ClaimsIn(b'.effects, h) == ClaimsIn(b.effects, h)
  }

  lemma RememberKnows(b: Batch, id: TaskId, h: HeadKey)
    ensures var b' := Remember(b, id);
            && b'.effects == b.effects
            && (Known(b'.headSHAs, h) <==> Known(b.headSHAs, h) || id.head == h)
            && (Known(b'.newHeadSHAs, h) <==> Known(b.newHeadSHAs, h) || id.head == h)
  {
  }

  /** Publishing a task and remembering its id, the one way a claim is made. */
  lemma ClaimStep(b: Batch, e: Effect, id: TaskId, h: HeadKey)
    requires Claims(e, id.head) && (e.OverridePublished? || !Known(b.headSHAs, id.head))
    ensures OwnerStep(b, Remember(Did(b, e), id), h, id.head == h)
  {
    var claims := ClaimsIn(b.effects, h);
    var published := Did(b, e);
    ClaimsInDid(b, e, h);
    RememberKnows(published, id, h);
    if id.head == h {
      assert ClaimsIn(published.effects, h) == claims + [e];
    } else {
      assert ClaimsIn(published.effects, h) == claims;
    }
  }

  lemma SendMechanicalStep(b: Batch, head: HeadKey, o: Oracle, h: HeadKey)
    requires !Known(b.headSHAs, head)
    ensures OwnerStep(b, SendMechanical(b, head, o), h, head == h)
  {
    ClaimStep(b, MechanicalPublished(head), OverrideTask(head), h);
  }

  lemma LabelledMechanicalStep(cfg: Config, b: Batch, pr: PullRequest, head: HeadKey, o: Oracle, h: HeadKey)
    requires !Known(b.headSHAs, head)
    ensures var pr' := pr.(labels := pr.labels + [cfg.autoMergeLabel]);
            var armed := TryAutoMerge(cfg, Did(b, LabelAttempt(pr.key)), pr', o.rearmTrust);
            OwnerStep(b, SendMechanical(armed, head, o), h, head == h)
  {
    var labelled := Did(b, LabelAttempt(pr.key));
    var armed := TryAutoMerge(cfg, labelled, pr.(labels := pr.labels + [cfg.autoMergeLabel]), o.rearmTrust);
    ClaimsInDid(b, LabelAttempt(pr.key), h);
    ClaimsInDid(labelled, ArmAttempt(pr.key), h);
    SendMechanicalStep(armed, head, o, h);
  }

  lemma QualifyingStep(cfg: Config, b: Batch, pr: PullRequest, sha: string, o: Oracle, h: HeadKey)
    requires !Known(b.headSHAs, HeadKey(pr.key, sha)) && Qualify(cfg, pr, o).Qualifies?
    ensures MechanicalStep(cfg, b, pr, sha, o, h)
  {
    var head := HeadKey(pr.key, sha);
    ClaimsInDid(b, LabelAttempt(pr.key), h);
    if cfg.autoMergeLabel in pr.labels {
      SendMechanicalStep(b, head, o, h);
    } else {
      LabelledMechanicalStep(cfg, b, pr, head, o, h);
    }
  }

  predicate MechanicalStep(cfg: Config, b: Batch, pr: PullRequest, sha: string, o: Oracle, h: HeadKey) {
    var (b', tried) := TryMechanicalOverride(cfg, b, pr, sha, o);
    var head := HeadKey(pr.key, sha);
    && OwnerStep(b, b', h, head == h && tried.OverrideHandled?)
    && (!tried.OverrideHandled? ==> Idle(b, b', h) && OverrideTask(head) !in b.headSHAs)
    && (tried.OverrideDeferred? ==> !Known(b.headSHAs, head))
  }

  lemma TryMechanicalStep(cfg: Config, b: Batch, pr: PullRequest, sha: string, o: Oracle, h: HeadKey)
    ensures MechanicalStep(cfg, b, pr, sha, o, h)
  {
    var head := HeadKey(pr.key, sha);
    if OverrideTask(head) in b.headSHAs {
      assert TryMechanicalOverride(cfg, b, pr, sha, o) == (Carry(b, OverrideTask(head)), OverrideHandled);
    } else if ReviewTask(head) in b.headSHAs {
      assert TryMechanicalOverride(cfg, b, pr, sha, o) == (b, NotHandled);
    } else if Qualify(cfg, pr, o).Qualifies? {
      QualifyingStep(cfg, b, pr, sha, o, h);
    } else {
      assert TryMechanicalOverride(cfg, b, pr, sha, o).0 == b;
    }
  }

  lemma PublishReviewStep(b: Batch, pr: PullRequest, sha: string, o: Oracle, h: HeadKey)
    requires !Known(b.headSHAs, HeadKey(pr.key, sha))
    ensures OwnerStep(b, PublishReviewOutcome(b, pr, sha, o).0, h, HeadKey(pr.key, sha) == h)
  {
    var head := HeadKey(pr.key, sha);
    if o.decision.Emit? && CreatePublishes(o) {
      var published := Remember(Did(b, ReviewPublished(head)), ReviewTask(head));
      ClaimStep(b, ReviewPublished(head), ReviewTask(head), h);
      ClaimsInDid(published, MarkedEmitted(head), h);
      ThenIdle(b, published, Did(published, MarkedEmitted(head)), h, head == h);
    } else if o.decision.Settled? {
      SettledStep(b, head, h);
    }
  }

  lemma SettledStep(b: Batch, head: HeadKey, h: HeadKey)
    ensures OwnerStep(b, Remember(b, ReviewTask(head)), h, head == h)
  {
    RememberKnows(b, ReviewTask(head), h);
  }

  lemma ThenIdle(b: Batch, b1: Batch, b2: Batch, h: HeadKey, settles: bool)
    requires OwnerStep(b, b1, h, settles) && Idle(b1, b2, h)
    ensures OwnerStep(b, b2, h, settles)
  {
  }

  lemma TryOverrideStep(cfg: Config, b: Batch, pr: PullRequest, sha: string, o: Oracle, h: HeadKey)
    ensures var (b', overridden) := TryOverride(cfg, b, pr, sha, o);
            var head := HeadKey(pr.key, sha);
            if overridden then OwnerStep(b, b', h, head == h && !Unsent(cfg, b, pr, head, o))
            else b' == b && !Unsent(cfg, b, pr, head, o)
  {
    var head := HeadKey(pr.key, sha);
    ClaimStep(b, OverridePublished(head), OverrideTask(head), h);
  }

  lemma {:induction false} DecideStep(cfg: Config, b: Batch, pr: PullRequest, sha: string, o: Oracle, h: HeadKey)
    ensures var head := HeadKey(pr.key, sha);
            OwnerStep(b, Decide(cfg, b, pr, sha, o).0, h, head == h && !Unsent(cfg, b, pr, head, o))
  {
    TryOverrideStep(cfg, b, pr, sha, o, h);
    var (b1, overridden) := TryOverride(cfg, b, pr, sha, o);
    if !overridden {
      TryMechanicalStep(cfg, b, pr, sha, o, h);
      var (b2, outcome) := MechanicalOutcome(cfg, b, pr, sha, o);
      var head := HeadKey(pr.key, sha);
      if !outcome.handled && ReviewTask(head) !in b2.headSHAs {
        PublishReviewStep(b2, pr, sha, o, h);
      }
    }
  }

  lemma SideEffectsIdle(cfg: Config, b: Batch, pr: PullRequest, d: Details, o: Oracle, h: HeadKey)
    ensures Idle(b, Labelled(cfg, b, pr, o).0, h)
    ensures Idle(b, TrySupersede(b, pr, d, o).0, h)
    ensures Idle(b, TryUpdateBranch(cfg, b, pr, d, o.updateTrust), h)
    ensures Idle(b, TryAutoMerge(cfg, b, pr, o.armTrust), h)
  {
    DidIsIdle(b, LabelAttempt(pr.key), h);
    DidIsIdle(b, CloseAttempt(pr.key), h);
    DidIsIdle(b, UpdateAttempt(pr.key), h);
    DidIsIdle(b, ArmAttempt(pr.key), h);
    assert Labelled(cfg, b, pr, o).0 == b || Labelled(cfg, b, pr, o).0 == Did(b, LabelAttempt(pr.key));
    var updated := TryUpdateBranch(cfg, b, pr, d, o.updateTrust);
    assert updated == b || updated == Did(b, UpdateAttempt(pr.key));
  }

  lemma DidIsIdle(b: Batch, e: Effect, h: HeadKey)
    requires !Claims(e, h)
    ensures Idle(b, Did(b, e), h) && Idle(b, b, h)
  {
    ClaimsInDid(b, e, h);
  }

  lemma ProcessDetailsStep(cfg: Config, b: Batch, pr: PullRequest, d: Details, o: Oracle, h: HeadKey)
    ensures var (b1, pr1) := Labelled(cfg, b, pr, o);
            var head := HeadKey(pr.key, d.headSHA);
            OwnerStep(b, ProcessDetails(cfg, b, pr, d, o).0, h,
                      head == h && (TrySupersede(b1, pr1, d, o).1 || !Unsent(cfg, b, pr1, head, o)))
  {
    var (b1, pr1) := Labelled(cfg, b, pr, o);
    var marked := b1.(sideEffectsRun := b1.sideEffectsRun + {pr.key});
    var (b2, closed) := TrySupersede(marked, pr1, d, o);
    SideEffectsIdle(cfg, b, pr, d, o, h);
    SideEffectsIdle(cfg, marked, pr1, d, o, h);
    if !closed {
      var b3 := TryUpdateBranch(cfg, b2, pr1, d, o.updateTrust);
      SideEffectsIdle(cfg, b2, pr1, d, o, h);
      SideEffectsIdle(cfg, b3, pr1, d, o, h);
      DecideStep(cfg, TryAutoMerge(cfg, b3, pr1, o.armTrust), pr1, d.headSHA, o, h);
    }
  }

  lemma VisitStep(cfg: Config, l: Loop, item: Item, h: HeadKey)
    ensures OwnerStep(l.batch, Visit(cfg, l, item).batch, h, Settles(cfg, l.batch, item, h))
  {
    var b, o := l.batch, item.oracle;
    var details := DetailsFor(b, item.pr, o);
    if !o.filtered && details.Some? && details.value.headSHA != "" {
      var cached := b.(detailsCache := b.detailsCache[item.pr.key := details.value]);
      ProcessDetailsStep(cfg, cached, item.pr, details.value, o, h);
    }
  }

  /* ---------- one poll ---------- */

  /** Some visit of the loop settles the head. */
  predicate Carries(cfg: Config, l: Loop, items: seq<Item>, h: HeadKey)
    decreases |items|
  {
    items != [] && !items[0].cancelled
    && (Settles(cfg, l.batch, items[0], h) || Carries(cfg, Visit(cfg, l, items[0]), items[1..], h))
  }

  /** What is published so far has one owner, and whatever has an owner is known. */
  predicate OwnerInv(past: seq<Effect>, b: Batch, h: HeadKey, known: bool) {
    var claims := ClaimsIn(past, h) + ClaimsIn(b.effects, h);
    OneOwner(claims, known) && (known || claims != [] ==> Known(b.headSHAs, h))
    && (ClaimsIn(b.effects, h) != [] ==> Known(b.newHeadSHAs, h))
    && (Known(b.newHeadSHAs, h) ==> Known(b.headSHAs, h))
  }

  lemma OwnerStepKeepsOwner(past: seq<Effect>, b: Batch, b': Batch, h: HeadKey, known: bool, settles: bool)
    requires OwnerInv(past, b, h, known) && OwnerStep(b, b', h, settles)
    ensures OwnerInv(past, b', h, known)
  {
    var claims := ClaimsIn(b.effects, h);
    var claims' := ClaimsIn(b'.effects, h);
    if claims' != claims {
      assert ClaimsIn(past, h) + claims' == ClaimsIn(past, h) + claims + [claims'[|claims|]];
    }
  }

  lemma {:induction false} LoopKeepsOwner(cfg: Config, l: Loop, items: seq<Item>, past: seq<Effect>, h: HeadKey,
                                          known: bool)
    requires OwnerInv(past, l.batch, h, known)
    ensures OwnerInv(past, VisitAll(cfg, l, items).0.batch, h, known)
    ensures var (l', completed) := VisitAll(cfg, l, items);
            completed && Known(l.batch.headSHAs, h) && !Known(l.batch.newHeadSHAs, h) ==>
              (Known(l'.batch.newHeadSHAs, h) <==> Carries(cfg, l, items, h))
    ensures Known(l.batch.newHeadSHAs, h) ==> Known(VisitAll(cfg, l, items).0.batch.newHeadSHAs, h)
    decreases |items|
  {
    if items != [] && !items[0].cancelled {
      VisitStep(cfg, l, items[0], h);
      OwnerStepKeepsOwner(past, l.batch, Visit(cfg, l, items[0]).batch, h, known, Settles(cfg, l.batch, items[0], h));
      LoopKeepsOwner(cfg, Visit(cfg, l, items[0]), items[1..], past, h, known);
    }
  }

  /** Whether the loop of this poll runs to its end. */
  predicate RunsToEnd(items: seq<Item>) {
    forall i :: 0 <= i < |items| ==> !items[i].cancelled
  }

  lemma {:induction false} CompletedIffRunsToEnd(cfg: Config, l: Loop, items: seq<Item>)
    ensures VisitAll(cfg, l, items).1 <==> RunsToEnd(items)
    decreases |items|
  {
    if items != [] && !items[0].cancelled {
      CompletedIffRunsToEnd(cfg, Visit(cfg, l, items[0]), items[1..]);
      assert forall i :: 1 <= i < |items| ==> items[i] == items[1..][i - 1];
    }
  }

  /** A finished poll keeps what it knew about a head exactly when some visit settles that head. */
  lemma KnownHeadIsKeptIffSettled(cfg: Config, c: Cursor, items: seq<Item>, h: HeadKey)
    requires Known(c.headSHAs, h) && RunsToEnd(items)
    ensures Known(ProcessPRs(cfg, c, items).0.headSHAs, h) <==> Carries(cfg, StartLoop(c), items, h)
  {
    CompletedIffRunsToEnd(cfg, StartLoop(c), items);
    LoopKeepsOwner(cfg, StartLoop(c), items, [], h, false);
  }

  /* ---------- whole runs ---------- */

  /** A run of polls: the last stored cursor and everything the polls did. */
  function Polls(cfg: Config, c: Cursor, inputs: seq<PollInput>): (Cursor, seq<Effect>) {
    if inputs == [] then (c, [])
    else
      var n := |inputs| - 1;
      var (before, past) := Polls(cfg, c, inputs[..n]);
      var (after, effects) := Poll(cfg, before, inputs[n]);
      (after, past + effects)
  }

  /** The poll does not lose the head: it is aborted, or saved and, if it finishes, settles a head it knows. */
  predicate Steady(cfg: Config, c: Cursor, input: PollInput, h: HeadKey) {
    !input.searchOk
    || (input.saveOk
        && (RunsToEnd(input.items) && Known(c.headSHAs, h) ==> Carries(cfg, StartLoop(c), input.items, h)))
  }

  predicate SteadyRun(cfg: Config, c: Cursor, inputs: seq<PollInput>, h: HeadKey) {
    forall n :: 0 <= n < |inputs| ==> Steady(cfg, Polls(cfg, c, inputs[..n]).0, inputs[n], h)
  }

  lemma SteadyPollKeepsOwner(cfg: Config, c: Cursor, input: PollInput, past: seq<Effect>, h: HeadKey, known: bool)
    requires OneOwner(ClaimsIn(past, h), known) && (known || ClaimsIn(past, h) != [] ==> Known(c.headSHAs, h))
    requires Steady(cfg, c, input, h)
    ensures var (c', effects) := Poll(cfg, c, input);
            var claims := ClaimsIn(past + effects, h);
            OneOwner(claims, known) && (known || claims != [] ==> Known(c'.headSHAs, h))
  {
    var effects := Poll(cfg, c, input).1;
    ClaimsInConcat(past, effects, h);
    if input.searchOk {
      LoopKeepsOwner(cfg, StartLoop(c), input.items, past, h, known);
      CompletedIffRunsToEnd(cfg, StartLoop(c), input.items);
    } else {
      assert past + effects == past;
    }
  }

  lemma {:induction false} SteadyRunsKeepOwner(cfg: Config, c: Cursor, inputs: seq<PollInput>, h: HeadKey)
    requires SteadyRun(cfg, c, inputs, h)
    ensures var (c', effects) := Polls(cfg, c, inputs);
            var claims := ClaimsIn(effects, h);
            OneOwner(claims, Known(c.headSHAs, h))
            && (Known(c.headSHAs, h) || claims != [] ==> Known(c'.headSHAs, h))
  {
    if inputs != [] {
      var n := |inputs| - 1;
      assert forall m :: 0 <= m <= n ==> inputs[..n][..m] == inputs[..m];
      SteadyRunsKeepOwner(cfg, c, inputs[..n], h);
      var (before, past) := Polls(cfg, c, inputs[..n]);
      SteadyPollKeepsOwner(cfg, before, inputs[n], past, h, Known(c.headSHAs, h));
    }
  }

  /** How often a review or a mechanical override was published for the head. */
  function Owners(effects: seq<Effect>, h: HeadKey): nat {
    multiset(effects)[ReviewPublished(h)] + multiset(effects)[MechanicalPublished(h)]
  }

  lemma {:induction false} OwnersAreClaims(effects: seq<Effect>, h: HeadKey)
    ensures Owners(effects, h) == Owners(ClaimsIn(effects, h), h)
  {
    if effects != [] {
      var n := |effects| - 1;
      assert effects == effects[..n] + [effects[n]];
      OwnersAreClaims(effects[..n], h);
    }
  }

  /** In every steady run of polls, from any cursor, a head gets at most one review or mechanical override. */
  lemma {:induction false} AtMostOneOwner(cfg: Config, c: Cursor, inputs: seq<PollInput>, h: HeadKey)
    requires SteadyRun(cfg, c, inputs, h)
    ensures Owners(Polls(cfg, c, inputs).1, h) <= 1
    ensures Known(c.headSHAs, h) ==> Owners(Polls(cfg, c, inputs).1, h) == 0
  {
    var effects := Polls(cfg, c, inputs).1;
    SteadyRunsKeepOwner(cfg, c, inputs, h);
    OwnersAreClaims(effects, h);
    OneOwnerIsCountedOnce(ClaimsIn(effects, h), Known(c.headSHAs, h), h);
  }

  lemma {:induction false} OneOwnerIsCountedOnce(claims: seq<Effect>, known: bool, h: HeadKey)
    requires OneOwner(claims, known)
    ensures Owners(claims, h) <= if known then 0 else 1
  {
    if claims != [] {
      var n := |claims| - 1;
      assert claims == claims[..n] + [claims[n]];
      OneOwnerIsCountedOnce(claims[..n], known, h);
      if n == 0 {
        assert claims[..n] == [];
      }
    }
  }

  /* ---------- what an unsteady run does ---------- */

  /** An ordinary pull request at this head: no label, no mechanical author, and a publishable review. */
  predicate PlainReview(cfg: Config, item: Item, h: HeadKey) {
    var o := item.oracle;
    && !item.cancelled && !o.filtered && item.pr.key == h.pr && item.pr.labels == [] && h.sha != ""
    && o.details.Some? && o.details.value.headSHA == h.sha && !IsSupersededDepBump(item.pr, o.details.value)
    && o.trivialOptIn == None && item.pr.author !in cfg.mechanicalOverrideAuthors
    && o.decision.Emit? && CreatePublishes(o)
  }

  lemma PlainReviewIsPublished(cfg: Config, c: Cursor, item: Item, h: HeadKey)
    requires PlainReview(cfg, item, h) && !Known(c.headSHAs, h)
    ensures var (c', effects) := Poll(cfg, c, PollInput(true, [item], true));
            effects == [ReviewPublished(h), MarkedEmitted(h)] && Known(c'.headSHAs, h)
  {
    var l, d, o := StartLoop(c), item.oracle.details.value, item.oracle;
    var cached := l.batch.(detailsCache := map[item.pr.key := d]);
    assert ProcessPR(cfg, l.batch, item.pr, o) == ProcessDetails(cfg, cached, item.pr, d, o);
    var marked := cached.(sideEffectsRun := cached.sideEffectsRun + {item.pr.key});
    assert ProcessDetails(cfg, cached, item.pr, d, o) == Decide(cfg, marked, item.pr, h.sha, o);
    var cleared := marked.(deferrals := marked.deferrals - {h});
    assert Decide(cfg, marked, item.pr, h.sha, o) == PublishReviewOutcome(cleared, item.pr, h.sha, o);
    assert VisitAll(cfg, l, [item]) == VisitAll(cfg, Visit(cfg, l, item), [item][1..]);
  }

  /** The promise "at most one create per head across all polls" needs the steadiness above: a head is
      published again as soon as one finished poll in between does not settle it. */
  lemma {:induction false} UnsettledHeadIsPublishedAgain(cfg: Config, c: Cursor, item: Item, gap: seq<Item>, h: HeadKey)
    requires PlainReview(cfg, item, h) && !Known(c.headSHAs, h)
    requires RunsToEnd(gap)
             && !Carries(cfg, StartLoop(Poll(cfg, c, PollInput(true, [item], true)).0), gap, h)
    ensures var sight, between := PollInput(true, [item], true), PollInput(true, gap, true);
            Owners(Polls(cfg, c, [sight, between, sight]).1, h) >= 2
  {
    var sight, between := PollInput(true, [item], true), PollInput(true, gap, true);
    PlainReviewIsPublished(cfg, c, item, h);
    var (c1, first) := Poll(cfg, c, sight);
    KnownHeadIsKeptIffSettled(cfg, c1, gap, h);
    var (c2, middle) := Poll(cfg, c1, between);
    PlainReviewIsPublished(cfg, c2, item, h);
    var (c3, last) := Poll(cfg, c2, sight);
    ThreePolls(cfg, c, sight, between, sight);
    assert multiset(first)[ReviewPublished(h)] == 1;
    assert multiset(last)[ReviewPublished(h)] == 1;
    assert multiset(first + middle + last) == multiset(first) + multiset(middle) + multiset(last);
  }

  lemma ThreePolls(cfg: Config, c: Cursor, a: PollInput, b: PollInput, d: PollInput)
    ensures var (c1, first) := Poll(cfg, c, a);
            var (c2, second) := Poll(cfg, c1, b);
            var (c3, third) := Poll(cfg, c2, d);
            Polls(cfg, c, [a, b, d]) == (c3, first + second + third)
  {
    var inputs := [a, b, d];
    assert inputs[..2] == [a, b] && [a, b][..1] == [a] && [a][..0] == [];
    var (c1, first) := Poll(cfg, c, a);
    assert Polls(cfg, c, [a]) == (c1, [] + first);
    assert [] + first == first;
  }
}
