/**
 What one visit of a poll does, read off what GitHub, the trust check, the coalescer and the ledger answer: everything
 it does to the outside, everything it remembers, and how it counts for the cursor.
 */
module PollLaws {
  import opened Common
  import opened PollSpec
  import opened PollArming

  /* ---------- the conditions ---------- */

  /** A go update of a bot that conflicts. */
  predicate Outdated(pr: PullRequest, d: Details) {
    && |d.headRef| >= 14 && d.headRef[..14] == "fix/update-go-"
    && |pr.author| >= 5 && pr.author[|pr.author| - 5..] == "[bot]" && d.mergeable == Dirty
  }

  predicate Marked(tag: string, pr: PullRequest) {
    tag != "" && tag in pr.labels
  }

  /** The override label settles the head: its override is known, or its author is trusted. */
  predicate Overrides(cfg: Config, b: Batch, pr: PullRequest, h: HeadKey, o: Oracle) {
    Marked(cfg.overrideLabel, pr) && (OverrideTask(h) in b.headSHAs || o.overrideTrust == Trusted)
  }

  /** Nothing speaks for the head yet, neither a label nor an earlier task. */
  predicate Fresh(cfg: Config, b: Batch, pr: PullRequest, h: HeadKey, o: Oracle) {
    !Overrides(cfg, b, pr, h, o) && OverrideTask(h) !in b.headSHAs && ReviewTask(h) !in b.headSHAs
  }

  predicate Listed(cfg: Config, pr: PullRequest) {
    cfg.autoMergeLabel != "" && pr.author in cfg.mechanicalOverrideAuthors
  }

  /** The author is trusted, the repository opts in, and the files are trivial. */
  predicate Passes(cfg: Config, pr: PullRequest, o: Oracle) {
    Listed(cfg, pr) && o.gateTrust == Trusted && o.gateOptIn == Some(true) && o.gateFiles == Some(true)
  }

  /** The first answer the gate needs and cannot get: trust, then the opt-in, then the files. */
  predicate Unreadable(cfg: Config, pr: PullRequest, o: Oracle) {
    Listed(cfg, pr)
    && (o.gateTrust == TrustError
        || (o.gateTrust == Trusted
            && (o.gateOptIn == None || (o.gateOptIn == Some(true) && o.gateFiles == None))))
  }

  predicate CanArm(cfg: Config, pr: PullRequest, o: Oracle) {
    cfg.autoMergeLabel in pr.labels || o.addLabelOk
  }

  function Count(b: Batch, h: HeadKey): int {
    if h in b.deferrals then b.deferrals[h] else 0
  }

  predicate Approves(cfg: Config, b: Batch, pr: PullRequest, h: HeadKey, o: Oracle) {
    Fresh(cfg, b, pr, h, o) && Passes(cfg, pr, o) && CanArm(cfg, pr, o)
  }

  predicate Postpones(cfg: Config, b: Batch, pr: PullRequest, h: HeadKey, o: Oracle) {
    Fresh(cfg, b, pr, h, o) && Unreadable(cfg, pr, o) && Count(b, h) < 3
  }

  /** The head is left to the review path. */
  predicate Reviews(cfg: Config, b: Batch, pr: PullRequest, h: HeadKey, o: Oracle) {
    Fresh(cfg, b, pr, h, o) && !Approves(cfg, b, pr, h, o) && !Postpones(cfg, b, pr, h, o)
  }

  predicate SendsOverride(cfg: Config, b: Batch, pr: PullRequest, h: HeadKey, o: Oracle) {
    Marked(cfg.overrideLabel, pr) && OverrideTask(h) !in b.headSHAs && o.overrideTrust == Trusted && o.overrideSendOk
  }

  predicate SendsApprove(cfg: Config, b: Batch, pr: PullRequest, h: HeadKey, o: Oracle) {
    Approves(cfg, b, pr, h, o) && o.mechanicalSendOk
  }

  predicate SendsReview(cfg: Config, b: Batch, pr: PullRequest, h: HeadKey, o: Oracle) {
    Reviews(cfg, b, pr, h, o) && o.decision.Emit? && !o.suppressed && o.createTrust != TrustError && o.createSendOk
  }

  /* ---------- the dedupe step ---------- */

  /** What the step publishes and attempts, in order. */
  function Claimed(cfg: Config, b: Batch, pr: PullRequest, h: HeadKey, o: Oracle): seq<Effect> {
    var labels := Fresh(cfg, b, pr, h, o) && Passes(cfg, pr, o) && cfg.autoMergeLabel !in pr.labels;
    If(SendsOverride(cfg, b, pr, h, o), OverridePublished(h))
    + If(labels, LabelAttempt(pr.key)) + If(labels && o.addLabelOk && o.rearmTrust == Trusted, ArmAttempt(pr.key))
    + If(SendsApprove(cfg, b, pr, h, o), MechanicalPublished(h))
    + If(SendsReview(cfg, b, pr, h, o), ReviewPublished(h)) + If(SendsReview(cfg, b, pr, h, o), MarkedEmitted(h))
  }

  /** Tasks that are new: published, or settled by a record of another producer. */
  function Learned(cfg: Config, b: Batch, pr: PullRequest, h: HeadKey, o: Oracle): set<TaskId> {
    (if SendsOverride(cfg, b, pr, h, o) || SendsApprove(cfg, b, pr, h, o) then {OverrideTask(h)} else {})
    + (if SendsReview(cfg, b, pr, h, o) || (Reviews(cfg, b, pr, h, o) && o.decision.Settled?) then {ReviewTask(h)}
       else {})
  }

  /** Tasks that were known and are kept for the next poll. */
  function Kept(cfg: Config, b: Batch, pr: PullRequest, h: HeadKey, o: Oracle): set<TaskId> {
    if OverrideTask(h) in b.headSHAs then {OverrideTask(h)}
    else if ReviewTask(h) in b.headSHAs && !Overrides(cfg, b, pr, h, o) then {ReviewTask(h)}
    else {}
  }

  function With(ids: map<TaskId, string>, more: set<TaskId>, sha: string): map<TaskId, string> {
    ids + map id | id in more :: sha
  }

  function DeferralsAfter(cfg: Config, b: Batch, pr: PullRequest, h: HeadKey, o: Oracle): map<HeadKey, int> {
    if Overrides(cfg, b, pr, h, o) then b.deferrals
    else if Postpones(cfg, b, pr, h, o) then b.deferrals[h := Count(b, h) + 1]
    else b.deferrals - {h}
  }

  /** Handled: something speaks for the head, or it waits for its gate. */
  predicate Settled(cfg: Config, b: Batch, pr: PullRequest, h: HeadKey, o: Oracle) {
    Reviews(cfg, b, pr, h, o) ==> o.decision.Settled? || SendsReview(cfg, b, pr, h, o)
  }

  predicate Waits(cfg: Config, b: Batch, pr: PullRequest, h: HeadKey, o: Oracle) {
    Postpones(cfg, b, pr, h, o) || (Reviews(cfg, b, pr, h, o) && o.decision.Hold?)
  }

  function DecidedOutcome(cfg: Config, b: Batch, pr: PullRequest, h: HeadKey, o: Oracle): Outcome {
    var settled := Settled(cfg, b, pr, h, o);
    Outcome(if settled then pr.updatedAt else 0, settled, Waits(cfg, b, pr, h, o))
  }

  function DecidedBatch(cfg: Config, b: Batch, pr: PullRequest, h: HeadKey, o: Oracle): Batch {
    var learned := Learned(cfg, b, pr, h, o);
    b.(headSHAs := With(b.headSHAs, learned, h.sha),
       newHeadSHAs := With(b.newHeadSHAs, learned + Kept(cfg, b, pr, h, o), h.sha),
       deferrals := DeferralsAfter(cfg, b, pr, h, o),
       effects := b.effects + Claimed(cfg, b, pr, h, o))
  }

  lemma WithOne(ids: map<TaskId, string>, id: TaskId, sha: string)
    ensures With(ids, {id}, sha) == ids[id := sha]
    ensures With(ids, {}, sha) == ids
  {
  }

  predicate DecidesAsStated(cfg: Config, b: Batch, pr: PullRequest, h: HeadKey, o: Oracle) {
    Decide(cfg, b, pr, h.sha, o) == (DecidedBatch(cfg, b, pr, h, o), DecidedOutcome(cfg, b, pr, h, o))
  }

  lemma OverriddenIsStated(cfg: Config, b: Batch, pr: PullRequest, h: HeadKey, o: Oracle)
    requires h.pr == pr.key && Overrides(cfg, b, pr, h, o)
    ensures DecidesAsStated(cfg, b, pr, h, o)
  {
    var sends := SendsOverride(cfg, b, pr, h, o);
    var id := OverrideTask(h);
    assert Learned(cfg, b, pr, h, o) == if sends then {id} else {};
    assert Learned(cfg, b, pr, h, o) + Kept(cfg, b, pr, h, o) == if sends || id in b.headSHAs then {id} else {};
    assert b.effects + Claimed(cfg, b, pr, h, o) == b.effects + If(sends, OverridePublished(h));
    NothingIsEmpty(b.effects);
    WithOne(b.headSHAs, id, h.sha);
    WithOne(b.newHeadSHAs, id, h.sha);
  }

  lemma NothingIsEmpty(effects: seq<Effect>)
    ensures effects + [] == effects
  {
  }

  lemma KnownIsStated(cfg: Config, b: Batch, pr: PullRequest, h: HeadKey, o: Oracle)
    requires h.pr == pr.key && !Overrides(cfg, b, pr, h, o) && !Fresh(cfg, b, pr, h, o)
    ensures DecidesAsStated(cfg, b, pr, h, o)
  {
    var id := if OverrideTask(h) in b.headSHAs then OverrideTask(h) else ReviewTask(h);
    assert TryOverride(cfg, b, pr, h.sha, o) == (b, false);
    assert Learned(cfg, b, pr, h, o) == {} && {} + Kept(cfg, b, pr, h, o) == {id};
    assert Claimed(cfg, b, pr, h, o) == [];
    NothingIsEmpty(b.effects);
    WithOne(b.headSHAs, id, h.sha);
    WithOne(b.newHeadSHAs, id, h.sha);
  }

  lemma QualifyIsStated(cfg: Config, pr: PullRequest, o: Oracle)
    ensures Qualify(cfg, pr, o) == if Passes(cfg, pr, o) then Qualifies
                                   else if Unreadable(cfg, pr, o) then Indeterminate else DoesNotQualify
  {
  }

  /** What comes before an approve that still needs its label. */
  function Prepared(cfg: Config, pr: PullRequest, o: Oracle): seq<Effect> {
    var labels := cfg.autoMergeLabel !in pr.labels;
    If(labels, LabelAttempt(pr.key)) + If(labels && o.rearmTrust == Trusted, ArmAttempt(pr.key))
  }

  lemma SendingIsStated(b: Batch, h: HeadKey, o: Oracle)
    ensures var more := if o.mechanicalSendOk then {OverrideTask(h)} else {};
            SendMechanical(b, h, o)
            == b.(headSHAs := With(b.headSHAs, more, h.sha), newHeadSHAs := With(b.newHeadSHAs, more, h.sha),
                  effects := b.effects + If(o.mechanicalSendOk, MechanicalPublished(h)))
  {
    WithOne(b.headSHAs, OverrideTask(h), h.sha);
    WithOne(b.newHeadSHAs, OverrideTask(h), h.sha);
    NothingIsEmpty(b.effects);
  }

  lemma ApproveIsSent(cfg: Config, b: Batch, pr: PullRequest, h: HeadKey, o: Oracle)
    requires h.pr == pr.key && Approves(cfg, b, pr, h, o)
    ensures TryMechanicalOverride(cfg, b, pr, h.sha, o)
         == (SendMechanical(b.(effects := b.effects + Prepared(cfg, pr, o)), h, o), OverrideHandled)
  {
    QualifyIsStated(cfg, pr, o);
    NothingIsEmpty(b.effects);
    if cfg.autoMergeLabel !in pr.labels {
      var labelled := [LabelAttempt(pr.key)];
      TwoParts(b.effects, labelled, If(o.rearmTrust == Trusted, ArmAttempt(pr.key)));
      NothingIsEmpty(labelled);
      NothingIsEmpty(b.effects + labelled);
    } else {
      NothingIsEmpty([]);
    }
  }

  lemma ApprovedIsStated(cfg: Config, b: Batch, pr: PullRequest, h: HeadKey, o: Oracle)
    requires h.pr == pr.key && Approves(cfg, b, pr, h, o)
    ensures DecidesAsStated(cfg, b, pr, h, o)
  {
    assert TryOverride(cfg, b, pr, h.sha, o) == (b, false);
    ApproveIsSent(cfg, b, pr, h, o);
    SendingIsStated(b.(effects := b.effects + Prepared(cfg, pr, o)), h, o);
    ApproveIsClaimed(cfg, b, pr, h, o);
    TwoParts(b.effects, Prepared(cfg, pr, o), If(o.mechanicalSendOk, MechanicalPublished(h)));
  }

  lemma TwoParts(x: seq<Effect>, a: seq<Effect>, b: seq<Effect>)
    ensures x + a + b == x + (a + b)
  {
  }

  lemma ApproveIsClaimed(cfg: Config, b: Batch, pr: PullRequest, h: HeadKey, o: Oracle)
    requires h.pr == pr.key && Approves(cfg, b, pr, h, o)
    ensures Claimed(cfg, b, pr, h, o) == Prepared(cfg, pr, o) + If(o.mechanicalSendOk, MechanicalPublished(h))
    ensures Learned(cfg, b, pr, h, o) == if o.mechanicalSendOk then {OverrideTask(h)} else {}
    ensures Learned(cfg, b, pr, h, o) + Kept(cfg, b, pr, h, o) == Learned(cfg, b, pr, h, o)
  {
  }

  lemma PostponedIsStated(cfg: Config, b: Batch, pr: PullRequest, h: HeadKey, o: Oracle)
    requires h.pr == pr.key && Postpones(cfg, b, pr, h, o)
    ensures DecidesAsStated(cfg, b, pr, h, o)
  {
    QualifyIsStated(cfg, pr, o);
    assert TryOverride(cfg, b, pr, h.sha, o) == (b, false);
    assert Learned(cfg, b, pr, h, o) == {} && {} + Kept(cfg, b, pr, h, o) == {};
    assert Claimed(cfg, b, pr, h, o) == [];
    NothingIsEmpty(b.effects);
    WithOne(b.headSHAs, ReviewTask(h), h.sha);
    WithOne(b.newHeadSHAs, ReviewTask(h), h.sha);
  }

  /** On the review path only the label may have been tried before. */
  lemma ReviewIsReached(cfg: Config, b: Batch, pr: PullRequest, h: HeadKey, o: Oracle) returns (b2: Batch)
    requires h.pr == pr.key && Reviews(cfg, b, pr, h, o)
    ensures b2 == b.(deferrals := b.deferrals - {h}, effects := b2.effects)
    ensures b2.effects == b.effects + If(Passes(cfg, pr, o) && cfg.autoMergeLabel !in pr.labels, LabelAttempt(pr.key))
    ensures Decide(cfg, b, pr, h.sha, o) == PublishReviewOutcome(b2, pr, h.sha, o)
  {
    QualifyIsStated(cfg, pr, o);
    assert TryOverride(cfg, b, pr, h.sha, o) == (b, false);
    b2 := MechanicalOutcome(cfg, b, pr, h.sha, o).0;
  }

  lemma ReviewedIsStated(cfg: Config, b: Batch, pr: PullRequest, h: HeadKey, o: Oracle)
    requires h.pr == pr.key && Reviews(cfg, b, pr, h, o)
    ensures DecidesAsStated(cfg, b, pr, h, o)
  {
    var b2 := ReviewIsReached(cfg, b, pr, h, o);
    var sends, id := SendsReview(cfg, b, pr, h, o), ReviewTask(h);
    assert Learned(cfg, b, pr, h, o) + Kept(cfg, b, pr, h, o) == Learned(cfg, b, pr, h, o)
        == if sends || o.decision.Settled? then {id} else {};
    WithOne(b.headSHAs, id, h.sha);
    WithOne(b.newHeadSHAs, id, h.sha);
    ReviewedClaims(cfg, b, pr, h, o, b2);
  }

  lemma ReviewedClaims(cfg: Config, b: Batch, pr: PullRequest, h: HeadKey, o: Oracle, b2: Batch)
    requires h.pr == pr.key && Reviews(cfg, b, pr, h, o)
    requires b2.effects == b.effects + If(Passes(cfg, pr, o) && cfg.autoMergeLabel !in pr.labels, LabelAttempt(pr.key))
    ensures PublishReviewOutcome(b2, pr, h.sha, o).0.effects == b.effects + Claimed(cfg, b, pr, h, o)
  {
    var sends := SendsReview(cfg, b, pr, h, o);
    var labels := If(Passes(cfg, pr, o) && cfg.autoMergeLabel !in pr.labels, LabelAttempt(pr.key));
    var reviews := If(sends, ReviewPublished(h)) + If(sends, MarkedEmitted(h));
    assert Claimed(cfg, b, pr, h, o) == labels + reviews;
    assert PublishReviewOutcome(b2, pr, h.sha, o).0.effects == b.effects + labels + reviews;
  }

  /** The dedupe step does, remembers and reports exactly what is stated above. */
  lemma DecideIsStated(cfg: Config, b: Batch, pr: PullRequest, h: HeadKey, o: Oracle)
    requires h.pr == pr.key
    ensures Decide(cfg, b, pr, h.sha, o) == (DecidedBatch(cfg, b, pr, h, o), DecidedOutcome(cfg, b, pr, h, o))
  {
    if Overrides(cfg, b, pr, h, o) {
      OverriddenIsStated(cfg, b, pr, h, o);
    } else if !Fresh(cfg, b, pr, h, o) {
      KnownIsStated(cfg, b, pr, h, o);
    } else if Approves(cfg, b, pr, h, o) {
      ApprovedIsStated(cfg, b, pr, h, o);
    } else if Postpones(cfg, b, pr, h, o) {
      PostponedIsStated(cfg, b, pr, h, o);
    } else {
      ReviewedIsStated(cfg, b, pr, h, o);
    }
  }

  /* ---------- the whole visit ---------- */

  /** The details a visit works with: those of the first visit of the poll, if it got any. */
  function Shown(b: Batch, pr: PullRequest, o: Oracle): Option<Details> {
    if pr.key in b.detailsCache then Some(b.detailsCache[pr.key]) else o.details
  }

  predicate Visits(b: Batch, pr: PullRequest, o: Oracle) {
    !o.filtered && Shown(b, pr, o).Some? && Shown(b, pr, o).value.headSHA != ""
  }

  function Head(b: Batch, pr: PullRequest, o: Oracle): HeadKey
    requires Visits(b, pr, o)
  {
    HeadKey(pr.key, Shown(b, pr, o).value.headSHA)
  }

  /** The visit closes the pull request and does nothing more. */
  predicate Closes(pr: PullRequest, d: Details, o: Oracle) {
    Outdated(pr, d) && o.supersedeTrust == Trusted && o.closeOk
  }

  /** The label of the trivial flow. */
  function LabelTried(cfg: Config, pr: PullRequest, o: Oracle): seq<Effect> {
    If(cfg.trivialAutoMergeEnabled && cfg.autoMergeLabel !in pr.labels
       && o.trivialOptIn == Some(true) && o.trivialFiles == Some(true), LabelAttempt(pr.key))
  }

  function CloseTried(pr: PullRequest, d: Details, o: Oracle): seq<Effect> {
    If(Outdated(pr, d) && o.supersedeTrust == Trusted, CloseAttempt(pr.key))
  }

  /** Refreshing a labelled pull request that is behind or conflicts, and arming it. */
  function ArmTried(cfg: Config, site: PullRequest, d: Details, o: Oracle): seq<Effect> {
    var armable := Marked(cfg.autoMergeLabel, site);
    If(armable && !Outdated(site, d) && (d.mergeable == Behind || d.mergeable == Dirty) && o.updateTrust == Trusted,
       UpdateAttempt(site.key))
    + If(armable && o.armTrust == Trusted, ArmAttempt(site.key))
  }

  /** What a visit tries before the dedupe step, in order. */
  function Attempted(cfg: Config, pr: PullRequest, d: Details, o: Oracle): seq<Effect> {
    LabelTried(cfg, pr, o) + CloseTried(pr, d, o)
    + if Closes(pr, d, o) then [] else ArmTried(cfg, AtSite(cfg, pr, o), d, o)
  }

  /** The batch as the dedupe step finds it. */
  function Tried(cfg: Config, b: Batch, pr: PullRequest, d: Details, o: Oracle): Batch {
    b.(detailsCache := b.detailsCache[pr.key := d], sideEffectsRun := b.sideEffectsRun + {pr.key},
       effects := b.effects + Attempted(cfg, pr, d, o))
  }

  /** What the dedupe step, or a close instead of it, makes of that. */
  function Ended(cfg: Config, tried: Batch, pr: PullRequest, d: Details, o: Oracle): (Batch, Outcome) {
    var h, site := HeadKey(pr.key, d.headSHA), AtSite(cfg, pr, o);
    if Closes(pr, d, o)
    then (tried.(headSHAs := tried.headSHAs[ReviewTask(h) := h.sha],
                 newHeadSHAs := tried.newHeadSHAs[ReviewTask(h) := h.sha]),
          Outcome(pr.updatedAt, true, false))
    else (DecidedBatch(cfg, tried, site, h, o), DecidedOutcome(cfg, tried, site, h, o))
  }

  function Visited(cfg: Config, b: Batch, pr: PullRequest, o: Oracle): (Batch, Outcome)
    requires Visits(b, pr, o)
  {
    var d := Shown(b, pr, o).value;
    Ended(cfg, Tried(cfg, b, pr, d, o), pr, d, o)
  }

  lemma OutdatedIsSuperseded(pr: PullRequest, d: Details)
    ensures IsSupersededDepBump(pr, d) <==> Outdated(pr, d)
  {
    assert |UPDATE_GO_BRANCH_PREFIX| == 14 && |BOT_LOGIN_SUFFIX| == 5;
  }

  lemma ClosingIsTried(cfg: Config, b: Batch, pr: PullRequest, d: Details, o: Oracle)
    ensures var (b1, site) := Labelled(cfg, b, pr, o);
            var (b2, closed) := TrySupersede(b1.(sideEffectsRun := b1.sideEffectsRun + {pr.key}), site, d, o);
            && site == AtSite(cfg, pr, o) && (closed <==> Closes(pr, d, o))
            && b2 == b.(sideEffectsRun := b.sideEffectsRun + {pr.key},
                        effects := b.effects + LabelTried(cfg, pr, o) + CloseTried(pr, d, o))
  {
    var (b1, site) := Labelled(cfg, b, pr, o);
    LabelIsTried(cfg, b, pr, o);
    OutdatedIsSuperseded(site, d);
    assert Closes(site, d, o) <==> Closes(pr, d, o);
    NothingIsEmpty(b.effects + LabelTried(cfg, pr, o));
  }

  lemma LabelIsTried(cfg: Config, b: Batch, pr: PullRequest, o: Oracle)
    ensures Labelled(cfg, b, pr, o) == (b.(effects := b.effects + LabelTried(cfg, pr, o)), AtSite(cfg, pr, o))
  {
    NothingIsEmpty(b.effects);
  }

  lemma ArmingIsTried(cfg: Config, b: Batch, site: PullRequest, d: Details, o: Oracle)
    ensures TryAutoMerge(cfg, TryUpdateBranch(cfg, b, site, d, o.updateTrust), site, o.armTrust)
         == b.(effects := b.effects + ArmTried(cfg, site, d, o))
  {
    OutdatedIsSuperseded(site, d);
    NothingIsEmpty(b.effects);
  }

  lemma ClosedIsStated(cfg: Config, b: Batch, pr: PullRequest, d: Details, o: Oracle)
    requires Closes(pr, d, o)
    ensures var cached := b.(detailsCache := b.detailsCache[pr.key := d]);
            ProcessDetails(cfg, cached, pr, d, o) == Ended(cfg, Tried(cfg, b, pr, d, o), pr, d, o)
  {
    var cached := b.(detailsCache := b.detailsCache[pr.key := d]);
    var (b1, site) := Labelled(cfg, cached, pr, o);
    var b2 := TrySupersede(b1.(sideEffectsRun := b1.sideEffectsRun + {pr.key}), site, d, o).0;
    ClosingIsTried(cfg, cached, pr, d, o);
    assert b2.effects == b.effects + Attempted(cfg, pr, d, o);
    assert b2 == Tried(cfg, b, pr, d, o);
  }

  lemma OpenIsStated(cfg: Config, b: Batch, pr: PullRequest, d: Details, o: Oracle)
    requires !Closes(pr, d, o)
    ensures var cached := b.(detailsCache := b.detailsCache[pr.key := d]);
            ProcessDetails(cfg, cached, pr, d, o) == Ended(cfg, Tried(cfg, b, pr, d, o), pr, d, o)
  {
    var cached := b.(detailsCache := b.detailsCache[pr.key := d]);
    var h, site := HeadKey(pr.key, d.headSHA), AtSite(cfg, pr, o);
    var b4 := ReachedBatch(cfg, cached, pr, d, o);
    TriedIsReached(cfg, b, pr, d, o);
    DecideIsStated(cfg, b4, site, h, o);
  }

  function ReachedBatch(cfg: Config, b: Batch, pr: PullRequest, d: Details, o: Oracle): Batch {
    var (b1, site) := Labelled(cfg, b, pr, o);
    var (b2, closed) := TrySupersede(b1.(sideEffectsRun := b1.sideEffectsRun + {pr.key}), site, d, o);
    TryAutoMerge(cfg, TryUpdateBranch(cfg, b2, site, d, o.updateTrust), site, o.armTrust)
  }

  lemma TriedIsReached(cfg: Config, b: Batch, pr: PullRequest, d: Details, o: Oracle)
    requires !Closes(pr, d, o)
    ensures var cached := b.(detailsCache := b.detailsCache[pr.key := d]);
            && ReachedBatch(cfg, cached, pr, d, o) == Tried(cfg, b, pr, d, o)
            && ProcessDetails(cfg, cached, pr, d, o)
               == Decide(cfg, ReachedBatch(cfg, cached, pr, d, o), AtSite(cfg, pr, o), d.headSHA, o)
  {
    var cached, site := b.(detailsCache := b.detailsCache[pr.key := d]), AtSite(cfg, pr, o);
    var b2 := b.(detailsCache := b.detailsCache[pr.key := d], sideEffectsRun := b.sideEffectsRun + {pr.key},
                 effects := b.effects + LabelTried(cfg, pr, o) + CloseTried(pr, d, o));
    ClosingIsTried(cfg, cached, pr, d, o);
    ArmingIsTried(cfg, b2, site, d, o);
    ThreeParts(b.effects, LabelTried(cfg, pr, o), CloseTried(pr, d, o), ArmTried(cfg, site, d, o));
  }

  lemma ThreeParts(x: seq<Effect>, a: seq<Effect>, b: seq<Effect>, c: seq<Effect>)
    ensures x + a + b + c == x + (a + b + c)
  {
  }

  /** A visit does, remembers and reports exactly what is stated above; one that is filtered, or is shown no head, does
      nothing and counts for nothing. */
  lemma VisitIsStated(cfg: Config, b: Batch, pr: PullRequest, o: Oracle)
    ensures Visits(b, pr, o) ==> ProcessPR(cfg, b, pr, o) == Visited(cfg, b, pr, o)
    ensures !Visits(b, pr, o) ==> ProcessPR(cfg, b, pr, o).1 == Outcome(0, false, false)
                                  && ProcessPR(cfg, b, pr, o).0
                                     == b.(detailsCache := ProcessPR(cfg, b, pr, o).0.detailsCache)
  {
    if Visits(b, pr, o) {
      var d := Shown(b, pr, o).value;
      if Closes(pr, d, o) {
        ClosedIsStated(cfg, b, pr, d, o);
      } else {
        OpenIsStated(cfg, b, pr, d, o);
      }
      VisitStarts(cfg, b, pr, o);
    }
  }

  lemma VisitStarts(cfg: Config, b: Batch, pr: PullRequest, o: Oracle)
    requires Visits(b, pr, o)
    ensures var d := Shown(b, pr, o).value;
            ProcessPR(cfg, b, pr, o) == ProcessDetails(cfg, b.(detailsCache := b.detailsCache[pr.key := d]), pr, d, o)
  {
  }
}
