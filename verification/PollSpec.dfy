/**
 One poll of pkg/watcher.go as functions on values: the decision for each pull request, the loop over a
 batch, and the cursor it leaves. Every answer of GitHub, Kafka, the trust check, the filters and the
 coalescer is an arbitrary oracle, given once per question asked.
 */
module PollSpec {
  import opened Common
  import Coalesce = CoalesceSpec

  const MAX_DEFERRAL_ATTEMPTS: nat := 3
  const UPDATE_GO_BRANCH_PREFIX := "fix/update-go-"
  const BOT_LOGIN_SUFFIX := "[bot]"

  /** The identifiers the watcher derives; `TaskKeys` shows that their keys never collide. */
  datatype TaskId = ReviewTask(head: HeadKey) | OverrideTask(head: HeadKey)

  datatype MergeState = Behind | Dirty | OtherState

  datatype PullRequest = PullRequest(key: PRKey, author: string, labels: seq<string>, updatedAt: Time)

  datatype Details = Details(headSHA: string, updatedAt: Time, headRef: string, mergeable: MergeState)

  /** A trust check: trusted, not trusted, or the check itself failed. */
  datatype Trust = Trusted | Untrusted | TrustError

  datatype Config = Config(
    overrideLabel: string,
    autoMergeLabel: string,
    trivialAutoMergeEnabled: bool,
    mechanicalOverrideAuthors: seq<string>)

  /** The answers to every question `processPR` may ask about one pull request. A failed read is `None`. */
  datatype Oracle = Oracle(
    filtered: bool,
    details: Option<Details>,
    trivialOptIn: Option<bool>,
    trivialFiles: Option<bool>,
    trivialLabelOk: bool,
    supersedeTrust: Trust,
    closeOk: bool,
    updateTrust: Trust,
    armTrust: Trust,
    overrideTrust: Trust,
    overrideSendOk: bool,
    gateTrust: Trust,
    gateOptIn: Option<bool>,
    gateFiles: Option<bool>,
    addLabelOk: bool,
    rearmTrust: Trust,
    mechanicalSendOk: bool,
    decision: Coalesce.Decision,
    suppressed: bool,
    createTrust: Trust,
    createSendOk: bool)

  /** What a poll does to the outside, in order. Attempts are listed whether or not they succeed. */
  datatype Effect =
    | LabelAttempt(key: PRKey)
    | CloseAttempt(key: PRKey)
    | UpdateAttempt(key: PRKey)
    | ArmAttempt(key: PRKey)
    | ReviewPublished(head: HeadKey)
    | OverridePublished(head: HeadKey)
    | MechanicalPublished(head: HeadKey)
    | MarkedEmitted(head: HeadKey)

  datatype Outcome = Outcome(updatedAt: Time, handled: bool, deferred: bool)

  const UNHANDLED := Outcome(0, false, false)

  function Handled(pr: PullRequest): Outcome {
    Outcome(pr.updatedAt, true, false)
  }

  datatype Qualification = Indeterminate | DoesNotQualify | Qualifies

  datatype OverrideOutcome = NotHandled | OverrideHandled | OverrideDeferred

  /** The maps one poll works on: `headSHAs` and `deferrals` belong to the loaded cursor, the rest is the
      batch's own. `effects` is the history the proofs talk about. */
  datatype Batch = Batch(
    headSHAs: map<TaskId, string>,
    deferrals: map<HeadKey, int>,
    newHeadSHAs: map<TaskId, string>,
    detailsCache: map<PRKey, Details>,
    sideEffectsRun: set<PRKey>,
    effects: seq<Effect>)

  function Did(b: Batch, e: Effect): Batch {
    b.(effects := b.effects + [e])
  }

  /** Records a task id in both cursor maps. */
  function Remember(b: Batch, id: TaskId): Batch {
    b.(headSHAs := b.headSHAs[id := id.head.sha], newHeadSHAs := b.newHeadSHAs[id := id.head.sha])
  }

  /** Carries a task id that is already known into the next cursor. */
  function Carry(b: Batch, id: TaskId): Batch {
    b.(newHeadSHAs := b.newHeadSHAs[id := id.head.sha])
  }

  predicate IsPrefix(prefix: string, s: string) {
    |prefix| <= |s| && s[..|prefix|] == prefix
  }

  predicate IsSuffix(suffix: string, s: string) {
    |suffix| <= |s| && s[|s| - |suffix|..] == suffix
  }

  predicate IsSupersededDepBump(pr: PullRequest, d: Details) {
    IsPrefix(UPDATE_GO_BRANCH_PREFIX, d.headRef) && IsSuffix(BOT_LOGIN_SUFFIX, pr.author) && d.mergeable.Dirty?
  }

  predicate StaleMergeState(s: MergeState) {
    s.Behind? || s.Dirty?
  }

  /** The pull request carries the auto-merge label, and that path is enabled. */
  predicate Armable(cfg: Config, labels: seq<string>) {
    cfg.autoMergeLabel != "" && cfg.autoMergeLabel in labels
  }

  function TryAutoMerge(cfg: Config, b: Batch, pr: PullRequest, trust: Trust): Batch {
    if Armable(cfg, pr.labels) && trust.Trusted? then Did(b, ArmAttempt(pr.key)) else b
  }

  function TryUpdateBranch(cfg: Config, b: Batch, pr: PullRequest, d: Details, trust: Trust): Batch {
    if Armable(cfg, pr.labels) && !IsSupersededDepBump(pr, d) && StaleMergeState(d.mergeable) && trust.Trusted?
    then Did(b, UpdateAttempt(pr.key)) else b
  }

  function TrySupersede(b: Batch, pr: PullRequest, d: Details, o: Oracle): (Batch, bool) {
    if IsSupersededDepBump(pr, d) && o.supersedeTrust.Trusted?
    then (Did(b, CloseAttempt(pr.key)), o.closeOk) else (b, false)
  }

  function MaybeLabelTrivial(b: Batch, pr: PullRequest, o: Oracle): (Batch, bool) {
    if o.trivialOptIn == Some(true) && o.trivialFiles == Some(true)
    then (Did(b, LabelAttempt(pr.key)), o.trivialLabelOk) else (b, false)
  }

  function TryOverride(cfg: Config, b: Batch, pr: PullRequest, sha: string, o: Oracle): (Batch, bool) {
    var id := OverrideTask(HeadKey(pr.key, sha));
    if cfg.overrideLabel == "" || cfg.overrideLabel !in pr.labels then (b, false)
    else if id in b.headSHAs then (Carry(b, id), true)
    else if !o.overrideTrust.Trusted? then (b, false)
    else if !o.overrideSendOk then (b, true)
    else (Remember(Did(b, OverridePublished(id.head)), id), true)
  }

  function Qualify(cfg: Config, pr: PullRequest, o: Oracle): Qualification {
    if cfg.autoMergeLabel == "" then DoesNotQualify
    else if pr.author !in cfg.mechanicalOverrideAuthors then DoesNotQualify
    else if o.gateTrust.TrustError? then Indeterminate
    else if o.gateTrust.Untrusted? then DoesNotQualify
    else if o.gateOptIn.None? then Indeterminate
    else if !o.gateOptIn.value then DoesNotQualify
    else if o.gateFiles.None? then Indeterminate
    else if !o.gateFiles.value then DoesNotQualify
    else Qualifies
  }

  function TryMechanicalOverride(cfg: Config, b: Batch, pr: PullRequest, sha: string, o: Oracle): (Batch,
                                 OverrideOutcome) {
    var head := HeadKey(pr.key, sha);
    if OverrideTask(head) in b.headSHAs then (Carry(b, OverrideTask(head)), OverrideHandled)
    else if ReviewTask(head) in b.headSHAs then (b, NotHandled)
    else match Qualify(cfg, pr, o)
      case Indeterminate => (b, OverrideDeferred)
      case DoesNotQualify => (b, NotHandled)
      case Qualifies =>
        if cfg.autoMergeLabel in pr.labels then (SendMechanical(b, head, o), OverrideHandled)
        else
          var labelled := Did(b, LabelAttempt(pr.key));
          if !o.addLabelOk then (labelled, NotHandled)
          else
            var pr' := pr.(labels := pr.labels + [cfg.autoMergeLabel]);
            (SendMechanical(TryAutoMerge(cfg, labelled, pr', o.rearmTrust), head, o), OverrideHandled)
  }

  function SendMechanical(b: Batch, head: HeadKey, o: Oracle): Batch {
    if o.mechanicalSendOk then Remember(Did(b, MechanicalPublished(head)), OverrideTask(head)) else b
  }

  function MechanicalOutcome(cfg: Config, b: Batch, pr: PullRequest, sha: string, o: Oracle): (Batch, Outcome) {
    var key := HeadKey(pr.key, sha);
    var (b', tried) := TryMechanicalOverride(cfg, b, pr, sha, o);
    var count := if key in b'.deferrals then b'.deferrals[key] + 1 else 1;
    var cleared := b'.(deferrals := b'.deferrals - {key});
    match tried
    case OverrideHandled => (cleared, Handled(pr))
    case OverrideDeferred =>
      if count <= MAX_DEFERRAL_ATTEMPTS
      then (b'.(deferrals := b'.deferrals[key := count]), Outcome(pr.updatedAt, true, true))
      else (cleared, UNHANDLED)
    case NotHandled => (cleared, UNHANDLED)
  }

  /** `PublishCreate`: refused for a head an override owns, and nothing sent on a trust or send error. */
  predicate CreatePublishes(o: Oracle) {
    !o.suppressed && !o.createTrust.TrustError? && o.createSendOk
  }

  function PublishReviewOutcome(b: Batch, pr: PullRequest, sha: string, o: Oracle): (Batch, Outcome) {
    var head := HeadKey(pr.key, sha);
    match o.decision
    case Settled => (Remember(b, ReviewTask(head)), Handled(pr))
    case Hold => (b, Outcome(0, false, true))
    case Emit =>
      if CreatePublishes(o)
      then (Remember(Did(Did(b, ReviewPublished(head)), MarkedEmitted(head)), ReviewTask(head)), Handled(pr))
      else (b, UNHANDLED)
  }

  /** The dedupe step: override, mechanical override, already reviewed, or a new review. */
  function Decide(cfg: Config, b: Batch, pr: PullRequest, sha: string, o: Oracle): (Batch, Outcome) {
    var head := HeadKey(pr.key, sha);
    var (b1, overridden) := TryOverride(cfg, b, pr, sha, o);
    if overridden then (b1, Handled(pr))
    else
      var (b2, outcome) := MechanicalOutcome(cfg, b1, pr, sha, o);
      if outcome.handled then (b2, outcome)
      else if ReviewTask(head) in b2.headSHAs then (Carry(b2, ReviewTask(head)), Handled(pr))
      else PublishReviewOutcome(b2, pr, sha, o)
  }

  /** The details this poll works with: fetched once per pull request, then cached. */
  function DetailsFor(b: Batch, pr: PullRequest, o: Oracle): Option<Details> {
    if pr.key in b.detailsCache then Some(b.detailsCache[pr.key]) else o.details
  }

  /** Labels after the automatic trivial flow. */
  function Labelled(cfg: Config, b: Batch, pr: PullRequest, o: Oracle): (Batch, PullRequest) {
    if cfg.trivialAutoMergeEnabled && cfg.autoMergeLabel !in pr.labels then
      var (b', labelled) := MaybeLabelTrivial(b, pr, o);
      (b', if labelled then pr.(labels := pr.labels + [cfg.autoMergeLabel]) else pr)
    else (b, pr)
  }

  function ProcessPR(cfg: Config, b: Batch, pr: PullRequest, o: Oracle): (Batch, Outcome) {
    var details := DetailsFor(b, pr, o);
    if o.filtered || details.None? then (b, UNHANDLED)
    else
      var d := details.value;
      var cached := b.(detailsCache := b.detailsCache[pr.key := d]);
      if d.headSHA == "" then (cached, UNHANDLED) else ProcessDetails(cfg, cached, pr, d, o)
  }

  function ProcessDetails(cfg: Config, b: Batch, pr: PullRequest, d: Details, o: Oracle): (Batch, Outcome) {
    var (b1, pr1) := Labelled(cfg, b, pr, o);
    var (b2, closed) := TrySupersede(b1.(sideEffectsRun := b1.sideEffectsRun + {pr.key}), pr1, d, o);
    if closed then (Remember(b2, ReviewTask(HeadKey(pr.key, d.headSHA))), Handled(pr))
    else
      var b3 := TryUpdateBranch(cfg, b2, pr1, d, o.updateTrust);
      Decide(cfg, TryAutoMerge(cfg, b3, pr1, o.armTrust), pr1, d.headSHA, o)
  }

  /* ---------- the loop and the cursor ---------- */

  /** One search result with its oracle; `cancelled` says the poll was cancelled before reaching it. */
  datatype Item = Item(pr: PullRequest, oracle: Oracle, cancelled: bool)

  datatype Loop = Loop(batch: Batch, maxUpdatedAt: Time, deferFloor: Option<Time>)

  function Visit(cfg: Config, l: Loop, item: Item): Loop {
    var (batch, outcome) := ProcessPR(cfg, l.batch, item.pr, item.oracle);
    Loop(batch,
         if outcome.handled && outcome.updatedAt > l.maxUpdatedAt then outcome.updatedAt else l.maxUpdatedAt,
         if outcome.deferred && (l.deferFloor.None? || item.pr.updatedAt < l.deferFloor.value)
         then Some(item.pr.updatedAt) else l.deferFloor)
  }

  /** The loop of `processPRs`; the flag says it ran to the end. */
  function VisitAll(cfg: Config, l: Loop, items: seq<Item>): (Loop, bool)
    decreases |items|
  {
    if items == [] then (l, true)
    else if items[0].cancelled then (l, false)
    else VisitAll(cfg, Visit(cfg, l, items[0]), items[1..])
  }

  datatype Cursor = Cursor(lastUpdatedAt: Time, headSHAs: map<TaskId, string>, deferrals: map<HeadKey, int>)

  /** One poll: whether the search succeeded, what it returned, and whether the cursor could be saved. */
  datatype PollInput = PollInput(searchOk: bool, items: seq<Item>, saveOk: bool)

  function StartLoop(c: Cursor): Loop {
    Loop(Batch(c.headSHAs, c.deferrals, map[], map[], {}, []), c.lastUpdatedAt, None)
  }

  /** `processPRs`: the cursor it leaves, the newest updated-at it may advance to, and what it did. */
  function ProcessPRs(cfg: Config, c: Cursor, items: seq<Item>): (Cursor, Time, seq<Effect>) {
    var (l, completed) := VisitAll(cfg, StartLoop(c), items);
    if !completed then (Cursor(c.lastUpdatedAt, l.batch.headSHAs, l.batch.deferrals), l.maxUpdatedAt, l.batch.effects)
    else
      var clamped := if l.deferFloor.Some? && l.maxUpdatedAt > l.deferFloor.value
                     then l.deferFloor.value else l.maxUpdatedAt;
      (Cursor(c.lastUpdatedAt, l.batch.newHeadSHAs, l.batch.deferrals), clamped, l.batch.effects)
  }

  /** `Poll`: the cursor the next poll loads, and what this one did. */
  function Poll(cfg: Config, c: Cursor, input: PollInput): (Cursor, seq<Effect>) {
    if !input.searchOk then (c, [])
    else
      var (processed, maxUpdatedAt, effects) := ProcessPRs(cfg, c, input.items);
      var advanced := if maxUpdatedAt > c.lastUpdatedAt then processed.(lastUpdatedAt := maxUpdatedAt) else processed;
      (if input.saveOk then advanced else c, effects)
  }
}
