/**
 Arm before approve: what one visit does to the outside, in order. An approve is a mechanical override;
 arming is the attempt to enable GitHub's auto-merge.
 */
module PollArming {
  import opened Common
  import opened PollSpec
  import opened PollOwner

  function If(condition: bool, e: Effect): seq<Effect> {
    if condition then [e] else []
  }

  /** What a mechanical-override attempt may do: nothing, label only, or label if needed, arm and send. */
  predicate MechanicalTrace(cfg: Config, pr: PullRequest, head: HeadKey, o: Oracle, t: seq<Effect>) {
    var send := If(o.mechanicalSendOk, MechanicalPublished(head));
    t == [] || t == [LabelAttempt(pr.key)]
    || (Qualify(cfg, pr, o).Qualifies?
        && t == if cfg.autoMergeLabel in pr.labels then send
                else [LabelAttempt(pr.key)] + If(o.rearmTrust.Trusted?, ArmAttempt(pr.key)) + send)
  }

  /** What may follow a mechanical-override attempt, or replace it. */
  predicate OtherTrace(head: HeadKey, t: seq<Effect>) {
    t == [] || t == [OverridePublished(head)] || t == [ReviewPublished(head), MarkedEmitted(head)]
  }

  lemma TryMechanicalDoes(cfg: Config, b: Batch, pr: PullRequest, sha: string, o: Oracle) returns (t: seq<Effect>)
    ensures TryMechanicalOverride(cfg, b, pr, sha, o).0.effects == b.effects + t
    ensures MechanicalTrace(cfg, pr, HeadKey(pr.key, sha), o, t)
  {
    var head := HeadKey(pr.key, sha);
    var send := If(o.mechanicalSendOk, MechanicalPublished(head));
    if Known(b.headSHAs, head) || !Qualify(cfg, pr, o).Qualifies? {
      t := [];
    } else if cfg.autoMergeLabel in pr.labels {
      t := send;
    } else if !o.addLabelOk {
      t := [LabelAttempt(pr.key)];
    } else {
      t := [LabelAttempt(pr.key)] + If(o.rearmTrust.Trusted?, ArmAttempt(pr.key)) + send;
    }
  }

  lemma PublishReviewDoes(b: Batch, pr: PullRequest, sha: string, o: Oracle) returns (r: seq<Effect>)
    ensures PublishReviewOutcome(b, pr, sha, o).0.effects == b.effects + r
    ensures OtherTrace(HeadKey(pr.key, sha), r)
  {
    var head := HeadKey(pr.key, sha);
    r := if o.decision.Emit? && CreatePublishes(o) then [ReviewPublished(head), MarkedEmitted(head)] else [];
  }

  lemma DecideDoes(cfg: Config, b: Batch, pr: PullRequest, sha: string, o: Oracle)
    returns (m: seq<Effect>, r: seq<Effect>)
    ensures Decide(cfg, b, pr, sha, o).0.effects == b.effects + m + r
    ensures MechanicalTrace(cfg, pr, HeadKey(pr.key, sha), o, m) && OtherTrace(HeadKey(pr.key, sha), r)
  {
    var head := HeadKey(pr.key, sha);
    var (b1, overridden) := TryOverride(cfg, b, pr, sha, o);
    if overridden {
      m, r := [], If(b1.effects != b.effects, OverridePublished(head));
    } else {
      m := TryMechanicalDoes(cfg, b, pr, sha, o);
      var (b2, outcome) := MechanicalOutcome(cfg, b, pr, sha, o);
      assert b2.effects == b.effects + m;
      r := [];
      if !outcome.handled && ReviewTask(head) !in b2.headSHAs {
        r := PublishReviewDoes(b2, pr, sha, o);
      }
    }
  }

  /** Before the arming: labelling, closing and refreshing. */
  predicate SideEffects(t: seq<Effect>, key: PRKey) {
    forall i :: 0 <= i < |t| ==> t[i] == LabelAttempt(key) || t[i] == CloseAttempt(key) || t[i] == UpdateAttempt(key)
  }

  /** The pull request with the labels in force at its two arming sites. */
  function AtSite(cfg: Config, pr: PullRequest, o: Oracle): PullRequest {
    if cfg.trivialAutoMergeEnabled && cfg.autoMergeLabel !in pr.labels
       && o.trivialOptIn == Some(true) && o.trivialFiles == Some(true) && o.trivialLabelOk
    then pr.(labels := pr.labels + [cfg.autoMergeLabel]) else pr
  }

  /** The trust check made at the place where this visit would arm the pull request. */
  function ArmingTrust(cfg: Config, pr: PullRequest, o: Oracle): Trust {
    if cfg.autoMergeLabel in AtSite(cfg, pr, o).labels then o.armTrust else o.rearmTrust
  }

  /** The label is there from the start or was written before. */
  predicate LabelThere(cfg: Config, pr: PullRequest, before: seq<Effect>) {
    cfg.autoMergeLabel in pr.labels || LabelAttempt(pr.key) in before
  }

  lemma LabelledDoes(cfg: Config, b: Batch, pr: PullRequest, o: Oracle) returns (s: seq<Effect>)
    ensures Labelled(cfg, b, pr, o).0.effects == b.effects + s && Labelled(cfg, b, pr, o).1 == AtSite(cfg, pr, o)
    ensures s == [] || s == [LabelAttempt(pr.key)]
    ensures cfg.autoMergeLabel in AtSite(cfg, pr, o).labels ==> LabelThere(cfg, pr, s)
  {
    s := If(Labelled(cfg, b, pr, o).0.effects != b.effects, LabelAttempt(pr.key));
  }

  /** Everything one visit does, in four parts: side effects, arming, mechanical override, the rest. */
  predicate Parts(cfg: Config, pr: PullRequest, o: Oracle, head: HeadKey,
                  s: seq<Effect>, a: seq<Effect>, m: seq<Effect>, r: seq<Effect>) {
    var site := AtSite(cfg, pr, o);
    && SideEffects(s, pr.key) && OtherTrace(head, r) && head.pr == pr.key && MechanicalTrace(cfg, site, head, o, m)
    && (a == [] || a == [ArmAttempt(pr.key)])
    && (m != [] || a != [] ==> a == If(Armable(cfg, site.labels) && o.armTrust.Trusted?, ArmAttempt(pr.key)))
    && ((a != [] || m != []) && cfg.autoMergeLabel in site.labels ==> LabelThere(cfg, pr, s))
  }

  lemma SideEffectsDo(cfg: Config, b: Batch, pr: PullRequest, d: Details, o: Oracle) returns (s: seq<Effect>)
    ensures var (b1, site) := Labelled(cfg, b, pr, o);
            var (b2, closed) := TrySupersede(b1.(sideEffectsRun := b1.sideEffectsRun + {pr.key}), site, d, o);
            && site == AtSite(cfg, pr, o)
            && (if closed then b2 else TryUpdateBranch(cfg, b2, site, d, o.updateTrust)).effects == b.effects + s
    ensures SideEffects(s, pr.key) && (cfg.autoMergeLabel in AtSite(cfg, pr, o).labels ==> LabelThere(cfg, pr, s))
  {
    var (b1, site) := Labelled(cfg, b, pr, o);
    var (b2, closed) := TrySupersede(b1.(sideEffectsRun := b1.sideEffectsRun + {pr.key}), site, d, o);
    var b3 := if closed then b2 else TryUpdateBranch(cfg, b2, site, d, o.updateTrust);
    var labelled := LabelledDoes(cfg, b, pr, o);
    var close := If(IsSupersededDepBump(site, d) && o.supersedeTrust.Trusted?, CloseAttempt(pr.key));
    assert b2.effects == b.effects + labelled + close;
    var update := If(|b3.effects| != |b2.effects|, UpdateAttempt(pr.key));
    assert b3.effects == b2.effects + update;
    s := labelled + close + update;
  }

  lemma ProcessDetailsDoes(cfg: Config, b: Batch, pr: PullRequest, d: Details, o: Oracle)
    returns (s: seq<Effect>, a: seq<Effect>, m: seq<Effect>, r: seq<Effect>)
    ensures Parts(cfg, pr, o, HeadKey(pr.key, d.headSHA), s, a, m, r)
    ensures ProcessDetails(cfg, b, pr, d, o).0.effects == b.effects + s + a + m + r
  {
    var (b1, site) := Labelled(cfg, b, pr, o);
    var (b2, closed) := TrySupersede(b1.(sideEffectsRun := b1.sideEffectsRun + {pr.key}), site, d, o);
    s := SideEffectsDo(cfg, b, pr, d, o);
    a, m, r := [], [], [];
    if !closed {
      var b3 := TryUpdateBranch(cfg, b2, site, d, o.updateTrust);
      var b4 := TryAutoMerge(cfg, b3, site, o.armTrust);
      a := If(Armable(cfg, site.labels) && o.armTrust.Trusted?, ArmAttempt(pr.key));
      assert b4.effects == b3.effects + a;
      m, r := DecideDoes(cfg, b4, site, d.headSHA, o);
    }
  }

  lemma ProcessPRDoes(cfg: Config, b: Batch, pr: PullRequest, o: Oracle)
    returns (head: HeadKey, s: seq<Effect>, a: seq<Effect>, m: seq<Effect>, r: seq<Effect>)
    ensures Parts(cfg, pr, o, head, s, a, m, r)
    ensures ProcessPR(cfg, b, pr, o).0.effects == b.effects + s + a + m + r
  {
    var details := DetailsFor(b, pr, o);
    if o.filtered || details.None? || details.value.headSHA == "" {
      head, s, a, m, r := HeadKey(pr.key, ""), [], [], [], [];
    } else {
      head := HeadKey(pr.key, details.value.headSHA);
      var cached := b.(detailsCache := b.detailsCache[pr.key := details.value]);
      s, a, m, r := ProcessDetailsDoes(cfg, cached, pr, details.value, o);
    }
  }

  /** Before the approve itself comes everything else the mechanical override did. */
  lemma ApproveIsLast(cfg: Config, site: PullRequest, head: HeadKey, o: Oracle, m: seq<Effect>, i: nat)
    requires MechanicalTrace(cfg, site, head, o, m) && i < |m| && m[i].MechanicalPublished?
    ensures m[i] == MechanicalPublished(head) && o.gateTrust.Trusted? && cfg.autoMergeLabel != ""
    ensures ArmAttempt(site.key) in m[..i] <==> cfg.autoMergeLabel !in site.labels && o.rearmTrust.Trusted?
  {
    var arm := If(o.rearmTrust.Trusted?, ArmAttempt(site.key));
    if cfg.autoMergeLabel in site.labels {
      assert m[..i] == [];
    } else {
      assert m[..i] == [LabelAttempt(site.key)] + arm;
    }
  }

  lemma ApproveAfterArming(cfg: Config, pr: PullRequest, o: Oracle, head: HeadKey, s: seq<Effect>, a: seq<Effect>,
                           m: seq<Effect>, r: seq<Effect>, i: nat)
    requires Parts(cfg, pr, o, head, s, a, m, r)
    requires i < |s + a + m + r| && (s + a + m + r)[i].MechanicalPublished?
    ensures (s + a + m + r)[i] == MechanicalPublished(head) && o.gateTrust.Trusted?
    ensures ArmAttempt(pr.key) in (s + a + m + r)[..i] <==> ArmingTrust(cfg, pr, o).Trusted?
  {
    var t, n := s + a + m + r, |s| + |a|;
    assert n <= i < n + |m| && t[i] == m[i - n];
    ApproveIsLast(cfg, AtSite(cfg, pr, o), head, o, m, i - n);
    assert t[..i] == s + a + m[..i - n];
    assert ArmAttempt(pr.key) !in s;
  }

  lemma ArmingIsLabelled(cfg: Config, pr: PullRequest, o: Oracle, head: HeadKey, s: seq<Effect>, a: seq<Effect>,
                         m: seq<Effect>, r: seq<Effect>, i: nat)
    requires Parts(cfg, pr, o, head, s, a, m, r)
    requires i < |s + a + m + r| && (s + a + m + r)[i] == ArmAttempt(pr.key)
    ensures LabelThere(cfg, pr, (s + a + m + r)[..i])
  {
    var t, n := s + a + m + r, |s| + |a|;
    assert |s| <= i < n + |m|;
    if i < n {
      assert t[..i] == s + a[..i - |s|];
    } else {
      assert t[i] == m[i - n] && t[n] == m[0] && m[0] == LabelAttempt(pr.key);
      assert t[..i][n] == LabelAttempt(pr.key);
    }
  }

  lemma ArmsAtMostOnce(cfg: Config, pr: PullRequest, o: Oracle, head: HeadKey, s: seq<Effect>, a: seq<Effect>,
                       m: seq<Effect>, r: seq<Effect>)
    requires Parts(cfg, pr, o, head, s, a, m, r)
    ensures multiset(s + a + m + r)[ArmAttempt(pr.key)] <= 1
  {
    var arm := ArmAttempt(pr.key);
    assert arm !in s && arm !in r;
    assert multiset(s + a + m + r) == multiset(s) + multiset(a) + multiset(m) + multiset(r);
    assert multiset(s)[arm] == 0 && multiset(r)[arm] == 0;
    assert multiset(a)[arm] <= 1 && multiset(m)[arm] <= 1;
    assert a == [] || multiset(m)[arm] == 0;
  }

  /** One visit arms at most once and only a pull request that has or was just given the label, and an approve
      has its arming before it exactly when the author is trusted at the arming site. */
  lemma ArmBeforeApprove(cfg: Config, b: Batch, pr: PullRequest, o: Oracle, t: seq<Effect>)
    requires ProcessPR(cfg, b, pr, o).0.effects == b.effects + t
    ensures multiset(t)[ArmAttempt(pr.key)] <= 1
    ensures forall i :: 0 <= i < |t| && t[i] == ArmAttempt(pr.key) ==> LabelThere(cfg, pr, t[..i])
    ensures forall i :: 0 <= i < |t| && t[i].MechanicalPublished? ==>
              t[i].head.pr == pr.key && o.gateTrust.Trusted?
              && (ArmAttempt(pr.key) in t[..i] <==> ArmingTrust(cfg, pr, o).Trusted?)
  {
    var head, s, a, m, r := ProcessPRDoes(cfg, b, pr, o);
    assert t == (b.effects + t)[|b.effects|..];
    FourParts(b.effects, s, a, m, r);
    assert t == s + a + m + r;
    ArmsAtMostOnce(cfg, pr, o, head, s, a, m, r);
    forall i | 0 <= i < |t| && t[i] == ArmAttempt(pr.key)
      ensures LabelThere(cfg, pr, t[..i])
    {
      ArmingIsLabelled(cfg, pr, o, head, s, a, m, r, i);
    }
    forall i | 0 <= i < |t| && t[i].MechanicalPublished?
      ensures t[i] == MechanicalPublished(head) && o.gateTrust.Trusted?
      ensures ArmAttempt(pr.key) in t[..i] <==> ArmingTrust(cfg, pr, o).Trusted?
    {
      ApproveAfterArming(cfg, pr, o, head, s, a, m, r, i);
    }
  }

  /* ---------- whole runs ---------- */

  /** The trust check gives one answer for an author during a visit. */
  predicate TrustIsConstant(o: Oracle) {
    o.armTrust == o.gateTrust && o.rearmTrust == o.gateTrust
  }

  /** Every approve has an arming attempt on its pull request before it. */
  predicate ApprovesAreArmed(effects: seq<Effect>) {
    forall i :: 0 <= i < |effects| && effects[i].MechanicalPublished? ==>
      ArmAttempt(effects[i].head.pr) in effects[..i]
  }

  lemma ApprovesAreArmedConcat(a: seq<Effect>, b: seq<Effect>)
    requires ApprovesAreArmed(a) && ApprovesAreArmed(b)
    ensures ApprovesAreArmed(a + b)
  {
    forall i | 0 <= i < |a + b| && (a + b)[i].MechanicalPublished?
      ensures ArmAttempt((a + b)[i].head.pr) in (a + b)[..i]
    {
      if i < |a| {
        assert (a + b)[..i] == a[..i];
      } else {
        assert (a + b)[..i] == a + b[..i - |a|];
      }
    }
  }

  lemma ConstantTrustArms(cfg: Config, b: Batch, pr: PullRequest, o: Oracle, t: seq<Effect>)
    requires TrustIsConstant(o) && ProcessPR(cfg, b, pr, o).0.effects == b.effects + t
    ensures ApprovesAreArmed(t)
  {
    ArmBeforeApprove(cfg, b, pr, o, t);
    forall i | 0 <= i < |t| && t[i].MechanicalPublished?
      ensures ArmAttempt(t[i].head.pr) in t[..i]
    {
      assert ArmingTrust(cfg, pr, o) == o.gateTrust;
    }
  }

  lemma VisitDoes(cfg: Config, b: Batch, pr: PullRequest, o: Oracle) returns (t: seq<Effect>)
    ensures ProcessPR(cfg, b, pr, o).0.effects == b.effects + t
  {
    var head, s, a, m, r := ProcessPRDoes(cfg, b, pr, o);
    t := s + a + m + r;
    FourParts(b.effects, s, a, m, r);
  }

  lemma FourParts(x: seq<Effect>, s: seq<Effect>, a: seq<Effect>, m: seq<Effect>, r: seq<Effect>)
    ensures x + s + a + m + r == x + (s + a + m + r)
  {
  }

  lemma VisitIsArmed(cfg: Config, b: Batch, pr: PullRequest, o: Oracle)
    requires TrustIsConstant(o) && ApprovesAreArmed(b.effects)
    ensures ApprovesAreArmed(ProcessPR(cfg, b, pr, o).0.effects)
  {
    var t := VisitDoes(cfg, b, pr, o);
    ConstantTrustArms(cfg, b, pr, o, t);
    ApprovesAreArmedConcat(b.effects, t);
  }

  lemma {:induction false} LoopIsArmed(cfg: Config, l: Loop, items: seq<Item>)
    requires forall i :: 0 <= i < |items| ==> TrustIsConstant(items[i].oracle)
    requires ApprovesAreArmed(l.batch.effects)
    ensures ApprovesAreArmed(VisitAll(cfg, l, items).0.batch.effects)
    decreases |items|
  {
    if items != [] && !items[0].cancelled {
      VisitIsArmed(cfg, l.batch, items[0].pr, items[0].oracle);
      LoopIsArmed(cfg, Visit(cfg, l, items[0]), items[1..]);
    }
  }

  /** In every run of polls, finished or not, saved or not, no approve is published for a pull request that
      nobody tried to arm before. */
  lemma {:induction false} NoStrandedApprove(cfg: Config, c: Cursor, inputs: seq<PollInput>)
    requires forall n, i :: 0 <= n < |inputs| && 0 <= i < |inputs[n].items| ==>
               TrustIsConstant(inputs[n].items[i].oracle)
    ensures ApprovesAreArmed(Polls(cfg, c, inputs).1)
  {
    if inputs != [] {
      var n := |inputs| - 1;
      NoStrandedApprove(cfg, c, inputs[..n]);
      var (before, past) := Polls(cfg, c, inputs[..n]);
      LoopIsArmed(cfg, StartLoop(before), inputs[n].items);
      ApprovesAreArmedConcat(past, Poll(cfg, before, inputs[n]).1);
    }
  }

  /* ---------- when trust is not constant ---------- */

  const LABELLED_BOT := Config("", "auto-merge", false, ["bot"])

  /** A labelled pull request of a listed bot that passes the gate, with a given answer at the arming site. */
  function Bump(armTrust: Trust): Item {
    Item(PullRequest(PRKey("o", "r", 1), "bot", ["auto-merge"], 0),
         Oracle(false, Some(Details("c0ffee", 0, "feature", OtherState)), None, None, false, Untrusted, false,
                Untrusted, armTrust, Untrusted, false, Trusted, Some(true), Some(true), false, Untrusted, true,
                Coalesce.Hold, false, Trusted, true),
         false)
  }

  /** The concrete visit in which an approve lands without any arming: the trust check fails at the arming site
      and succeeds at the gate. */
  lemma ApproveCanLandUnarmed()
    ensures var item := Bump(TrustError);
            var b := StartLoop(Cursor(0, map[], map[])).batch;
            ProcessPR(LABELLED_BOT, b, item.pr, item.oracle).0.effects
            == [MechanicalPublished(HeadKey(PRKey("o", "r", 1), "c0ffee"))]
  {
    var item := Bump(TrustError);
    var b, o, d := StartLoop(Cursor(0, map[], map[])).batch, item.oracle, item.oracle.details.value;
    var cached := b.(detailsCache := b.detailsCache[item.pr.key := d]);
    assert ProcessPR(LABELLED_BOT, b, item.pr, o) == ProcessDetails(LABELLED_BOT, cached, item.pr, d, o);
    var marked := cached.(sideEffectsRun := cached.sideEffectsRun + {item.pr.key});
    assert ProcessDetails(LABELLED_BOT, cached, item.pr, d, o) == Decide(LABELLED_BOT, marked, item.pr, "c0ffee", o);
    assert Qualify(LABELLED_BOT, item.pr, o).Qualifies?;
  }
}
