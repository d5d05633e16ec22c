/** The disruption score: nine independent contributions, summed and
    clamped at 100. */
module Score {
  import opened Answers

  /** One scoring rule each; every rule contributes once or not at all. */
  datatype Factor =
    | CapitalGainsReform
    | ExitTaxExposure
    | DigitalInvoicingGap
    | CrossBorderReporting
    | MissingPortal
    | MissingTimeTracking
    | MissingAutomation
    | InternationalShare
    | CorporateShare

  const ScoreCap := 100

  /** What one rule contributes for the given answers. */
  function Points(f: Factor, d: AnswerModel): nat {
    var mix, dm := d.clientMix, d.digitalMaturity;
    match f
    case CapitalGainsReform =>
      if HasTag(d, CapitalGainsTag) then (if mix.corporate > 30 then 20 else 15) else 0
    case ExitTaxExposure =>
      if HasTag(d, ExitTaxTag) then (if mix.international > 20 then 18 else 12) else 0
    case DigitalInvoicingGap =>
      if HasTag(d, DigitalInvoicingTag) || mix.sme > 40 then (if !dm.eInvoicing then 15 else 5) else 0
    case CrossBorderReporting =>
      if HasTag(d, CrossBorderTag) || !IsBelgiumOnly(d.geographicScope)
      then (if d.geographicScope == Global then 12 else 8) else 0
    case MissingPortal => if !HasPortal(dm.portal) then 8 else 0
    case MissingTimeTracking => if !dm.timeTracking then 10 else 0
    case MissingAutomation => if !dm.automation then 5 else 0
    case InternationalShare => if mix.international > 30 then 7 else 0
    case CorporateShare => if mix.corporate > 50 then 5 else 0
  }

  /** Each rule's contribution written out, so that callers need not
      unfold `Points` under several branches of their own. */
  lemma PointsByRule(d: AnswerModel)
    ensures Points(CapitalGainsReform, d) == if HasTag(d, CapitalGainsTag) then (if d.clientMix.corporate > 30 then 20 else 15) else 0
    ensures Points(ExitTaxExposure, d) == if HasTag(d, ExitTaxTag) then (if d.clientMix.international > 20 then 18 else 12) else 0
    ensures Points(DigitalInvoicingGap, d) == if HasTag(d, DigitalInvoicingTag) || d.clientMix.sme > 40 then (if !d.digitalMaturity.eInvoicing then 15 else 5) else 0
    ensures Points(CrossBorderReporting, d) == if HasTag(d, CrossBorderTag) || d.geographicScope != BelgiumOnly then (if d.geographicScope == Global then 12 else 8) else 0
    ensures Points(MissingPortal, d) == if !HasPortal(d.digitalMaturity.portal) then 8 else 0
    ensures Points(MissingTimeTracking, d) == if !d.digitalMaturity.timeTracking then 10 else 0
    ensures Points(MissingAutomation, d) == if !d.digitalMaturity.automation then 5 else 0
    ensures Points(InternationalShare, d) == if d.clientMix.international > 30 then 7 else 0
    ensures Points(CorporateShare, d) == if d.clientMix.corporate > 50 then 5 else 0
  {
  }

  /** The largest contribution a rule can make. */
  function MaxPoints(f: Factor): nat {
    match f
    case CapitalGainsReform => 20
    case ExitTaxExposure => 18
    case DigitalInvoicingGap => 15
    case CrossBorderReporting => 12
    case MissingPortal => 8
    case MissingTimeTracking => 10
    case MissingAutomation => 5
    case InternationalShare => 7
    case CorporateShare => 5
  }

  /** The unclamped sum: every rule contributes once. */
  function RawScore(d: AnswerModel): nat {
    Points(CapitalGainsReform, d) + Points(ExitTaxExposure, d) + Points(DigitalInvoicingGap, d)
    + Points(CrossBorderReporting, d) + Points(MissingPortal, d) + Points(MissingTimeTracking, d)
    + Points(MissingAutomation, d) + Points(InternationalShare, d) + Points(CorporateShare, d)
  }

  /** `Math.min(raw, 100)`; the rounding before it is the identity on
      integers. */
  function Clamp(raw: int): int {
    if raw < ScoreCap then raw else ScoreCap
  }

  /** The disruption score. */
  function DisruptionScore(d: AnswerModel): (score: int)
    ensures 0 <= score <= ScoreCap
  {
    Clamp(RawScore(d))
  }

  /** No rule contributes more than its maximum. */
  lemma PointsAtMostMax(f: Factor, d: AnswerModel)
    ensures Points(f, d) <= MaxPoints(f)
  {
  }

  /** The nine maxima add up to exactly the cap. */
  lemma MaximaSumToCap()
    ensures MaxPoints(CapitalGainsReform) + MaxPoints(ExitTaxExposure) + MaxPoints(DigitalInvoicingGap)
          + MaxPoints(CrossBorderReporting) + MaxPoints(MissingPortal) + MaxPoints(MissingTimeTracking)
          + MaxPoints(MissingAutomation) + MaxPoints(InternationalShare) + MaxPoints(CorporateShare)
         == ScoreCap
  {
  }

  /** All nine maxima are reached at once by answers that pass the
      client-mix gate, so 100 is the least bound of the unclamped sum. */
  lemma MaximumReached()
    ensures MixComplete(ClientMix(0, 51, 49))
    ensures RawScore(AnswerModel(
              ClientMix(0, 51, 49), [CapitalGainsTag, ExitTaxTag, DigitalInvoicingTag, CrossBorderTag],
              DigitalMaturity(No, false, false, false), Global)) == ScoreCap
  {
  }

  /** The clamp never changes the sum: the unclamped total is already at
      most 100. */
  lemma ClampNeverBinds(d: AnswerModel)
    ensures RawScore(d) <= ScoreCap
    ensures DisruptionScore(d) == RawScore(d)
  {
    forall f: Factor ensures Points(f, d) <= MaxPoints(f) {
      PointsAtMostMax(f, d);
    }
    MaximaSumToCap();
  }

  /** Answers `d2` expose the firm at least as much as `d1`, rule by rule. */
  ghost predicate Dominates(d2: AnswerModel, d1: AnswerModel) {
    forall f: Factor :: Points(f, d1) <= Points(f, d2)
  }

  /** Rule-by-rule domination carries over to the score. */
  lemma ScoreMonotone(d1: AnswerModel, d2: AnswerModel)
    requires Dominates(d2, d1)
    ensures DisruptionScore(d1) <= DisruptionScore(d2)
  {
    assert Points(CapitalGainsReform, d1) <= Points(CapitalGainsReform, d2);
    assert Points(ExitTaxExposure, d1) <= Points(ExitTaxExposure, d2);
    assert Points(DigitalInvoicingGap, d1) <= Points(DigitalInvoicingGap, d2);
    assert Points(CrossBorderReporting, d1) <= Points(CrossBorderReporting, d2);
    assert Points(MissingPortal, d1) <= Points(MissingPortal, d2);
    assert Points(MissingTimeTracking, d1) <= Points(MissingTimeTracking, d2);
    assert Points(MissingAutomation, d1) <= Points(MissingAutomation, d2);
    assert Points(InternationalShare, d1) <= Points(InternationalShare, d2);
    assert Points(CorporateShare, d1) <= Points(CorporateShare, d2);
  }

  /** Dropping e-invoicing never lowers the score. */
  lemma WithoutEInvoicingNeverLower(d: AnswerModel)
    ensures DisruptionScore(d) <= DisruptionScore(d.(digitalMaturity := d.digitalMaturity.(eInvoicing := false)))
  {
    ScoreMonotone(d, d.(digitalMaturity := d.digitalMaturity.(eInvoicing := false)));
  }

  /** Dropping time tracking never lowers the score. */
  lemma WithoutTimeTrackingNeverLower(d: AnswerModel)
    ensures DisruptionScore(d) <= DisruptionScore(d.(digitalMaturity := d.digitalMaturity.(timeTracking := false)))
  {
    ScoreMonotone(d, d.(digitalMaturity := d.digitalMaturity.(timeTracking := false)));
  }

  /** Dropping automation tools never lowers the score. */
  lemma WithoutAutomationNeverLower(d: AnswerModel)
    ensures DisruptionScore(d) <= DisruptionScore(d.(digitalMaturity := d.digitalMaturity.(automation := false)))
  {
    ScoreMonotone(d, d.(digitalMaturity := d.digitalMaturity.(automation := false)));
  }

  /** Replacing the portal answer by a falsy one (no, or unselected) never
      lowers the score. */
  lemma WithoutPortalNeverLower(d: AnswerModel, p: Portal)
    requires p != Yes
    ensures DisruptionScore(d) <= DisruptionScore(d.(digitalMaturity := d.digitalMaturity.(portal := p)))
  {
    ScoreMonotone(d, d.(digitalMaturity := d.digitalMaturity.(portal := p)));
  }

  /** An unselected portal scores exactly like an explicit no. */
  lemma UnknownPortalScoresAsNo(d: AnswerModel)
    ensures DisruptionScore(d.(digitalMaturity := d.digitalMaturity.(portal := Unknown)))
         == DisruptionScore(d.(digitalMaturity := d.digitalMaturity.(portal := No)))
  {
    var u := d.(digitalMaturity := d.digitalMaturity.(portal := Unknown));
    var n := d.(digitalMaturity := d.digitalMaturity.(portal := No));
    PointsByRule(u);
    PointsByRule(n);
  }

  /** An unselected scope is not Belgian-only, so it scores exactly like a
      European scope. */
  lemma UnselectedScopeScoresAsEurope(d: AnswerModel)
    ensures DisruptionScore(d.(geographicScope := Unselected)) == DisruptionScore(d.(geographicScope := Europe))
  {
    var u := d.(geographicScope := Unselected);
    var e := d.(geographicScope := Europe);
    PointsByRule(u);
    PointsByRule(e);
  }

  /** The score computed as the source does: a running sum, one `if` per
      rule, then the clamp at 100. */
  method ComputeDisruptionScore(d: AnswerModel) returns (score: int)
    ensures score == DisruptionScore(d)
  {
    var mix, dm := d.clientMix, d.digitalMaturity;
    PointsByRule(d);
    score := 0;
    if HasTag(d, CapitalGainsTag) {
      score := score + (if mix.corporate > 30 then 20 else 15);
    }
    assert score == Points(CapitalGainsReform, d);
    if HasTag(d, ExitTaxTag) {
      score := score + (if mix.international > 20 then 18 else 12);
    }
    assert score == Points(CapitalGainsReform, d) + Points(ExitTaxExposure, d);
    ghost var sum := score;
    if HasTag(d, DigitalInvoicingTag) || mix.sme > 40 {
      var digitalGap := if !dm.eInvoicing then 15 else 5;
      score := score + digitalGap;
    }
    assert score == sum + Points(DigitalInvoicingGap, d);
    sum := score;
    if HasTag(d, CrossBorderTag) || d.geographicScope != BelgiumOnly {
      score := score + (if d.geographicScope == Global then 12 else 8);
    }
    assert score == sum + Points(CrossBorderReporting, d);
    sum := score;
    if !HasPortal(dm.portal) { score := score + 8; }
    assert score == sum + Points(MissingPortal, d);
    sum := score;
    if !dm.timeTracking { score := score + 10; }
    assert score == sum + Points(MissingTimeTracking, d);
    sum := score;
    if !dm.automation { score := score + 5; }
    assert score == sum + Points(MissingAutomation, d);
    sum := score;
    if mix.international > 30 { score := score + 7; }
    assert score == sum + Points(InternationalShare, d);
    sum := score;
    if mix.corporate > 50 { score := score + 5; }
    assert score == sum + Points(CorporateShare, d);
    sum := score;
    assert score == RawScore(d);
    score := Clamp(score);
  }

  /** Capital gains with corporate at most 30 (15), SME above 40 without
      e-invoicing (15), no portal (8), no time tracking (10), no automation
      (5), Belgian-only scope: 53. */
  lemma ScoreOfMixedPractice()
    ensures DisruptionScore(AnswerModel(
              ClientMix(50, 30, 20), [CapitalGainsTag],
              DigitalMaturity(Unknown, false, false, false), BelgiumOnly)) == 53
  {
  }

  /** No tags, every tool present, Belgian-only scope, an empty mix: 0. */
  lemma ScoreOfFullyEquippedPractice()
    ensures DisruptionScore(AnswerModel(
              ClientMix(0, 0, 0), [], DigitalMaturity(Yes, true, true, true), BelgiumOnly)) == 0
  {
  }

  /** Corporate-only capital-gains practice, fully equipped, Belgian-only:
      20 for capital gains plus 5 for the corporate share. */
  lemma ScoreOfCorporatePractice()
    ensures DisruptionScore(AnswerModel(
              ClientMix(0, 100, 0), [CapitalGainsTag], DigitalMaturity(Yes, true, true, true), BelgiumOnly)) == 25
  {
  }

  /** The initial record scores 31: an unselected scope triggers the
      cross-border rule (8), plus no portal, time tracking or automation. */
  lemma ScoreOfInitialAnswers()
    ensures DisruptionScore(Initial) == 31
  {
  }
}
