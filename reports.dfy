/** The four reports shown with the score, and the two classifiers the
    results page applies to the score. */
module Reports {
  import opened Answers
  import opened Selection

  // ---------------------------------------------------------------------
  // Risk breakdown

  datatype Level = HighRisk | MediumRisk

  datatype RiskItem = RiskItem(level: Level, text: string)

  const CapitalGainsRisk := RiskItem(HighRisk,
    "Capital Gains Reform (01/01/2026): New corporate capital gains taxation rules")
  const ExitTaxRisk := RiskItem(HighRisk,
    "Exit Tax (07/2025): New declaration and payment obligations on registered office transfers")
  const EInvoicingRisk := RiskItem(HighRisk,
    "B2B E-Invoicing Mandate: Non-compliance with Law of 15 January 2018 implementation orders")
  const TimeTrackingRisk := RiskItem(HighRisk,
    "Time-Tracking Software (RD 12/05/2023): Legal obligation unfulfilled for VAT-registered businesses")
  const Dac7Risk := RiskItem(MediumRisk,
    "DAC7: New reporting obligations for digital platforms and operators")
  const CrossBorderRisk := RiskItem(MediumRisk,
    "Cross-Border Complexity: Increased automatic exchange of tax information")

  /** The six risks in the order the breakdown checks them. */
  const RiskCatalogue := [CapitalGainsRisk, ExitTaxRisk, EInvoicingRisk, TimeTrackingRisk, Dac7Risk, CrossBorderRisk]

  /** A risk's place in the fixed order (6 for an item outside it). */
  function RiskRank(x: RiskItem): int {
    if x == CapitalGainsRisk then 0
    else if x == ExitTaxRisk then 1
    else if x == EInvoicingRisk then 2
    else if x == TimeTrackingRisk then 3
    else if x == Dac7Risk then 4
    else if x == CrossBorderRisk then 5
    else 6
  }

  /** Each risk paired with the answer condition that raises it. */
  function RiskTable(d: AnswerModel): (t: seq<Entry<RiskItem>>)
    ensures |t| == |RiskCatalogue| && forall k :: 0 <= k < |t| ==> t[k].item == RiskCatalogue[k]
  {
    [ Entry(HasTag(d, CapitalGainsTag), CapitalGainsRisk),
      Entry(HasTag(d, ExitTaxTag), ExitTaxRisk),
      Entry(!d.digitalMaturity.eInvoicing, EInvoicingRisk),
      Entry(!d.digitalMaturity.timeTracking, TimeTrackingRisk),
      Entry(!IsBelgiumOnly(d.geographicScope), Dac7Risk),
      Entry(d.clientMix.international > 30, CrossBorderRisk) ]
  }

  /** The risk breakdown: the risks whose condition holds, in table order. */
  function RiskBreakdown(d: AnswerModel): seq<RiskItem> {
    Selected(RiskTable(d))
  }

  /** No condition of the breakdown holds. */
  predicate NoRiskCondition(d: AnswerModel) {
    && !HasTag(d, CapitalGainsTag)
    && !HasTag(d, ExitTaxTag)
    && d.digitalMaturity.eInvoicing
    && d.digitalMaturity.timeTracking
    && IsBelgiumOnly(d.geographicScope)
    && d.clientMix.international <= 30
  }

  /** The six risks are pairwise distinct; each sits at its own rank. */
  lemma RiskCatalogueDistinct()
    ensures forall k :: 0 <= k < |RiskCatalogue| ==> RiskRank(RiskCatalogue[k]) == k
  {
  }

  /** At most six risks, and none exactly when no condition holds. */
  lemma RiskBreakdownSize(d: AnswerModel)
    ensures |RiskBreakdown(d)| <= 6
    ensures RiskBreakdown(d) == [] <==> NoRiskCondition(d)
  {
    var t := RiskTable(d);
    SelectedLength(t);
    SelectedEmpty(t);
    if RiskBreakdown(d) == [] {
      assert !t[0].fires && !t[1].fires && !t[2].fires && !t[3].fires && !t[4].fires && !t[5].fires;
    }
  }

  /** Each risk is listed exactly when its condition holds. */
  lemma RiskBreakdownMembers(d: AnswerModel)
    ensures CapitalGainsRisk in RiskBreakdown(d) <==> HasTag(d, CapitalGainsTag)
    ensures ExitTaxRisk in RiskBreakdown(d) <==> HasTag(d, ExitTaxTag)
    ensures EInvoicingRisk in RiskBreakdown(d) <==> !d.digitalMaturity.eInvoicing
    ensures TimeTrackingRisk in RiskBreakdown(d) <==> !d.digitalMaturity.timeTracking
    ensures Dac7Risk in RiskBreakdown(d) <==> !IsBelgiumOnly(d.geographicScope)
    ensures CrossBorderRisk in RiskBreakdown(d) <==> d.clientMix.international > 30
  {
    var t := RiskTable(d);
    RiskCatalogueDistinct();
    SelectedMember(t, 0);
    SelectedMember(t, 1);
    SelectedMember(t, 2);
    SelectedMember(t, 3);
    SelectedMember(t, 4);
    SelectedMember(t, 5);
  }

  /** The listed risks keep the fixed order, so every high risk comes
      before every medium one; nothing outside the six is ever listed. */
  lemma RiskBreakdownOrder(d: AnswerModel)
    ensures forall i, j :: 0 <= i < j < |RiskBreakdown(d)| ==>
              RiskRank(RiskBreakdown(d)[i]) < RiskRank(RiskBreakdown(d)[j])
    ensures forall i :: 0 <= i < |RiskBreakdown(d)| ==>
              RiskBreakdown(d)[i] in RiskCatalogue
              && (RiskBreakdown(d)[i].level == HighRisk <==> RiskRank(RiskBreakdown(d)[i]) < 4)
    ensures forall i, j :: 0 <= i < j < |RiskBreakdown(d)| && RiskBreakdown(d)[j].level == HighRisk ==>
              RiskBreakdown(d)[i].level == HighRisk
  {
    var t := RiskTable(d);
    RiskCatalogueDistinct();
    SelectedIncreasing(t, RiskRank);
    SelectedFrom(t);
  }

  /** The breakdown as six building steps over the table. */
  lemma RiskBreakdownSteps(d: AnswerModel)
    ensures var t := RiskTable(d);
      RiskBreakdown(d) == Push(Push(Push(Push(Push(Push([], t[0]), t[1]), t[2]), t[3]), t[4]), t[5])
  {
    var t := RiskTable(d);
    var p0: seq<Entry<RiskItem>> := [];
    var p1 := p0 + [t[0]];  SelectedSnoc(p0, t[0]);
    var p2 := p1 + [t[1]];  SelectedSnoc(p1, t[1]);
    var p3 := p2 + [t[2]];  SelectedSnoc(p2, t[2]);
    var p4 := p3 + [t[3]];  SelectedSnoc(p3, t[3]);
    var p5 := p4 + [t[4]];  SelectedSnoc(p4, t[4]);
    var p6 := p5 + [t[5]];  SelectedSnoc(p5, t[5]);
    assert p6 == t;
  }

  /** The breakdown as the source builds it: one push per condition that
      holds. The score it is handed plays no part. */
  method BuildRiskBreakdown(d: AnswerModel, score: int) returns (risks: seq<RiskItem>)
    ensures risks == RiskBreakdown(d)
  {
    ghost var t := RiskTable(d);
    ghost var built: seq<RiskItem> := [];
    risks := [];
    if HasTag(d, CapitalGainsTag) {
      risks := risks + [CapitalGainsRisk];
    }
    built := Push(built, t[0]);
    assert risks == built;
    if HasTag(d, ExitTaxTag) {
      risks := risks + [ExitTaxRisk];
    }
    built := Push(built, t[1]);
    assert risks == built;
    if !d.digitalMaturity.eInvoicing {
      risks := risks + [EInvoicingRisk];
    }
    built := Push(built, t[2]);
    assert risks == built;
    if !d.digitalMaturity.timeTracking {
      risks := risks + [TimeTrackingRisk];
    }
    built := Push(built, t[3]);
    assert risks == built;
    if d.geographicScope != BelgiumOnly {
      risks := risks + [Dac7Risk];
    }
    built := Push(built, t[4]);
    assert risks == built;
    if d.clientMix.international > 30 {
      risks := risks + [CrossBorderRisk];
    }
    built := Push(built, t[5]);
    assert risks == built;
    RiskBreakdownSteps(d);
  }

  // ---------------------------------------------------------------------
  // Automation opportunities

  datatype Opportunity = Opportunity(priority: nat, text: string)

  const PeppolIntegration := Opportunity(1,
    "Peppol Integration: Mandatory connection to federal electronic invoicing platform")
  const TimeTrackingDeployment := Opportunity(2,
    "Time-Tracking Software Deployment: Immediate compliance required (criminal sanctions upon audit)")
  const SecureClientPortal := Opportunity(3,
    "Secure Client Portal: GDPR risk reduction and client relationship optimization")
  const ReformNotification := Opportunity(4,
    "Reform Notification Automation: Client alert system for regulatory developments")
  const Dac7Workflows := Opportunity(5,
    "DAC7 Compliance Workflows: Automation of reporting and consistency checks")

  /** Each opportunity paired with its condition; priority 4 always fires. */
  function OpportunityTable(d: AnswerModel): (t: seq<Entry<Opportunity>>)
    ensures |t| == 5 && forall k :: 0 <= k < |t| ==> t[k].item.priority == k + 1
  {
    [ Entry(!d.digitalMaturity.eInvoicing, PeppolIntegration),
      Entry(!d.digitalMaturity.timeTracking, TimeTrackingDeployment),
      Entry(!HasPortal(d.digitalMaturity.portal), SecureClientPortal),
      Entry(true, ReformNotification),
      Entry(HasTag(d, CrossBorderTag) || !IsBelgiumOnly(d.geographicScope), Dac7Workflows) ]
  }

  function AutomationOpportunities(d: AnswerModel): seq<Opportunity> {
    Selected(OpportunityTable(d))
  }

  function Priority(o: Opportunity): int {
    o.priority
  }

  /** Priorities are fixed labels that strictly increase along the list
      (gaps allowed); one to five items; exactly one of priority 4. */
  lemma OpportunitiesShape(d: AnswerModel)
    ensures 1 <= |AutomationOpportunities(d)| <= 5
    ensures forall i, j :: 0 <= i < j < |AutomationOpportunities(d)| ==>
              AutomationOpportunities(d)[i].priority < AutomationOpportunities(d)[j].priority
    ensures forall i :: 0 <= i < |AutomationOpportunities(d)| ==>
              1 <= AutomationOpportunities(d)[i].priority <= 5
    ensures exists i :: 0 <= i < |AutomationOpportunities(d)| && AutomationOpportunities(d)[i] == ReformNotification
    ensures forall i, j ::
              0 <= i < |AutomationOpportunities(d)| && 0 <= j < |AutomationOpportunities(d)|
              && AutomationOpportunities(d)[i].priority == 4 && AutomationOpportunities(d)[j].priority == 4
              ==> i == j
  {
    var t := OpportunityTable(d);
    SelectedLength(t);
    SelectedIncreasing(t, Priority);
    SelectedFrom(t);
    SelectedAt(t, 3);
  }

  /** Each opportunity is listed exactly when its condition holds. */
  lemma OpportunitiesMembers(d: AnswerModel)
    ensures PeppolIntegration in AutomationOpportunities(d) <==> !d.digitalMaturity.eInvoicing
    ensures TimeTrackingDeployment in AutomationOpportunities(d) <==> !d.digitalMaturity.timeTracking
    ensures SecureClientPortal in AutomationOpportunities(d) <==> !HasPortal(d.digitalMaturity.portal)
    ensures ReformNotification in AutomationOpportunities(d)
    ensures Dac7Workflows in AutomationOpportunities(d)
        <==> HasTag(d, CrossBorderTag) || !IsBelgiumOnly(d.geographicScope)
  {
    var t := OpportunityTable(d);
    SelectedMember(t, 0);
    SelectedMember(t, 1);
    SelectedMember(t, 2);
    SelectedMember(t, 3);
    SelectedMember(t, 4);
  }

  /** A priority-5 item is listed exactly when a cross-border tag is
      selected or the scope is not Belgian-only. */
  lemma PriorityFiveIff(d: AnswerModel)
    ensures (exists i :: 0 <= i < |AutomationOpportunities(d)| && AutomationOpportunities(d)[i].priority == 5)
        <==> HasTag(d, CrossBorderTag) || !IsBelgiumOnly(d.geographicScope)
  {
    var t := OpportunityTable(d);
    SelectedFrom(t);
    OpportunitiesMembers(d);
  }

  /** The opportunities as five building steps over the table. */
  lemma AutomationOpportunitiesSteps(d: AnswerModel)
    ensures var t := OpportunityTable(d);
      AutomationOpportunities(d) == Push(Push(Push(Push(Push([], t[0]), t[1]), t[2]), t[3]), t[4])
  {
    var t := OpportunityTable(d);
    var p0: seq<Entry<Opportunity>> := [];
    var p1 := p0 + [t[0]];  SelectedSnoc(p0, t[0]);
    var p2 := p1 + [t[1]];  SelectedSnoc(p1, t[1]);
    var p3 := p2 + [t[2]];  SelectedSnoc(p2, t[2]);
    var p4 := p3 + [t[3]];  SelectedSnoc(p3, t[3]);
    var p5 := p4 + [t[4]];  SelectedSnoc(p4, t[4]);
    assert p5 == t;
  }

  /** The opportunities as the source builds them: one push per condition,
      the priority-4 item unconditionally. */
  method BuildAutomationOpportunities(d: AnswerModel) returns (opportunities: seq<Opportunity>)
    ensures opportunities == AutomationOpportunities(d)
  {
    ghost var t := OpportunityTable(d);
    ghost var built: seq<Opportunity> := [];
    opportunities := [];
    if !d.digitalMaturity.eInvoicing {
      opportunities := opportunities + [PeppolIntegration];
    }
    built := Push(built, t[0]);
    assert opportunities == built;
    if !d.digitalMaturity.timeTracking {
      opportunities := opportunities + [TimeTrackingDeployment];
    }
    built := Push(built, t[1]);
    assert opportunities == built;
    if !HasPortal(d.digitalMaturity.portal) {
      opportunities := opportunities + [SecureClientPortal];
    }
    built := Push(built, t[2]);
    assert opportunities == built;
    opportunities := opportunities + [ReformNotification];
    built := Push(built, t[3]);
    assert opportunities == built;
    if HasTag(d, CrossBorderTag) || d.geographicScope != BelgiumOnly {
      opportunities := opportunities + [Dac7Workflows];
    }
    built := Push(built, t[4]);
    assert opportunities == built;
    AutomationOpportunitiesSteps(d);
  }

  // ---------------------------------------------------------------------
  // Compliance blueprint

  datatype BlueprintItem = BlueprintItem(phase: string, action: string)

  const ImmediatePhase := "Immediate (0-30 days)"
  const ShortTermPhase := "Short-term (1-3 months)"
  const MediumTermPhase := "Medium-term (3-6 months)"
  const OngoingPhase := "Ongoing"

  const SoftwareAudit := BlueprintItem(ImmediatePhase,
    "Compliance audit of time-tracking and e-invoicing software")
  const PeppolConnection := BlueprintItem(ShortTermPhase,
    "RD 12/05/2023 compliance and Peppol connection if applicable")
  const ReformPreparation := BlueprintItem(MediumTermPhase,
    "Preparation for 2026 capital gains reform and team training")
  const RegulatoryMonitoring := BlueprintItem(OngoingPhase,
    "Structured regulatory monitoring and legislative change documentation")

  /** The fixed four-phase schedule, from the immediate audit to ongoing
      monitoring; it depends on no answer. */
  function ComplianceBlueprint(): (r: seq<BlueprintItem>)
    ensures |r| == 4
    ensures r[0].phase == ImmediatePhase && r[1].phase == ShortTermPhase
    ensures r[2].phase == MediumTermPhase && r[3].phase == OngoingPhase
  {
    [SoftwareAudit, PeppolConnection, ReformPreparation, RegulatoryMonitoring]
  }

  // ---------------------------------------------------------------------
  // Peer positioning

  datatype Readiness = Low | Moderate | High | VeryHigh | RequiresStrengthening

  datatype PeerItem = PeerItem(name: string, readiness: Readiness)

  const LargeFirms := "Big 4 and International Networks"
  const MidTierFirms := "Mid-Tier Regional Firms (10-50 staff)"
  const SmallPractices := "Small Independent Practices"

  /** Three peer groups in fixed order, each with a readiness label chosen
      by its own score threshold. */
  function PeerPositioning(score: int): (r: seq<PeerItem>)
    ensures |r| == 3
    ensures r[0].name == LargeFirms && r[1].name == MidTierFirms && r[2].name == SmallPractices
    ensures r[0].readiness == High <==> score < 30
    ensures r[0].readiness == VeryHigh <==> score >= 30
    ensures r[1].readiness == Moderate <==> score < 50
    ensures r[1].readiness == RequiresStrengthening <==> score >= 50
    ensures r[2].readiness == Low <==> score > 60
    ensures r[2].readiness == Moderate <==> score <= 60
  {
    [ PeerItem(LargeFirms, if score < 30 then High else VeryHigh),
      PeerItem(MidTierFirms, if score < 50 then Moderate else RequiresStrengthening),
      PeerItem(SmallPractices, if score > 60 then Low else Moderate) ]
  }

  // ---------------------------------------------------------------------
  // Classifiers of the score on the results page

  datatype Band = ControlledExposure | ModerateExposure | HighExposure

  /** The interpretation shown under the score. */
  function Interpretation(score: int): (b: Band)
    ensures b == HighExposure <==> score >= 70
    ensures b == ModerateExposure <==> 40 <= score < 70
    ensures b == ControlledExposure <==> score < 40
  {
    if score >= 70 then HighExposure
    else if score >= 40 then ModerateExposure
    else ControlledExposure
  }

  function BandRank(b: Band): nat {
    match b
    case ControlledExposure => 0
    case ModerateExposure => 1
    case HighExposure => 2
  }

  /** Whether the peer heatmap cells are highlighted. */
  predicate HeatmapActive(score: int)
    ensures HeatmapActive(score) <==> score > 50
  {
    score > 50
  }

  /** A higher score never gives a milder interpretation. */
  lemma InterpretationMonotone(s1: int, s2: int)
    requires s1 <= s2
    ensures BandRank(Interpretation(s1)) <= BandRank(Interpretation(s2))
  {
  }

  /** The peer labels agree with the interpretation band and the heatmap:
      under a high band every group is at its most exposed label, under a
      controlled band the mid-tier and small groups read moderate, and a
      highlighted heatmap means the large and mid-tier groups are past
      their thresholds. */
  lemma PeersAgreeWithBands(score: int)
    ensures Interpretation(score) == HighExposure ==>
              PeerPositioning(score)[0].readiness == VeryHigh
              && PeerPositioning(score)[1].readiness == RequiresStrengthening
              && PeerPositioning(score)[2].readiness == Low
    ensures Interpretation(score) == ControlledExposure ==>
              PeerPositioning(score)[1].readiness == Moderate
              && PeerPositioning(score)[2].readiness == Moderate
    ensures HeatmapActive(score) ==>
              Interpretation(score) != ControlledExposure
              && PeerPositioning(score)[0].readiness == VeryHigh
              && PeerPositioning(score)[1].readiness == RequiresStrengthening
  {
  }
}
