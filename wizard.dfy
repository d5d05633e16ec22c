/** The five-step questionnaire: a session object holding the current step,
    the answer record, the enabled state of the first step's "next" button
    and the progress indicator, with one method per event handler. */
module Wizard {
  import opened Answers
  import opened Score
  import opened Reports

  const TotalSteps := 5

  // ---------------------------------------------------------------------
  // Progress indicator

  /** The state of one step marker. */
  datatype Mark = Inactive | Active | Completed

  /** The markers for `step`: the marker of that step is active, the
      markers before it completed, the rest inactive. `count` is the number
      of markers on the page. */
  function ProgressMarks(step: int, count: nat): (r: seq<Mark>)
    ensures |r| == count
    ensures forall i :: 0 <= i < count ==> (r[i] == Active <==> i == step - 1)
    ensures forall i :: 0 <= i < count ==> (r[i] == Completed <==> i < step - 1)
    ensures forall i :: 0 <= i < count ==> (r[i] == Inactive <==> i >= step)
  {
    seq(count, i => if i + 1 == step then Active else if i + 1 < step then Completed else Inactive)
  }

  /** The connecting lines for `step`: line `i` joins markers `i` and
      `i + 1` and is completed once the step after it is reached. */
  function ProgressLines(step: int, count: nat): (r: seq<bool>)
    ensures |r| == count
    ensures forall i :: 0 <= i < count ==> (r[i] <==> i < step - 1)
  {
    seq(count, i => i < step - 1)
  }

  /** On every step of the wizard exactly one marker is active. */
  lemma ExactlyOneActive(step: int, count: nat)
    requires 1 <= step <= count
    ensures ProgressMarks(step, count)[step - 1] == Active
    ensures forall i, j ::
              0 <= i < count && 0 <= j < count && ProgressMarks(step, count)[i] == Active
              && ProgressMarks(step, count)[j] == Active
              ==> i == j
  {
  }

  /** Moving forward never un-completes a marker or a line. */
  lemma ProgressMonotone(s1: int, s2: int, count: nat, lineCount: nat)
    requires s1 <= s2
    ensures forall i :: 0 <= i < count && ProgressMarks(s1, count)[i] == Completed ==>
              ProgressMarks(s2, count)[i] == Completed
    ensures forall i :: 0 <= i < lineCount && ProgressLines(s1, lineCount)[i] ==> ProgressLines(s2, lineCount)[i]
  {
  }

  /** A line is completed exactly when the marker it leaves is completed. */
  lemma LinesFollowMarks(step: int, count: nat, lineCount: nat, i: nat)
    requires i < count && i < lineCount
    ensures ProgressLines(step, lineCount)[i] <==> ProgressMarks(step, count)[i] == Completed
  {
  }

  // ---------------------------------------------------------------------
  // Results page

  /** Everything the results page shows, as values. */
  datatype Assessment = Assessment(
    score: int,
    band: Band,
    risks: seq<RiskItem>,
    opportunities: seq<Opportunity>,
    peers: seq<PeerItem>,
    heatmapActive: bool,
    blueprint: seq<BlueprintItem>)

  /** `a` is what the results page shows for the answers `d`. */
  predicate Shows(a: Assessment, d: AnswerModel) {
    a.score == DisruptionScore(d)
    && a.band == Interpretation(a.score)
    && a.risks == RiskBreakdown(d)
    && a.opportunities == AutomationOpportunities(d)
    && a.peers == PeerPositioning(a.score)
    && (a.heatmapActive <==> a.score > 50)
    && a.blueprint == ComplianceBlueprint()
  }

  // ---------------------------------------------------------------------
  // Session

  /** The whole observable state of a session, as one value. */
  datatype Snapshot = Snapshot(
    currentStep: int,
    data: AnswerModel,
    advanceEnabled: bool,
    marks: seq<Mark>,
    lines: seq<bool>)

  class Session {
    /** Number of step markers and of connecting lines on the page. */
    const markerCount: nat
    const lineCount: nat

    var currentStep: int
    var data: AnswerModel
    /** Whether the first step's "next" button is enabled. */
    var advanceEnabled: bool
    var marks: seq<Mark>
    var lines: seq<bool>

    ghost predicate Valid()
      reads this
    {
      1 <= currentStep <= TotalSteps
      && marks == ProgressMarks(currentStep, markerCount)
      && lines == ProgressLines(currentStep, lineCount)
    }

    function State(): Snapshot
      reads this
    {
      Snapshot(currentStep, data, advanceEnabled, marks, lines)
    }

    /** The state every restart ends in. */
    function RestartState(): Snapshot
      reads this
    {
      Snapshot(1, Initial, false, ProgressMarks(1, markerCount), ProgressLines(1, lineCount))
    }

    /** A freshly loaded page on its first step, followed by the initial
        client-mix check on whatever the three inputs hold. */
    constructor (markers: nat, lines: nat, sme: Option<int>, corporate: Option<int>, international: Option<int>)
      ensures Valid()
      ensures markerCount == markers && lineCount == lines
      ensures currentStep == 1
      ensures data == Initial.(clientMix := CoerceMix(sme, corporate, international))
      ensures advanceEnabled <==> MixComplete(CoerceMix(sme, corporate, international))
    {
      markerCount := markers;
      lineCount := lines;
      currentStep := 1;
      data := Initial;
      advanceEnabled := false;
      marks := ProgressMarks(1, markers);
      this.lines := ProgressLines(1, lines);
      new;
      var _ := ValidateClientMix(sme, corporate, international);
    }

    /** Overwrites the client mix with the coerced inputs and enables the
        "next" button exactly when the three shares add up to 100. Also the
        handler of every edit of the three inputs. */
    method ValidateClientMix(sme: Option<int>, corporate: Option<int>, international: Option<int>)
      returns (ok: bool)
      modifies this`data, this`advanceEnabled
      ensures data == old(data).(clientMix := CoerceMix(sme, corporate, international))
      ensures ok <==> Coerce(sme) + Coerce(corporate) + Coerce(international) == 100
      ensures advanceEnabled == ok
    {
      var s := Coerce(sme);
      var c := Coerce(corporate);
      var i := Coerce(international);
      var total := s + c + i;
      data := data.(clientMix := ClientMix(s, c, i));
      if total == 100 {
        advanceEnabled := true;
        ok := true;
      } else {
        advanceEnabled := false;
        ok := false;
      }
    }

    /** Makes `step` the current step and redraws the progress indicator. */
    method ShowStep(step: int)
      requires 1 <= step <= TotalSteps
      modifies this`currentStep, this`marks, this`lines
      ensures Valid()
      ensures currentStep == step
    {
      currentStep := step;
      marks := ProgressMarks(step, markerCount);
      lines := ProgressLines(step, lineCount);
    }

    /** Replaces the tags by the values of the checked boxes, in page order. */
    method CollectSpecializations(checked: seq<string>)
      modifies this`data
      ensures data == old(data).(specialization := checked)
    {
      data := data.(specialization := checked);
    }

    /** Reads the portal radio (see `PortalAnswer`) and the three tool
        checkboxes. */
    method CollectDigitalMaturity(portal: Option<string>, eInvoicing: bool, timeTracking: bool, automation: bool)
      modifies this`data
      ensures data == old(data).(digitalMaturity := DigitalMaturity(PortalAnswer(portal), eInvoicing, timeTracking, automation))
    {
      data := data.(digitalMaturity := data.digitalMaturity.(portal := PortalAnswer(portal)));
      data := data.(digitalMaturity := data.digitalMaturity.(eInvoicing := eInvoicing));
      data := data.(digitalMaturity := data.digitalMaturity.(timeTracking := timeTracking));
      data := data.(digitalMaturity := data.digitalMaturity.(automation := automation));
    }

    /** Reads the scope radio; `Unselected` when none is checked. */
    method CollectGeographicScope(scope: Scope)
      modifies this`data
      ensures data == old(data).(geographicScope := scope)
    {
      data := data.(geographicScope := scope);
    }

    /** Step 1 to 2: re-runs the client-mix check and moves on only when it
        passes; otherwise the step stays where it was. */
    method ToStep2(sme: Option<int>, corporate: Option<int>, international: Option<int>)
      returns (advanced: bool)
      requires Valid() && currentStep == 1
      modifies this`data, this`advanceEnabled, this`currentStep, this`marks, this`lines
      ensures Valid()
      ensures data == old(data).(clientMix := CoerceMix(sme, corporate, international))
      ensures advanced <==> MixComplete(data.clientMix)
      ensures advanceEnabled == advanced
      ensures advanced ==> currentStep == 2
      ensures !advanced ==> currentStep == old(currentStep) && marks == old(marks) && lines == old(lines)
    {
      advanced := ValidateClientMix(sme, corporate, international);
      if advanced {
        ShowStep(2);
      }
    }

    /** Step 2 back to 1; the answers are kept. */
    method BackToStep1()
      requires currentStep == 2
      modifies this`currentStep, this`marks, this`lines
      ensures Valid()
      ensures currentStep == 1
      ensures data == old(data) && advanceEnabled == old(advanceEnabled)
    {
      ShowStep(1);
    }

    /** Step 2 to 3: records the checked specializations, then moves on. */
    method ToStep3(checked: seq<string>)
      requires currentStep == 2
      modifies this`data, this`currentStep, this`marks, this`lines
      ensures Valid()
      ensures currentStep == 3
      ensures data == old(data).(specialization := checked)
      ensures advanceEnabled == old(advanceEnabled)
    {
      CollectSpecializations(checked);
      ShowStep(3);
    }

    /** Step 3 back to 2; the answers are kept. */
    method BackToStep2()
      requires currentStep == 3
      modifies this`currentStep, this`marks, this`lines
      ensures Valid()
      ensures currentStep == 2
      ensures data == old(data) && advanceEnabled == old(advanceEnabled)
    {
      ShowStep(2);
    }

    /** Step 3 to 4: records the digital-maturity answers, then moves on. */
    method ToStep4(portal: Option<string>, eInvoicing: bool, timeTracking: bool, automation: bool)
      requires currentStep == 3
      modifies this`data, this`currentStep, this`marks, this`lines
      ensures Valid()
      ensures currentStep == 4
      ensures data == old(data).(digitalMaturity := DigitalMaturity(PortalAnswer(portal), eInvoicing, timeTracking, automation))
      ensures advanceEnabled == old(advanceEnabled)
    {
      CollectDigitalMaturity(portal, eInvoicing, timeTracking, automation);
      ShowStep(4);
    }

    /** Step 4 back to 3; the answers are kept. */
    method BackToStep3()
      requires currentStep == 4
      modifies this`currentStep, this`marks, this`lines
      ensures Valid()
      ensures currentStep == 3
      ensures data == old(data) && advanceEnabled == old(advanceEnabled)
    {
      ShowStep(3);
    }

    /** Step 4 to 5: records the scope, moves to the results step and
        computes what the results page shows. */
    method CalculateResults(scope: Scope) returns (a: Assessment)
      requires currentStep == 4
      modifies this`data, this`currentStep, this`marks, this`lines
      ensures Valid()
      ensures currentStep == 5
      ensures data == old(data).(geographicScope := scope)
      ensures advanceEnabled == old(advanceEnabled)
      ensures Shows(a, data)
    {
      CollectGeographicScope(scope);
      ShowStep(5);
      a := DisplayResults();
    }

    /** The results page for the current answers: the score, its band, the
        risk and opportunity lists, the peer labels with the heatmap flag and
        the fixed blueprint. */
    method DisplayResults() returns (a: Assessment)
      ensures Shows(a, data)
      ensures 0 <= a.score <= ScoreCap
    {
      var score := ComputeDisruptionScore(data);
      var band := Interpretation(score);
      var risks := BuildRiskBreakdown(data, score);
      var opportunities := BuildAutomationOpportunities(data);
      var peers := PeerPositioning(score);
      var blueprint := ComplianceBlueprint();
      a := Assessment(score, band, risks, opportunities, peers, HeatmapActive(score), blueprint);
    }

    /** Back to a clean first step: the initial answer record, the "next"
        button disabled. Nothing of the old state survives. */
    method Restart()
      modifies this`data, this`advanceEnabled, this`currentStep, this`marks, this`lines
      ensures Valid()
      ensures State() == RestartState()
      ensures data == Initial && !advanceEnabled && currentStep == 1
    {
      data := Initial;
      advanceEnabled := false;
      ShowStep(1);
    }
  }

  // ---------------------------------------------------------------------
  // Whole-session properties

  /** Restarting twice leaves the session exactly as restarting once. */
  method RestartTwice(s: Session)
    modifies s
    ensures s.State() == s.RestartState()
  {
    s.Restart();
    ghost var once := s.State();
    s.Restart();
    assert s.State() == once;
  }

  /** Going back and forward again between steps 2 and 3 re-collects the
      tags and changes nothing else. */
  method BackAndForth(s: Session, checked: seq<string>)
    requires s.currentStep == 3
    modifies s
    ensures s.Valid() && s.currentStep == 3
    ensures s.data == old(s.data).(specialization := checked)
    ensures s.advanceEnabled == old(s.advanceEnabled)
  {
    s.BackToStep2();
    s.ToStep3(checked);
  }

  /** Half SME, capital gains only, no tools, portal left unanswered,
      Belgian-only scope. */
  const MixedPractice := AnswerModel(ClientMix(50, 30, 20), [CapitalGainsTag],
                                     DigitalMaturity(Unknown, false, false, false), BelgiumOnly)

  /** The mixed practice is exposed to the capital-gains, e-invoicing and
      time-tracking risks, and is offered every opportunity but the DAC7
      workflows. */
  lemma MixedPracticeReports()
    ensures RiskBreakdown(MixedPractice) == [CapitalGainsRisk, EInvoicingRisk, TimeTrackingRisk]
    ensures AutomationOpportunities(MixedPractice)
         == [PeppolIntegration, TimeTrackingDeployment, SecureClientPortal, ReformNotification]
  {
    RiskBreakdownSteps(MixedPractice);
    AutomationOpportunitiesSteps(MixedPractice);
  }

  /** A complete walk through the wizard with the mixed-practice answers. */
  method MixedPracticeWalk() returns (a: Assessment)
    ensures a.score == 53 && a.band == ModerateExposure && a.heatmapActive
    ensures a.risks == [CapitalGainsRisk, EInvoicingRisk, TimeTrackingRisk]
    ensures a.opportunities == [PeppolIntegration, TimeTrackingDeployment, SecureClientPortal, ReformNotification]
  {
    var s := new Session(5, 4, None, None, None);
    var advanced := s.ToStep2(Some(50), Some(30), Some(20));
    assert advanced;
    s.ToStep3([CapitalGainsTag]);
    s.ToStep4(None, false, false, false);
    a := s.CalculateResults(BelgiumOnly);
    assert s.data == MixedPractice;
    ScoreOfMixedPractice();
    MixedPracticeReports();
  }
}
