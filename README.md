# Tax-reform disruption simulator: a Dafny model

A five-step questionnaire asks an accounting or tax practice about its client
mix, its specializations, its digital tooling and its geographic scope, and
then shows a disruption score between 0 and 100 together with four reports: a
risk breakdown, a list of automation opportunities, a peer comparison and a
fixed compliance schedule. This project models the decision logic of
`script.js`:

- the answer record and the collectors that normalise raw form input into it
  (`answers.dfy`, and the collector methods of `Wizard.Session`);
- the step wizard: a `Session` class whose methods are the page's event
  handlers, with the gated 1→2 edge, the collect-then-advance edges, the
  unconditional back edges, restart, and the progress indicator
  (`wizard.dfy`);
- the score, computed as the source does by a running sum of nine rules and a
  clamp at 100, proved equal to a pure specification whose properties are
  proved separately (`score.dfy`);
- the risk and opportunity lists, built by conditional appends and proved
  equal to "the items of a fixed table whose condition holds, in order"
  (`selection.dfy` holds the generic lemmas about that shape), the peer labels,
  the blueprint and the two score classifiers of the results page
  (`reports.dfy`).

Raw input enters as values: a numeric field is an `Option<int>` (`None` for
empty or unparsable input), the portal radio is an `Option<string>` (its
value, or `None` when nothing is checked), the scope radio is a `Scope`
(`Unselected` when nothing is checked; `BelgiumOnly` and `Global` stand for
the values `belgiumOnly` and `globalScope`, the only two the code compares
with, and `Europe` for any other checked value), the
checked specialization boxes are their values in page order.

Notes on the code's behaviour:

- The specialization answer is the sequence of checked values in page order;
  nothing removes duplicates.
- The client-mix shares are not range-checked: a share may be negative or
  above 100, and only the total is compared with 100.
- The portal answer is `value === 'true'`: any checked value other than the
  string "true" reads as no.
- The initial record of script.js:7-17, which restart restores, has a zero
  mix, no tags, every tool absent, no portal answer and no scope; it scores
  31 (`Score.ScoreOfInitialAnswers`). On page load the mix is then replaced
  by the three inputs' values.

## Model

| member | source | states |
|---|---|---|
| Answers.Coerce | script.js:47-49 | a missing or unparsable field becomes 0, a parsed one keeps its value |
| Answers.CoerceMix | script.js:47-52 | the mix built from the three coerced fields |
| Answers.PortalAnswer | script.js:102-103 | no choice gives `Unknown`; `Yes` exactly for the value "true"; any other value `No` |
| Answers.MissingCountsAsZero | script.js:47-62 | in each of the three positions a missing field and an explicit 0 give the same mix; the gate compares the sum of the given values, missing ones as 0, with 100 |
| Score.DisruptionScore | script.js:115-144 | the score is always in 0..100 |
| Score.ComputeDisruptionScore | script.js:115-144 | the running sum of nine conditional additions, clamped, equals the specified score |
| Score.PointsAtMostMax | script.js:119-141 | no rule contributes more than its maximum (20, 18, 15, 12, 8, 10, 5, 7, 5) |
| Score.MaximaSumToCap | script.js:119-143 | the nine maxima add up to exactly 100 |
| Score.MaximumReached | script.js:119-141 | one answer record that passes the gate reaches every maximum at once, so 100 is attained unclamped |
| Score.ClampNeverBinds | script.js:143 | the unclamped sum never exceeds 100, so the clamp never changes it |
| Score.ScoreMonotone | script.js:115-143 | answers at least as exposed rule by rule never score lower |
| Score.WithoutEInvoicingNeverLower | script.js:127-130 | turning e-invoicing off never lowers the score |
| Score.WithoutPortalNeverLower | script.js:136 | replacing the portal answer by no or unselected never lowers the score |
| Score.WithoutTimeTrackingNeverLower | script.js:137 | turning time tracking off never lowers the score |
| Score.WithoutAutomationNeverLower | script.js:138 | turning automation off never lowers the score |
| Score.UnknownPortalScoresAsNo | script.js:136 | an unanswered portal scores exactly like an explicit no |
| Score.UnselectedScopeScoresAsEurope | script.js:132-133 | an unselected scope is not Belgian-only and scores exactly like a European one |
| Score.ScoreOfMixedPractice | script.js:115-143 | 50/30/20, capital gains, no tools, no portal answer, Belgian-only: 53 |
| Score.ScoreOfFullyEquippedPractice | script.js:115-143 | empty mix, no tags, every tool, Belgian-only: 0 |
| Score.ScoreOfCorporatePractice | script.js:115-143 | corporate-only capital-gains practice, every tool, Belgian-only: 25 |
| Score.ScoreOfInitialAnswers | script.js:4-18 | the initial record scores 31 |
| Selection.SelectedSnoc | script.js:147-192 | appending a table entry is one more conditional push |
| Selection.SelectedLength | script.js:147-192 | one item per firing condition, never more items than conditions |
| Selection.SelectedAt | script.js:147-192 | a firing entry's item sits after exactly the firing entries before it |
| Selection.SelectedFrom | script.js:147-192 | every listed item comes from an entry whose condition holds |
| Selection.SelectedEmpty | script.js:147-192 | the list is empty exactly when no condition holds |
| Selection.SelectedMember | script.js:147-192 | with distinct items, an item is listed exactly when its condition holds |
| Selection.SelectedIncreasing | script.js:196-231 | keys increasing along the table increase along the list |
| Reports.RiskTable | script.js:150-190 | the six risk conditions, paired with the six risks in their fixed order |
| Reports.RiskCatalogueDistinct | script.js:150-190 | the six risks are pairwise distinct |
| Reports.RiskBreakdownSize | script.js:146-193 | at most six risks; none exactly when all six conditions are false |
| Reports.RiskBreakdownMembers | script.js:150-190 | each risk is listed exactly when its condition holds |
| Reports.RiskBreakdownOrder | script.js:150-190 | risks keep the fixed order; all high risks precede all medium ones; only the six can appear |
| Reports.RiskBreakdownSteps | script.js:147-192 | the breakdown is six conditional pushes onto an empty list |
| Reports.BuildRiskBreakdown | script.js:146-193 | the pushes build exactly the specified breakdown; the score argument plays no part |
| Reports.OpportunityTable | script.js:199-230 | five conditions paired with priorities 1 to 5 in order |
| Reports.OpportunitiesShape | script.js:195-233 | one to five items; priorities strictly increase, lie in 1..5, may skip; exactly one priority-4 item, always present |
| Reports.OpportunitiesMembers | script.js:199-230 | each opportunity is listed exactly when its condition holds; the reform-notification item always |
| Reports.PriorityFiveIff | script.js:225-230 | a priority-5 item is listed exactly when cross-border is tagged or the scope is not Belgian-only |
| Reports.AutomationOpportunitiesSteps | script.js:196-231 | the list is five conditional pushes onto an empty list |
| Reports.BuildAutomationOpportunities | script.js:195-233 | the pushes build exactly the specified list |
| Reports.ComplianceBlueprint | script.js:235-242 | four items, the same for every input, phases immediate, short-term, medium-term, ongoing |
| Reports.PeerPositioning | script.js:244-251 | three groups in fixed order: large firms High exactly below 30 and Very High otherwise, mid-tier Moderate exactly below 50 and Requires Strengthening otherwise, small practices Low exactly above 60 and Moderate otherwise |
| Reports.Interpretation | script.js:272-281 | high exposure exactly from 70, moderate exactly from 40 below 70, controlled exactly below 40 |
| Reports.HeatmapActive | script.js:305 | the heatmap cells are highlighted exactly when the score is above 50 |
| Reports.InterpretationMonotone | script.js:272-281 | a higher score never gives a milder interpretation band |
| Reports.PeersAgreeWithBands | script.js:244-251 | peer labels agree with the band of the same score and with the heatmap flag |
| Wizard.ProgressMarks | script.js:66-74 | the marker of the current step is active, those before it completed, the rest inactive |
| Wizard.ProgressLines | script.js:77-81 | line i is completed exactly when i is below the current step minus one |
| Wizard.ExactlyOneActive | script.js:66-74 | on a step within the markers, exactly one marker is active |
| Wizard.ProgressMonotone | script.js:65-82 | a later step never un-completes a marker or a line |
| Wizard.LinesFollowMarks | script.js:65-82 | a line is completed exactly when the marker it leaves is completed |
| Wizard.Session.constructor | script.js:4-375 | a session starts on step 1 with the initial record of lines 4-18; on load (line 375) the client-mix check runs once: the mix is the coerced inputs and the button is enabled exactly when they add up to 100 |
| Wizard.Session.ValidateClientMix | script.js:46-63 | the mix is always overwritten by the coerced inputs; the result and the button are enabled exactly when the shares add up to 100 |
| Wizard.Session.ShowStep | script.js:84-94 | sets the step and redraws the progress indicator for it |
| Wizard.Session.CollectSpecializations | script.js:96-99 | replaces the tags by the checked values and touches nothing else |
| Wizard.Session.CollectDigitalMaturity | script.js:101-108 | replaces the portal answer and the three tool flags and touches nothing else |
| Wizard.Session.CollectGeographicScope | script.js:110-113 | replaces the scope and touches nothing else |
| Wizard.Session.ToStep2 | script.js:329-331 | from step 1: re-runs the check; moves to step 2 exactly when it passes, otherwise the step and indicator stay |
| Wizard.Session.BackToStep1 | script.js:333 | from step 2 back to step 1 with answers and button unchanged |
| Wizard.Session.ToStep3 | script.js:335-338 | from step 2: collects the tags, then moves to step 3 |
| Wizard.Session.BackToStep2 | script.js:340 | from step 3 back to step 2 with answers and button unchanged |
| Wizard.Session.ToStep4 | script.js:342-345 | from step 3: collects the digital-maturity answers, then moves to step 4 |
| Wizard.Session.BackToStep3 | script.js:347 | from step 4 back to step 3 with answers and button unchanged |
| Wizard.Session.CalculateResults | script.js:349-353 | from step 4: collects the scope, moves to step 5, and shows the results for the completed answers |
| Wizard.Session.DisplayResults | script.js:253-318 | the page shows the specified score, its band, both lists, the peer labels, the heatmap flag (score above 50) and the blueprint |
| Wizard.Session.Restart | script.js:355-373 | the initial record, the button disabled, step 1, whatever the state before |
| Wizard.RestartTwice | script.js:355-373 | restarting twice ends in the same state as restarting once |
| Wizard.BackAndForth | script.js:335-340 | going back from step 3 and forward again only re-collects the tags; step and button stay |
| Wizard.MixedPracticeReports | script.js:146-233 | the mixed practice gets three risks and four opportunities, named |
| Wizard.MixedPracticeWalk | script.js:320-353 | a full walk with the mixed-practice answers shows 53, a moderate band, an active heatmap and those lists |

## Left out

- Page access: element lookups, CSS class toggling, HTML rendering of the
  lists, the percentage labels next to the inputs, colours and scrolling. The
  model keeps what they display as values (`Assessment`, the marker and line
  states).
- Number parsing: the JavaScript integer parser is outside the model; its
  result enters as `Option<int>`.
- Timers: the 300 ms delay before the results are computed and the animated
  count-up of the score; neither changes the score.
- Rounding of the score: it is applied to an integer and is the identity.
- Event wiring, page bootstrap and the form reset of the restart handler; each
  handler is a method of `Session`.
- The visibility of the step panels: the panel shown is the one at the current
  step, so it is determined by `currentStep`.
- The number of progress markers and lines comes from the page markup; it is a
  parameter of the session. The markers before any step is shown are taken to
  be those of step 1.
- Report wording is kept as named constants; only their identity and order
  are reasoned about.
- Wizard.Session.ShowStep: requires a step between 1 and 5; every call in the
  source passes such a constant.
- Wizard.Session.ValidateClientMix: shares are exact integers. The page adds
  JavaScript numbers (doubles), so its total agrees with the model only while
  the values and their sums stay below 2^53 in magnitude; very long digit
  strings, which parse to infinity, are not modelled either.
- Wizard.Session.ToStep2: callable whatever the state of the "next" button,
  since it re-runs the client-mix check itself; after a restart the page's
  button stays disabled until an input changes, the model's handler does not
  wait for that.
- Each step's buttons sit on that step's panel, and only the current panel is
  shown, so each handler requires the step its buttons belong to (restart is
  allowed from any step).
