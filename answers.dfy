/** The answer record one questionnaire session accumulates, and the
    normalisation its collectors apply to raw form input. */
module Answers {

  datatype Option<T> = None | Some(value: T)

  /** Whether the firm offers a client portal. `Unknown` means no radio
      button has been chosen; it is distinct from an explicit `No`. */
  datatype Portal = Unknown | Yes | No

  /** The firm's geographic scope. `Unselected` means no radio button has
      been chosen. */
  datatype Scope = Unselected | BelgiumOnly | Europe | Global

  /** Percentages of SME, corporate and international clients. The values
      are not range-checked: a share may be negative or above 100. */
  datatype ClientMix = ClientMix(sme: int, corporate: int, international: int)

  datatype DigitalMaturity = DigitalMaturity(
    portal: Portal,
    eInvoicing: bool,
    timeTracking: bool,
    automation: bool)

  /** The whole answer record. Specialization tags are kept in the order the
      checked boxes were found; tags outside the vocabulary below are kept
      but no rule mentions them. */
  datatype AnswerModel = AnswerModel(
    clientMix: ClientMix,
    specialization: seq<string>,
    digitalMaturity: DigitalMaturity,
    geographicScope: Scope)

  const CapitalGainsTag := "capitalGains"
  const ExitTaxTag := "exitTax"
  const DigitalInvoicingTag := "digitalInvoicing"
  const CrossBorderTag := "crossBorder"

  /** The record a session starts with and returns to on restart. */
  const Initial := AnswerModel(
    ClientMix(0, 0, 0),
    [],
    DigitalMaturity(Unknown, false, false, false),
    Unselected)

  predicate HasTag(d: AnswerModel, tag: string) {
    tag in d.specialization
  }

  /** The portal answer read as a JavaScript truth value: only an explicit
      yes is truthy, an unselected portal is as falsy as a no. */
  predicate HasPortal(p: Portal) {
    p == Yes
  }

  /** Strict comparison with the `belgiumOnly` value: an unselected scope is
      not Belgian-only. */
  predicate IsBelgiumOnly(s: Scope) {
    s == BelgiumOnly
  }

  /** A parsed numeric field; missing or unparsable input (NaN) becomes 0. */
  function Coerce(raw: Option<int>): (n: int)
    ensures raw == None ==> n == 0
    ensures raw.Some? ==> n == raw.value
  {
    match raw
    case None => 0
    case Some(v) => v
  }

  function CoerceMix(sme: Option<int>, corporate: Option<int>, international: Option<int>): (m: ClientMix)
    ensures m.sme == Coerce(sme) && m.corporate == Coerce(corporate) && m.international == Coerce(international)
  {
    ClientMix(Coerce(sme), Coerce(corporate), Coerce(international))
  }

  function MixTotal(m: ClientMix): int {
    m.sme + m.corporate + m.international
  }

  /** The gate on leaving the first step: the three shares add up to 100. */
  predicate MixComplete(m: ClientMix) {
    MixTotal(m) == 100
  }

  /** The portal radio's value read as `value === 'true'`: no choice gives
      `Unknown`, the string "true" gives `Yes`, every other value `No`. */
  function PortalAnswer(raw: Option<string>): (p: Portal)
    ensures p == Unknown <==> raw == None
    ensures p == Yes <==> raw == Some("true")
  {
    match raw
    case None => Unknown
    case Some(v) => if v == "true" then Yes else No
  }

  /** In every position, a missing numeric field and an explicit zero are
      indistinguishable once coerced, so the gate treats them alike. */
  lemma MissingCountsAsZero(sme: Option<int>, corporate: Option<int>, international: Option<int>)
    ensures CoerceMix(None, corporate, international) == CoerceMix(Some(0), corporate, international)
    ensures CoerceMix(sme, None, international) == CoerceMix(sme, Some(0), international)
    ensures CoerceMix(sme, corporate, None) == CoerceMix(sme, corporate, Some(0))
    ensures MixComplete(CoerceMix(sme, corporate, international))
        <==> (if sme.Some? then sme.value else 0) + (if corporate.Some? then corporate.value else 0)
             + (if international.Some? then international.value else 0) == 100
  {
  }
}
