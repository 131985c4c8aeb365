/** The decision value and its message (`core/CreditApplicationDecision.java`). */
module Decision {
  import opened Wrappers
  import opened PersonalDataModel

  /** The decision-type enum and the cause enum are not part of this model;
      their constants are the ones the decision class switches over. */
  datatype DecisionType = Positive | NegativeScoring | ContactRequired | NegativeRating | NegativeRequirementsNotMet

  datatype RequirementNotMetCause = TooHighExpenses | TooLowDownAmount

  /** Rate and scoring are boxed (nullable) in the source, hence optional. */
  datatype CreditApplicationDecision = CreditApplicationDecision(
    decisionType: DecisionType,
    personalData: PersonalData,
    creditRate: Option<real>,
    scoring: Option<int>,
    requirementNotMetCause: Option<RequirementNotMetCause>)
  {
    /** What `getDecisionString` needs to return a message instead of
        throwing: `requirementNotMetCause.get()` needs a cause, and
        `new BigDecimal(creditRate)` needs a rate. */
    predicate Renderable() {
      && (decisionType == NegativeRequirementsNotMet ==> requirementNotMetCause.Some?)
      && (decisionType == NegativeRating ==> creditRate.Some?)
    }
  }

  /** The four-argument constructor: no cause. */
  function NewDecision(t: DecisionType, pd: PersonalData, creditRate: Option<real>, scoring: Option<int>)
    : (d: CreditApplicationDecision)
    ensures d.requirementNotMetCause.None?
    ensures d.decisionType == t && d.personalData == pd && d.creditRate == creditRate && d.scoring == scoring
    ensures t != NegativeRequirementsNotMet && (t == NegativeRating ==> creditRate.Some?) ==> d.Renderable()
  {
    CreditApplicationDecision(t, pd, creditRate, scoring, None)
  }

  /** The five-argument constructor: the cause is present. */
  function NewDecisionWithCause(
    t: DecisionType, pd: PersonalData, creditRate: Option<real>, scoring: Option<int>, cause: RequirementNotMetCause)
    : (d: CreditApplicationDecision)
    ensures d.requirementNotMetCause == Some(cause)
    ensures d.decisionType == t && d.personalData == pd && d.creditRate == creditRate && d.scoring == scoring
    ensures t != NegativeRating || creditRate.Some? ==> d.Renderable()
  {
    CreditApplicationDecision(t, pd, creditRate, scoring, Some(cause))
  }

  /** The text of a rate rounded to two decimals (`BigDecimal.setScale(2)`),
      left uninterpreted. */
  const RoundedRateText: real -> string

  /** The text of the minimum mortgage amount constant, left uninterpreted. */
  const MinLoanAmountMortgageText: string

  function FullName(pd: PersonalData): string {
    pd.name + " " + pd.lastName
  }

  /** The part of each message before the applicant's name. */
  function Opening(t: DecisionType): string {
    match t
    case Positive => "Congratulations "
    case NegativeScoring => "Sorry "
    case ContactRequired => "Sorry "
    case NegativeRating => "Sorry, "
    case NegativeRequirementsNotMet => "Sorry, "
  }

  const NegativeSentence: string := ", decision is negative. "

  /** Where ", decision is negative" and ",  bank requires…" first differ. */
  const ShortClosingsFork: nat := 2

  /** The closings that continue `NegativeSentence` first differ just
      after it. */
  const LongClosingsFork: nat := |NegativeSentence|

  /** The part of each message after the applicant's name. */
  function Closing(d: CreditApplicationDecision): string
    requires d.Renderable()
  {
    match d.decisionType
    case Positive => ", decision is positive"
    case NegativeScoring => ", decision is negative"
    case ContactRequired => ",  bank requires additional documents." + " Our Consultant will contact you."
    case NegativeRating => NegativeSentence + "Bank can borrow only " + RoundedRateText(d.creditRate.value)
    case NegativeRequirementsNotMet =>
      match d.requirementNotMetCause.value
      case TooHighExpenses => NegativeSentence + "Personal expanses are to high"
      case TooLowDownAmount => NegativeSentence + "Minimum loan amount for mortgage is " + MinLoanAmountMortgageText
  }

  predicate StartsWith(s: string, prefix: string) {
    prefix <= s
  }

  /** `getDecisionString`: total on renderable decisions (the closed enums
      leave the source's `return null` unreachable). Only a positive
      decision congratulates, every other one apologises, and each names
      the applicant right after the opening word. */
  function DecisionString(d: CreditApplicationDecision): (r: string)
    requires d.Renderable()
    ensures d.decisionType == Positive <==> StartsWith(r, "Congratulations ")
    ensures d.decisionType != Positive <==> StartsWith(r, "Sorry")
    ensures var o := |Opening(d.decisionType)|;
            o + |FullName(d.personalData)| <= |r| && r[o..o + |FullName(d.personalData)|] == FullName(d.personalData)
  {
    var o := Opening(d.decisionType);
    var r := o + FullName(d.personalData) + Closing(d);
    assert r[..|o|] == o;
    assert r[|o|..|o| + |FullName(d.personalData)|] == FullName(d.personalData);
    assert r[0] == o[0];
    r
  }

  /** The outcome a message stands for: the decision type and, for a failed
      requirement, its cause. */
  function Verdict(d: CreditApplicationDecision): (DecisionType, Option<RequirementNotMetCause>) {
    (d.decisionType, if d.decisionType == NegativeRequirementsNotMet then d.requirementNotMetCause else None)
  }

  /** The message determines the outcome: for the same applicant, two
      decisions with different outcomes never render the same text. */
  lemma MessagesIdentifyVerdict(d1: CreditApplicationDecision, d2: CreditApplicationDecision)
    requires d1.Renderable() && d2.Renderable()
    requires d1.personalData == d2.personalData
    requires Verdict(d1) != Verdict(d2)
    ensures DecisionString(d1) != DecisionString(d2)
  {
    var o1, o2 := Opening(d1.decisionType), Opening(d2.decisionType);
    var n := FullName(d1.personalData);
    if o1 != o2 {
      OpeningsDiffer(o1, o2, n, Closing(d1), Closing(d2));
    } else {
      var j := if o1 == "Sorry " then ShortClosingsFork else LongClosingsFork;
      ClosingMarker(d1);
      ClosingMarker(d2);
      ClosingsDiffer(o1, n, Closing(d1), Closing(d2), j);
    }
  }

  lemma OpeningsDiffer(o1: string, o2: string, n: string, c1: string, c2: string)
    requires o1 in {"Congratulations ", "Sorry ", "Sorry, "} && o2 in {"Congratulations ", "Sorry ", "Sorry, "}
    requires o1 != o2
    ensures o1 + n + c1 != o2 + n + c2
  {
    var i := if o1[0] != o2[0] then 0 else 5;
    assert o1[i] != o2[i];
    assert (o1 + n + c1)[i] == o1[i] && (o2 + n + c2)[i] == o2[i];
  }

  lemma ClosingsDiffer(o: string, n: string, c1: string, c2: string, j: nat)
    requires j < |c1| && j < |c2| && c1[j] != c2[j]
    ensures o + n + c1 != o + n + c2
  {
    assert (o + n + c1)[|o| + |n| + j] == c1[j];
    assert (o + n + c2)[|o| + |n| + j] == c2[j];
  }

  /** The character at which the closings sharing an opening part ways. */
  lemma ClosingMarker(d: CreditApplicationDecision)
    requires d.Renderable()
    ensures d.decisionType == NegativeScoring ==> |Closing(d)| > ShortClosingsFork && Closing(d)[ShortClosingsFork] == 'd'
    ensures d.decisionType == ContactRequired ==> |Closing(d)| > ShortClosingsFork && Closing(d)[ShortClosingsFork] == ' '
    ensures d.decisionType == NegativeRating ==> |Closing(d)| > LongClosingsFork && Closing(d)[LongClosingsFork] == 'B'
    ensures Verdict(d) == (NegativeRequirementsNotMet, Some(TooHighExpenses)) ==>
              |Closing(d)| > LongClosingsFork && Closing(d)[LongClosingsFork] == 'P'
    ensures Verdict(d) == (NegativeRequirementsNotMet, Some(TooLowDownAmount)) ==>
              |Closing(d)| > LongClosingsFork && Closing(d)[LongClosingsFork] == 'M'
  {
    var c := Closing(d);
    match d.decisionType
    case NegativeRating =>
      assert c == NegativeSentence + ("Bank can borrow only " + RoundedRateText(d.creditRate.value));
    case NegativeRequirementsNotMet =>
      if d.requirementNotMetCause == Some(TooLowDownAmount) {
        assert c == NegativeSentence + ("Minimum loan amount for mortgage is " + MinLoanAmountMortgageText);
      }
    case _ =>
  }
}
