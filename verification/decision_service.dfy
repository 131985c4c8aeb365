/** The decision pipeline (`CreditApplicationService`). Its source is not
    part of this model: the behaviour below is the one its test pins down.
    The collaborators the test replaces by mocks are the fields of
    `Service`. */
module DecisionService {
  import opened Wrappers
  import opened PersonModel
  import opened ApplicationModel
  import opened Scoring
  import opened CreditRating
  import opened Decision

  /** Scores below this are rejected outright. */
  const NegativeScoringBelow: int := 300
  /** Scores up to and including this need a consultant's follow-up. */
  const ContactRequiredUpTo: int := 400

  /** - `scoringCalculatorFactory`: `PersonScoringCalculatorFactory`, the
        bundle of units for an applicant;
      - `creditRatingCalculator`: `CreditRatingCalculator.calculate`;
      - `postValidator`: `CompoundPostValidator.validate(application,
        scoring, rating)`, whose thrown cause becomes `Some`. */
  datatype Service = Service(
    scoringCalculatorFactory: Person -> ScoringCalculator,
    creditRatingCalculator: CreditApplication -> real,
    postValidator: (CreditApplication, int, real) -> Option<RequirementNotMetCause>)

  /** The service wired with the real rating formula. */
  function ProductionService(
    factory: Person -> ScoringCalculator,
    postValidator: (CreditApplication, int, real) -> Option<RequirementNotMetCause>): (s: Service)
    ensures forall app :: s.creditRatingCalculator(app) == Rate(app)
  {
    Service(factory, Rate, postValidator)
  }

  /** The score of the unit the factory selects for the applicant. */
  function ApplicationScoring(s: Service, app: CreditApplication): int {
    Calculate(s.scoringCalculatorFactory(app.person), app)
  }

  /** The threshold pipeline over its inputs: the scoring gate, then the
      business-rule gate, then the rating gate. A rating equal to the
      requested amount is positive (strict `<`), an assumption:
      `CreditApplicationServiceTest` does not exercise this case. */
  function Outcome(scoring: int, rating: real, requested: real, cause: Option<RequirementNotMetCause>)
    : (t: DecisionType)
    ensures t == NegativeScoring <==> scoring < NegativeScoringBelow
    ensures t == ContactRequired <==> NegativeScoringBelow <= scoring <= ContactRequiredUpTo
    ensures t == NegativeRequirementsNotMet <==> scoring > ContactRequiredUpTo && cause.Some?
    ensures t == NegativeRating <==> scoring > ContactRequiredUpTo && cause.None? && rating < requested
    ensures t == Positive <==> scoring > ContactRequiredUpTo && cause.None? && rating >= requested
  {
    if scoring < NegativeScoringBelow then NegativeScoring
    else if scoring <= ContactRequiredUpTo then ContactRequired
    else if cause.Some? then NegativeRequirementsNotMet
    else if rating < requested then NegativeRating
    else Positive
  }

  /** `getDecision`. The rating is needed by the post-validator, so it is
      computed as soon as the scoring clears the contact threshold; neither
      is computed, nor the validator consulted, below it. The decision keeps
      the scoring, the rating once computed, and the cause of a failed
      requirement. */
  function Decide(s: Service, app: CreditApplication): (d: CreditApplicationDecision)
    ensures d.Renderable()
    ensures d.personalData == app.person.personalData
    ensures d.scoring == Some(ApplicationScoring(s, app))
    ensures var sc := ApplicationScoring(s, app);
            var rating := s.creditRatingCalculator(app);
            var cause := s.postValidator(app, sc, rating);
            && (sc <= ContactRequiredUpTo ==> d.creditRate.None?)
            && (sc > ContactRequiredUpTo ==> d.creditRate == Some(rating))
            && d.decisionType == Outcome(sc, rating, app.purposeOfLoan.amount, cause)
            && (d.decisionType == NegativeRequirementsNotMet ==> d.requirementNotMetCause == cause)
            && (d.decisionType != NegativeRequirementsNotMet ==> d.requirementNotMetCause.None?)
  {
    var pd := app.person.personalData;
    var scoring := ApplicationScoring(s, app);
    if scoring < NegativeScoringBelow then
      NewDecision(NegativeScoring, pd, None, Some(scoring))
    else if scoring <= ContactRequiredUpTo then
      NewDecision(ContactRequired, pd, None, Some(scoring))
    else
      var rating := s.creditRatingCalculator(app);
      match s.postValidator(app, scoring, rating)
      case Some(cause) => NewDecisionWithCause(NegativeRequirementsNotMet, pd, Some(rating), Some(scoring), cause)
      case None =>
        if rating < app.purposeOfLoan.amount then NewDecision(NegativeRating, pd, Some(rating), Some(scoring))
        else NewDecision(Positive, pd, Some(rating), Some(scoring))
  }

  /** How far an application got: rejected on scoring, sent to a consultant,
      or past the scoring gate. */
  function Stage(t: DecisionType): (n: nat)
    ensures n <= 2
  {
    match t
    case NegativeScoring => 0
    case ContactRequired => 1
    case _ => 2
  }

  /** Every decision falls in exactly one scoring band. */
  lemma OutcomePartition(s: Service, app: CreditApplication)
    ensures var sc := ApplicationScoring(s, app);
            var t := Decide(s, app).decisionType;
            && (sc < 300 ==> t == NegativeScoring)
            && (300 <= sc <= 400 ==> t == ContactRequired)
            && (sc > 400 ==> t in {NegativeRequirementsNotMet, NegativeRating, Positive})
  {
  }

  /** The boundaries: 300 is not rejected on scoring, 400 still needs a
      consultant, and a rating equal to the requested amount is positive. */
  lemma Boundaries(rating: real, requested: real)
    ensures Outcome(299, rating, requested, None) == NegativeScoring
    ensures Outcome(300, rating, requested, None) == ContactRequired
    ensures Outcome(400, rating, requested, None) == ContactRequired
    ensures Outcome(401, requested, requested, None) == Positive
  {
  }

  /** A higher scoring never sends an application to an earlier stage. */
  lemma StageMonotoneInScoring(s1: int, s2: int, rating: real, requested: real, cause: Option<RequirementNotMetCause>)
    requires s1 <= s2
    ensures Stage(Outcome(s1, rating, requested, cause)) <= Stage(Outcome(s2, rating, requested, cause))
  {
  }

  /** A positive outcome survives a higher rating or a lower requested
      amount; a rating rejection survives a lower rating or a higher
      requested amount. */
  lemma RatingGateMonotone(scoring: int, r1: real, r2: real, a1: real, a2: real, cause: Option<RequirementNotMetCause>)
    requires r1 <= r2 && a2 <= a1
    ensures Outcome(scoring, r1, a1, cause) == Positive ==> Outcome(scoring, r2, a2, cause) == Positive
    ensures Outcome(scoring, r2, a2, cause) == NegativeRating ==> Outcome(scoring, r1, a1, cause) == NegativeRating
  {
  }

  /** A post-validator that reports nothing leaves the outcome to the
      rating comparison once scoring clears 400. */
  lemma SilentValidatorDefersToRating(s: Service, app: CreditApplication)
    requires ApplicationScoring(s, app) > 400
    requires s.postValidator(app, ApplicationScoring(s, app), s.creditRatingCalculator(app)).None?
    ensures Decide(s, app).decisionType == (if s.creditRatingCalculator(app) < app.purposeOfLoan.amount then NegativeRating else Positive)
  {
  }

  /** Scoring 100 is rejected on scoring. */
  lemma ScenarioScoring100(s: Service, app: CreditApplication)
    requires Calculate(s.scoringCalculatorFactory(app.person), app) == 100
    ensures Decide(s, app).decisionType == NegativeScoring
  {
  }

  /** Scoring 350 needs a consultant. */
  lemma ScenarioScoring350(s: Service, app: CreditApplication)
    requires Calculate(s.scoringCalculatorFactory(app.person), app) == 350
    ensures Decide(s, app).decisionType == ContactRequired
  {
  }

  /** Scoring 450 with a rating of 189000 against 190000 requested is a
      rating rejection. */
  lemma ScenarioRatingBelowRequested(s: Service, app: CreditApplication)
    requires Calculate(s.scoringCalculatorFactory(app.person), app) == 450
    requires s.creditRatingCalculator(app) == 189000.0
    requires app.purposeOfLoan.amount == 190000.0
    requires s.postValidator(app, 450, 189000.0).None?
    ensures Decide(s, app).decisionType == NegativeRating
    ensures Decide(s, app).creditRate == Some(189000.0)
  {
  }

  /** Scoring 450 with a rating of 151000 against 150000 requested is
      positive. */
  lemma ScenarioRatingAboveRequested(s: Service, app: CreditApplication)
    requires Calculate(s.scoringCalculatorFactory(app.person), app) == 450
    requires s.creditRatingCalculator(app) == 151000.0
    requires app.purposeOfLoan.amount == 150000.0
    requires s.postValidator(app, 450, 151000.0).None?
    ensures Decide(s, app).decisionType == Positive
  {
  }

  /** In the production wiring a rating rejection reports the rating the
      formula gives, which is below the requested amount. */
  lemma ProductionRatingRejection(
    factory: Person -> ScoringCalculator,
    postValidator: (CreditApplication, int, real) -> Option<RequirementNotMetCause>,
    app: CreditApplication)
    requires Decide(ProductionService(factory, postValidator), app).decisionType == NegativeRating
    ensures Decide(ProductionService(factory, postValidator), app).creditRate == Some(Rate(app))
    ensures Rate(app) < app.purposeOfLoan.amount
  {
  }
}
