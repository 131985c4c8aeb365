# Credit application decision — Dafny model

This project models the core of a Java credit-decision service. An applicant is
a natural person or a self-employed person. The applicant has personal,
contact and finance data and a list of family members. The service scores the
application with additive scoring units. It rejects a low score, sends a
borderline score to a consultant, and otherwise checks business rules and
compares the computed credit rating with the requested amount. It ends in one
of five decisions, each of which renders a message.

Everything is an immutable datatype plus pure functions:

- `wrappers.dfy`: `Option`, the model of nullable references and `java.util.Optional`.
- `sorting.dfy`: a stable insertion sort over a total preorder, standing in for `Collections.sort`.
- `java_int.dfy`: Java's 32-bit `int` and its wrap-around addition.
- `personal_data.dfy`, `contact_data.dfy`: the two data records and their builders.
- `person.dfy`: the applicant as a closed two-variant datatype, the family normalisation and the derived money values.
- `person_builders.dfy`: the builders of the two applicant kinds.
- `application.dfy`: the credit application and the purpose of the loan.
- `scoring.dfy`: the scoring interface's default dispatch, the education unit and the compound (summing) unit.
- `credit_rating.dfy`: the rating formula.
- `decision.dfy`: the decision value and its message.
- `decision_service.dfy`: the decision pipeline.

Money is a Dafny `real`, so it has no floating-point rounding. Collaborators
whose source is not part of this model are uninterpreted. They appear as
constants with no defining value, as abstract types, or as fields of the
`Service` record that the decision pipeline receives:

- the policy constants: the two loan-rate factors and the minimum mortgage amount's text;
- the education points table;
- the two family-member orderings;
- the scoring-unit factory;
- the post-validator.

The two ordering constants have a subset type, so they are total preorders.

Assumptions about `CreditApplicationService` and `CompoundScoringCalculator`, which are outside this model:

- `CreditApplicationService` is not part of this model. `DecisionService.Decide`
  follows what `CreditApplicationServiceTest` asserts. That test's display
  names at lines 89 and 107 contradict its data, and the model follows the
  assertions. A rating of 189000 against 190000 requested gives
  NEGATIVE_RATING. A rating of 151000 against 150000 requested gives POSITIVE.
- A rating exactly equal to the requested amount is POSITIVE. The comparison is
  a strict `<`, and `CreditApplicationServiceTest` does not exercise this case.
- The post-validator is mocked with the signature `(application, int scoring,
  double rating)`. So the rating is computed before the validator runs, in the
  branch where scoring is above 400. Both are pure, so the order cannot be
  observed.
- The service is assumed to store the scoring in every decision. It stores the
  rating only once the rating is computed.
- `CompoundScoringCalculator` is not part of this model. Its test stubs each
  component at `calculate(application)`. So the compound overrides that
  overload and sums its components' results as Java `int`s.

## Model

| member | source | states |
|---|---|---|
| Sorting.Sort | src/main/java/pl/mariodev/creditapp/core/model/Person.java:24 | the sorted family list is ordered by the comparator and is a permutation of the input |
| Sorting.SortOfSorted | src/main/java/pl/mariodev/creditapp/core/model/Person.java:19-25 | sorting a list that is already ordered returns it unchanged |
| Sorting.InsertKeepsEquivalentOrder | src/main/java/pl/mariodev/creditapp/core/model/Person.java:24 | an inserted element goes in front of the elements equal to it, and the order among those elements is kept |
| Sorting.SortIsStable | src/main/java/pl/mariodev/creditapp/core/model/Person.java:24-29 | the sort is stable: elements the comparator ranks equal keep their input order |
| Sorting.SortIdempotent | src/main/java/pl/mariodev/creditapp/core/model/Person.java:24 | sorting twice gives the same list as sorting once |
| PersonModel.NormaliseFamily | src/main/java/pl/mariodev/creditapp/core/model/Person.java:24 | the stored family list is in natural order and is a permutation of the list passed in |
| PersonModel.NewNaturalPerson | src/main/java/pl/mariodev/creditapp/core/model/NaturalPerson.java:16-19 | building a natural person keeps the PESEL and the personal, contact and finance data unchanged; the family ends up in natural order, holding the same members |
| PersonModel.NewSelfEmployed | src/main/java/pl/mariodev/creditapp/core/model/SelfEmployed.java:12-17 | building a self-employed person keeps the company age, NIP, REGON and shared data as supplied; the family ends up in natural order, holding the same members |
| PersonModel.Person.FamilyMembersSortedByName | src/main/java/pl/mariodev/creditapp/core/model/Person.java:27-31 | returns a name-ordered permutation of the stored family |
| PersonModel.Person.Balance | src/main/java/pl/mariodev/creditapp/core/model/Person.java:37-47 | the balance of an applicant with no incomes and no expenses is 0 |
| PersonModel.ComputeBalance | src/main/java/pl/mariodev/creditapp/core/model/Person.java:37-47 | the two accumulating loops compute the sum of monthly incomes minus the sum of expenses |
| PersonModel.Person.NumOfDependants | src/main/java/pl/mariodev/creditapp/core/model/Person.java:49-51 | the number of dependants is 1 more than the number of family members, so it is at least 1 |
| PersonModel.Person.IncomePerFamilyMember | src/main/java/pl/mariodev/creditapp/core/model/Person.java:65-68 | multiplied back by the number of dependants it gives the balance; it lies between 0 and the balance; it is 0 exactly when the balance is 0 |
| PersonModel.NormalisationKeepsDerivedValues | src/main/java/pl/mariodev/creditapp/core/model/Person.java:19-51 | normalising the family order changes neither the dependants count, nor the balance, nor the income per family member |
| PersonModel.PermutedFamilySameIncomeShare | src/main/java/pl/mariodev/creditapp/core/model/Person.java:49-68 | family lists holding the same members give the same dependants count and the same income per family member |
| PersonModel.ReconstructionIsIdentity | src/main/java/pl/mariodev/creditapp/core/model/Person.java:19-25 | constructing an applicant again from a constructed applicant's own fields gives the same applicant |
| PersonModel.NameViewIsSortFixpoint | src/main/java/pl/mariodev/creditapp/core/model/Person.java:27-31 | sorting the name-ordered view by name again changes nothing; it has as many members as the stored list; members with the same name keep their stored natural order |
| PersonBuilders.CreateNaturalPersonBuilder | src/main/java/pl/mariodev/creditapp/core/model/NaturalPerson.java:26-33 | a fresh builder holds only an empty family list, so it cannot be built yet |
| PersonBuilders.NaturalPersonBuilder.WithPersonalData | src/main/java/pl/mariodev/creditapp/core/model/NaturalPerson.java:35-38 | `withPersonalData` stores the personal data and leaves every other field of the builder unchanged |
| PersonBuilders.NaturalPersonBuilder.WithFamilyMembers | src/main/java/pl/mariodev/creditapp/core/model/NaturalPerson.java:40-43 | `withFamilyMembers` stores the family list and leaves every other field of the builder unchanged |
| PersonBuilders.NaturalPersonBuilder.WithContactData | src/main/java/pl/mariodev/creditapp/core/model/NaturalPerson.java:45-48 | `withContactData` stores the contact data and leaves every other field of the builder unchanged |
| PersonBuilders.NaturalPersonBuilder.WithFinanceData | src/main/java/pl/mariodev/creditapp/core/model/NaturalPerson.java:50-53 | `withFinanceData` stores the finance data and leaves every other field of the builder unchanged |
| PersonBuilders.NaturalPersonBuilder.WithNip | src/main/java/pl/mariodev/creditapp/core/model/NaturalPerson.java:55-58 | `withNip`, despite its name, stores the PESEL and leaves every other field of the builder unchanged |
| PersonBuilders.NaturalPersonBuilder.Build | src/main/java/pl/mariodev/creditapp/core/model/NaturalPerson.java:60-62 | the builder produces the natural-person variant with every supplied field unchanged, apart from the family normalisation |
| PersonBuilders.NaturalPersonDefaultFamily | src/main/java/pl/mariodev/creditapp/core/model/NaturalPerson.java:26 | without `withFamilyMembers` the family is empty, there is exactly one dependant, and the income per member equals the balance |
| PersonBuilders.NaturalPersonBuildPassesThrough | src/main/java/pl/mariodev/creditapp/core/model/NaturalPerson.java:55-62 | the value given to `withNip` becomes the PESEL; the built person equals direct construction from the supplied values |
| PersonBuilders.CreateSelfEmployedBuilder | src/main/java/pl/mariodev/creditapp/core/model/SelfEmployed.java:29-37 | a fresh builder holds an empty family list and company age 0 and nothing else, so it cannot be built yet |
| PersonBuilders.SelfEmployedBuilder.WithPersonalData | src/main/java/pl/mariodev/creditapp/core/model/SelfEmployed.java:39-42 | `withPersonalData` stores the personal data and leaves every other field of the builder unchanged |
| PersonBuilders.SelfEmployedBuilder.WithFamilyMembers | src/main/java/pl/mariodev/creditapp/core/model/SelfEmployed.java:44-47 | `withFamilyMembers` stores the family list and leaves every other field of the builder unchanged |
| PersonBuilders.SelfEmployedBuilder.WithContactData | src/main/java/pl/mariodev/creditapp/core/model/SelfEmployed.java:49-52 | `withContactData` stores the contact data and leaves every other field of the builder unchanged |
| PersonBuilders.SelfEmployedBuilder.WithFinanceData | src/main/java/pl/mariodev/creditapp/core/model/SelfEmployed.java:54-57 | `withFinanceData` stores the finance data and leaves every other field of the builder unchanged |
| PersonBuilders.SelfEmployedBuilder.WithNip | src/main/java/pl/mariodev/creditapp/core/model/SelfEmployed.java:59-62 | `withNip` stores the NIP and leaves every other field of the builder unchanged |
| PersonBuilders.SelfEmployedBuilder.WithRegon | src/main/java/pl/mariodev/creditapp/core/model/SelfEmployed.java:64-67 | `withRegon` stores the REGON and leaves every other field of the builder unchanged |
| PersonBuilders.SelfEmployedBuilder.WithYearsSinceFounded | src/main/java/pl/mariodev/creditapp/core/model/SelfEmployed.java:69-72 | `withYearsSinceFounded` stores the company age and leaves every other field of the builder unchanged |
| PersonBuilders.SelfEmployedBuilder.Build | src/main/java/pl/mariodev/creditapp/core/model/SelfEmployed.java:74-76 | the builder produces the self-employed variant; company age, NIP, REGON and shared data are kept as supplied |
| PersonBuilders.SelfEmployedDefaults | src/main/java/pl/mariodev/creditapp/core/model/SelfEmployed.java:29-30 | by default the family is empty, there is exactly one dependant, the company age is 0, and NIP and REGON are absent |
| PersonBuilders.SelfEmployedBuildPassesThrough | src/main/java/pl/mariodev/creditapp/core/model/SelfEmployed.java:12-21 | `getYearsSinceFounded` returns the value given to `withYearsSinceFounded`; NIP and REGON are stored as supplied |
| PersonBuilders.NaturalPersonSettersReachPerson | src/main/java/pl/mariodev/creditapp/core/model/NaturalPerson.java:35-62 | on any complete builder, each setter keeps it complete and its value is what the built person reports; the value given to `withNip` is the PESEL |
| PersonBuilders.SelfEmployedSettersReachPerson | src/main/java/pl/mariodev/creditapp/core/model/SelfEmployed.java:39-76 | on any complete builder, each setter keeps it complete and its value is what the built person reports, including the company age, NIP and REGON |
| PersonalDataModel.CreatePersonalDataBuilder | src/main/java/pl/mariodev/creditapp/core/model/PersonalData.java:55-65 | a fresh builder holds nothing, so it cannot be built yet |
| PersonalDataModel.PersonalDataBuilder.WithName | src/main/java/pl/mariodev/creditapp/core/model/PersonalData.java:67-70 | `withName` stores the name and leaves every other field of the builder unchanged |
| PersonalDataModel.PersonalDataBuilder.WithLastName | src/main/java/pl/mariodev/creditapp/core/model/PersonalData.java:72-75 | `withLastName` stores the last name and leaves every other field unchanged |
| PersonalDataModel.PersonalDataBuilder.WithMothersMaidenName | src/main/java/pl/mariodev/creditapp/core/model/PersonalData.java:77-80 | `withMothersMaidenName` stores the mother's maiden name and leaves every other field unchanged |
| PersonalDataModel.PersonalDataBuilder.WithMartialStatus | src/main/java/pl/mariodev/creditapp/core/model/PersonalData.java:82-85 | `withMartialStatus` stores the marital status and leaves every other field unchanged |
| PersonalDataModel.PersonalDataBuilder.WithEducation | src/main/java/pl/mariodev/creditapp/core/model/PersonalData.java:87-90 | `withEducation` stores the education level and leaves every other field unchanged |
| PersonalDataModel.PersonalDataBuilder.Build | src/main/java/pl/mariodev/creditapp/core/model/PersonalData.java:92-94 | each field of the built record is the value the builder holds for it |
| PersonalDataModel.BuiltPersonalDataKeepsSuppliedValues | src/main/java/pl/mariodev/creditapp/core/model/PersonalData.java:67-94 | from any starting builder, after all five `with…` calls the builder can be built, and each getter returns the value handed to its call |
| PersonalDataModel.SettersCommute | src/main/java/pl/mariodev/creditapp/core/model/PersonalData.java:67-90 | `with…` calls on different fields commute, so their order never changes the built record |
| PersonalDataModel.RebuildPersonalData | src/main/java/pl/mariodev/creditapp/core/model/PersonalData.java:63-94 | passing a record's own values to a fresh builder rebuilds that record |
| PersonalDataModel.LastWriteWins | src/main/java/pl/mariodev/creditapp/core/model/PersonalData.java:87-90 | a second `withEducation` overrides the first and leaves every other field alone |
| ContactDataModel.CreateContactDataBuilder | src/main/java/pl/mariodev/creditapp/core/model/ContactData.java:44-54 | a fresh builder holds nothing, so it cannot be built yet |
| ContactDataModel.ContactDataBuilder.WithEmail | src/main/java/pl/mariodev/creditapp/core/model/ContactData.java:56-59 | `withEmail` stores the e-mail address and leaves every other field of the builder unchanged |
| ContactDataModel.ContactDataBuilder.WithPhoneNumber | src/main/java/pl/mariodev/creditapp/core/model/ContactData.java:61-64 | `withPhoneNumber` stores the phone number and leaves every other field of the builder unchanged |
| ContactDataModel.ContactDataBuilder.WithHomeAddress | src/main/java/pl/mariodev/creditapp/core/model/ContactData.java:66-69 | `withHomeAddress` stores the home address and leaves every other field of the builder unchanged |
| ContactDataModel.ContactDataBuilder.WithCorrespondenceAddress | src/main/java/pl/mariodev/creditapp/core/model/ContactData.java:71-74 | `withCorrespondenceAddress` stores the correspondence address and leaves every other field of the builder unchanged |
| ContactDataModel.ContactDataBuilder.Build | src/main/java/pl/mariodev/creditapp/core/model/ContactData.java:76-80 | a correspondence address equal to the home address is stored as absent (both directions); a different one is stored as supplied; email, phone and home address are unchanged; a stored correspondence address never equals the home address |
| ContactDataModel.RebuildIsIdentity | src/main/java/pl/mariodev/creditapp/core/model/ContactData.java:76-80 | rebuilding a built record gives the same record, so the collapse is idempotent |
| ContactDataModel.ValidRecordIsBuilt | src/main/java/pl/mariodev/creditapp/core/model/ContactData.java:77-78 | every record with no duplicate correspondence address is what rebuilding it produces |
| Scoring.CalculateSelfEmployed | src/main/java/pl/mariodev/creditapp/core/scoring/ScoringCalculator.java:23-25 | the self-employed overload scores 0 unless overridden |
| Scoring.CalculateNaturalPerson | src/main/java/pl/mariodev/creditapp/core/scoring/ScoringCalculator.java:27-29 | the natural-person overload scores 0 unless overridden |
| Scoring.CalculatePerson | src/main/java/pl/mariodev/creditapp/core/scoring/ScoringCalculator.java:14-21 | unless overridden, a self-employed applicant goes to the self-employed overload and a natural person to the natural-person overload |
| Scoring.Calculate | src/main/java/pl/mariodev/creditapp/core/scoring/ScoringCalculator.java:10-12 | unless overridden, scoring an application is scoring its applicant |
| Scoring.NoOverrideScoresZero | src/main/java/pl/mariodev/creditapp/core/scoring/ScoringCalculator.java:14-29 | a unit that overrides nothing scores every application 0 |
| Scoring.SelfEmployedOnlyUnit | src/main/java/pl/mariodev/creditapp/core/scoring/ScoringCalculator.java:14-29 | a unit defined only for self-employed applicants gives a natural person 0 and a self-employed applicant its own score |
| Scoring.NaturalPersonOnlyUnit | src/main/java/pl/mariodev/creditapp/core/scoring/ScoringCalculator.java:14-29 | a unit defined only for natural persons gives a self-employed applicant 0 and a natural person its own score |
| Scoring.EducationCalculator | src/main/java/pl/mariodev/creditapp/core/scoring/EducationCalculator.java:11-17 | the unit overrides only `calculate(Person)` and scores every application with the points of the applicant's education level |
| Scoring.EducationCalculatorScoresEducation | src/main/java/pl/mariodev/creditapp/core/scoring/EducationCalculator.java:11-17 | the education unit scores the points of the applicant's education level, for both kinds |
| Scoring.EducationIgnoresOtherFields | src/main/java/pl/mariodev/creditapp/core/scoring/EducationCalculator.java:13-14 | two applications whose applicants have the same education level score the same, whatever else differs |
| Scoring.RunningTotal | src/test/java/pl/mariodev/creditapp/core/CompundScoringCalculatorTest.java:35-41 | the running Java `int` sum of the units' scores equals the exact sum wrapped once to 32 bits |
| Scoring.Compound | src/test/java/pl/mariodev/creditapp/core/CompundScoringCalculatorTest.java:35-41 | the compound scores each application with the exact sum of its units' scores, wrapped to a Java `int` |
| Scoring.CompoundIsSum | src/test/java/pl/mariodev/creditapp/core/CompundScoringCalculatorTest.java:35-41 | the compound scores the sum of its units' scores on the same application, which is the exact sum whenever that fits in an `int` |
| Scoring.ExactTotalPermutation | src/test/java/pl/mariodev/creditapp/core/CompundScoringCalculatorTest.java:28-41 | the exact sum does not depend on the order of the units |
| Scoring.CompoundOrderIndependent | src/test/java/pl/mariodev/creditapp/core/CompundScoringCalculatorTest.java:28 | reordering the units of a compound does not change its score |
| Scoring.CompoundDependsOnUnitScoresOnly | src/test/java/pl/mariodev/creditapp/core/CompundScoringCalculatorTest.java:35-37 | two unit lists that score an application alike, position by position, give the same compound score |
| Scoring.CompoundOfThreeUnits | src/test/java/pl/mariodev/creditapp/core/CompundScoringCalculatorTest.java:30-47 | three units scoring 100, 200 and 50 give 350 |
| CreditRating.LoanTypeFactor | src/main/java/pl/mariodev/creditapp/core/CreditRatingCalculator.java:20-27 | a personal loan uses the personal-loan rate and a mortgage uses the mortgage rate |
| CreditRating.Rate | src/main/java/pl/mariodev/creditapp/core/CreditRatingCalculator.java:17-30 | a zero balance gives rating 0; the value is returned unrounded |
| CreditRating.RateTimesDependants | src/main/java/pl/mariodev/creditapp/core/CreditRatingCalculator.java:19-27 | the rating times the number of dependants equals balance × 12 × period × factor, so the rating is the household balance over the period shared out per dependant |
| CreditRating.RateIsShareTimesScale | src/main/java/pl/mariodev/creditapp/core/CreditRatingCalculator.java:19-27 | the rating is the income per family member times the scale 12 × period × factor of the loan terms |
| CreditRating.RateMonotoneInIncome | src/main/java/pl/mariodev/creditapp/core/CreditRatingCalculator.java:19-27 | with period and factor non-negative, a higher income per family member never lowers the rating (loan type and period fixed) |
| CreditRating.RateByLoanType | src/main/java/pl/mariodev/creditapp/core/CreditRatingCalculator.java:20-26 | for the same applicant and period, the mortgage and personal-loan ratings stand in the ratio of the two factors |
| CreditRating.RateDependsOnIncomeShareOnly | src/main/java/pl/mariodev/creditapp/core/CreditRatingCalculator.java:18-19 | equal income per family member and equal loan terms give equal ratings |
| Decision.NewDecision | src/main/java/pl/mariodev/creditapp/core/CreditApplicationDecision.java:19-25 | the four-argument constructor leaves the cause absent and keeps every argument |
| Decision.NewDecisionWithCause | src/main/java/pl/mariodev/creditapp/core/CreditApplicationDecision.java:27-33 | the five-argument constructor makes the cause present and keeps every argument |
| Decision.DecisionString | src/main/java/pl/mariodev/creditapp/core/CreditApplicationDecision.java:35-56 | a message exists whenever the cause (for failed requirements) and the rate (for a rating rejection) are present; only POSITIVE starts with "Congratulations ", every other outcome starts with "Sorry"; the name and last name follow the opening word |
| Decision.MessagesIdentifyVerdict | src/main/java/pl/mariodev/creditapp/core/CreditApplicationDecision.java:35-56 | for the same applicant, two decisions with different types, or with different causes for failed requirements, never render the same message |
| DecisionService.Outcome | src/test/java/pl/mariodev/creditapp/core/CreditApplicationServiceTest.java:58-119 | scoring below 300 gives NEGATIVE_SCORING; scoring from 300 to 400 gives CONTACT_REQUIRED; above 400, a failed requirement, then a rating below the amount, then POSITIVE (each as an if-and-only-if) |
| DecisionService.Decide | src/test/java/pl/mariodev/creditapp/core/CreditApplicationServiceTest.java:44-119 | the decision carries the score of the unit the factory selects for the applicant; the validator's cause; the rating exactly when it was computed; the applicant's personal data; and it can always be rendered |
| DecisionService.OutcomePartition | src/test/java/pl/mariodev/creditapp/core/CreditApplicationServiceTest.java:58-86 | every decision falls in one scoring band: below 300, 300 to 400, or above 400 with one of the three later outcomes |
| DecisionService.Boundaries | src/test/java/pl/mariodev/creditapp/core/CreditApplicationServiceTest.java:59-85 | 299 gives NEGATIVE_SCORING; 300 and 400 give CONTACT_REQUIRED; a rating equal to the requested amount is POSITIVE |
| DecisionService.StageMonotoneInScoring | src/test/java/pl/mariodev/creditapp/core/CreditApplicationServiceTest.java:58-103 | a higher scoring never moves an application to an earlier stage |
| DecisionService.RatingGateMonotone | src/test/java/pl/mariodev/creditapp/core/CreditApplicationServiceTest.java:88-119 | a higher rating or a lower amount keeps a POSITIVE outcome positive; the reverse keeps NEGATIVE_RATING |
| DecisionService.SilentValidatorDefersToRating | src/test/java/pl/mariodev/creditapp/core/CreditApplicationServiceTest.java:53-55 | when the post-validator reports nothing and scoring is above 400, the rating comparison alone decides |
| DecisionService.ScenarioScoring100 | src/test/java/pl/mariodev/creditapp/core/CreditApplicationServiceTest.java:58-70 | scoring 100 gives NEGATIVE_SCORING |
| DecisionService.ScenarioScoring350 | src/test/java/pl/mariodev/creditapp/core/CreditApplicationServiceTest.java:73-85 | scoring 350 gives CONTACT_REQUIRED |
| DecisionService.ScenarioRatingBelowRequested | src/test/java/pl/mariodev/creditapp/core/CreditApplicationServiceTest.java:88-103 | scoring 450 with rating 189000 against 190000 requested gives NEGATIVE_RATING, and the decision carries that rating |
| DecisionService.ScenarioRatingAboveRequested | src/test/java/pl/mariodev/creditapp/core/CreditApplicationServiceTest.java:106-119 | scoring 450 with rating 151000 against 150000 requested gives POSITIVE |
| DecisionService.ProductionRatingRejection | src/main/java/pl/mariodev/creditapp/core/CreditRatingCalculator.java:17-30 | with the real rating formula, a rating rejection carries the formula's rating, which is below the requested amount |

## Left out

- Logging (slf4j) in the rating calculator and the education unit: the log call itself has no effect on results. The rating calculator's log argument can throw, though, so `calculate` never returns; see the BigDecimal line below.
- BigDecimal formatting, `new BigDecimal(double).setScale(2)`: the rendered rate is an uninterpreted function of the real rate. The model does not capture that `setScale(2)` with no rounding mode throws for most doubles. That failure happens both in the NEGATIVE_RATING message and in the rating calculator's log line.
- IEEE `double` arithmetic: money is `real`, so sums, the division by the number of dependants and the rating product are exact.
- Builder mutation and aliasing: the source's family list is sorted in place and shared with the caller's list. Only the normalised result is modelled. The stored list also stays mutable after construction, because `Person.getFamilyMembers()` (Person.java:33-35) returns it as is. A caller can reorder it or add to it. So in the source, the natural order that `Person.Valid()` states holds only until someone mutates that list, and so do the dependants count and the income per family member.
- Field validation (`@NotNull`, `@Regex`, `CreditApplicationValidator`): it is external. The builders' `Build` functions require the annotated fields to be set, and the service assumes the application is valid.
- `ContactDataModel.ContactDataBuilder.Build` requires a correspondence address, because `Optional.of(null)` throws. It also requires a home address, because `homeAddress.equals` dereferences it.
- `Decision.DecisionString` requires the cause for NEGATIVE_REQUIREMENTS_NOT_MET, because `Optional.get` throws without one. It requires the rate for NEGATIVE_RATING, because `new BigDecimal(null)` throws.
- DecisionService.Decide: follows the documented gate order, which consults the rating and the post-validator only above 400. `CreditApplicationServiceTest` runs under `MockitoExtension` (line 23), whose stubs are strict. Its `@BeforeEach` stubs the post-validator (lines 53-55) for every test, including the scoring-100 and scoring-350 tests (lines 58-86). Strict stubs fail a test whose stub goes unused, so the service most likely computes the rating and calls the post-validator in every band. That service would differ from `Decide` in two ways. A validator failure at scoring 100 would give NEGATIVE_REQUIREMENTS_NOT_MET where `Decide` gives NEGATIVE_SCORING. Its decision would also carry a rating in every band, where `Decide` ensures the rate is absent at 400 and below.
- The source's `return null` fall-through in `getDecisionString` and its `return 0` for any other subclass in `calculate(Person)` are unreachable: decision types, causes and applicant kinds are closed datatypes here.
- The rules of `CompoundPostValidator` (expense ratio, minimum mortgage amount), the bundles of `PersonScoringCalculatorFactory`, the values of `Constants`, `Education.getScoringPoints` and the two family-member orderings are not part of this model. They are parameters or uninterpreted constants.
- FamilyMember, Address, Education and MaritalStatus are abstract types. SourceOfIncome and Expense keep only their amount. Addresses compare by value, on the assumption that `Address.equals` is value equality.
- Determinism and idempotence of scoring, rating and decision (a second call gives the same result) hold by construction: every operation is a Dafny function. So do the facts that taking the name-ordered family leaves the stored list alone and that rating an application does not modify it.
- Immutability of the records holds by construction: they are datatypes. In the source, `PersonalData`, `Person` with its two subclasses, and `CreditApplicationDecision` have final fields. `ContactData` has private, non-final fields with no setters (ContactData.java:12-19), so it is only effectively immutable. The family list inside a `Person` stays mutable; see the aliasing line above.
- Plain getters are the datatypes' field selectors.
