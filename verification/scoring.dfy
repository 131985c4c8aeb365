/** Scoring units (`core/scoring/ScoringCalculator.java`,
    `EducationCalculator.java`) and their additive combination
    (`CompoundScoringCalculator`, whose source is not part of this model; its
    behaviour is the one its test pins down).

    The source's interface has four overloads with default bodies:
    `calculate(application)` delegates to `calculate(person)`, which
    dispatches on the applicant kind to `calculate(selfEmployed)` or
    `calculate(naturalPerson)`, both 0 by default. A unit here is the table
    of the overloads it overrides; `None` means the default body. */
module Scoring {
  import opened Wrappers
  import opened JavaInt
  import opened PersonalDataModel
  import opened PersonModel
  import opened ApplicationModel

  datatype ScoringCalculator = ScoringCalculator(
    onApplication: Option<CreditApplication -> int32>,
    onPerson: Option<Person -> int32>,
    onSelfEmployed: Option<Person -> int32>,
    onNaturalPerson: Option<Person -> int32>)

  /** `calculate(SelfEmployed)`: 0 unless overridden. */
  function CalculateSelfEmployed(c: ScoringCalculator, p: Person): (r: int32)
    requires p.SelfEmployed?
    ensures c.onSelfEmployed.None? ==> r == 0
  {
    match c.onSelfEmployed
    case Some(f) => f(p)
    case None => 0
  }

  /** `calculate(NaturalPerson)`: 0 unless overridden. */
  function CalculateNaturalPerson(c: ScoringCalculator, p: Person): (r: int32)
    requires p.NaturalPerson?
    ensures c.onNaturalPerson.None? ==> r == 0
  {
    match c.onNaturalPerson
    case Some(f) => f(p)
    case None => 0
  }

  /** `calculate(Person)`: unless overridden, routes each kind to its own
      overload. The source's final `return 0` for any other subclass has no
      counterpart, since the applicant type here has exactly two kinds. */
  function CalculatePerson(c: ScoringCalculator, p: Person): (r: int32)
    ensures c.onPerson.None? && p.SelfEmployed? ==> r == CalculateSelfEmployed(c, p)
    ensures c.onPerson.None? && p.NaturalPerson? ==> r == CalculateNaturalPerson(c, p)
  {
    match c.onPerson
    case Some(f) => f(p)
    case None =>
      match p
      case SelfEmployed(_, _, _, _, _, _, _) => CalculateSelfEmployed(c, p)
      case NaturalPerson(_, _, _, _, _) => CalculateNaturalPerson(c, p)
  }

  /** `calculate(CreditApplication)`: unless overridden, scores the applicant. */
  function Calculate(c: ScoringCalculator, app: CreditApplication): (r: int32)
    ensures c.onApplication.None? ==> r == CalculatePerson(c, app.person)
  {
    match c.onApplication
    case Some(f) => f(app)
    case None => CalculatePerson(c, app.person)
  }

  /** A unit that overrides nothing scores every application 0. */
  lemma NoOverrideScoresZero(c: ScoringCalculator, app: CreditApplication)
    requires c.onApplication.None? && c.onPerson.None?
    requires c.onSelfEmployed.None? && c.onNaturalPerson.None?
    ensures Calculate(c, app) == 0
  {
  }

  /** A unit written only for self-employed applicants contributes 0 for a
      natural person, and exactly its own score for a self-employed one. */
  lemma SelfEmployedOnlyUnit(f: Person -> int32, app: CreditApplication)
    ensures var c := ScoringCalculator(None, None, Some(f), None);
            && (app.person.NaturalPerson? ==> Calculate(c, app) == 0)
            && (app.person.SelfEmployed? ==> Calculate(c, app) == f(app.person))
  {
  }

  /** A unit written only for natural persons contributes 0 for a
      self-employed applicant, and exactly its own score for a natural one. */
  lemma NaturalPersonOnlyUnit(f: Person -> int32, app: CreditApplication)
    ensures var c := ScoringCalculator(None, None, None, Some(f));
            && (app.person.SelfEmployed? ==> Calculate(c, app) == 0)
            && (app.person.NaturalPerson? ==> Calculate(c, app) == f(app.person))
  {
  }

  // ---------------------------------------------------------------------
  // Education

  function EducationScore(p: Person): int32 {
    EducationScoringPoints(p.personalData.education)
  }

  /** The education unit. It overrides only `calculate(Person)`, so both
      kinds are scored alike, by the points of the education level. */
  function EducationCalculator(): (c: ScoringCalculator)
    ensures c.onApplication.None? && c.onSelfEmployed.None? && c.onNaturalPerson.None?
    ensures forall app :: Calculate(c, app) == EducationScoringPoints(app.person.personalData.education)
  {
    ScoringCalculator(None, Some(EducationScore), None, None)
  }

  /** The education unit scores the applicant's education level's points. */
  lemma EducationCalculatorScoresEducation(app: CreditApplication)
    ensures Calculate(EducationCalculator(), app) == EducationScoringPoints(app.person.personalData.education)
  {
  }

  /** Only the education level matters: two applications whose applicants
      share it score the same, whatever their kind and other data. */
  lemma EducationIgnoresOtherFields(a: CreditApplication, b: CreditApplication)
    requires a.person.personalData.education == b.person.personalData.education
    ensures Calculate(EducationCalculator(), a) == Calculate(EducationCalculator(), b)
  {
  }

  // ---------------------------------------------------------------------
  // Compound scoring

  /** The exact sum of the units' scores, each unit evaluated on the same
      application. */
  function ExactTotal(units: seq<ScoringCalculator>, app: CreditApplication): int {
    if |units| == 0 then 0
    else ExactTotal(units[..|units| - 1], app) + Calculate(units[|units| - 1], app)
  }

  /** The running Java `int` sum, front to back. It is the exact sum
      wrapped once to 32 bits. */
  function RunningTotal(units: seq<ScoringCalculator>, app: CreditApplication): (r: int32)
    ensures r == Wrap(ExactTotal(units, app))
  {
    if |units| == 0 then 0
    else
      var prefix := units[..|units| - 1];
      var last := Calculate(units[|units| - 1], app);
      WrapAbsorbs(ExactTotal(prefix, app), last);
      Add(RunningTotal(prefix, app), last)
  }

  /** The compound unit over an ordered list of units. */
  function Compound(units: seq<ScoringCalculator>): (c: ScoringCalculator)
    ensures c.onApplication.Some?
    ensures forall app :: Calculate(c, app) == Wrap(ExactTotal(units, app))
  {
    ScoringCalculator(Some(app => RunningTotal(units, app)), None, None, None)
  }

  /** The compound's score is the sum of its units' scores on the same
      application (wrapped to 32 bits only when it leaves the `int` range). */
  lemma CompoundIsSum(units: seq<ScoringCalculator>, app: CreditApplication)
    ensures Calculate(Compound(units), app) == Wrap(ExactTotal(units, app))
    ensures MIN <= ExactTotal(units, app) <= MAX ==> Calculate(Compound(units), app) == ExactTotal(units, app)
  {
  }

  lemma {:induction false} ExactTotalAppend(a: seq<ScoringCalculator>, b: seq<ScoringCalculator>, app: CreditApplication)
    ensures ExactTotal(a + b, app) == ExactTotal(a, app) + ExactTotal(b, app)
  {
    if |b| == 0 {
      assert a + b == a;
    } else {
      assert (a + b)[..|a + b| - 1] == a + b[..|b| - 1];
      ExactTotalAppend(a, b[..|b| - 1], app);
    }
  }

  /** The exact sum does not depend on the order of the units. */
  lemma {:induction false} ExactTotalPermutation(a: seq<ScoringCalculator>, b: seq<ScoringCalculator>, app: CreditApplication)
    requires multiset(a) == multiset(b)
    ensures ExactTotal(a, app) == ExactTotal(b, app)
    decreases |a|
  {
    if |a| == 0 {
      assert |multiset(b)| == 0;
    } else {
      var n := |a| - 1;
      var x := a[n];
      assert x in multiset(b) by { assert x in multiset(a); }
      var k :| 0 <= k < |b| && b[k] == x;
      var rest := b[..k] + b[k + 1..];
      assert b == b[..k] + [x] + b[k + 1..];
      assert a == a[..n] + [x];
      assert multiset(b) == multiset(b[..k]) + multiset{x} + multiset(b[k + 1..]);
      assert multiset(a) == multiset(a[..n]) + multiset{x};
      assert multiset(rest) == multiset(b[..k]) + multiset(b[k + 1..]);
      assert multiset(a[..n]) == multiset(a) - multiset{x};
      assert multiset(rest) == multiset(b) - multiset{x};
      ExactTotalPermutation(a[..n], rest, app);
      ExactTotalAppend(b[..k] + [x], b[k + 1..], app);
      ExactTotalAppend(b[..k], [x], app);
      ExactTotalAppend(b[..k], b[k + 1..], app);
      assert ExactTotal([x], app) == Calculate(x, app) by {
        assert [x][..0] == [];
      }
    }
  }

  /** Reordering the units of a compound leaves its score unchanged. */
  lemma CompoundOrderIndependent(a: seq<ScoringCalculator>, b: seq<ScoringCalculator>, app: CreditApplication)
    requires multiset(a) == multiset(b)
    ensures Calculate(Compound(a), app) == Calculate(Compound(b), app)
  {
    ExactTotalPermutation(a, b, app);
  }

  /** The compound sees its units only through what they score on the given
      application. */
  lemma {:induction false} CompoundDependsOnUnitScoresOnly(a: seq<ScoringCalculator>, b: seq<ScoringCalculator>, app: CreditApplication)
    requires |a| == |b|
    requires forall i :: 0 <= i < |a| ==> Calculate(a[i], app) == Calculate(b[i], app)
    ensures ExactTotal(a, app) == ExactTotal(b, app)
    ensures Calculate(Compound(a), app) == Calculate(Compound(b), app)
  {
    if |a| > 0 {
      CompoundDependsOnUnitScoresOnly(a[..|a| - 1], b[..|b| - 1], app);
    }
  }

  /** Three units scoring 100, 200 and 50 on an application give 350, on
      every call. */
  lemma CompoundOfThreeUnits(units: seq<ScoringCalculator>, app: CreditApplication)
    requires |units| == 3
    requires Calculate(units[0], app) == 100
    requires Calculate(units[1], app) == 200
    requires Calculate(units[2], app) == 50
    ensures Calculate(Compound(units), app) == 350
  {
    var two := units[..2];
    var one := two[..1];
    assert units[..|units| - 1] == two && two[..|two| - 1] == one && one[..|one| - 1] == [];
    assert two[1] == units[1] && one[0] == units[0];
    assert ExactTotal(one, app) == 100;
    assert ExactTotal(two, app) == 300;
    assert ExactTotal(units, app) == 350;
  }
}
