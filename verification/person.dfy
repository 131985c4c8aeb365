/** The applicant (`core/model/Person.java` and its two subclasses), as a
    closed two-variant datatype, with its derived financial values. */
module PersonModel {
  import opened Wrappers
  import opened JavaInt
  import opened Sorting
  import opened PersonalDataModel
  import opened ContactDataModel

  /** The family-member class is not part of this model: it matters only
      through its natural order (`Comparable`) and its name order
      (`FamilyMemberNameComparator`), both left uninterpreted. */
  type FamilyMember(!new)

  type FamilyOrdering = le: (FamilyMember, FamilyMember) -> bool | IsTotalPreorder(le)
    witness (a: FamilyMember, b: FamilyMember) => true

  const NaturalOrder: FamilyOrdering
  const NameOrder: FamilyOrdering

  datatype SourceOfIncome = SourceOfIncome(monthlyIncome: real)
  datatype Expense = Expense(amount: real)
  datatype FinanceData = FinanceData(sourceOfIncomes: seq<SourceOfIncome>, expenses: seq<Expense>)

  /** Sum of the monthly incomes, accumulated front to back as the source's
      loop does. */
  function TotalMonthlyIncome(s: seq<SourceOfIncome>): real {
    if |s| == 0 then 0.0 else TotalMonthlyIncome(s[..|s| - 1]) + s[|s| - 1].monthlyIncome
  }

  function TotalExpenses(s: seq<Expense>): real {
    if |s| == 0 then 0.0 else TotalExpenses(s[..|s| - 1]) + s[|s| - 1].amount
  }

  /** The construction-time normalisation of the family list. */
  function NormaliseFamily(family: seq<FamilyMember>): (r: seq<FamilyMember>)
    ensures SortedBy(NaturalOrder, r)
    ensures multiset(r) == multiset(family)
    ensures |r| == |family|
  {
    Sort(NaturalOrder, family)
  }

  /** `NaturalPerson` carries a PESEL; `SelfEmployed` carries the business
      identifiers (never validated, so possibly absent) and the company age.
      Both share personal, contact and finance data and the family list. */
  datatype Person =
    | NaturalPerson(
        pesel: string,
        personalData: PersonalData,
        contactData: ContactData,
        financeData: FinanceData,
        familyMembers: seq<FamilyMember>)
    | SelfEmployed(
        yearsSinceFounded: int32,
        nip: Option<string>,
        regon: Option<string>,
        personalData: PersonalData,
        contactData: ContactData,
        financeData: FinanceData,
        familyMembers: seq<FamilyMember>)
  {
    /** What the constructor guarantees: the family is in natural order. */
    ghost predicate Valid() {
      SortedBy(NaturalOrder, familyMembers)
    }

    /** A name-ordered copy; the stored list itself is left as it is. */
    function FamilyMembersSortedByName(): (r: seq<FamilyMember>)
      ensures SortedBy(NameOrder, r)
      ensures multiset(r) == multiset(familyMembers)
    {
      Sort(NameOrder, familyMembers)
    }

    /** Monthly incomes minus expenses. */
    function Balance(): (r: real)
      ensures |financeData.sourceOfIncomes| == 0 && |financeData.expenses| == 0 ==> r == 0.0
    {
      TotalMonthlyIncome(financeData.sourceOfIncomes) - TotalExpenses(financeData.expenses)
    }

    /** The applicant counts as one dependant, each family member as one more. */
    function NumOfDependants(): (r: int)
      ensures r >= 1
      ensures r - 1 == |familyMembers|
    {
      1 + |familyMembers|
    }

    /** The balance shared out evenly over the dependants; the divisor is
        never zero. */
    function IncomePerFamilyMember(): (r: real)
      ensures r * (NumOfDependants() as real) == Balance()
      ensures Balance() >= 0.0 ==> 0.0 <= r <= Balance()
      ensures Balance() <= 0.0 ==> Balance() <= r <= 0.0
      ensures r == 0.0 <==> Balance() == 0.0
    {
      Balance() / (NumOfDependants() as real)
    }
  }

  /** `new NaturalPerson(…)`: stores the data unchanged and the family in
      natural order. */
  function NewNaturalPerson(
    pesel: string, personalData: PersonalData, contactData: ContactData,
    financeData: FinanceData, family: seq<FamilyMember>): (p: Person)
    ensures p.NaturalPerson? && p.Valid()
    ensures p.pesel == pesel && p.personalData == personalData
    ensures p.contactData == contactData && p.financeData == financeData
    ensures multiset(p.familyMembers) == multiset(family)
  {
    NaturalPerson(pesel, personalData, contactData, financeData, NormaliseFamily(family))
  }

  /** `new SelfEmployed(…)`: as for a natural person, plus the business data
      stored as supplied. */
  function NewSelfEmployed(
    yearsSinceFounded: int32, nip: Option<string>, regon: Option<string>,
    personalData: PersonalData, contactData: ContactData,
    financeData: FinanceData, family: seq<FamilyMember>): (p: Person)
    ensures p.SelfEmployed? && p.Valid()
    ensures p.yearsSinceFounded == yearsSinceFounded && p.nip == nip && p.regon == regon
    ensures p.personalData == personalData
    ensures p.contactData == contactData && p.financeData == financeData
    ensures multiset(p.familyMembers) == multiset(family)
  {
    SelfEmployed(yearsSinceFounded, nip, regon, personalData, contactData, financeData, NormaliseFamily(family))
  }

  /** `getBalance` as the source computes it: two accumulating loops. */
  method ComputeBalance(p: Person) returns (balance: real)
    ensures balance == p.Balance()
  {
    var incomes := p.financeData.sourceOfIncomes;
    var totalMonthlyIncome := 0.0;
    var i := 0;
    while i < |incomes|
      invariant 0 <= i <= |incomes|
      invariant totalMonthlyIncome == TotalMonthlyIncome(incomes[..i])
    {
      assert incomes[..i + 1][..i] == incomes[..i];
      totalMonthlyIncome := totalMonthlyIncome + incomes[i].monthlyIncome;
      i := i + 1;
    }
    assert incomes[..i] == incomes;
    var expenses := p.financeData.expenses;
    var totalExpenses := 0.0;
    var j := 0;
    while j < |expenses|
      invariant 0 <= j <= |expenses|
      invariant totalExpenses == TotalExpenses(expenses[..j])
    {
      assert expenses[..j + 1][..j] == expenses[..j];
      totalExpenses := totalExpenses + expenses[j].amount;
      j := j + 1;
    }
    assert expenses[..j] == expenses;
    balance := totalMonthlyIncome - totalExpenses;
  }

  /** Normalising the family order changes neither the number of dependants
      nor any money figure: they depend on the family only through its size. */
  lemma NormalisationKeepsDerivedValues(
    pesel: string, personalData: PersonalData, contactData: ContactData,
    financeData: FinanceData, family: seq<FamilyMember>)
    ensures var p := NewNaturalPerson(pesel, personalData, contactData, financeData, family);
            var q := NaturalPerson(pesel, personalData, contactData, financeData, family);
            && p.NumOfDependants() == q.NumOfDependants() == 1 + |family|
            && p.Balance() == q.Balance()
            && p.IncomePerFamilyMember() == q.IncomePerFamilyMember()
  {
  }

  /** Two family lists with the same members give applicants with the same
      dependants and the same income per family member. */
  lemma PermutedFamilySameIncomeShare(p: Person, family: seq<FamilyMember>)
    requires multiset(family) == multiset(p.familyMembers)
    ensures p.(familyMembers := family).NumOfDependants() == p.NumOfDependants()
    ensures p.(familyMembers := family).IncomePerFamilyMember() == p.IncomePerFamilyMember()
  {
    assert |multiset(family)| == |family|;
    assert |multiset(p.familyMembers)| == |p.familyMembers|;
  }

  /** Reconstructing a constructed applicant from its own fields gives it
      back: the normalisation is idempotent. */
  lemma ReconstructionIsIdentity(p: Person)
    requires p.Valid()
    ensures p.NaturalPerson? ==>
      NewNaturalPerson(p.pesel, p.personalData, p.contactData, p.financeData, p.familyMembers) == p
    ensures p.SelfEmployed? ==>
      NewSelfEmployed(p.yearsSinceFounded, p.nip, p.regon, p.personalData, p.contactData,
                      p.financeData, p.familyMembers) == p
  {
    SortOfSorted(NaturalOrder, p.familyMembers);
  }

  /** The name-ordered view is a fixed point of name ordering, has as many
      members as the stored list, and lists members with the same name in
      their stored (natural) order, because the sort is stable. */
  lemma NameViewIsSortFixpoint(p: Person, m: FamilyMember)
    ensures Sort(NameOrder, p.FamilyMembersSortedByName()) == p.FamilyMembersSortedByName()
    ensures |p.FamilyMembersSortedByName()| == |p.familyMembers|
    ensures EquivalentTo(NameOrder, m, p.FamilyMembersSortedByName()) == EquivalentTo(NameOrder, m, p.familyMembers)
  {
    SortIdempotent(NameOrder, p.familyMembers);
    SortIsStable(NameOrder, m, p.familyMembers);
    assert |multiset(p.FamilyMembersSortedByName())| == |p.FamilyMembersSortedByName()|;
    assert |multiset(p.familyMembers)| == |p.familyMembers|;
  }
}
