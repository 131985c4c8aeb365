/** The fluent builders of the two applicant kinds
    (`NaturalPerson.Builder`, `SelfEmployed.Builder`). A field never set is
    `None` (Java's `null`); the family list starts out empty. */
module PersonBuilders {
  import opened Wrappers
  import opened JavaInt
  import opened PersonalDataModel
  import opened ContactDataModel
  import opened PersonModel

  datatype NaturalPersonBuilder = NaturalPersonBuilder(
    personalData: Option<PersonalData>,
    contactData: Option<ContactData>,
    financeData: Option<FinanceData>,
    pesel: Option<string>,
    familyMembers: seq<FamilyMember>)
  {
    /** Each setter stores its argument in its own field and leaves every
        other field of the builder as it was. */
    function WithPersonalData(personalData: PersonalData): (b: NaturalPersonBuilder)
      ensures b.personalData == Some(personalData)
      ensures b.(personalData := this.personalData) == this
    {
      this.(personalData := Some(personalData))
    }

    function WithFamilyMembers(familyMembers: seq<FamilyMember>): (b: NaturalPersonBuilder)
      ensures b.familyMembers == familyMembers
      ensures b.(familyMembers := this.familyMembers) == this
    {
      this.(familyMembers := familyMembers)
    }

    function WithContactData(contactData: ContactData): (b: NaturalPersonBuilder)
      ensures b.contactData == Some(contactData)
      ensures b.(contactData := this.contactData) == this
    {
      this.(contactData := Some(contactData))
    }

    function WithFinanceData(financeData: FinanceData): (b: NaturalPersonBuilder)
      ensures b.financeData == Some(financeData)
      ensures b.(financeData := this.financeData) == this
    {
      this.(financeData := Some(financeData))
    }

    /** Named `withNip` in the source, but it sets the PESEL. */
    function WithNip(pesel: string): (b: NaturalPersonBuilder)
      ensures b.pesel == Some(pesel)
      ensures b.(pesel := this.pesel) == this
    {
      this.(pesel := Some(pesel))
    }

    /** All four fields are `@NotNull`, enforced by the external validator. */
    predicate Complete() {
      personalData.Some? && contactData.Some? && financeData.Some? && pesel.Some?
    }

    function Build(): (p: Person)
      requires Complete()
      ensures p.NaturalPerson? && p.Valid()
      ensures p.pesel == pesel.value && p.personalData == personalData.value
      ensures p.contactData == contactData.value && p.financeData == financeData.value
      ensures multiset(p.familyMembers) == multiset(familyMembers)
    {
      NewNaturalPerson(pesel.value, personalData.value, contactData.value, financeData.value, familyMembers)
    }
  }

  /** `create()`: a fresh builder holds an empty family list and nothing
      else, so it cannot be built yet. */
  function CreateNaturalPersonBuilder(): (b: NaturalPersonBuilder)
    ensures b.personalData.None? && b.contactData.None? && b.financeData.None? && b.pesel.None?
    ensures b.familyMembers == []
    ensures !b.Complete()
  {
    NaturalPersonBuilder(None, None, None, None, [])
  }

  datatype SelfEmployedBuilder = SelfEmployedBuilder(
    personalData: Option<PersonalData>,
    contactData: Option<ContactData>,
    financeData: Option<FinanceData>,
    nip: Option<string>,
    regon: Option<string>,
    yearsSinceFounded: int32,
    familyMembers: seq<FamilyMember>)
  {
    /** Each setter stores its argument in its own field and leaves every
        other field of the builder as it was. */
    function WithPersonalData(personalData: PersonalData): (b: SelfEmployedBuilder)
      ensures b.personalData == Some(personalData)
      ensures b.(personalData := this.personalData) == this
    {
      this.(personalData := Some(personalData))
    }

    function WithFamilyMembers(familyMembers: seq<FamilyMember>): (b: SelfEmployedBuilder)
      ensures b.familyMembers == familyMembers
      ensures b.(familyMembers := this.familyMembers) == this
    {
      this.(familyMembers := familyMembers)
    }

    function WithContactData(contactData: ContactData): (b: SelfEmployedBuilder)
      ensures b.contactData == Some(contactData)
      ensures b.(contactData := this.contactData) == this
    {
      this.(contactData := Some(contactData))
    }

    function WithFinanceData(financeData: FinanceData): (b: SelfEmployedBuilder)
      ensures b.financeData == Some(financeData)
      ensures b.(financeData := this.financeData) == this
    {
      this.(financeData := Some(financeData))
    }

    function WithNip(nip: string): (b: SelfEmployedBuilder)
      ensures b.nip == Some(nip)
      ensures b.(nip := this.nip) == this
    {
      this.(nip := Some(nip))
    }

    function WithRegon(regon: string): (b: SelfEmployedBuilder)
      ensures b.regon == Some(regon)
      ensures b.(regon := this.regon) == this
    {
      this.(regon := Some(regon))
    }

    function WithYearsSinceFounded(yearsSinceFounded: int32): (b: SelfEmployedBuilder)
      ensures b.yearsSinceFounded == yearsSinceFounded
      ensures b.(yearsSinceFounded := this.yearsSinceFounded) == this
    {
      this.(yearsSinceFounded := yearsSinceFounded)
    }

    /** The shared data is `@NotNull` in `Person`; NIP and REGON carry no
        annotation and may stay unset. */
    predicate Complete() {
      personalData.Some? && contactData.Some? && financeData.Some?
    }

    function Build(): (p: Person)
      requires Complete()
      ensures p.SelfEmployed? && p.Valid()
      ensures p.yearsSinceFounded == yearsSinceFounded && p.nip == nip && p.regon == regon
      ensures p.personalData == personalData.value
      ensures p.contactData == contactData.value && p.financeData == financeData.value
      ensures multiset(p.familyMembers) == multiset(familyMembers)
    {
      NewSelfEmployed(yearsSinceFounded, nip, regon, personalData.value, contactData.value,
                      financeData.value, familyMembers)
    }
  }

  /** `create()`: a fresh builder holds an empty family list and a company
      age of 0 (Java's default for an `int` field), and nothing else, so it
      cannot be built yet. */
  function CreateSelfEmployedBuilder(): (b: SelfEmployedBuilder)
    ensures b.personalData.None? && b.contactData.None? && b.financeData.None?
    ensures b.nip.None? && b.regon.None?
    ensures b.yearsSinceFounded == 0 && b.familyMembers == []
    ensures !b.Complete()
  {
    SelfEmployedBuilder(None, None, None, None, None, 0, [])
  }

  /** Without `withFamilyMembers` a natural person has no family and is the
      only dependant. */
  lemma NaturalPersonDefaultFamily(pd: PersonalData, cd: ContactData, fd: FinanceData, pesel: string)
    ensures var p := CreateNaturalPersonBuilder().WithPersonalData(pd).WithContactData(cd)
                       .WithFinanceData(fd).WithNip(pesel).Build();
            && p.familyMembers == []
            && p.NumOfDependants() == 1
            && p.IncomePerFamilyMember() == p.Balance()
  {
  }

  /** Without `withFamilyMembers` or `withYearsSinceFounded` a self-employed
      applicant has no family, is the only dependant, and the company age
      is 0; without `withNip`/`withRegon` those identifiers are absent. */
  lemma SelfEmployedDefaults(pd: PersonalData, cd: ContactData, fd: FinanceData)
    ensures var p := CreateSelfEmployedBuilder().WithPersonalData(pd).WithContactData(cd)
                       .WithFinanceData(fd).Build();
            && p.familyMembers == []
            && p.NumOfDependants() == 1
            && p.yearsSinceFounded == 0
            && p.nip == None && p.regon == None
  {
  }

  /** `withNip` on the natural-person builder ends up as the PESEL, and
      every other field reaches `Person` unchanged. */
  lemma NaturalPersonBuildPassesThrough(
    pd: PersonalData, cd: ContactData, fd: FinanceData, pesel: string, family: seq<FamilyMember>)
    ensures var p := CreateNaturalPersonBuilder().WithFamilyMembers(family).WithNip(pesel)
                       .WithPersonalData(pd).WithContactData(cd).WithFinanceData(fd).Build();
            p == NewNaturalPerson(pesel, pd, cd, fd, family) && p.pesel == pesel
  {
  }

  /** `getYearsSinceFounded` returns what `withYearsSinceFounded` received,
      NIP and REGON are stored as supplied, and the rest reaches `Person`
      unchanged. */
  lemma SelfEmployedBuildPassesThrough(
    pd: PersonalData, cd: ContactData, fd: FinanceData, nip: string, regon: string,
    years: int32, family: seq<FamilyMember>)
    ensures var p := CreateSelfEmployedBuilder().WithYearsSinceFounded(years).WithRegon(regon)
                       .WithNip(nip).WithFamilyMembers(family).WithPersonalData(pd)
                       .WithContactData(cd).WithFinanceData(fd).Build();
            && p == NewSelfEmployed(years, Some(nip), Some(regon), pd, cd, fd, family)
            && p.yearsSinceFounded == years && p.nip == Some(nip) && p.regon == Some(regon)
  {
  }

  /** On any complete natural-person builder, each setter's value is what
      the built person reports, and a setter keeps the builder complete;
      in particular `withNip` sets the PESEL. */
  lemma NaturalPersonSettersReachPerson(
    b: NaturalPersonBuilder, pd: PersonalData, cd: ContactData, fd: FinanceData,
    pesel: string, family: seq<FamilyMember>)
    requires b.Complete()
    ensures b.WithNip(pesel).Complete() && b.WithNip(pesel).Build().pesel == pesel
    ensures b.WithPersonalData(pd).Complete() && b.WithPersonalData(pd).Build().personalData == pd
    ensures b.WithContactData(cd).Complete() && b.WithContactData(cd).Build().contactData == cd
    ensures b.WithFinanceData(fd).Complete() && b.WithFinanceData(fd).Build().financeData == fd
    ensures b.WithFamilyMembers(family).Complete()
    ensures multiset(b.WithFamilyMembers(family).Build().familyMembers) == multiset(family)
  {
  }

  /** On any complete self-employed builder, each setter's value is what the
      built person reports, and a setter keeps the builder complete. */
  lemma SelfEmployedSettersReachPerson(
    b: SelfEmployedBuilder, pd: PersonalData, cd: ContactData, fd: FinanceData,
    nip: string, regon: string, years: int32, family: seq<FamilyMember>)
    requires b.Complete()
    ensures b.WithYearsSinceFounded(years).Complete()
    ensures b.WithYearsSinceFounded(years).Build().yearsSinceFounded == years
    ensures b.WithNip(nip).Complete() && b.WithNip(nip).Build().nip == Some(nip)
    ensures b.WithRegon(regon).Complete() && b.WithRegon(regon).Build().regon == Some(regon)
    ensures b.WithPersonalData(pd).Complete() && b.WithPersonalData(pd).Build().personalData == pd
    ensures b.WithContactData(cd).Complete() && b.WithContactData(cd).Build().contactData == cd
    ensures b.WithFinanceData(fd).Complete() && b.WithFinanceData(fd).Build().financeData == fd
    ensures b.WithFamilyMembers(family).Complete()
    ensures multiset(b.WithFamilyMembers(family).Build().familyMembers) == multiset(family)
  {
  }
}
