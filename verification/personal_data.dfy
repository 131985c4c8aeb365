/** Personal data of an applicant and its builder
    (`core/model/PersonalData.java`). */
module PersonalDataModel {
  import opened Wrappers
  import opened JavaInt

  /** The education enum and the marital-status enum are not part of this
      model; only their identity matters here. */
  type Education(==, 0, !new)
  type MaritalStatus(==, 0, !new)

  /** `Education.getScoringPoints`: the fixed point value of each level,
      left uninterpreted. */
  const EducationScoringPoints: Education -> int32

  /** An immutable record: every field is final in the source. */
  datatype PersonalData = PersonalData(
    name: string,
    lastName: string,
    mothersMaidenName: string,
    maritalStatus: MaritalStatus,
    education: Education)

  /** The fluent builder; a field never set stays `None` (Java's `null`). */
  datatype PersonalDataBuilder = PersonalDataBuilder(
    name: Option<string>,
    lastName: Option<string>,
    mothersMaidenName: Option<string>,
    maritalStatus: Option<MaritalStatus>,
    education: Option<Education>)
  {
    /** Each setter stores its argument in its own field and leaves every
        other field of the builder as it was. */
    function WithName(name: string): (b: PersonalDataBuilder)
      ensures b.name == Some(name)
      ensures b.(name := this.name) == this
    {
      this.(name := Some(name))
    }

    function WithLastName(lastName: string): (b: PersonalDataBuilder)
      ensures b.lastName == Some(lastName)
      ensures b.(lastName := this.lastName) == this
    {
      this.(lastName := Some(lastName))
    }

    function WithMothersMaidenName(mothersMaidenName: string): (b: PersonalDataBuilder)
      ensures b.mothersMaidenName == Some(mothersMaidenName)
      ensures b.(mothersMaidenName := this.mothersMaidenName) == this
    {
      this.(mothersMaidenName := Some(mothersMaidenName))
    }

    /** Spelled as in the source (`withMartialStatus`). */
    function WithMartialStatus(maritalStatus: MaritalStatus): (b: PersonalDataBuilder)
      ensures b.maritalStatus == Some(maritalStatus)
      ensures b.(maritalStatus := this.maritalStatus) == this
    {
      this.(maritalStatus := Some(maritalStatus))
    }

    function WithEducation(education: Education): (b: PersonalDataBuilder)
      ensures b.education == Some(education)
      ensures b.(education := this.education) == this
    {
      this.(education := Some(education))
    }

    /** Every field is `@NotNull`; the external validator rejects a record
        with a missing field, so only complete builders are built here. */
    predicate Complete() {
      name.Some? && lastName.Some? && mothersMaidenName.Some? && maritalStatus.Some? && education.Some?
    }

    /** Each field of the record is the value last given to the builder. */
    function Build(): (r: PersonalData)
      requires Complete()
      ensures Some(r.name) == name && Some(r.lastName) == lastName
      ensures Some(r.mothersMaidenName) == mothersMaidenName
      ensures Some(r.maritalStatus) == maritalStatus && Some(r.education) == education
    {
      PersonalData(name.value, lastName.value, mothersMaidenName.value, maritalStatus.value, education.value)
    }
  }

  /** `create()`: a fresh builder holds nothing yet, so it cannot be built. */
  function CreatePersonalDataBuilder(): (b: PersonalDataBuilder)
    ensures b.name.None? && b.lastName.None? && b.mothersMaidenName.None?
    ensures b.maritalStatus.None? && b.education.None?
    ensures !b.Complete()
  {
    PersonalDataBuilder(None, None, None, None, None)
  }

  /** From any starting builder, setting all five fields makes it
      buildable, and each getter of the record returns the value handed to
      its `with…` call, whatever the builder held before. */
  lemma BuiltPersonalDataKeepsSuppliedValues(
    b: PersonalDataBuilder, name: string, lastName: string, maidenName: string,
    status: MaritalStatus, education: Education)
    ensures var c := b.WithName(name).WithLastName(lastName)
                       .WithMothersMaidenName(maidenName).WithMartialStatus(status).WithEducation(education);
            c.Complete() && c.Build() == PersonalData(name, lastName, maidenName, status, education)
  {
  }

  /** Setters of different fields commute, so the order of the `with…`
      calls never changes the built record. */
  lemma SettersCommute(
    b: PersonalDataBuilder, name: string, lastName: string, maidenName: string,
    status: MaritalStatus, education: Education)
    ensures b.WithName(name).WithLastName(lastName) == b.WithLastName(lastName).WithName(name)
    ensures b.WithName(name).WithMothersMaidenName(maidenName) == b.WithMothersMaidenName(maidenName).WithName(name)
    ensures b.WithName(name).WithMartialStatus(status) == b.WithMartialStatus(status).WithName(name)
    ensures b.WithName(name).WithEducation(education) == b.WithEducation(education).WithName(name)
    ensures b.WithLastName(lastName).WithMothersMaidenName(maidenName) == b.WithMothersMaidenName(maidenName).WithLastName(lastName)
    ensures b.WithLastName(lastName).WithMartialStatus(status) == b.WithMartialStatus(status).WithLastName(lastName)
    ensures b.WithLastName(lastName).WithEducation(education) == b.WithEducation(education).WithLastName(lastName)
    ensures b.WithMothersMaidenName(maidenName).WithMartialStatus(status) == b.WithMartialStatus(status).WithMothersMaidenName(maidenName)
    ensures b.WithMothersMaidenName(maidenName).WithEducation(education) == b.WithEducation(education).WithMothersMaidenName(maidenName)
    ensures b.WithMartialStatus(status).WithEducation(education) == b.WithEducation(education).WithMartialStatus(status)
  {
  }

  /** Feeding a record's own values to a fresh builder rebuilds that
      record. */
  lemma RebuildPersonalData(p: PersonalData)
    ensures var c := CreatePersonalDataBuilder().WithName(p.name).WithLastName(p.lastName)
                       .WithMothersMaidenName(p.mothersMaidenName).WithMartialStatus(p.maritalStatus)
                       .WithEducation(p.education);
            c.Complete() && c.Build() == p
  {
  }

  /** A later `with…` call on the same field overrides an earlier one and
      leaves the other fields alone. */
  lemma LastWriteWins(b: PersonalDataBuilder, first: Education, second: Education)
    requires b.Complete()
    ensures b.WithEducation(first).WithEducation(second).Build() == b.WithEducation(second).Build()
    ensures b.WithEducation(second).Build().education == second
    ensures b.WithEducation(second).Build().(education := b.Build().education) == b.Build()
  {
  }
}
