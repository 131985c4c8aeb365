/** Contact data of an applicant and its builder
    (`core/model/ContactData.java`). */
module ContactDataModel {
  import opened Wrappers

  /** The address class is not part of this model; addresses are compared by
      value, as `Address.equals` is taken to do. */
  type Address(==, 0, !new)

  datatype ContactData = ContactData(
    email: string,
    phoneNumber: string,
    homeAddress: Address,
    correspondenceAddress: Option<Address>)
  {
    /** The invariant `build` establishes: a stored correspondence address is
        never a duplicate of the home address. */
    predicate Valid() {
      correspondenceAddress.Some? ==> correspondenceAddress.value != homeAddress
    }
  }

  datatype ContactDataBuilder = ContactDataBuilder(
    email: Option<string>,
    phoneNumber: Option<string>,
    homeAddress: Option<Address>,
    correspondenceAddress: Option<Address>)
  {
    /** Each setter stores its argument in its own field and leaves every
        other field of the builder as it was. */
    function WithEmail(email: string): (b: ContactDataBuilder)
      ensures b.email == Some(email)
      ensures b.(email := this.email) == this
    {
      this.(email := Some(email))
    }

    function WithPhoneNumber(phoneNumber: string): (b: ContactDataBuilder)
      ensures b.phoneNumber == Some(phoneNumber)
      ensures b.(phoneNumber := this.phoneNumber) == this
    {
      this.(phoneNumber := Some(phoneNumber))
    }

    function WithHomeAddress(homeAddress: Address): (b: ContactDataBuilder)
      ensures b.homeAddress == Some(homeAddress)
      ensures b.(homeAddress := this.homeAddress) == this
    {
      this.(homeAddress := Some(homeAddress))
    }

    function WithCorrespondenceAddress(correspondenceAddress: Address): (b: ContactDataBuilder)
      ensures b.correspondenceAddress == Some(correspondenceAddress)
      ensures b.(correspondenceAddress := this.correspondenceAddress) == this
    {
      this.(correspondenceAddress := Some(correspondenceAddress))
    }

    /** `build` dereferences the home address (`homeAddress.equals(…)`) and
        wraps the correspondence address with `Optional.of`, which rejects a
        null: both must have been supplied. E-mail and phone are `@NotNull`
        fields that the external validator enforces. */
    predicate Buildable() {
      email.Some? && phoneNumber.Some? && homeAddress.Some? && correspondenceAddress.Some?
    }

    /** Collapses a correspondence address equal to the home address into
        an absent one. */
    function Build(): (r: ContactData)
      requires Buildable()
      ensures r.email == email.value && r.phoneNumber == phoneNumber.value
      ensures r.homeAddress == homeAddress.value
      ensures correspondenceAddress.value == homeAddress.value <==> r.correspondenceAddress.None?
      ensures correspondenceAddress.value != homeAddress.value ==> r.correspondenceAddress == correspondenceAddress
      ensures r.Valid()
    {
      var correspondence := if homeAddress.value == correspondenceAddress.value then None else correspondenceAddress;
      ContactData(email.value, phoneNumber.value, homeAddress.value, correspondence)
    }
  }

  /** `create()`: a fresh builder holds nothing yet, so it cannot be built. */
  function CreateContactDataBuilder(): (b: ContactDataBuilder)
    ensures b.email.None? && b.phoneNumber.None?
    ensures b.homeAddress.None? && b.correspondenceAddress.None?
    ensures !b.Buildable()
  {
    ContactDataBuilder(None, None, None, None)
  }

  /** The builder a caller would fill from an existing record: an absent
      correspondence address is supplied again as the home address. */
  function Rebuilder(c: ContactData): (b: ContactDataBuilder)
    ensures b.Buildable()
  {
    CreateContactDataBuilder().WithEmail(c.email).WithPhoneNumber(c.phoneNumber)
      .WithHomeAddress(c.homeAddress).WithCorrespondenceAddress(c.correspondenceAddress.GetOr(c.homeAddress))
  }

  /** The collapse is idempotent: rebuilding a built record gives the same
      record back. */
  lemma RebuildIsIdentity(b: ContactDataBuilder)
    requires b.Buildable()
    ensures Rebuilder(b.Build()).Build() == b.Build()
  {
  }

  /** Conversely, every valid record is the result of some build, and
      rebuilding it returns it unchanged. */
  lemma ValidRecordIsBuilt(c: ContactData)
    requires c.Valid()
    ensures Rebuilder(c).Build() == c
  {
  }
}
