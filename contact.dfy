/**
 * The contact record: five string fields, each with a validity rule that the
 * constructor checks for all five and each setter checks for its own field before
 * assigning. The id is final and has no setter.
 */
module ContactRecord {
  import opened Wrappers
  import opened Strings

  /** The fields of a contact, in the order the constructor checks them. */
  datatype Field = ContactId | FirstName | LastName | Phone | Address

  /** The position of a field in the checking order (also the order `updateContact` applies them). */
  function Order(f: Field): nat {
    match f
    case ContactId => 0
    case FirstName => 1
    case LastName => 2
    case Phone => 3
    case Address => 4
  }

  /** The `IllegalArgumentException` thrown by the constructor or a setter, reduced to the field it names. */
  datatype ValidationError = InvalidField(field: Field)

  const MaxNameLength: nat := 10
  const PhoneLength: nat := 10
  const MaxAddressLength: nat := 30

  /**
   * The rule shared by the id, the first name and the last name: not blank (`AllTrimmable`
   * is `trim().isEmpty()`, by `BlankIffTrimEmpty`) and at most 10 chars.
   */
  predicate ValidName(s: string) {
    !AllTrimmable(s) && |s| <= MaxNameLength
  }

  /** Exactly ten chars, each an ASCII digit (`length() == 10` and `matches("\\d+")`). */
  predicate ValidPhone(s: string) {
    |s| == PhoneLength && AllDigits(s)
  }

  /** Not blank (not `AllTrimmable`), and at most 30 chars counted BEFORE trimming. */
  predicate ValidAddress(s: string) {
    !AllTrimmable(s) && |s| <= MaxAddressLength
  }

  /** The guard in front of field `f`: a null argument is rejected, as is a value breaking the rule. */
  predicate Accepts(f: Field, v: Option<string>) {
    match v
    case None => false
    case Some(s) =>
      match f
      case ContactId | FirstName | LastName => ValidName(s)
      case Phone => ValidPhone(s)
      case Address => ValidAddress(s)
  }

  /** Phone examples: a leading zero is fine, letters and short strings are not. */
  lemma PhoneExamples()
    ensures ValidPhone("0123456789")
    ensures !ValidPhone("12345ABCDE")
    ensures !ValidPhone("short")
  {
    assert !IsAsciiDigit("12345ABCDE"[5]);
  }

  /**
   * Boundary lengths: ten-char names and a thirty-char address pass, a twelve-char id does
   * not, and the address bound counts the blanks that trimming would remove.
   */
  lemma LengthBoundaryExamples()
    ensures ValidName("1234567890")
    ensures ValidAddress("123456789012345678901234567890")
    ensures !ValidName("C01234567891")
    ensures ValidAddress("12345678901234567890123456789")
    ensures !ValidAddress(" 12345678901234567890123456789 ")
  {
    assert !IsTrimmable("1234567890"[0]);
    assert !IsTrimmable("123456789012345678901234567890"[0]);
    assert !IsTrimmable("12345678901234567890123456789"[0]);
  }

  /** The value a setter stores for an accepted argument: `setAddress` stores the trimmed form. */
  function Stored(f: Field, v: string): string {
    if f == Address then Trim(v) else v
  }

  /** An accepted value is still accepted once stored, so storing it keeps the field valid. */
  lemma StoredStillAccepted(f: Field, v: string)
    requires Accepts(f, Some(v))
    ensures Accepts(f, Some(Stored(f, v)))
  {
    if f == Address {
      TrimSpec(v);
      TrimIdempotent(v);
    }
  }

  /** The field values of a contact at one moment; the address is held as stored, untrimmed. */
  datatype ContactData = ContactData(contactId: string, firstName: string, lastName: string,
                                     phone: string, address: string)
  {
    function Get(f: Field): string {
      match f
      case ContactId => contactId
      case FirstName => firstName
      case LastName => lastName
      case Phone => phone
      case Address => address
    }

    /** Every field satisfies its rule: the class invariant of a contact. */
    predicate Valid() {
      && ValidName(contactId) && ValidName(firstName) && ValidName(lastName)
      && ValidPhone(phone) && ValidAddress(address)
    }
  }

  /**
   * The constructor's five checks, in source order; the first that fails decides the
   * error, and construction succeeds only when all five pass.
   */
  function CheckFields(contactId: Option<string>, firstName: Option<string>, lastName: Option<string>,
                       phone: Option<string>, address: Option<string>): (r: Outcome<ValidationError>)
    ensures r.Pass? <==> Accepts(ContactId, contactId) && Accepts(FirstName, firstName)
                         && Accepts(LastName, lastName) && Accepts(Phone, phone) && Accepts(Address, address)
    ensures r == Fail(InvalidField(ContactId)) <==> !Accepts(ContactId, contactId)
    ensures r == Fail(InvalidField(FirstName)) <==>
              Accepts(ContactId, contactId) && !Accepts(FirstName, firstName)
    ensures r == Fail(InvalidField(LastName)) <==>
              Accepts(ContactId, contactId) && Accepts(FirstName, firstName) && !Accepts(LastName, lastName)
    ensures r == Fail(InvalidField(Phone)) <==>
              Accepts(ContactId, contactId) && Accepts(FirstName, firstName) && Accepts(LastName, lastName)
              && !Accepts(Phone, phone)
    ensures r == Fail(InvalidField(Address)) <==>
              Accepts(ContactId, contactId) && Accepts(FirstName, firstName) && Accepts(LastName, lastName)
              && Accepts(Phone, phone) && !Accepts(Address, address)
  {
    if !Accepts(ContactId, contactId) then Fail(InvalidField(ContactId))
    else if !Accepts(FirstName, firstName) then Fail(InvalidField(FirstName))
    else if !Accepts(LastName, lastName) then Fail(InvalidField(LastName))
    else if !Accepts(Phone, phone) then Fail(InvalidField(Phone))
    else if !Accepts(Address, address) then Fail(InvalidField(Address))
    else Pass
  }

  class Contact {
    const contactId: string
    var firstName: string
    var lastName: string
    var phone: string
    var address: string

    function Data(): ContactData
      reads this
    {
      ContactData(contactId, firstName, lastName, phone, address)
    }

    ghost predicate Valid()
      reads this
    {
      Data().Valid()
    }

    /** Stores the five values once the checks of `Create` have passed them; the address is kept as given. */
    constructor (contactId: string, firstName: string, lastName: string, phone: string, address: string)
      requires CheckFields(Some(contactId), Some(firstName), Some(lastName), Some(phone), Some(address)) == Pass
      ensures Valid()
      ensures Data() == ContactData(contactId, firstName, lastName, phone, address)
    {
      this.contactId := contactId;
      this.firstName := firstName;
      this.lastName := lastName;
      this.phone := phone;
      this.address := address;
    }

    /**
     * `new Contact(...)`: a fresh valid contact holding exactly the arguments when all
     * five checks pass, otherwise the error of the first check that fails and no object.
     */
    static method Create(contactId: Option<string>, firstName: Option<string>, lastName: Option<string>,
                         phone: Option<string>, address: Option<string>)
      returns (r: Result<Contact, ValidationError>)
      ensures r.Success? <==> CheckFields(contactId, firstName, lastName, phone, address) == Pass
      ensures r.Failure? ==> CheckFields(contactId, firstName, lastName, phone, address) == Fail(r.error)
      ensures r.Success? ==> fresh(r.value) && r.value.Valid()
                             && r.value.Data() == ContactData(contactId.value, firstName.value, lastName.value,
                                                              phone.value, address.value)
      ensures r.Success? ==> r.value.GetAddress() == Trim(address.value)
    {
      match CheckFields(contactId, firstName, lastName, phone, address)
      case Fail(e) =>
        r := Failure(e);
      case Pass =>
        var c := new Contact(contactId.value, firstName.value, lastName.value, phone.value, address.value);
        r := Success(c);
    }

    /** The id never changes: it is a `const` and no method assigns it. */
    function GetContactId(): (r: string)
      reads this
      requires Valid()
      ensures Accepts(ContactId, Some(r))
    {
      contactId
    }

    function GetFirstName(): (r: string)
      reads this
      requires Valid()
      ensures Accepts(FirstName, Some(r))
    {
      firstName
    }

    function GetLastName(): (r: string)
      reads this
      requires Valid()
      ensures Accepts(LastName, Some(r))
    {
      lastName
    }

    function GetPhone(): (r: string)
      reads this
      requires Valid()
      ensures Accepts(Phone, Some(r))
    {
      phone
    }

    /** Trims on every read, so a reader always sees a valid, already-trimmed address. */
    function GetAddress(): (r: string)
      reads this
      requires Valid()
      ensures Accepts(Address, Some(r))
      ensures Trim(r) == r
    {
      StoredStillAccepted(Address, address);
      TrimIdempotent(address);
      Trim(address)
    }

    method SetFirstName(v: Option<string>) returns (r: Outcome<ValidationError>)
      requires Valid()
      modifies this
      ensures Valid()
      ensures r.Pass? <==> Accepts(FirstName, v)
      ensures r.Fail? ==> r.error == InvalidField(FirstName) && Data() == old(Data())
      ensures r.Pass? ==> Data() == old(Data()).(firstName := v.value)
    {
      if !Accepts(FirstName, v) {
        return Fail(InvalidField(FirstName));
      }
      ghost var before := Data();
      firstName := v.value;
      assert Data() == before.(firstName := v.value);
      r := Pass;
    }

    method SetLastName(v: Option<string>) returns (r: Outcome<ValidationError>)
      requires Valid()
      modifies this
      ensures Valid()
      ensures r.Pass? <==> Accepts(LastName, v)
      ensures r.Fail? ==> r.error == InvalidField(LastName) && Data() == old(Data())
      ensures r.Pass? ==> Data() == old(Data()).(lastName := v.value)
    {
      if !Accepts(LastName, v) {
        return Fail(InvalidField(LastName));
      }
      ghost var before := Data();
      lastName := v.value;
      assert Data() == before.(lastName := v.value);
      r := Pass;
    }

    method SetPhone(v: Option<string>) returns (r: Outcome<ValidationError>)
      requires Valid()
      modifies this
      ensures Valid()
      ensures r.Pass? <==> Accepts(Phone, v)
      ensures r.Fail? ==> r.error == InvalidField(Phone) && Data() == old(Data())
      ensures r.Pass? ==> Data() == old(Data()).(phone := v.value)
    {
      if !Accepts(Phone, v) {
        return Fail(InvalidField(Phone));
      }
      ghost var before := Data();
      phone := v.value;
      assert Data() == before.(phone := v.value);
      r := Pass;
    }

    /** Checks the untrimmed argument, then stores its trimmed form; reading it back gives that trimmed form. */
    method SetAddress(v: Option<string>) returns (r: Outcome<ValidationError>)
      requires Valid()
      modifies this
      ensures Valid()
      ensures r.Pass? <==> Accepts(Address, v)
      ensures r.Fail? ==> r.error == InvalidField(Address) && Data() == old(Data())
      ensures r.Pass? ==> Data() == old(Data()).(address := Trim(v.value))
      ensures r.Pass? ==> GetAddress() == Trim(v.value)
    {
      if !Accepts(Address, v) {
        return Fail(InvalidField(Address));
      }
      StoredStillAccepted(Address, v.value);
      TrimIdempotent(v.value);
      ghost var before := Data();
      address := Trim(v.value);
      assert Data() == before.(address := Trim(v.value));
      r := Pass;
    }
  }
}
