/**
 * The contact directory: a table from contact id to contact record, with add,
 * delete, update-by-id and lookup.
 */
module ContactDirectory {
  import opened Wrappers
  import opened Strings
  import opened ContactRecord

  /** The `IllegalArgumentException`s a directory operation can surface. */
  datatype ServiceError =
    | Invalid(cause: ValidationError)   // a setter called by `updateContact` rejected its value
    | DuplicateId                       // `addContact` with an id already present
    | NotFound                          // `deleteContact` or `updateContact` with an absent id

  /** The four optional arguments of `updateContact`; `None` stands for a null argument, which is skipped. */
  datatype Update = Update(firstName: Option<string>, lastName: Option<string>,
                           phone: Option<string>, address: Option<string>)
  {
    /** The argument given for field `f`; the id is never updated. */
    function Value(f: Field): Option<string> {
      match f
      case ContactId => None
      case FirstName => firstName
      case LastName => lastName
      case Phone => phone
      case Address => address
    }
  }

  /** Field `f` of `d` once the setter for `f` has accepted the value `u` supplies, if it supplies one. */
  function Updated(d: ContactData, u: Update, f: Field): string {
    match u.Value(f)
    case None => d.Get(f)
    case Some(v) => Stored(f, v)
  }

  /**
   * What `updateContact` does to the record it found: call the setters of the supplied
   * fields one at a time, in the order first name, last name, phone, address, and stop at
   * the first one that throws. Nothing is rolled back: the fields set before the failing
   * one keep their new values, and the failing field and those after it keep their old ones.
   */
  function ApplyUpdate(d: ContactData, u: Update): (r: (ContactData, Outcome<ValidationError>))
    ensures r.0.contactId == d.contactId
    ensures d.Valid() ==> r.0.Valid()
  {
    if u.firstName.Some? && !Accepts(FirstName, u.firstName) then (d, Fail(InvalidField(FirstName)))
    else
      var d1 := if u.firstName.Some? then d.(firstName := u.firstName.value) else d;
      if u.lastName.Some? && !Accepts(LastName, u.lastName) then (d1, Fail(InvalidField(LastName)))
      else
        var d2 := if u.lastName.Some? then d1.(lastName := u.lastName.value) else d1;
        if u.phone.Some? && !Accepts(Phone, u.phone) then (d2, Fail(InvalidField(Phone)))
        else
          var d3 := if u.phone.Some? then d2.(phone := u.phone.value) else d2;
          if u.address.Some? && !Accepts(Address, u.address) then (d3, Fail(InvalidField(Address)))
          else
            var d4 := if u.address.Some? then d3.(address := Trim(u.address.value)) else d3;
            StoredAddressValid(d3, u);
            (d4, Pass)
  }

  /** The update succeeds exactly when every value it supplies is accepted by its setter. */
  lemma ApplyUpdateSucceedsIff(d: ContactData, u: Update)
    ensures ApplyUpdate(d, u).1.Pass? <==> forall f :: u.Value(f).Some? ==> Accepts(f, u.Value(f))
  {
    assert u.Value(FirstName) == u.firstName;
    assert u.Value(LastName) == u.lastName;
    assert u.Value(Phone) == u.phone;
    assert u.Value(Address) == u.address;
  }

  /** A successful update leaves every supplied field holding its stored new value and every other field as it was. */
  lemma ApplyUpdateSuccess(d: ContactData, u: Update)
    requires ApplyUpdate(d, u).1.Pass?
    ensures forall f :: ApplyUpdate(d, u).0.Get(f) == Updated(d, u, f)
  {
  }

  /**
   * A failed update fails on the first supplied value, in field order, that its setter
   * rejects. The fields before it hold their updated values (nothing is rolled back); it
   * and the fields after it hold their old ones.
   */
  lemma ApplyUpdateFailure(d: ContactData, u: Update)
    requires ApplyUpdate(d, u).1.Fail?
    ensures var r := ApplyUpdate(d, u);
            var e := r.1.error.field;
            && u.Value(e).Some? && !Accepts(e, u.Value(e))
            && (forall f :: Order(f) < Order(e) && u.Value(f).Some? ==> Accepts(f, u.Value(f)))
            && (forall f :: r.0.Get(f) == if Order(f) < Order(e) then Updated(d, u, f) else d.Get(f))
  {
  }

  /** Storing an accepted address keeps a valid record valid. */
  lemma StoredAddressValid(d: ContactData, u: Update)
    requires u.address.Some? ==> Accepts(Address, u.address)
    ensures d.Valid() && u.address.Some? ==> d.(address := Trim(u.address.value)).Valid()
  {
    if u.address.Some? {
      StoredStillAccepted(Address, u.address.value);
    }
  }

  /**
   * The body of `updateContact` once the record is found: each supplied (non-null) field is
   * handed to its setter in turn, and the first setter that throws ends the call.
   */
  method SetFields(c: Contact, u: Update) returns (o: Outcome<ValidationError>)
    requires c.Valid()
    modifies c
    ensures c.Valid()
    ensures (c.Data(), o) == ApplyUpdate(old(c.Data()), u)
  {
    if u.firstName.Some? {
      o := c.SetFirstName(u.firstName);
      if o.Fail? {
        return;
      }
    }
    if u.lastName.Some? {
      o := c.SetLastName(u.lastName);
      if o.Fail? {
        return;
      }
    }
    if u.phone.Some? {
      o := c.SetPhone(u.phone);
      if o.Fail? {
        return;
      }
    }
    if u.address.Some? {
      o := c.SetAddress(u.address);
      if o.Fail? {
        return;
      }
    }
    o := Pass;
  }

  class ContactService {
    var contacts: map<string, Contact>

    /** Every entry is keyed by its own contact's id, and every stored contact is valid. */
    ghost predicate Valid()
      reads this, contacts.Values
    {
      forall k :: k in contacts ==> contacts[k].contactId == k && contacts[k].Valid()
    }

    constructor ()
      ensures Valid() && contacts == map[]
    {
      contacts := map[];
    }

    /**
     * `getContact`: the contact stored under the id, or `None` (Java's null) when there is
     * none; a null id finds nothing. Whatever it returns carries the requested id.
     */
    function GetContact(contactId: Option<string>): (r: Option<Contact>)
      reads this, contacts.Values
      requires Valid()
      ensures r.Some? <==> contactId.Some? && contactId.value in contacts
      ensures r.Some? ==> r.value in contacts.Values && r.value.contactId == contactId.value && r.value.Valid()
    {
      if contactId.Some? && contactId.value in contacts then Some(contacts[contactId.value]) else None
    }

    /** `addContact`: inserts the contact under its id unless that id is already taken. */
    method AddContact(c: Contact) returns (r: Outcome<ServiceError>)
      requires Valid() && c.Valid()
      modifies this
      ensures Valid()
      ensures r == (if c.contactId in old(contacts) then Fail(DuplicateId) else Pass)
      ensures r.Pass? ==> contacts == old(contacts)[c.contactId := c]
      ensures r.Pass? ==> GetContact(Some(c.contactId)) == Some(c)
      ensures r.Fail? ==> contacts == old(contacts)
    {
      if c.contactId in contacts {
        return Fail(DuplicateId);
      }
      contacts := contacts[c.contactId := c];
      r := Pass;
    }

    /** `deleteContact`: removes the entry for the id, failing when there is none. */
    method DeleteContact(contactId: Option<string>) returns (r: Outcome<ServiceError>)
      requires Valid()
      modifies this
      ensures Valid()
      ensures r == (if contactId.Some? && contactId.value in old(contacts) then Pass else Fail(NotFound))
      ensures r.Pass? ==> contacts == old(contacts) - {contactId.value}
      ensures r.Fail? ==> contacts == old(contacts)
      ensures GetContact(contactId) == None
    {
      if contactId.None? || contactId.value !in contacts {
        return Fail(NotFound);
      }
      contacts := contacts - {contactId.value};
      r := Pass;
    }

    /**
     * `updateContact`: finds the record by id (failing when there is none) and applies the
     * supplied fields to it through its setters, as `ApplyUpdate` describes. The table itself
     * and every other record are left alone.
     */
    method UpdateContact(contactId: Option<string>, firstName: Option<string>, lastName: Option<string>,
                         phone: Option<string>, address: Option<string>)
      returns (r: Outcome<ServiceError>)
      requires Valid()
      modifies if contactId.Some? && contactId.value in contacts then {contacts[contactId.value]} else {}
      ensures Valid()
      ensures contacts == old(contacts)
      ensures r == Fail(NotFound) <==> contactId.None? || contactId.value !in contacts
      ensures forall k :: k in contacts && Some(k) != contactId ==> contacts[k].Data() == old(contacts[k].Data())
      ensures r != Fail(NotFound) ==>
                var res := ApplyUpdate(old(contacts[contactId.value].Data()), Update(firstName, lastName, phone, address));
                && contacts[contactId.value].Data() == res.0
                && r == (if res.1.Pass? then Pass else Fail(Invalid(res.1.error)))
    {
      if contactId.None? || contactId.value !in contacts {
        return Fail(NotFound);
      }
      var c := contacts[contactId.value];
      OthersDistinct(c);
      var o := SetFields(c, Update(firstName, lastName, phone, address));
      r := if o.Pass? then Pass else Fail(Invalid(o.error));
    }

    /** Records other than `c` are distinct objects from it, because their ids differ. */
    lemma OthersDistinct(c: Contact)
      requires forall k :: k in contacts ==> contacts[k].contactId == k
      requires c in contacts.Values
      ensures forall k :: k in contacts && k != c.contactId ==> contacts[k] != c
    {
    }
  }
}
