/**
 * Client code that uses the directory the way ContactServiceTest.java does: a delete of an
 * absent id, a duplicate add, and an update of all four fields. Each method checks the
 * expected outcome against the contracts of `ContactRecord` and `ContactDirectory`.
 */
module ContactScenarios {
  import opened Wrappers
  import opened Strings
  import opened ContactRecord
  import opened ContactDirectory

  /** Deleting from an empty directory fails with `NotFound` (ContactServiceTest.java:53-58). */
  method DeleteMissingScenario()
  {
    var service := new ContactService();
    var missing := service.DeleteContact(Some("999"));
    assert missing == Fail(NotFound);
  }

  /** A contact built from valid values is created and added once; adding it again fails (ContactServiceTest.java:27-34). */
  method DuplicateAddScenario()
  {
    assert !IsTrimmable("202"[0]) && !IsTrimmable("Emily"[0]) && !IsTrimmable("Carter"[0]);
    assert !IsTrimmable("456 Maple Street"[0]);
    var created := Contact.Create(Some("202"), Some("Emily"), Some("Carter"), Some("9876543210"),
                                  Some("456 Maple Street"));
    assert created.Success?;
    var c := created.value;
    var service := new ContactService();
    var added := service.AddContact(c);
    assert added == Pass && service.GetContact(Some("202")) == Some(c);
    var again := service.AddContact(c);
    assert again == Fail(DuplicateId) && service.GetContact(Some("202")) == Some(c);
  }

  /** Updating all four fields of a stored contact replaces all four (ContactServiceTest.java:63-76). */
  method UpdateScenario(service: ContactService, c: Contact)
    requires service.Valid() && service.GetContact(Some("204")) == Some(c)
    modifies c
  {
    assert ValidName("Liam") && ValidName("Brown") && ValidPhone("8887776666") by {
      assert !IsTrimmable("Brown"[0]) && !IsTrimmable("Liam"[0]);
    }
    assert ValidAddress("123 Oak Drive") && Trim("123 Oak Drive") == "123 Oak Drive" by {
      assert !IsTrimmable("123 Oak Drive"[0]);
      TrimOfTrimmed("123 Oak Drive");
    }
    ghost var u := Update(Some("Liam"), Some("Brown"), Some("8887776666"), Some("123 Oak Drive"));
    ghost var d := c.Data();
    assert ApplyUpdate(d, u) == (ContactData(d.contactId, "Liam", "Brown", "8887776666", "123 Oak Drive"), Pass);
    var updated := service.UpdateContact(Some("204"), Some("Liam"), Some("Brown"), Some("8887776666"),
                                         Some("123 Oak Drive"));
    assert updated == Pass;
    assert c.Data() == ContactData("204", "Liam", "Brown", "8887776666", "123 Oak Drive");
  }
}
