# Contact directory, modelled in Dafny

A model of a small Java contact directory (package `com.contacts`). It has two parts:

- **The contact record** (`Contact.java`). It holds an immutable id and four mutable fields:
  first name, last name, phone and address. Every field has a validity rule. The constructor
  checks all five rules in a fixed order, and each setter checks its own rule before it assigns.
- **The contact service** (`ContactService.java`). It keeps an in-memory table from contact id
  to contact. It can add a contact (the id must be new), delete one or update one by id (the id
  must be present), and look one up by id.

Files:

- `wrappers.dfy` (module `Wrappers`): `Option` (Java's `null`), `Result` and `Outcome` (a thrown
  `IllegalArgumentException`).
- `strings.dfy` (module `Strings`): Java's `String.trim`, blankness, and the ASCII digit class `\d`.
- `contact.dfy` (module `ContactRecord`): the field rules, the constructor's check order, and
  `class Contact` with its getters and setters.
- `contact_service.dfy` (module `ContactDirectory`): `ApplyUpdate`, a pure description of what
  `updateContact` does to one record; `SetFields`, the setter calls that do it; and
  `class ContactService`, which holds the table.
- `scenarios.dfy` (module `ContactScenarios`): three client methods that replay the usage in
  ContactServiceTest.java (a duplicate add, a delete of an absent id, an update of all four
  fields) against the contracts above.

How the Java is mapped:

- A thrown exception becomes a returned `Failure`/`Fail` value. The value names the field whose
  check failed (`InvalidField`), or `DuplicateId` / `NotFound` for the service.
- Every nullable `String` argument is an `Option<string>`.
- The constructor of `Contact` throws on bad input, and a Dafny constructor cannot fail. So the
  checks are in the static method `Contact.Create`. It returns either a fresh contact or the
  error of the first check that failed. The Dafny constructor only stores values that have
  already passed the checks.
- `contactId` is a `const`, which is how Java's `final` field is written in Dafny.
- The class invariant `Contact.Valid()` says that every field satisfies its rule.
  `ContactService.Valid()` says that every entry is stored under its own contact's id and that
  every stored contact is valid.

The constructor stores the address exactly as given (Contact.java:40), `getAddress` trims on
every read (Contact.java:86), and only `setAddress` stores the trimmed value (Contact.java:93).
`ContactData` therefore keeps the stored value, untrimmed when it came from the constructor, and
`GetAddress` trims it.

## Model

| member | source | states |
|---|---|---|
| `Strings.TrimStartSpec` | Contact.java:20 | the first phase of `trim` keeps a suffix of its input, drops only chars with code at most U+0020, and stops at a char it must keep |
| `Strings.TrimEndSpec` | Contact.java:20 | the second phase of `trim` keeps a prefix, drops only such chars from the end, and stops at a char it must keep |
| `Strings.TrimSpec` | Contact.java:86 | `trim` returns the slice left after cutting a prefix and a suffix made only of trimmable chars; the slice is no longer than the input and neither starts nor ends with a trimmable char |
| `Strings.BlankIffTrimEmpty` | Contact.java:20 | `s.trim().isEmpty()` holds exactly when every char of `s` is trimmable (`AllTrimmable`), which is the form the field rules use for blankness |
| `Strings.TrimOfTrimmed` | Contact.java:86 | a string that neither starts nor ends with a trimmable char is its own trim |
| `Strings.TrimIdempotent` | Contact.java:93 | trimming twice gives the same result as trimming once, so `getAddress` returns what `setAddress` stored |
| `Strings.TrimExample` | ContactTest.java:76-77 | `"   789 Oak Lane   "` trims to `"789 Oak Lane"` |
| `ContactRecord.PhoneExamples` | ContactTest.java:37-38 | the phone rule accepts `"0123456789"` (ContactTest.java:37-38) and rejects `"12345ABCDE"` (ContactTest.java:112) and `"short"` (ContactTest.java:67) |
| `ContactRecord.LengthBoundaryExamples` | ContactTest.java:86-90 | ten-char names and a thirty-char address pass (ContactTest.java:86-90); a twelve-char id fails (ContactTest.java:28); a 29-char address passes, and the same address padded by one blank on each side fails, because the bound of Contact.java:32 counts the untrimmed length (this last pair is not taken from the tests) |
| `ContactRecord.StoredStillAccepted` | Contact.java:90-93 | a value a setter accepts still satisfies the same rule in the form the setter stores (the trimmed address included) |
| `ContactRecord.CheckFields` | Contact.java:20-34 | the constructor's checks pass exactly when all five fields satisfy their rules; otherwise the error names the first failing field in the order id, first name, last name, phone, address, with every earlier field valid |
| `ContactRecord.Contact.constructor` | Contact.java:36-40 | a contact built from checked values is valid and holds exactly those values, the address untrimmed |
| `ContactRecord.Contact.Create` | Contact.java:19-41 | construction succeeds exactly when all five checks pass and otherwise reports the first failing check and creates no object; on success the contact is fresh and valid, its id and fields equal the arguments, and `GetAddress` returns the trimmed address |
| `ContactRecord.Contact.GetContactId` | Contact.java:44-46 | the id read back satisfies the id rule |
| `ContactRecord.Contact.GetFirstName` | Contact.java:49-51 | the first name read back satisfies its rule |
| `ContactRecord.Contact.GetLastName` | Contact.java:61-63 | the last name read back satisfies its rule |
| `ContactRecord.Contact.GetPhone` | Contact.java:73-75 | the phone read back is ten ASCII digits |
| `ContactRecord.Contact.GetAddress` | Contact.java:85-87 | the address read back satisfies the address rule and is already trimmed |
| `ContactRecord.Contact.SetFirstName` | Contact.java:53-58 | succeeds exactly when the argument is non-null, not blank and at most 10 chars; then only the first name changes, to the argument; otherwise it fails and nothing changes; the contact stays valid |
| `ContactRecord.Contact.SetLastName` | Contact.java:65-70 | the same as `SetFirstName`, for the last name |
| `ContactRecord.Contact.SetPhone` | Contact.java:77-82 | succeeds exactly when the argument is ten ASCII digits; then only the phone changes; otherwise it fails and nothing changes; the contact stays valid |
| `ContactRecord.Contact.SetAddress` | Contact.java:89-94 | succeeds exactly when the argument is non-null, not blank, and at most 30 chars before trimming; then only the address changes, to the trimmed argument, and `GetAddress` returns that trimmed argument; otherwise it fails and nothing changes |
| `ContactDirectory.ApplyUpdate` | ContactService.java:53-56 | an update never changes the id and keeps a valid record valid |
| `ContactDirectory.ApplyUpdateSucceedsIff` | ContactService.java:53-56 | the update succeeds exactly when every value it supplies is accepted by that field's setter |
| `ContactDirectory.ApplyUpdateSuccess` | ContactService.java:53-56 | after a successful update, each supplied field holds its new value as stored (the address trimmed), and every field not supplied is unchanged |
| `ContactDirectory.ApplyUpdateFailure` | ContactService.java:53-56 | a failed update stops at the first supplied value, in the order first, last, phone, address, that is rejected; earlier fields keep their new values (nothing is rolled back), and that field and all later ones keep their old values |
| `ContactDirectory.StoredAddressValid` | Contact.java:93 | storing an accepted address, trimmed, keeps a valid record valid |
| `ContactDirectory.SetFields` | ContactService.java:53-56 | calling the setters for the non-null arguments, in order and stopping at the first that throws, gives exactly the record and outcome `ApplyUpdate` describes, and keeps the contact valid |
| `ContactDirectory.ContactService.constructor` | ContactService.java:7 | a new directory is empty and satisfies the key/id invariant |
| `ContactDirectory.ContactService.GetContact` | ContactService.java:65-67 | a lookup finds a contact exactly when the id is non-null and present; a contact it finds is the stored one, carries the requested id and is valid |
| `ContactDirectory.ContactService.AddContact` | ContactService.java:16-21 | fails with `DuplicateId` exactly when the id is already present, and then the table is unchanged; otherwise the table gains exactly the entry id to contact and a lookup of the id returns that contact; the key/id invariant holds afterwards |
| `ContactDirectory.ContactService.DeleteContact` | ContactService.java:30-35 | fails with `NotFound` exactly when the id is null or absent, and then the table is unchanged; otherwise exactly that key is removed; either way a lookup of the id then finds nothing |
| `ContactDirectory.ContactService.UpdateContact` | ContactService.java:48-57 | fails with `NotFound` exactly when the id is null or absent, and then changes nothing; the table's keys and entries never change, and no other record changes; the found record becomes what `ApplyUpdate` gives, and a setter's failure is reported as `Invalid` |
| `ContactDirectory.ContactService.OthersDistinct` | ContactService.java:20 | because each entry is keyed by its own id, every other entry holds a different object from the one being updated |

## Left out

- Exception messages: each failure is an error value, with no text.
- `Contact.java:19-41`: a Dafny constructor cannot fail. The checks are in `Contact.Create`, and
  the constructor requires values that have passed them.
- `ContactDirectory.ContactService.AddContact`: it requires a valid contact. Every Java
  `Contact` is valid because its constructor and setters enforce the rules. Passing `null` to
  `addContact` raises a `NullPointerException` in Java. That case is not modelled, because a
  Dafny `Contact` reference cannot be null.
- The getters and setters require `Valid()`. This is the class invariant, which Java keeps
  implicitly.
- String lengths are counted in Dafny chars (Unicode scalar values). Java's `length()` counts
  UTF-16 code units, so a char outside the Basic Multilingual Plane counts twice in Java and
  once here.
- Java's regular-expression engine is replaced by the predicate "every char is in `'0'..'9'`".
  This matches `\d` without flags. With the length fixed at 10, the `+` in `\d+` adds nothing.
- `HashMap` hashing and iteration order are replaced by a Dafny `map`.
- Thread safety: the source has no locking and assumes a single caller.
- Aliasing: a contact added to the directory is still reachable by its creator, who can call its
  setters directly. The model allows this. Such a call keeps the contact valid and cannot change
  its id, so the directory's invariant still holds afterwards. The directory's contracts only
  describe its own operations.
