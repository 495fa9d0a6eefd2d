# User list and user form of a React CRUD front end, modelled in Dafny

The application shows a table of "user" records fetched from a remote fixture
service. It also offers a dialog that creates or edits a record and a dialog
that confirms a delete. Two parts of it carry logic, and this project models
both:

* **The list view** (`src/components/UserList.js`) keeps an ordered in-memory
  list of records. It changes the list only after a remote call has
  succeeded:
  * an **update** replaces, in place, every record whose id equals the
    returned record's id;
  * a **create** appends the returned record at the end. It always gets a new
    integer id, one more than the largest id in the list, or 1 when the list
    is empty. It also always gets the username `USER-` followed by the
    upper-cased name with all whitespace removed;
  * a **delete** keeps exactly the records whose id differs from the deleted
    one.

  The view also has load states (loading, then loaded or failed) and a render
  precedence (spinner, then error alert, then table). The table has
  zebra-striped rows and a single "No users available." row when the list is
  empty.
* **The form dialog** (`src/components/UserFormModal.js`) has per-field
  validation rules. When it opens, it fills its values from the record being
  edited. For a new record it resets to empty values and puts `USER-` in the
  username.

Modules:

* `Wrappers` (`wrappers.dfy`) holds `Option`, for fields JavaScript may leave
  undefined.
* `Ascii` (`ascii.dfy`) holds JavaScript's `\s` whitespace class,
  `replace(/\s+/g, '')` and `toUpperCase()`, all on ASCII.
* `Records` (`records.dfy`) holds the user record (integer id, optional
  fields), the list of ids, and pairwise-distinct ids.
* `UserList` (`user_list.dfy`) holds the pure list changes `ApplyUpdate`,
  `ApplyCreate` and `ApplyDelete` and their lemmas, plus the rendering
  functions. Its class `UserListView` has the component's state fields
  (`users`, `loading`, `error`, the dialog flags, `currentUser`,
  `userToDelete`). The class's methods replace those fields as the
  component's handlers do, by calling the pure functions. `Mount` is the
  mount-and-fetch sequence, seen from outside.
* `UserFormModal` (`user_form_modal.dfy`) holds the form values, the field
  rules with their messages, `Validate`, the prefill mapping, and the class
  `UserForm`. That class's `Populate` runs the open-dialog effect step by
  step (`resetForm`, then `setFieldValue`).

The remote calls are not modelled. Each handler that follows a remote call
takes the call's outcome as a parameter: the fetched list or none, the
returned record, or whether the delete succeeded. The e-mail and URL syntax
checks of the schema library are the parameters `isEmail` and `isUrl`.

Three behaviours of the code are easy to misread, and the model follows the
code in each:

* One might expect a create to assign an id and a username only when the
  server returned none. The code (`src/components/UserList.js:57-61`)
  overwrites both unconditionally, and so does `ApplyCreate`.
* When the name is absent, `userData.name` is `undefined` and the
  `.replace` call on it throws (`src/components/UserList.js:61`). The form's submit handler catches that
  throw (`src/components/UserFormModal.js:71,76`) before the list is set.
  `ApplyCreate` therefore returns `None` for a record without a name, and the
  list is unchanged.
* `confirmDeleteUser` with no record chosen throws while building the request
  URL, inside its own `try` (`src/components/UserList.js:99`). It therefore
  takes the failure path: the list and the dialog flag are unchanged.

## Model

| member | source | states |
|---|---|---|
| `Ascii.StripWhitespace` | src/components/UserList.js:61 | the result has no whitespace, is no longer than the input, and equals the input when the input has no whitespace |
| `Ascii.ToUpper` | src/components/UserList.js:61 | same length, no lower-case letter left, every position upper-cased from the input's |
| `Ascii.StripAppend` | src/components/UserList.js:61 | whitespace removal distributes over concatenation, so the kept characters keep their order |
| `Ascii.StripMembers` | src/components/UserList.js:61 | a character is in the result exactly when it is in the input and is not whitespace |
| `Ascii.StripUpperCommute` | src/components/UserList.js:61 | removing whitespace and upper-casing commute |
| `Ascii.StripExample` | src/components/UserList.js:61 | "John Q Public" without whitespace is "JohnQPublic" |
| `UserList.MaxId` | src/components/UserList.js:57 | `Math.max` of the ids: at least every id, and carried by some record |
| `UserList.NextId` | src/components/UserList.js:57 | 1 for an empty list, otherwise one more than an id in the list; strictly greater than every id, so not present |
| `UserList.DerivedUsername` | src/components/UserList.js:61 | starts with "USER-", then the name's non-whitespace characters upper-cased: no whitespace and no lower-case letter after the prefix |
| `UserList.DerivedUsernameExample` | src/components/UserList.js:61 | "John Q Public" gives "USER-JOHNQPUBLIC" |
| `UserList.DerivedUsernameNormalises` | src/components/UserList.js:61 | the derived username ignores the spacing and letter case of the name |
| `UserList.ApplyUpdate` | src/components/UserList.js:53 | same length and same ids in the same order; a position holds the returned record if its id matches, otherwise the original record |
| `UserList.UpdateAbsentIsIdentity` | src/components/UserList.js:53 | an update whose id is not in the list leaves the list unchanged |
| `UserList.UpdateIdempotent` | src/components/UserList.js:53 | applying the same update twice equals applying it once |
| `UserList.UpdateKeepsDistinct` | src/components/UserList.js:53 | distinct ids stay distinct; the returned record is in the list afterwards iff its id was present |
| `UserList.ApplyCreate` | src/components/UserList.js:57-63 | fails exactly when the name is absent; otherwise length grows by one, the old list is a prefix, and the last record is the returned one with id `NextId` (1, or the largest id plus one), hence above every old id, and the derived username |
| `UserList.CreateKeepsDistinct` | src/components/UserList.js:57-63 | distinct ids stay distinct after a create |
| `UserList.CreateThenDelete` | src/components/UserList.js:57-63 | deleting the id a create just assigned restores the list as it was |
| `UserList.CreatedRecordEditable` | src/components/UserList.js:61 | a created record opened in the form shows its derived username, which always passes the username rule |
| `UserList.ApplyDelete` | src/components/UserList.js:101 | no record with the id remains; a record is kept iff it was in the list with another id; nothing is added (sub-multiset) |
| `UserList.DeleteAppend` | src/components/UserList.js:101 | delete distributes over concatenation: kept records keep their relative order |
| `UserList.DeleteAbsentIsIdentity` | src/components/UserList.js:101 | deleting an id no record carries leaves the list unchanged |
| `UserList.DeleteRemovesOne` | src/components/UserList.js:101 | with distinct ids, deleting a present id removes exactly one record |
| `UserList.DeleteKeepsDistinct` | src/components/UserList.js:101 | distinct ids stay distinct after a delete |
| `UserList.RowStyle` | src/components/UserList.js:145 | "table-light" on even positions, "table-secondary" on odd ones |
| `UserList.AdjacentRowsAlternate` | src/components/UserList.js:145 | neighbouring data rows never share a style |
| `UserList.WebsiteCell` | src/components/UserList.js:154-160 | the website when it is a non-empty string, otherwise "N/A" |
| `UserList.AddressCell` | src/components/UserList.js:163 | "street, city", or "N/A" without an address |
| `UserList.CompanyCell` | src/components/UserList.js:165 | the company's name, or "N/A" without a company |
| `UserList.Body` | src/components/UserList.js:144-182 | one data row per record in list order, styled by position, with its website, address and company cells; an empty list gives exactly the one "No users available." row and no data row |
| `UserList.RenderScreen` | src/components/UserList.js:110-121 | spinner iff loading; error alert with the message iff not loading and an error is set; otherwise the table of the list |
| `UserList.Mount` | src/components/UserList.js:27-44 | the view first shows the spinner; after the fetch it shows the error alert "Failed to fetch users." on failure and the table of the fetched list on success |
| `UserList.UserListView.constructor` | src/components/UserList.js:18-24 | no records, loading, no error, no dialog open |
| `UserList.UserListView.Render` | src/components/UserList.js:110-123 | the screen for the current state, by the render precedence |
| `UserList.UserListView.FetchUsers` | src/components/UserList.js:34-44 | loading ends; success stores the fetched list; failure sets the error message and keeps the list |
| `UserList.UserListView.HandleAddUser` | src/components/UserList.js:71-74 | no record being edited, form dialog open |
| `UserList.UserListView.HandleEditUser` | src/components/UserList.js:80-83 | the record being edited is set, form dialog open |
| `UserList.UserListView.HandleDeleteUser` | src/components/UserList.js:89-92 | the record to delete is set, delete dialog open |
| `UserList.UserListView.HandleFormSubmit` | src/components/UserList.js:50-66 | update when a record is being edited, create otherwise; a failed create leaves the list unchanged; distinct ids stay distinct |
| `UserList.UserListView.ConfirmDeleteUser` | src/components/UserList.js:97-107 | on remote success the record's id is filtered out and the dialog closes; on failure, or with no record chosen, nothing changes; distinct ids stay distinct |
| `UserList.UserListView.CloseFormModal` | src/components/UserList.js:189 | the form dialog is closed |
| `UserList.UserListView.CloseDeleteModal` | src/components/UserList.js:197 | the delete dialog is closed |
| `UserFormModal.NameError` | src/components/UserFormModal.js:14-16 | passes iff the name has at least 3 characters; "required" when empty, "at least 3" when shorter |
| `UserFormModal.EmailError` | src/components/UserFormModal.js:17-19 | passes iff non-empty and an e-mail; "required" when empty, "invalid" otherwise |
| `UserFormModal.PhoneError` | src/components/UserFormModal.js:20-22 | passes iff non-empty and every character is a digit, `-`, `+`, whitespace, `(` or `)` |
| `UserFormModal.UsernameError` | src/components/UserFormModal.js:23-25 | passes iff the username has at least 3 characters; "required" when empty |
| `UserFormModal.StreetError` | src/components/UserFormModal.js:27 | passes iff the street is non-empty |
| `UserFormModal.CityError` | src/components/UserFormModal.js:28 | passes iff the city is non-empty |
| `UserFormModal.CompanyError` | src/components/UserFormModal.js:30-32 | passes iff the company is empty (absent) or has at least 3 characters |
| `UserFormModal.WebsiteError` | src/components/UserFormModal.js:33-35 | passes iff the website is empty (absent) or a URL |
| `UserFormModal.Validate` | src/components/UserFormModal.js:13-36 | each field's message is that field's rule applied to its value |
| `UserFormModal.ValidIffAllRules` | src/components/UserFormModal.js:13-36 | the form is valid iff every field rule holds (both directions) |
| `UserFormModal.ShortNameRejected` | src/components/UserFormModal.js:14-16 | a name under 3 characters makes the whole form invalid; an empty one reports "Name is required." |
| `UserFormModal.MissingAddressRejected` | src/components/UserFormModal.js:26-29 | a missing street or city makes the whole form invalid |
| `UserFormModal.Prefill` | src/components/UserFormModal.js:86-97 | absent name, e-mail, phone, username and website show as ""; no address gives empty street and city; company shows its name, or "" without one |
| `UserFormModal.NewRecordValues` | src/components/UserFormModal.js:98-102 | the initial all-empty values with the username set to "USER-" |
| `UserFormModal.NewRecordValuesRejected` | src/components/UserFormModal.js:40-51 | the new-record form, untouched, is invalid: name, e-mail, phone, street and city report "required"; username, company and website pass |
| `UserFormModal.UserForm.constructor` | src/components/UserFormModal.js:39-51 | the form starts at the initial all-empty values |
| `UserFormModal.UserForm.ResetForm` | src/components/UserFormModal.js:99 | the values return to the initial ones |
| `UserFormModal.UserForm.SetValues` | src/components/UserFormModal.js:86 | the values become the given ones |
| `UserFormModal.UserForm.SetUsername` | src/components/UserFormModal.js:101 | only the username changes |
| `UserFormModal.UserForm.Populate` | src/components/UserFormModal.js:84-104 | editing: the prefilled values of the record; new record: reset, then username "USER-" |
| `UserFormModal.UserForm.Errors` | src/components/UserFormModal.js:52 | each field's message is the schema's message for the current values (`Validate`); no message at all iff they are valid |
| `UserFormModal.Open` | src/components/UserFormModal.js:84-104 | a freshly opened form shows the record's prefilled values, or all-empty values with username "USER-" |

## Left out

- Remote calls (`axios` GET, POST, PUT and DELETE) are not modelled. Their outcome is a parameter: a fetched list or none, the returned record, or whether the delete succeeded.
- The form's submit handler (`src/components/UserFormModal.js:53-80`) is not modelled: its remote call, its `isSubmitting` flag and its closing of the dialog. It passes the server's reply to `UserListView.HandleFormSubmit`, which is the entry point here. A failed request never reaches the list, which therefore stays unchanged.
- Toasts, JSX layout, Bootstrap dialogs and CSS are not modelled: they are presentation. So are the read-only username field when editing and the display of the form's error messages.
- The form library's touched/blur tracking is not modelled: validation is modelled once, on the whole form.
- The schema library's e-mail and URL syntax (`.email()`, `.url()`) is not modelled: it is the parameters `isEmail` and `isUrl`.
- Empty strings count as absent fields: the form library turns `''` into `undefined` before validating. That conversion is assumed, not modelled. It is why an empty company or website passes.
- Whitespace and upper-casing cover ASCII only. JavaScript's `\s` and `toUpperCase` on other Unicode characters are not modelled.
- Ids are integers. A non-numeric id, which would make `Math.max` yield `NaN`, is not modelled.
- NextId: ids are unbounded integers. JavaScript numbers are doubles, so from a largest id of 2^53 on, `Math.max(...) + 1` is not exact and can round back to that id, so the new id collides (from 2^54 on it always does). `NextId`'s freshness, `CreateKeepsDistinct` and `CreateThenDelete` hold for the program only while ids are safe integers (below 2^53).
- NameError, UsernameError, CompanyError: a string's length here counts characters (Unicode scalar values). The schema library's `.min(3)` counts UTF-16 code units, so the two agree only for text inside the Basic Multilingual Plane. A name such as one emoji followed by one letter is too short here and long enough in the program.
- The record keeps company as an object with a name, as the fetched data has it. The form submits company as a plain string. The shape of a record the server echoes back after such a submit is not modelled. After any create or update through the form, the program's record carries company as a string. A non-empty string shows a blank table cell (`user.company.name` is `undefined`) and prefills company as `undefined` when the record is reopened; an empty string is falsy, so it shows "N/A" and prefills `''`. `CompanyCell`'s and `Prefill`'s company clauses describe fetched records only.
- Async ordering, races between overlapping requests, and state updates after the view is unmounted are not modelled: these are runtime concerns.
- The detail view (`src/components/UserDetail.js`), the delete dialog (`src/components/ConfirmDeleteModal.js`), routing (`src/App.js`, `src/pages/Home.js`) and uuid generation are not part of this model. The dialog only forwards to `confirmDeleteUser`. The generated uuid is always overwritten on create.
