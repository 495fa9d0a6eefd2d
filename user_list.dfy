/**
 * The list view of src/components/UserList.js: the in-memory list of user
 * records, the three changes applied to it after a remote call succeeds
 * (update in place, create with a locally derived id and username, delete by
 * id), the load states of the initial fetch, and what the view renders.
 */
module UserList {
  import opened Wrappers
  import opened Ascii
  import opened Records
  import UserFormModal

  const FetchErrorMessage := "Failed to fetch users."
  const EmptyListMessage := "No users available."
  const NotAvailable := "N/A"

  // ---------------------------------------------------------------------
  // Identifier and username derivation for a created record
  // ---------------------------------------------------------------------

  /** `Math.max(...users.map(u => u.id))` on a non-empty list. */
  function MaxId(users: seq<User>): (m: int)
    requires |users| > 0
    ensures forall i :: 0 <= i < |users| ==> users[i].id <= m
    ensures exists i :: 0 <= i < |users| && users[i].id == m
  {
    if |users| == 1 then users[0].id
    else
      var rest := MaxId(users[1..]);
      if users[0].id >= rest then users[0].id else rest
  }

  /** The id a created record receives: one more than the largest id, or 1 for an empty list. */
  function NextId(users: seq<User>): (n: int)
    ensures forall i :: 0 <= i < |users| ==> users[i].id < n
    ensures !HasId(users, n)
    ensures users == [] ==> n == 1
    ensures users != [] ==> HasId(users, n - 1)
  {
    if |users| > 0 then MaxId(users) + 1 else 1
  }

  /** The username a created record receives: `USER-` and the name, whitespace removed, upper-cased. */
  function DerivedUsername(name: string): (r: string)
    ensures |r| == 5 + |StripWhitespace(name)|
    ensures r[..5] == "USER-"
    ensures forall i :: 5 <= i < |r| ==> !IsWhitespace(r[i]) && !IsLower(r[i])
    ensures forall i :: 5 <= i < |r| ==> r[i] == Upper(StripWhitespace(name)[i - 5])
  {
    "USER-" + ToUpper(StripWhitespace(name))
  }

  /** The worked example: "John Q Public" becomes "USER-JOHNQPUBLIC". */
  lemma DerivedUsernameExample(name: string)
    requires name == "John" + " " + "Q" + " " + "Public"
    ensures DerivedUsername(name) == "USER-JOHNQPUBLIC"
  {
    StripExample(name);
    var stripped := StripWhitespace(name);
    assert ToUpper(stripped) == "JOHNQPUBLIC";
  }

  /** The derived username ignores the spacing and the letter case of the submitted name. */
  lemma DerivedUsernameNormalises(name: string)
    ensures DerivedUsername(StripWhitespace(name)) == DerivedUsername(name)
    ensures DerivedUsername(ToUpper(name)) == DerivedUsername(name)
  {
    StripUpperCommute(name);
    ToUpperIdempotent(StripWhitespace(name));
  }

  // ---------------------------------------------------------------------
  // The three list changes of handleFormSubmit and confirmDeleteUser
  // ---------------------------------------------------------------------

  /** Update: every record whose id equals the returned record's id is replaced by it, in place. */
  function ApplyUpdate(users: seq<User>, data: User): (r: seq<User>)
    ensures |r| == |users|
    ensures Ids(r) == Ids(users)
    ensures forall i :: 0 <= i < |users| && users[i].id == data.id ==> r[i] == data
    ensures forall i :: 0 <= i < |users| && users[i].id != data.id ==> r[i] == users[i]
  {
    seq(|users|, i requires 0 <= i < |users| => if users[i].id == data.id then data else users[i])
  }

  /**
   * Create: the returned record, with a fresh id and the derived username,
   * appended at the end. The source reads `userData.name.replace(...)`, which
   * throws when the name is absent; that throw is caught by the form's submit
   * handler before the list is set, so the list then stays as it was (None).
   */
  function ApplyCreate(users: seq<User>, data: User): (r: Option<seq<User>>)
    ensures r.None? <==> data.name.None?
    ensures r.Some? ==> |r.value| == |users| + 1 && r.value[..|users|] == users
    ensures r.Some? ==>
      var u := r.value[|users|];
      && u.id == NextId(users)
      && (forall i :: 0 <= i < |users| ==> users[i].id < u.id)
      && !HasId(users, u.id)
      && u.username == Some(DerivedUsername(data.name.value))
      && u.(id := data.id, username := data.username) == data
  {
    match data.name
    case None => None
    case Some(name) =>
      Some(users + [data.(id := NextId(users), username := Some(DerivedUsername(name)))])
  }

  /** Delete: `users.filter(u => u.id !== id)`. */
  function ApplyDelete(users: seq<User>, id: int): (r: seq<User>)
    ensures |r| <= |users|
    ensures !HasId(r, id)
    ensures forall u :: u in r <==> u in users && u.id != id
    ensures multiset(r) <= multiset(users)
  {
    if users == [] then []
    else
      assert users == [users[0]] + users[1..];
      if users[0].id == id then ApplyDelete(users[1..], id)
      else [users[0]] + ApplyDelete(users[1..], id)
  }

  // ---------------------------------------------------------------------
  // Properties of the three changes
  // ---------------------------------------------------------------------

  /** An update whose id is not in the list leaves the list unchanged. */
  lemma UpdateAbsentIsIdentity(users: seq<User>, data: User)
    requires !HasId(users, data.id)
    ensures ApplyUpdate(users, data) == users
  {
  }

  /** Repeating an update changes nothing more. */
  lemma UpdateIdempotent(users: seq<User>, data: User)
    ensures ApplyUpdate(ApplyUpdate(users, data), data) == ApplyUpdate(users, data)
  {
  }

  /** An update keeps the ids pairwise distinct, and the updated record is in the list exactly when its id was. */
  lemma UpdateKeepsDistinct(users: seq<User>, data: User)
    requires DistinctIds(users)
    ensures DistinctIds(ApplyUpdate(users, data))
    ensures data in ApplyUpdate(users, data) <==> HasId(users, data.id)
  {
    var r := ApplyUpdate(users, data);
    forall i, j | 0 <= i < j < |r| ensures r[i].id != r[j].id {
      assert Ids(r)[i] == Ids(users)[i] && Ids(r)[j] == Ids(users)[j];
    }
    if HasId(users, data.id) {
      var k :| 0 <= k < |users| && users[k].id == data.id;
      assert r[k] == data;
    }
  }

  /** A create keeps the ids pairwise distinct. */
  lemma CreateKeepsDistinct(users: seq<User>, data: User)
    requires DistinctIds(users)
    requires data.name.Some?
    ensures DistinctIds(ApplyCreate(users, data).value)
  {
    var r := ApplyCreate(users, data).value;
    var n := |users|;
    forall i, j | 0 <= i < j < |r| ensures r[i].id != r[j].id {
      if j < n {
        assert r[i] == r[..n][i] && r[j] == r[..n][j];
      } else {
        assert r[i] == r[..n][i];
      }
    }
  }

  /** Delete distributes over concatenation: the records kept keep their relative order. */
  lemma {:induction false} DeleteAppend(a: seq<User>, b: seq<User>, id: int)
    ensures ApplyDelete(a + b, id) == ApplyDelete(a, id) + ApplyDelete(b, id)
  {
    if a == [] {
      assert a + b == b;
    } else {
      assert (a + b)[1..] == a[1..] + b;
      DeleteAppend(a[1..], b, id);
    }
  }

  /** Deleting an id that no record carries leaves the list unchanged. */
  lemma {:induction false} DeleteAbsentIsIdentity(users: seq<User>, id: int)
    requires !HasId(users, id)
    ensures ApplyDelete(users, id) == users
  {
    if users != [] {
      assert !HasId(users[1..], id) by {
        forall i | 0 <= i < |users[1..]| ensures users[1..][i].id != id {
          assert users[1..][i] == users[i + 1];
        }
      }
      DeleteAbsentIsIdentity(users[1..], id);
    }
  }

  /** With distinct ids, deleting a present id removes exactly one record. */
  lemma {:induction false} DeleteRemovesOne(users: seq<User>, id: int)
    requires DistinctIds(users)
    requires HasId(users, id)
    ensures |ApplyDelete(users, id)| == |users| - 1
  {
    var rest := users[1..];
    assert DistinctIds(rest) by {
      forall i, j | 0 <= i < j < |rest| ensures rest[i].id != rest[j].id {
        assert rest[i] == users[i + 1] && rest[j] == users[j + 1];
      }
    }
    if users[0].id == id {
      assert !HasId(rest, id) by {
        forall i | 0 <= i < |rest| ensures rest[i].id != id {
          assert rest[i] == users[i + 1];
        }
      }
      DeleteAbsentIsIdentity(rest, id);
    } else {
      assert HasId(rest, id) by {
        var k :| 0 <= k < |users| && users[k].id == id;
        assert rest[k - 1] == users[k];
      }
      DeleteRemovesOne(rest, id);
    }
  }

  /** A delete keeps the ids pairwise distinct. */
  lemma {:induction false} DeleteKeepsDistinct(users: seq<User>, id: int)
    requires DistinctIds(users)
    ensures DistinctIds(ApplyDelete(users, id))
  {
    if users != [] {
      DeleteKeepsDistinct(users[1..], id);
      var rest := ApplyDelete(users[1..], id);
      if users[0].id != id {
        assert users[0] !in rest by {
          forall j | 0 <= j < |users[1..]| ensures users[1..][j] != users[0] {
            assert users[1..][j] == users[j + 1];
          }
        }
        var r := [users[0]] + rest;
        forall i, j | 0 <= i < j < |r| ensures r[i].id != r[j].id {
          if i == 0 {
            assert r[j] in rest;
            var m :| 0 <= m < |users[1..]| && users[1..][m] == r[j];
            assert users[1..][m] == users[m + 1];
          } else {
            assert r[i] == rest[i - 1] && r[j] == rest[j - 1];
          }
        }
      }
    }
  }

  /** Deleting a record just created gives back the list as it was before the create. */
  lemma CreateThenDelete(users: seq<User>, data: User)
    requires data.name.Some?
    ensures ApplyDelete(ApplyCreate(users, data).value, NextId(users)) == users
  {
    var r := ApplyCreate(users, data).value;
    var u := r[|users|];
    assert r == users + [u];
    DeleteAppend(users, [u], NextId(users));
    DeleteAbsentIsIdentity(users, NextId(users));
    assert ApplyDelete([u], NextId(users)) == [] by {
      assert [u][1..] == [];
    }
  }

  /**
   * A created record opened for editing shows its derived username, and that
   * username always passes the form's username rule, however short the name.
   */
  lemma CreatedRecordEditable(users: seq<User>, data: User)
    requires data.name.Some?
    ensures var u := ApplyCreate(users, data).value[|users|];
      && UserFormModal.Prefill(u).username == DerivedUsername(data.name.value)
      && UserFormModal.UsernameError(UserFormModal.Prefill(u).username).None?
  {
  }

  // ---------------------------------------------------------------------
  // Rendering
  // ---------------------------------------------------------------------

  /** One row of the table body. */
  datatype Row =
    | UserRow(user: User, style: string, website: string, address: string, company: string)
    | EmptyRow(message: string)

  /** What the list view shows. */
  datatype Screen = Spinner | ErrorAlert(message: string) | UserTable(rows: seq<Row>)

  /** Zebra striping keyed by row position, not by id. */
  function RowStyle(index: nat): (style: string)
    ensures style == "table-light" <==> index % 2 == 0
    ensures style == "table-secondary" <==> index % 2 == 1
  {
    if index % 2 == 0 then "table-light" else "table-secondary"
  }

  /** The website cell: the website when it is a non-empty string, otherwise "N/A". */
  function WebsiteCell(u: User): (cell: string)
    ensures u.website.Some? && u.website.value != "" ==> cell == u.website.value
    ensures u.website.None? || u.website.value == "" ==> cell == NotAvailable
  {
    if u.website.Some? && u.website.value != "" then u.website.value else NotAvailable
  }

  /** The address cell: "street, city", or "N/A" when there is no address. */
  function AddressCell(u: User): (cell: string)
    ensures u.address.None? ==> cell == NotAvailable
    ensures u.address.Some? ==> cell == u.address.value.street + ", " + u.address.value.city
  {
    match u.address
    case None => NotAvailable
    case Some(a) => a.street + ", " + a.city
  }

  /** The company cell: the company's name, or "N/A" when there is no company. */
  function CompanyCell(u: User): (cell: string)
    ensures u.company.None? ==> cell == NotAvailable
    ensures u.company.Some? ==> cell == u.company.value.name
  {
    match u.company
    case None => NotAvailable
    case Some(c) => c.name
  }

  /** The table body: one row per record in list order, or the single empty-list row. */
  function Body(users: seq<User>): (rows: seq<Row>)
    ensures users == [] ==> rows == [EmptyRow(EmptyListMessage)]
    ensures users != [] ==> |rows| == |users|
    ensures forall i :: 0 <= i < |users| ==>
      && rows[i].UserRow? && rows[i].user == users[i] && rows[i].style == RowStyle(i)
      && rows[i].website == WebsiteCell(users[i])
      && rows[i].address == AddressCell(users[i])
      && rows[i].company == CompanyCell(users[i])
    ensures forall i :: 0 <= i < |rows| ==> (rows[i].EmptyRow? <==> users == [])
  {
    var dataRows := seq(|users|, i requires 0 <= i < |users| =>
      UserRow(users[i], RowStyle(i), WebsiteCell(users[i]), AddressCell(users[i]), CompanyCell(users[i])));
    if |users| == 0 then dataRows + [EmptyRow(EmptyListMessage)] else dataRows
  }

  /** Neighbouring data rows never share a style. */
  lemma AdjacentRowsAlternate(users: seq<User>, i: nat)
    requires i + 1 < |users|
    ensures Body(users)[i].style != Body(users)[i + 1].style
  {
  }

  /**
   * The render precedence: loading first, then the error, then the table.
   * The source tests the error message for truthiness, so an empty message
   * would count as unset; here any message counts as set. No reachable state
   * differs: the only message ever stored is FetchErrorMessage.
   */
  function RenderScreen(loading: bool, error: Option<string>, users: seq<User>): (s: Screen)
    ensures s.Spinner? <==> loading
    ensures s.ErrorAlert? <==> !loading && error.Some?
    ensures s.ErrorAlert? ==> s.message == error.value
    ensures s.UserTable? <==> !loading && error.None?
    ensures s.UserTable? ==> s.rows == Body(users)
  {
    if loading then Spinner
    else if error.Some? then ErrorAlert(error.value)
    else UserTable(Body(users))
  }

  // ---------------------------------------------------------------------
  // The component's state
  // ---------------------------------------------------------------------

  /**
   * The state of one mounted list view. The remote calls are not modelled:
   * each method that follows one takes its outcome as a parameter.
   */
  class UserListView {
    var users: seq<User>
    var loading: bool
    var error: Option<string>
    var showFormModal: bool
    var currentUser: Option<User>
    var showDeleteModal: bool
    var userToDelete: Option<User>

    /** The initial state: no records, loading, no error, no dialog open. */
    constructor ()
      ensures users == [] && loading && error == None
      ensures !showFormModal && currentUser == None
      ensures !showDeleteModal && userToDelete == None
    {
      users := [];
      loading := true;
      error := None;
      showFormModal := false;
      currentUser := None;
      showDeleteModal := false;
      userToDelete := None;
    }

    /** What the view renders in the current state. */
    function Render(): (s: Screen)
      reads this
      ensures s == RenderScreen(loading, error, users)
    {
      RenderScreen(loading, error, users)
    }

    /**
     * fetchUsers: on success the fetched list is stored, on failure the error
     * message is set; either way loading ends.
     */
    method FetchUsers(response: Option<seq<User>>)
      modifies this`users, this`loading, this`error
      ensures !loading
      ensures response.Some? ==> users == response.value && error == old(error)
      ensures response.None? ==> users == old(users) && error == Some(FetchErrorMessage)
    {
      match response
      case Some(data) =>
        users := data;
        loading := false;
      case None =>
        error := Some(FetchErrorMessage);
        loading := false;
    }

    /** handleAddUser: open the form for a new record. */
    method HandleAddUser()
      modifies this`currentUser, this`showFormModal
      ensures currentUser == None && showFormModal
    {
      currentUser := None;
      showFormModal := true;
    }

    /** handleEditUser: open the form on an existing record. */
    method HandleEditUser(user: User)
      modifies this`currentUser, this`showFormModal
      ensures currentUser == Some(user) && showFormModal
    {
      currentUser := Some(user);
      showFormModal := true;
    }

    /** handleDeleteUser: open the delete confirmation for a record. */
    method HandleDeleteUser(user: User)
      modifies this`userToDelete, this`showDeleteModal
      ensures userToDelete == Some(user) && showDeleteModal
    {
      userToDelete := Some(user);
      showDeleteModal := true;
    }

    /**
     * handleFormSubmit, called with the record the remote call returned:
     * an update when a record is being edited, a create otherwise. `ok` is
     * false when the create throws on a missing name; the list is then unchanged.
     */
    method HandleFormSubmit(userData: User) returns (ok: bool)
      modifies this`users
      ensures currentUser.Some? ==> ok && users == ApplyUpdate(old(users), userData)
      ensures currentUser.None? ==> (ok <==> userData.name.Some?)
      ensures currentUser.None? && ok ==> users == ApplyCreate(old(users), userData).value
      ensures !ok ==> users == old(users)
      ensures DistinctIds(old(users)) ==> DistinctIds(users)
    {
      if currentUser.Some? {
        if DistinctIds(users) {
          UpdateKeepsDistinct(users, userData);
        }
        users := ApplyUpdate(users, userData);
        ok := true;
      } else {
        var created := ApplyCreate(users, userData);
        match created
        case None =>
          ok := false;
        case Some(next) =>
          if DistinctIds(users) {
            CreateKeepsDistinct(users, userData);
          }
          users := next;
          ok := true;
      }
    }

    /**
     * confirmDeleteUser, with the outcome of the remote delete. With no record
     * chosen the source throws before the request and takes the failure path.
     */
    method ConfirmDeleteUser(remoteOk: bool)
      modifies this`users, this`showDeleteModal
      ensures userToDelete.Some? && remoteOk ==>
        users == ApplyDelete(old(users), userToDelete.value.id) && !showDeleteModal
      ensures userToDelete.None? || !remoteOk ==>
        users == old(users) && showDeleteModal == old(showDeleteModal)
      ensures DistinctIds(old(users)) ==> DistinctIds(users)
    {
      if userToDelete.Some? && remoteOk {
        if DistinctIds(users) {
          DeleteKeepsDistinct(users, userToDelete.value.id);
        }
        users := ApplyDelete(users, userToDelete.value.id);
        showDeleteModal := false;
      }
    }

    /** The form dialog's close handler. */
    method CloseFormModal()
      modifies this`showFormModal
      ensures !showFormModal
    {
      showFormModal := false;
    }

    /** The delete dialog's close handler. */
    method CloseDeleteModal()
      modifies this`showDeleteModal
      ensures !showDeleteModal
    {
      showDeleteModal := false;
    }
  }

  /**
   * Mounting the list view: it first shows the spinner, then fetches once and
   * shows either the error alert or the table of what was fetched.
   */
  method Mount(response: Option<seq<User>>) returns (before: Screen, after: Screen)
    ensures before == Spinner
    ensures response.None? ==> after == ErrorAlert(FetchErrorMessage)
    ensures response.Some? ==> after == UserTable(Body(response.value))
    ensures response == Some([]) ==> after == UserTable([EmptyRow(EmptyListMessage)])
  {
    var view := new UserListView();
    before := view.Render();
    view.FetchUsers(response);
    after := view.Render();
  }
}
