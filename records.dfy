/**
 * The user record held by the list view and sent to and from the remote
 * collection, and the identifier facts the list keeps about it.
 */
module Records {
  import opened Wrappers

  datatype Address = Address(street: string, city: string)

  datatype Company = Company(name: string)

  /**
   * A user record. The identifier is an integer; every other field may be
   * absent in a record the remote service returns, so each is an Option.
   */
  datatype User = User(
    id: int,
    name: Option<string>,
    username: Option<string>,
    email: Option<string>,
    phone: Option<string>,
    website: Option<string>,
    address: Option<Address>,
    company: Option<Company>)

  /** The identifiers of a list of records, in list order. */
  function Ids(users: seq<User>): (ids: seq<int>)
    ensures |ids| == |users|
    ensures forall i :: 0 <= i < |users| ==> ids[i] == users[i].id
  {
    seq(|users|, i requires 0 <= i < |users| => users[i].id)
  }

  /** Some record in the list carries identifier `id`. */
  predicate HasId(users: seq<User>, id: int) {
    exists i :: 0 <= i < |users| && users[i].id == id
  }

  /** No two positions of the list carry the same identifier. */
  predicate DistinctIds(users: seq<User>) {
    forall i, j :: 0 <= i < j < |users| ==> users[i].id != users[j].id
  }
}
