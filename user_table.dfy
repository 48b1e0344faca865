/** The table of registered users (frontend/src/UserTable.jsx), loaded once when it mounts. */
module UserTable {
  import opened Wrappers
  import opened Seqs
  import opened Remote
  import opened Entities

  const NotAvailable := "N/A"

  /** One table row: ID, user name, e-mail and registration date. */
  datatype Row = Row(id: int, username: string, email: string, registered: string)

  /** A row; a user without a creation date shows "N/A" (the date's formatting is not modelled). */
  function RowOf(u: User): (r: Row)
    ensures r.id == u.id && r.username == u.username && r.email == u.email
    ensures u.createdAt != "" ==> r.registered == u.createdAt
    ensures u.createdAt == "" ==> r.registered == NotAvailable
  {
    Row(u.id, u.username, u.email, if u.createdAt != "" then u.createdAt else NotAvailable)
  }

  datatype Screen = LoadingScreen | ErrorScreen(error: string) | TableScreen(rows: seq<Row>) | NoUsersScreen

  /**
   * Loading hides everything, even the previous list; then a load error; then one row per user in
   * the server's order, or the "no users" line for an empty list.
   */
  function Render(loading: bool, error: Option<string>, users: seq<User>): (s: Screen)
    ensures s == LoadingScreen <==> loading
    ensures s.ErrorScreen? <==> !loading && Truthy(error)
    ensures s.ErrorScreen? ==> Some(s.error) == error
    ensures s == NoUsersScreen <==> !loading && !Truthy(error) && users == []
    ensures s.TableScreen? ==>
              |s.rows| == |users| && forall i :: 0 <= i < |users| ==> s.rows[i] == RowOf(users[i])
  {
    if loading then LoadingScreen
    else if Truthy(error) then ErrorScreen(error.value)
    else if |users| > 0 then TableScreen(Map(users, RowOf))
    else NoUsersScreen
  }

  class Component {
    var users: seq<User>
    var loading: bool
    var error: Option<string>

    ghost predicate Valid()
      reads this
    {
      loading ==> error == None
    }

    constructor ()
      ensures Valid() && users == [] && loading && error == None
    {
      users := [];
      loading := true;
      error := None;
    }

    /** `fetchUsers` up to its `await`, run by the mount effect. */
    method StartFetchUsers()
      requires Valid()
      modifies this`loading, this`error
      ensures Valid() && loading && error == None
    {
      error := None;
      loading := true;
    }

    /** `fetchUsers` after its `await`: success replaces the list, failure keeps it; loading ends. */
    method FinishFetchUsers(response: FetchOutcome<seq<User>>)
      requires Valid()
      modifies this`users, this`loading, this`error
      ensures Valid() && !loading
      ensures response.Fetched? ==> users == response.data && error == old(error)
      ensures response.HttpError? ==>
                users == old(users) && error == Some(LoadFailureMessage(response.status, response.body))
      ensures response.FetchThrew? ==> users == old(users) && error == Some(response.message)
    {
      match response {
        case Fetched(data) => users := data;
        case HttpError(status, body) => error := Some(LoadFailureMessage(status, body));
        case FetchThrew(message) => error := Some(message);
      }
      loading := false;
    }

    /** What the component renders. In a valid state an error that was set is always shown. */
    function Shown(): (s: Screen)
      reads this
      requires Valid()
      ensures Truthy(error) ==> s == ErrorScreen(error.value)
    {
      Render(loading, error, users)
    }
  }
}
