/** The admin user-management page: the list of users held in page state, which
    changes only after the server has accepted a role change or a delete. */
module AdminUserPage {
  import opened Js
  import opened Records
  import opened UserSchema

  /** How a request to the server ended: accepted, or failed with the server's
      message when the response carried one. */
  datatype Outcome = Accepted | Rejected(serverMessage: Option<string>)

  /** The request a handler sent. */
  datatype Request = PutRole(id: Id, role: string) | DeleteUser(id: Id)

  const RoleFailed: string := "Failed to update role"
  const DeleteFailed: string := "Failed to delete user"

  /** The role a toggle asks for: "admin" becomes "user", every other role becomes "admin". */
  function ToggledRole(role: string): (r: string)
    ensures r == "admin" <==> role != "admin"
    ensures r == "user" <==> role == "admin"
  {
    if role == "admin" then "user" else "admin"
  }

  /** Toggling twice gives back "admin" and "user"; any other role ends as "user". */
  lemma ToggleTwice(role: string)
    ensures role == "admin" || role == "user" ==> ToggledRole(ToggledRole(role)) == role
    ensures role != "admin" ==> ToggledRole(ToggledRole(role)) == "user"
  {
  }

  /** `{ ...u, role }`. */
  function WithRole(role: string): User -> User {
    (u: User) => u.(role := role)
  }

  /** After a toggle, the users with that id carry the new role and nothing else
      about any user has changed. */
  lemma ToggleOnlyChangesRole(users: seq<User>, id: Id, role: string)
    ensures var after := UpdateKey(users, IdOf, id, WithRole(role));
            |after| == |users|
            && forall i :: 0 <= i < |users| ==>
                 (users[i].id == id ==> after[i] == users[i].(role := role))
                 && (users[i].id != id ==> after[i] == users[i])
  {
  }

  class UserListPage {
    var users: seq<User>
    var loading: bool

    constructor ()
      ensures users == [] && loading
    {
      users := [];
      loading := true;
    }

    /** `fetchUsers`, given the list the request returned (absent when it failed):
        the list replaces the page's, a failure keeps it; `loading` ends false. */
    method FetchUsers(response: Option<seq<User>>)
      modifies this
      ensures !loading
      ensures users == if response.Some? then response.value else old(users)
    {
      loading := true;
      if response.Some? {
        users := response.value;
      }
      loading := false;
    }

    /** `handleToggleRole`: for an id the list does not hold no request is sent and
        the generic failure is shown; otherwise the toggled role of the first user
        with the id is sent, and only if the server accepts it does the list change. */
    method HandleToggleRole(id: Id, put: Outcome) returns (request: Option<Request>, alert: string)
      modifies this
      ensures loading == old(loading)
      ensures FindKey(old(users), IdOf, id).None? ==>
                request == None && alert == RoleFailed && users == old(users)
      ensures FindKey(old(users), IdOf, id).Some? ==>
                var role := ToggledRole(old(users)[FindKey(old(users), IdOf, id).value].role);
                request == Some(PutRole(id, role))
                && (put.Accepted? ==> users == UpdateKey(old(users), IdOf, id, WithRole(role))
                                      && alert == "User role updated to " + role)
                && (put.Rejected? ==> users == old(users) && alert == OrElse(put.serverMessage, RoleFailed))
    {
      var found := FindKey(users, IdOf, id);
      if found.None? {
        return None, RoleFailed;
      }
      var role := ToggledRole(users[found.value].role);
      request := Some(PutRole(id, role));
      if put.Rejected? {
        return request, OrElse(put.serverMessage, RoleFailed);
      }
      users := UpdateKey(users, IdOf, id, WithRole(role));
      alert := "User role updated to " + role;
    }

    /** `handleDelete`: declining the confirmation sends nothing and changes nothing;
        otherwise the delete is sent and, only if the server accepts it, every user
        with the id leaves the list and the rest keep their order. */
    method HandleDelete(id: Id, confirmed: bool, del: Outcome)
        returns (request: Option<Request>, alert: Option<string>)
      modifies this
      ensures loading == old(loading)
      ensures !confirmed ==> request == None && alert == None && users == old(users)
      ensures confirmed ==> request == Some(DeleteUser(id))
      ensures confirmed && del.Accepted? ==> users == RemoveKey(old(users), IdOf, id) && alert == None
      ensures confirmed && del.Rejected? ==>
                users == old(users) && alert == Some(OrElse(del.serverMessage, DeleteFailed))
    {
      if !confirmed {
        return None, None;
      }
      request := Some(DeleteUser(id));
      if del.Rejected? {
        return request, Some(OrElse(del.serverMessage, DeleteFailed));
      }
      users := RemoveKey(users, IdOf, id);
      alert := None;
    }
  }
}
