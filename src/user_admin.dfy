/** The admin's user table (UserManagement): a mirror of the user list with a block toggle. */
module UserAdmin {
  import opened Wrappers
  import opened Api
  import opened Domain
  import opened Sync

  /** `user.contact ? contact : 'Not provided'`: an absent contact and the number 0 are both falsy. */
  datatype ContactCell = Shown(number: int) | NotProvided

  function ContactOf(u: User): (c: ContactCell)
    ensures c.Shown? <==> u.contact.Some? && u.contact.value != 0
    ensures c.Shown? ==> c.number == u.contact.value
  {
    if u.contact.Some? && u.contact.value != 0 then Shown(u.contact.value) else NotProvided
  }

  datatype UserRow = UserRow(role: string, status: string, action: string, contact: ContactCell)

  /** One row: the role, the status badge and the toggle button's label. */
  function RowOf(u: User): (r: UserRow)
    ensures r.role == "Admin" <==> u.isAdmin
    ensures r.status == "Blocked" <==> u.isBlocked
    ensures r.action == "Unblock" <==> u.isBlocked
    ensures r.status in {"Blocked", "Active"} && r.action in {"Unblock", "Block"} && r.role in {"Admin", "User"}
    ensures r.contact == ContactOf(u)
  {
    UserRow(
      if u.isAdmin then "Admin" else "User",
      if u.isBlocked then "Blocked" else "Active",
      if u.isBlocked then "Unblock" else "Block",
      ContactOf(u))
  }

  /** The success notice after a toggle: "blocked" exactly when the user was not blocked before. */
  function ToggleNotice(wasBlocked: bool): (r: string)
    ensures r == "User blocked successfully" <==> !wasBlocked
    ensures r == "User unblocked successfully" <==> wasBlocked
  {
    "User " + (if !wasBlocked then "blocked" else "unblocked") + " successfully"
  }

  datatype TableView = LoadingUsers | NoUsers | Rows(rows: seq<UserRow>)

  class UserManagement {
    var users: seq<User>
    var isLoading: bool

    constructor ()
      ensures users == [] && isLoading
    {
      users := [];
      isLoading := true;
    }

    /** fetchUsers: a successful reply replaces the list, a failed one keeps it; loading ends. */
    method Fetch(reply: Reply<Option<seq<User>>>) returns (calls: seq<Request>)
      modifies this
      ensures calls == [GetUsers]
      ensures users == Reconciled(old(users), reply) && !isLoading
    {
      isLoading := true;
      calls := [GetUsers];
      users := Reconciled(users, reply);
      isLoading := false;
    }

    /**
     * handleToggleBlock: sends the opposite of the current flag. When the server accepts it the list
     * is refetched and the notice names the new state; on refusal nothing is refetched and no
     * success notice appears.
     */
    method ToggleBlock(userId: string, currentBlocked: bool, updateReply: Reply<()>, fetchReply: Reply<Option<seq<User>>>)
      returns (calls: seq<Request>, notice: Option<string>)
      modifies this
      ensures |calls| >= 1 && calls[0] == UpdateUser(userId, !currentBlocked)
      ensures updateReply.Ok? ==>
        calls == [UpdateUser(userId, !currentBlocked), GetUsers] &&
        users == Reconciled(old(users), fetchReply) && !isLoading &&
        notice == Some(ToggleNotice(currentBlocked))
      ensures updateReply.Failed? ==>
        calls == [UpdateUser(userId, !currentBlocked)] && users == old(users) &&
        isLoading == old(isLoading) && notice == None
    {
      calls := [UpdateUser(userId, !currentBlocked)];
      notice := None;
      if updateReply.Ok? {
        var fetched := Fetch(fetchReply);
        calls := calls + fetched;
        notice := Some(ToggleNotice(currentBlocked));
      }
    }

    function View(): (v: TableView)
      reads this
      ensures isLoading <==> v == LoadingUsers
      ensures v == NoUsers <==> !isLoading && users == []
      ensures v.Rows? ==> v.rows == Map(RowOf, users)
    {
      if isLoading then LoadingUsers else if users == [] then NoUsers else Rows(Map(RowOf, users))
    }
  }

  /** The button on a row asks for the state its label names: "Block" sends true, "Unblock" false. */
  method PressRowButton(admin: UserManagement, u: User, updateReply: Reply<()>, fetchReply: Reply<Option<seq<User>>>)
    returns (calls: seq<Request>)
    modifies admin
    ensures |calls| >= 1 && calls[0] == UpdateUser(u.id, RowOf(u).action == "Block")
    ensures calls[0].isBlocked <==> RowOf(u).status == "Active"
  {
    var notice;
    calls, notice := admin.ToggleBlock(u.id, u.isBlocked, updateReply, fetchReply);
  }
}
