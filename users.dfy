/** The users page: the account list, each account's role, status badge and
    an activate/deactivate button. */
module Users {
  import opened Js
  import opened RecordList
  import Models
  import Serializers

  /** The role column: `is_superuser` first, then `is_staff`. */
  function RoleLabel(user: Record): (role: string)
    ensures Truthy(Get(user, "is_superuser")) ==> role == "Admin"
    ensures !Truthy(Get(user, "is_superuser")) && Truthy(Get(user, "is_staff")) ==> role == "Staff"
    ensures !Truthy(Get(user, "is_superuser")) && !Truthy(Get(user, "is_staff")) ==> role == "User"
  {
    if Truthy(Get(user, "is_superuser")) then "Admin" else if Truthy(Get(user, "is_staff")) then "Staff" else "User"
  }

  /** The role column reads keys the user serializer never sends, so every
      account it describes is labelled "User", administrators included. */
  lemma SerializedUsersAreLabelledUser(u: Models.UserRow)
    ensures RoleLabel(Serializers.UserJson(u)) == "User"
  {
  }

  /** The status badge: its text and its colour. */
  datatype Badge = Badge(caption: string, style: string)

  function StatusBadge(user: Record): (b: Badge)
    ensures Truthy(Get(user, "is_active")) ==> b == Badge("Active", "bg-success")
    ensures !Truthy(Get(user, "is_active")) ==> b == Badge("Inactive", "bg-danger")
  {
    if Truthy(Get(user, "is_active")) then Badge("Active", "bg-success") else Badge("Inactive", "bg-danger")
  }

  /** The button of a row. */
  function ToggleLabel(user: Record): (caption: string)
    ensures Truthy(Get(user, "is_active")) ==> caption == "Deactivate"
    ensures !Truthy(Get(user, "is_active")) ==> caption == "Activate"
  {
    if Truthy(Get(user, "is_active")) then "Deactivate" else "Activate"
  }

  /** The body sent by `toggleActivation`: `is_active` only, the negation of the shown status. */
  function TogglePayload(currentStatus: Value): (payload: Record)
    ensures payload.Keys == {"is_active"}
    ensures payload["is_active"] == Bool(!Truthy(currentStatus))
  {
    map["is_active" := Not(currentStatus)]
  }

  /** When the server applies the patch, the row's badge and button flip. */
  lemma ToggleFlipsRow(user: Record)
    ensures var patched := With(user, "is_active", TogglePayload(Get(user, "is_active"))["is_active"]);
            StatusBadge(patched) != StatusBadge(user) && ToggleLabel(patched) != ToggleLabel(user)
  {
  }

  class UsersPage {
    var users: seq<Record>

    constructor ()
      ensures users == []
    {
      users := [];
    }

    /** `fetchUsers`. */
    method FetchUsers(reply: ListReply)
      modifies this`users
      ensures users == if reply.Loaded? then reply.records else old(users)
    {
      if reply.Loaded? {
        users := reply.records;
      }
    }

    /** `toggleActivation(userId, currentStatus)`: the patch is sent; on
        success the accounts with that id become the server's record; on
        failure nothing changes. */
    method ToggleActivation(userId: Value, currentStatus: Value, reply: Reply) returns (payload: Record)
      modifies this`users
      ensures payload == TogglePayload(currentStatus)
      ensures users == if reply.Success? then ReplaceById(old(users), userId, reply.data) else old(users)
    {
      payload := map["is_active" := Not(currentStatus)];
      if reply.Success? {
        users := ReplaceById(users, userId, reply.data);
      }
    }
  }
}
