/** The user list screen's status toggle: the server flips the account and
    returns the new status, which is written into the local list. */
module Users {
  import ListPatch

  datatype User = User(id: int, name: string, profile: string, status: bool)

  /** Outcome of the toggle PATCH: the status the server returned, or a throw.
      The request's client rejects every HTTP status outside 200..299 (no
      custom status validation is configured), so such a response is
      `ToggleThrew` and never `Returned`. */
  datatype ToggleResponse = Returned(status: bool) | ToggleThrew

  /** Result of one toggle: the new list and whether the error alert shows. */
  datatype Toggled = Toggled(users: seq<User>, errorAlert: bool)

  /** `status := s` on every user whose id matches; all else as it was. */
  function SetStatus(users: seq<User>, id: int, s: bool): (r: seq<User>)
    ensures |r| == |users|
    ensures forall i :: 0 <= i < |users| && users[i].id == id ==> r[i] == users[i].(status := s)
    ensures forall i :: 0 <= i < |users| && users[i].id != id ==> r[i] == users[i]
  {
    ListPatch.Patch(users, (u: User) => u.id == id, (u: User) => u.(status := s))
  }

  /** The toggle handler for user `id`. */
  function ToggleUserStatus(users: seq<User>, id: int, response: ToggleResponse): (r: Toggled)
    ensures response.ToggleThrew? ==> r.users == users && r.errorAlert
    ensures response.Returned? ==> !r.errorAlert && |r.users| == |users|
    ensures response.Returned? ==> forall i :: 0 <= i < |users| ==>
      r.users[i].id == users[i].id && r.users[i].name == users[i].name && r.users[i].profile == users[i].profile
    ensures response.Returned? ==> forall i :: 0 <= i < |users| ==>
      r.users[i].status == if users[i].id == id then response.status else users[i].status
  {
    match response
    case Returned(s) => Toggled(SetStatus(users, id, s), false)
    case ToggleThrew => Toggled(users, true)
  }

  /** The new status is the server's, not the local one negated: if the server
      reports the status the user already had, the list does not change. */
  lemma ServerStatusIsAuthoritative(users: seq<User>, id: int, s: bool)
    requires forall i :: 0 <= i < |users| && users[i].id == id ==> users[i].status == s
    ensures ToggleUserStatus(users, id, Returned(s)).users == users
  {
  }

  /** Two toggles with the server's answers compose to the last answer. */
  lemma SetStatusLastWins(users: seq<User>, id: int, s: bool, t: bool)
    ensures SetStatus(SetStatus(users, id, s), id, t) == SetStatus(users, id, t)
  {
  }
}
