/**
 * The session store: the bearer token and the signed-in user, both absent
 * until a sign-in. Persisting them to local storage is not part of this
 * model.
 */
module Store {
  import opened Wrappers
  import opened Types

  /** `{ ...user, ...updates }` for a user. */
  function MergeUser(u: User, p: UserPatch): (r: User)
    ensures r.id == p.id.GetOr(u.id) && r.email == p.email.GetOr(u.email)
    ensures r.isGuest == (if p.isGuest.Some? then p.isGuest else u.isGuest)
    ensures r.isGoogleUser == (if p.isGoogleUser.Some? then p.isGoogleUser else u.isGoogleUser)
    ensures r.displayName == (if p.displayName.Some? then p.displayName else u.displayName)
    ensures r.photoUrl == (if p.photoUrl.Some? then p.photoUrl else u.photoUrl)
  {
    User(p.id.GetOr(u.id), p.email.GetOr(u.email),
         if p.isGuest.Some? then p.isGuest else u.isGuest,
         if p.isGoogleUser.Some? then p.isGoogleUser else u.isGoogleUser,
         if p.displayName.Some? then p.displayName else u.displayName,
         if p.photoUrl.Some? then p.photoUrl else u.photoUrl)
  }

  /** Updating a user twice with the same fields equals updating once. */
  lemma MergeUserIdempotent(u: User, p: UserPatch)
    ensures MergeUser(MergeUser(u, p), p) == MergeUser(u, p)
  {
  }

  class Session {
    var token: Option<string>
    var user: Option<User>

    constructor()
      ensures token == None && user == None
    {
      token := None;
      user := None;
    }

    method SetAuth(t: string, u: User)
      modifies this
      ensures token == Some(t) && user == Some(u)
    {
      token := Some(t);
      user := Some(u);
    }

    /** Logout clears both; a second logout changes nothing more. */
    method Logout()
      modifies this
      ensures token == None && user == None
    {
      token := None;
      user := None;
    }

    /** The given fields overwrite the user's, the token stays; without a user there is still none. */
    method UpdateUser(updates: UserPatch)
      modifies this
      ensures old(user).Some? ==> user == Some(MergeUser(old(user).value, updates))
      ensures old(user).None? ==> user == None
      ensures token == old(token)
    {
      user := if user.Some? then Some(MergeUser(user.value, updates)) else None;
    }
  }
}
