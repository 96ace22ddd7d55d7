/** The authentication provider: the session state every page reads, the
    one-time-code sign-in requests, sign-out and account deletion. */
module AuthProvider {
  import opened Common
  import opened Tables
  import opened Backend

  /** `session?.user ?? null`. */
  function SessionUser(s: Option<Session>): (r: Option<User>)
    ensures r.Some? <==> s.Some?
    ensures s.Some? ==> r.value == s.value.user
  {
    match s
    case None => None
    case Some(v) => Some(v.user)
  }

  /** How a call to the authentication service ends: without an error
      object, with one carrying a message, or by throwing. */
  datatype AuthAnswer = Accepted | Rejected(message: string) | Threw(message: string)

  /** What `signIn` and `verifyOTP` resolve to: `{}` when accepted, else
      `{ error: message }` with the service's or the exception's message. */
  function RequestResult(answer: AuthAnswer): (r: Option<string>)
    ensures r.None? <==> answer.Accepted?
    ensures r.Some? ==> r.value == answer.message
  {
    match answer
    case Accepted => None
    case Rejected(m) => Some(m)
    case Threw(m) => Some(m)
  }

  /** The message `deleteAccount` returns when nobody is signed in. */
  const NoUserMessage := "No user found"

  /** The message `useAuth` throws outside the provider. */
  const OutsideProviderMessage := "useAuth must be used within an AuthProvider"

  /** The value the provider hands to its consumers. */
  datatype AuthContext = AuthContext(user: Option<User>, session: Option<Session>, loading: bool)

  datatype ContextLookup = Found(context: AuthContext) | Thrown(message: string)

  /** `useAuth`: the nearest provider's value, or an error outside one. */
  function UseAuth(context: Option<AuthContext>): (r: ContextLookup)
    ensures r.Thrown? <==> context.None?
    ensures r.Thrown? ==> r.message == OutsideProviderMessage
    ensures r.Found? ==> r.context == context.value
  {
    match context
    case None => Thrown(OutsideProviderMessage)
    case Some(c) => Found(c)
  }

  class Provider {
    var user: Option<User>
    var session: Option<Session>
    var loading: bool

    /** The user shown is always the session's user. */
    ghost predicate Valid()
      reads this
    {
      user == SessionUser(session)
    }

    /** No user, no session, still loading. */
    constructor ()
      ensures user.None? && session.None? && loading
      ensures Valid()
    {
      user := None;
      session := None;
      loading := true;
    }

    /** The handler shared by the auth-state listener and the initial
        `getSession`: store the session and its user, stop loading. */
    method ApplySession(s: Option<Session>)
      modifies this
      ensures session == s && user == SessionUser(s) && !loading
      ensures Valid()
    {
      session := s;
      user := SessionUser(s);
      loading := false;
    }

    /** `signOut`: ends the backend session. The provider's own state
        follows when the listener reports the change. */
    method SignOut(client: Client)
      modifies client
      ensures client.session == None && client.db == old(client.db)
      ensures client.log == old(client.log) + [SignOutCall]
    {
      client.SignOut();
    }

    /** `deleteAccount`. Without a user: the no-user message and no call.
        Otherwise the profile row is deleted (`deleteOk` says whether the
        backend accepted it; a rejection is only logged) and the user is
        signed out, resolving to `{}`. When the delete throws
        (`deleteThrew`), the message is returned and no sign-out follows. */
    method DeleteAccount(client: Client, deleteOk: bool, deleteThrew: Option<string>)
      returns (r: Option<string>)
      modifies client
      ensures user.None? ==>
        r == Some(NoUserMessage) && client.log == old(client.log)
        && client.db == old(client.db) && client.session == old(client.session)
      ensures user.Some? && deleteThrew.Some? ==>
        && r == deleteThrew
        && client.log == old(client.log) + [DeleteProfileCall(user.value.id)]
        && client.db == old(client.db) && client.session == old(client.session)
      ensures user.Some? && deleteThrew.None? ==>
        && r.None?
        && client.log == old(client.log) + [DeleteProfileCall(user.value.id), SignOutCall]
        && client.db == (if deleteOk then old(client.db).(profiles := old(client.db).profiles - {user.value.id})
                         else old(client.db))
        && client.session.None?
    {
      if user.None? {
        return Some(NoUserMessage);
      }
      var _ := client.DeleteProfile(user.value.id, deleteOk && deleteThrew.None?);
      if deleteThrew.Some? {
        return deleteThrew;
      }
      client.SignOut();
      r := None;
    }
  }
}
