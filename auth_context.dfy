/** The auth context: a cached view of the session stored by the API
    client, read from storage when the provider starts and again on every
    storage event, and overwritten directly by `setAuth`. */
module AuthContext {
  import opened Wrappers
  import opened Entities
  import opened Storage
  import opened Api

  datatype AuthView = AuthView(isAuthenticated: bool, userType: Option<string>)

  /** The view a provider derives from storage: authenticated exactly when
      a non-empty `authToken` is stored, and the stored `userType` or none. */
  function Derive(items: map<string, string>): (v: AuthView)
    ensures v.isAuthenticated <==> AuthTokenKey in items && items[AuthTokenKey] != ""
    ensures v.userType.Some? <==> UserTypeKey in items
    ensures v.userType.Some? ==> v.userType.value == items[UserTypeKey]
  {
    AuthView(HasValue(items, AuthTokenKey), Lookup(items, UserTypeKey))
  }

  class AuthProvider {
    var isAuthenticated: bool
    var userType: Option<string>

    function View(): AuthView
      reads this
    {
      AuthView(isAuthenticated, userType)
    }

    /** The initial state is derived from storage. */
    constructor (ls: LocalStorage)
      ensures View() == Derive(ls.items)
    {
      var token := ls.GetItem(AuthTokenKey);
      var role := ls.GetItem(UserTypeKey);
      isAuthenticated := token.Some? && token.value != "";
      userType := role;
    }

    /** `setAuth` overwrites both fields and leaves storage alone. */
    method SetAuth(isAuth: bool, role: Option<string>)
      modifies this
      ensures isAuthenticated == isAuth && userType == role
    {
      isAuthenticated := isAuth;
      userType := role;
    }

    /** The `storage` listener re-derives both fields as at start-up. */
    method HandleStorageChange(ls: LocalStorage)
      modifies this
      ensures View() == Derive(ls.items)
    {
      var token := ls.GetItem(AuthTokenKey);
      var role := ls.GetItem(UserTypeKey);
      isAuthenticated := token.Some? && token.value != "";
      userType := role;
    }
  }

  /** The view a provider derives from the storage a volunteer login leaves
      (at its next start-up, or in another tab on its storage event): the
      volunteer role, authenticated unless the server sent an empty access token (a missing
      one is stored as "undefined", which counts as a token). */
  lemma ViewAfterVolunteerLogin(items: map<string, string>, reply: AuthReply)
    ensures Derive(WithSession(items, StoredText(reply.access), StoredText(reply.refresh), "volunteer"))
      == AuthView(reply.access != Some(""), Some("volunteer"))
  {
  }

  /** The view derived from the storage an organisation login leaves: the
      role 'organization'. */
  lemma ViewAfterOrganizationLogin(items: map<string, string>, reply: AuthReply)
    ensures Derive(WithSession(items, StoredText(reply.access), StoredText(reply.refresh), "organization"))
      == AuthView(reply.access != Some(""), Some("organization"))
  {
  }

  /** The view derived from the storage a 401 leaves (at the next start-up,
      or in another tab on its storage event) is logged out, and its
      `userType` is whatever it was before. */
  lemma ViewAfterUnauthorized(items: map<string, string>, f: HttpFailure)
    requires IsUnauthorized(f)
    ensures Derive(AfterFailure(items, f)) == AuthView(false, Derive(items).userType)
  {
  }

  /** The view derived from the storage logout leaves is logged out with no
      role. */
  lemma ViewAfterLogout(items: map<string, string>)
    ensures Derive(WithoutSession(items)) == AuthView(false, None)
  {
  }

  /** A 401 in the tab whose provider is mounted: the response interceptor
      clears the tokens, but the `storage` event fires only in other tabs
      and nothing calls `setAuth`, so the mounted view stays as it was,
      while a view derived afresh is logged out. */
  method UnauthorizedInSameTab<T>(p: AuthProvider, ls: LocalStorage, reply: Result<T, HttpFailure>)
      returns (r: Result<T, HttpFailure>)
    modifies ls
    ensures r == reply
    ensures p.View() == old(p.View())
    ensures ls.items == AfterReply(old(ls.items), reply)
    ensures reply.Failure? && IsUnauthorized(reply.error) ==> !Derive(ls.items).isAuthenticated
  {
    r := Send(ls, reply);
  }
}
