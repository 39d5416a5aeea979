/** The API client: the two interceptors every call passes through, the
    session-writing auth calls, and the request bodies and fallbacks the
    client computes itself. Each server reply is a parameter: the reply's
    data on success, or why the call failed. */
module Api {
  import opened Wrappers
  import opened Json
  import opened Text
  import opened Entities
  import opened Storage

  const PublicRoutes: seq<string> := ["/api/leaderboard"]
  const AuthorizationHeader: string := "Authorization"

  const NotVolunteerMessage: string := "This account is not registered as a volunteer"
  const NoTokenMessage: string := "No authentication token found"
  const LoginToViewMessage: string := "Please log in to view your profile"

  datatype RequestConfig = RequestConfig(url: Option<string>, headers: map<string, string>)

  /** What an auth endpoint returns: `token` from registration, `access`
      from login, `refresh` from both, and `user_type` from login. A field
      the server leaves out is `None`. */
  datatype AuthReply = AuthReply(
    token: Option<string>,
    access: Option<string>,
    refresh: Option<string>,
    userType: Option<string>)

  /** What a failed call throws to its caller. */
  datatype Thrown =
    | Rejected(failure: HttpFailure)
    | ResponseBody(data: JsonValue)
    | ErrorMessage(message: string)

  // ---------------------------------------------------------------------
  // Request interceptor

  /** `publicRoutes.some(route => config.url?.includes(route))`; a missing
      URL matches no route. */
  predicate IsPublicRoute(url: Option<string>) {
    url.Some? && exists i :: 0 <= i < |PublicRoutes| && Includes(url.value, PublicRoutes[i])
  }

  /** The request interceptor: `Bearer <authToken>` is attached when the
      route is not public and a non-empty token is stored; otherwise the
      request is left as it is. */
  function WithAuthHeader(items: map<string, string>, config: RequestConfig): (c: RequestConfig)
    ensures c.url == config.url
    ensures forall h :: h != AuthorizationHeader ==>
      (h in c.headers <==> h in config.headers) && (h in c.headers ==> c.headers[h] == config.headers[h])
    ensures !IsPublicRoute(config.url) && HasValue(items, AuthTokenKey) ==>
      AuthorizationHeader in c.headers && c.headers[AuthorizationHeader] == "Bearer " + items[AuthTokenKey]
    ensures IsPublicRoute(config.url) || !HasValue(items, AuthTokenKey) ==> c == config
  {
    if !IsPublicRoute(config.url) && HasValue(items, AuthTokenKey) then
      config.(headers := config.headers[AuthorizationHeader := "Bearer " + items[AuthTokenKey]])
    else config
  }

  /** A request that carried no Authorization header leaves the interceptor
      with one exactly when it is not public and a token is stored. */
  lemma BearerAttachedIff(items: map<string, string>, config: RequestConfig)
    requires AuthorizationHeader !in config.headers
    ensures AuthorizationHeader in WithAuthHeader(items, config).headers
        <==> !IsPublicRoute(config.url) && HasValue(items, AuthTokenKey)
  {
  }

  /** Leaderboard requests never carry the stored token. */
  lemma LeaderboardIsPublic(items: map<string, string>, url: string, headers: map<string, string>)
    requires Includes(url, "/api/leaderboard")
    ensures WithAuthHeader(items, RequestConfig(Some(url), headers)).headers == headers
  {
    assert Includes(Some(url).value, PublicRoutes[0]);
  }

  method InterceptRequest(ls: LocalStorage, config: RequestConfig) returns (c: RequestConfig)
    ensures c == WithAuthHeader(ls.items, config)
  {
    c := config;
    if !IsPublicRoute(config.url) {
      var token := ls.GetItem(AuthTokenKey);
      if token.Some? && token.value != "" {
        c := config.(headers := config.headers[AuthorizationHeader := "Bearer " + token.value]);
      }
    }
  }

  // ---------------------------------------------------------------------
  // Response interceptor

  /** The storage a failed call leaves behind: a 401 removes the access and
      refresh tokens and keeps everything else, `userType` included. */
  function AfterFailure(items: map<string, string>, f: HttpFailure): (r: map<string, string>)
    ensures IsUnauthorized(f) ==> AuthTokenKey !in r && RefreshTokenKey !in r
    ensures !IsUnauthorized(f) ==> r == items
    ensures r.Keys <= items.Keys
    ensures forall k :: k in items && k != AuthTokenKey && k != RefreshTokenKey ==> k in r && r[k] == items[k]
  {
    if IsUnauthorized(f) then items - {AuthTokenKey, RefreshTokenKey} else items
  }

  /** Every call goes through the response interceptor, which clears the
      tokens on a 401 and passes the outcome on unchanged: a failure is
      still a failure. */
  method Send<T>(ls: LocalStorage, reply: Result<T, HttpFailure>) returns (r: Result<T, HttpFailure>)
    modifies ls
    ensures r == reply
    ensures ls.items == if reply.Failure? then AfterFailure(old(ls.items), reply.error) else old(ls.items)
  {
    if reply.Failure? && IsUnauthorized(reply.error) {
      ls.RemoveItem(AuthTokenKey);
      ls.RemoveItem(RefreshTokenKey);
    }
    r := reply;
  }

  /** The storage the response interceptor leaves after one reply. */
  function AfterReply<T>(items: map<string, string>, reply: Result<T, HttpFailure>): map<string, string> {
    if reply.Failure? then AfterFailure(items, reply.error) else items
  }

  // ---------------------------------------------------------------------
  // Session keys

  /** `localStorage.setItem(k, undefined)` stores the text "undefined". */
  function StoredText(v: Option<string>): string {
    if v.Some? then v.value else "undefined"
  }

  /** The storage after a successful login or registration. */
  function WithSession(items: map<string, string>, token: string, refresh: string, role: string): (r: map<string, string>)
    ensures r.Keys == items.Keys + {AuthTokenKey, RefreshTokenKey, UserTypeKey}
    ensures r[AuthTokenKey] == token && r[RefreshTokenKey] == refresh && r[UserTypeKey] == role
    ensures forall k :: k in items && k != AuthTokenKey && k != RefreshTokenKey && k != UserTypeKey ==> r[k] == items[k]
  {
    items[AuthTokenKey := token][RefreshTokenKey := refresh][UserTypeKey := role]
  }

  /** The storage after logout: the three session keys are gone and nothing
      else changes. */
  function WithoutSession(items: map<string, string>): (r: map<string, string>)
    ensures r.Keys == items.Keys - {AuthTokenKey, RefreshTokenKey, UserTypeKey}
    ensures forall k :: k in r ==> r[k] == items[k]
  {
    items - {AuthTokenKey, RefreshTokenKey, UserTypeKey}
  }

  /** A failure before the logout clean-up makes no difference to it. */
  lemma LogoutAbsorbsFailure(items: map<string, string>, f: HttpFailure)
    ensures WithoutSession(AfterFailure(items, f)) == WithoutSession(items)
  {
  }

  /** `error.response?.data || error`: the response body when there is a
      truthy one, otherwise the error itself. */
  function Rethrown(f: HttpFailure): (t: Thrown)
    ensures t.ResponseBody? <==> f.HttpError? && Truthy(f.data)
    ensures !(f.HttpError? && Truthy(f.data)) ==> t == Rejected(f)
    ensures t.ResponseBody? ==> t.data == f.data
  {
    if f.HttpError? && Truthy(f.data) then ResponseBody(f.data) else Rejected(f)
  }

  // ---------------------------------------------------------------------
  // Auth calls

  /** `register`: stores the reply's `token` and `refresh` and the role
      'volunteer'; a failure is rethrown as it is. */
  method Register(ls: LocalStorage, reply: Result<AuthReply, HttpFailure>) returns (r: Result<AuthReply, Thrown>)
    modifies ls
    ensures reply.Success? ==> (r == Success(reply.value)
      && ls.items == WithSession(old(ls.items), StoredText(reply.value.token), StoredText(reply.value.refresh), "volunteer"))
    ensures reply.Failure? ==> r == Failure(Rejected(reply.error)) && ls.items == AfterFailure(old(ls.items), reply.error)
  {
    var sent := Send(ls, reply);
    match sent
    case Success(data) =>
      ls.SetItem(AuthTokenKey, StoredText(data.token));
      ls.SetItem(RefreshTokenKey, StoredText(data.refresh));
      ls.SetItem(UserTypeKey, "volunteer");
      r := Success(data);
    case Failure(f) =>
      r := Failure(Rejected(f));
  }

  /** `login`: an account whose `user_type` is not 'volunteer' is refused
      and no key is written; otherwise `access`, `refresh` and the role
      'volunteer' are stored. */
  method Login(ls: LocalStorage, reply: Result<AuthReply, HttpFailure>) returns (r: Result<AuthReply, Thrown>)
    modifies ls
    ensures reply.Success? && reply.value.userType != Some("volunteer") ==>
      r == Failure(ErrorMessage(NotVolunteerMessage)) && ls.items == old(ls.items)
    ensures reply.Success? && reply.value.userType == Some("volunteer") ==> (r == Success(reply.value)
      && ls.items == WithSession(old(ls.items), StoredText(reply.value.access), StoredText(reply.value.refresh), "volunteer"))
    ensures reply.Failure? ==> r == Failure(Rethrown(reply.error)) && ls.items == AfterFailure(old(ls.items), reply.error)
  {
    var sent := Send(ls, reply);
    match sent
    case Success(data) =>
      if data.userType != Some("volunteer") {
        // the Error thrown here has no response, so the catch rethrows it
        r := Failure(ErrorMessage(NotVolunteerMessage));
      } else {
        ls.SetItem(AuthTokenKey, StoredText(data.access));
        ls.SetItem(RefreshTokenKey, StoredText(data.refresh));
        ls.SetItem(UserTypeKey, "volunteer");
        r := Success(data);
      }
    case Failure(f) =>
      r := Failure(Rethrown(f));
  }

  /** The body `registerOrganization` posts: the form data with `username`
      set to the e-mail address (dropped, like every undefined property,
      when there is no e-mail). */
  function OrganizationRegistrationBody(data: Object): (b: Object)
    ensures "email" in data ==> "username" in b && b["username"] == data["email"]
    ensures "email" !in data ==> "username" !in b
    ensures forall k :: k in data && k != "username" ==> k in b && b[k] == data[k]
    ensures b.Keys <= data.Keys + {"username"}
  {
    if "email" in data then data["username" := data["email"]] else data - {"username"}
  }

  /** `registerOrganization`: posts the body above, then stores `token`,
      `refresh` and the role 'organization'. */
  method RegisterOrganization(ls: LocalStorage, data: Object, reply: Result<AuthReply, HttpFailure>)
    returns (r: Result<AuthReply, Thrown>, body: Object)
    modifies ls
    ensures body == OrganizationRegistrationBody(data)
    ensures reply.Success? ==> (r == Success(reply.value)
      && ls.items == WithSession(old(ls.items), StoredText(reply.value.token), StoredText(reply.value.refresh), "organization"))
    ensures reply.Failure? ==> r == Failure(Rethrown(reply.error)) && ls.items == AfterFailure(old(ls.items), reply.error)
  {
    body := OrganizationRegistrationBody(data);
    var sent := Send(ls, reply);
    match sent
    case Success(d) =>
      ls.SetItem(AuthTokenKey, StoredText(d.token));
      ls.SetItem(RefreshTokenKey, StoredText(d.refresh));
      ls.SetItem(UserTypeKey, "organization");
      r := Success(d);
    case Failure(f) =>
      r := Failure(Rethrown(f));
  }

  /** `loginOrganization`: unlike the volunteer login, the role is not
      checked; `access`, `refresh` and 'organization' are stored. */
  method LoginOrganization(ls: LocalStorage, reply: Result<AuthReply, HttpFailure>) returns (r: Result<AuthReply, Thrown>)
    modifies ls
    ensures reply.Success? ==> (r == Success(reply.value)
      && ls.items == WithSession(old(ls.items), StoredText(reply.value.access), StoredText(reply.value.refresh), "organization"))
    ensures reply.Failure? ==> r == Failure(Rethrown(reply.error)) && ls.items == AfterFailure(old(ls.items), reply.error)
  {
    var sent := Send(ls, reply);
    match sent
    case Success(d) =>
      ls.SetItem(AuthTokenKey, StoredText(d.access));
      ls.SetItem(RefreshTokenKey, StoredText(d.refresh));
      ls.SetItem(UserTypeKey, "organization");
      r := Success(d);
    case Failure(f) =>
      r := Failure(Rethrown(f));
  }

  /** `logout`: the server is told only when a refresh token is stored; the
      three session keys are removed whether or not that call fails. */
  method Logout(ls: LocalStorage, reply: Result<(), HttpFailure>) returns (posted: bool)
    modifies ls
    ensures posted <==> HasValue(old(ls.items), RefreshTokenKey)
    ensures ls.items == WithoutSession(old(ls.items))
  {
    var refresh := ls.GetItem(RefreshTokenKey);
    posted := refresh.Some? && refresh.value != "";
    if posted {
      var sent := Send(ls, reply);
      if sent.Failure? {
        LogoutAbsorbsFailure(old(ls.items), sent.error);
      }
    }
    ls.RemoveItem(AuthTokenKey);
    ls.RemoveItem(RefreshTokenKey);
    ls.RemoveItem(UserTypeKey);
  }

  /** `fetchProfile`: without a stored token it throws before any request;
      a 401 becomes the message asking the user to log in. */
  method FetchProfile<P>(ls: LocalStorage, reply: Result<P, HttpFailure>) returns (r: Result<P, Thrown>, requested: bool)
    modifies ls
    ensures requested <==> HasValue(old(ls.items), AuthTokenKey)
    ensures !requested ==> r == Failure(ErrorMessage(NoTokenMessage)) && ls.items == old(ls.items)
    ensures requested && reply.Success? ==> r == Success(reply.value) && ls.items == old(ls.items)
    ensures requested && reply.Failure? ==> (ls.items == AfterFailure(old(ls.items), reply.error)
      && r == Failure(if IsUnauthorized(reply.error) then ErrorMessage(LoginToViewMessage) else Rejected(reply.error)))
  {
    var token := ls.GetItem(AuthTokenKey);
    requested := token.Some? && token.value != "";
    if !requested {
      r := Failure(ErrorMessage(NoTokenMessage));
      return;
    }
    var sent := Send(ls, reply);
    match sent
    case Success(p) =>
      r := Success(p);
    case Failure(f) =>
      r := Failure(if IsUnauthorized(f) then ErrorMessage(LoginToViewMessage) else Rejected(f));
  }

  // ---------------------------------------------------------------------
  // Organisation calls

  /** `response.data.volunteers || []`, and `[]` when the call fails: the
      result is never falsy and never an error. */
  function RecommendedOrEmpty(reply: Result<JsonValue, HttpFailure>): (v: JsonValue)
    ensures Truthy(v)
    ensures reply.Success? && reply.value.JObj? && TruthyAt(reply.value.fields, "volunteers") ==>
      v == reply.value.fields["volunteers"]
    ensures !(reply.Success? && reply.value.JObj? && TruthyAt(reply.value.fields, "volunteers")) ==> v == JArr([])
  {
    match reply
    case Success(JObj(fields)) => if TruthyAt(fields, "volunteers") then fields["volunteers"] else JArr([])
    case Success(_) => JArr([])
    case Failure(_) => JArr([])
  }

  method GetRecommendedVolunteers(ls: LocalStorage, reply: Result<JsonValue, HttpFailure>) returns (v: JsonValue)
    modifies ls
    ensures v == RecommendedOrEmpty(reply)
    ensures ls.items == if reply.Failure? then AfterFailure(old(ls.items), reply.error) else old(ls.items)
  {
    var sent := Send(ls, reply);
    v := RecommendedOrEmpty(sent);
  }

  /** The body `createOpportunity` posts: the form data with
      `volunteers_registered` forced to 0 and `skills_required` kept only
      when it is an array. */
  function CreateOpportunityBody(data: Object): (b: Object)
    ensures b.Keys == data.Keys + {"volunteers_registered", "skills_required"}
    ensures b["volunteers_registered"] == JNum(0)
    ensures "skills_required" in data && data["skills_required"].JArr? ==> b["skills_required"] == data["skills_required"]
    ensures !("skills_required" in data && data["skills_required"].JArr?) ==> b["skills_required"] == JArr([])
    ensures forall k :: k in data && k != "volunteers_registered" && k != "skills_required" ==> b[k] == data[k]
  {
    var skills := if "skills_required" in data && data["skills_required"].JArr? then data["skills_required"] else JArr([]);
    data["volunteers_registered" := JNum(0)]["skills_required" := skills]
  }

  method CreateOpportunity(ls: LocalStorage, data: Object, reply: Result<Opportunity, HttpFailure>)
    returns (r: Result<Opportunity, HttpFailure>, body: Object)
    modifies ls
    ensures body == CreateOpportunityBody(data)
    ensures r == reply
    ensures ls.items == if reply.Failure? then AfterFailure(old(ls.items), reply.error) else old(ls.items)
  {
    body := CreateOpportunityBody(data);
    r := Send(ls, reply);
  }
}
