/** The authentication session store: a bearer token mirrored into browser
    storage, the fetched user profile, a loading flag and the last error. The
    network calls are not made here: each operation receives the outcome the
    backend would have produced. */
module AuthContext {
  import opened JsText
  import ApiClient

  /** The storage key holding the bearer token. */
  const STORAGE_KEY: string := "mithon_access_token"

  /** A user profile as the backend returns it; every field may be missing. */
  datatype Profile = Profile(
    role: Option<string>,
    name: Option<string>,
    school: Option<string>,
    grade: Option<Scalar>,
    klass: Option<Scalar>,
    studentNumber: Option<Scalar>,
    homeroomGrade: Option<Scalar>,
    homeroomClass: Option<Scalar>,
    educationOfficeCode: Option<string>,
    schoolCode: Option<string>)

  predicate IsStudent(p: Profile) {
    p.role == Some("student")
  }

  /** Why a request failed: an HTTP error from `parseResponse`, or a transport
      failure, which carries no status. */
  datatype RequestError =
    | HttpFailure(http: ApiClient.HttpError)
    | NetworkFailure(message: string)

  function StatusOf(e: RequestError): Option<int> {
    match e
    case HttpFailure(h) => Some(h.status)
    case NetworkFailure(_) => None
  }

  /** The grade shown for a user: a student's `grade`, anyone else's
      `homeroomGrade`, nothing without a user. */
  function GradeOf(user: Option<Profile>): (r: Option<Scalar>)
    ensures user.None? ==> r.None?
    ensures user.Some? && IsStudent(user.value) ==> r == user.value.grade
    ensures user.Some? && !IsStudent(user.value) ==> r == user.value.homeroomGrade
  {
    match user
    case None => None
    case Some(p) => if IsStudent(p) then p.grade else p.homeroomGrade
  }

  /** The class number shown for a user, chosen like `GradeOf`. */
  function ClassOf(user: Option<Profile>): (r: Option<Scalar>)
    ensures user.None? ==> r.None?
    ensures user.Some? && IsStudent(user.value) ==> r == user.value.klass
    ensures user.Some? && !IsStudent(user.value) ==> r == user.value.homeroomClass
  {
    match user
    case None => None
    case Some(p) => if IsStudent(p) then p.klass else p.homeroomClass
  }

  /** The outcome of one backend call. */
  datatype Outcome<+T> = Done(value: T) | Failed(error: RequestError)

  /** What `login` receives: `access_token`, which may be missing. */
  datatype LoginReply = LoginReply(accessToken: Option<string>)

  datatype Result<+T> = Success(value: T) | Failure(error: RequestError)

  /** `readStoredToken()`: the stored token, or none when storage cannot be read. */
  function ReadStoredToken(storage: map<string, string>, available: bool): (r: Option<string>)
    ensures r.Some? <==> available && STORAGE_KEY in storage
    ensures r.Some? ==> r.value == storage[STORAGE_KEY]
  {
    if available && STORAGE_KEY in storage then Some(storage[STORAGE_KEY]) else None
  }

  /** The storage after `persistToken(value)`: a truthy token is stored under the
      key, a falsy one removes the key, and unavailable storage stays as it was
      (the failure is swallowed). */
  function Persisted(storage: map<string, string>, available: bool, value: Option<string>)
    : (r: map<string, string>)
    ensures !available ==> r == storage
    ensures available && Present(value) ==> r == storage[STORAGE_KEY := value.value]
    ensures available && !Present(value) ==> STORAGE_KEY !in r
    ensures forall k :: k != STORAGE_KEY ==> (k in r <==> k in storage)
    ensures forall k :: k != STORAGE_KEY && k in r ==> r[k] == storage[k]
  {
    if !available then storage
    else if Present(value) then storage[STORAGE_KEY := value.value]
    else storage - {STORAGE_KEY}
  }

  /** Reading the token back after persisting it gives the token when it was truthy
      and nothing when it was falsy. */
  lemma ReadAfterPersist(storage: map<string, string>, value: Option<string>)
    ensures ReadStoredToken(Persisted(storage, true, value), true)
            == (if Present(value) then value else None)
  {
  }

  /** `overrideToken || token`, falsy when neither is a non-empty string. */
  function ActiveToken(overrideToken: Option<string>, current: Option<string>): (r: Option<string>)
    ensures Present(overrideToken) ==> r == overrideToken
    ensures !Present(overrideToken) ==> r == current
  {
    if Present(overrideToken) then overrideToken else current
  }

  class AuthProvider {
    /** The browser's key-value storage. */
    var storage: map<string, string>
    /** False when storage access throws (disabled storage, no window). */
    const storageAvailable: bool

    var token: Option<string>
    var user: Option<Profile>
    var isLoading: bool
    var error: Option<RequestError>

    /** The initial state: token read from storage, nothing else known. */
    constructor(initialStorage: map<string, string>, available: bool)
      ensures storage == initialStorage && storageAvailable == available
      ensures token == ReadStoredToken(initialStorage, available)
      ensures user == None && !isLoading && error == None
    {
      storage := initialStorage;
      storageAvailable := available;
      token := ReadStoredToken(initialStorage, available);
      user := None;
      isLoading := false;
      error := None;
    }

    /** `isAuthenticated`: a truthy token and a user. */
    predicate IsAuthenticated()
      reads this
      ensures IsAuthenticated() ==> token.Some? && token.value != "" && user.Some?
    {
      Present(token) && user.Some?
    }

    /** `persistToken(value)`. */
    method PersistToken(value: Option<string>)
      modifies this`storage
      ensures storage == Persisted(old(storage), storageAvailable, value)
    {
      if storageAvailable {
        if Present(value) {
          storage := storage[STORAGE_KEY := value.value];
        } else {
          storage := storage - {STORAGE_KEY};
        }
      }
    }

    /** `fetchProfile` as the closure sees it: `closureToken` is the token of the
        render that created the closure. `requested` is the token sent to the
        backend, none when no request is made; `reply` is what the backend answers. */
    method FetchProfileWith(overrideToken: Option<string>, closureToken: Option<string>,
                            reply: Outcome<Profile>)
      returns (result: Result<Option<Profile>>, requested: Option<string>)
      modifies this`storage, this`token, this`user, this`isLoading, this`error
      ensures requested == (var a := ActiveToken(overrideToken, closureToken);
                            if Present(a) then a else None)
      // no usable token: the user is cleared, nothing is requested
      ensures requested.None? ==>
        result == Success(None) && user == None && token == old(token)
        && storage == old(storage) && isLoading == old(isLoading) && error == old(error)
      // the profile arrives
      ensures requested.Some? && reply.Done? ==>
        result == Success(Some(reply.value)) && user == Some(reply.value) && error == None
        && token == old(token) && storage == old(storage) && !isLoading
      // the request fails: the error is recorded and rethrown, the user cleared
      ensures requested.Some? && reply.Failed? ==>
        result == Failure(reply.error) && error == Some(reply.error) && user == None
        && !isLoading
      // only an authentication rejection (401) forgets the token
      ensures requested.Some? && reply.Failed? && StatusOf(reply.error) == Some(401) ==>
        token == None && storage == Persisted(old(storage), storageAvailable, None)
      ensures requested.Some? && reply.Failed? && StatusOf(reply.error) != Some(401) ==>
        token == old(token) && storage == old(storage)
    {
      var activeToken := ActiveToken(overrideToken, closureToken);
      if !Present(activeToken) {
        user := None;
        return Success(None), None;
      }
      requested := activeToken;
      isLoading := true;
      error := None;
      match reply {
        case Done(profile) =>
          user := Some(profile);
          result := Success(Some(profile));
        case Failed(err) =>
          error := Some(err);
          user := None;
          if StatusOf(err) == Some(401) {
            PersistToken(None);
            token := None;
          }
          result := Failure(err);
      }
      isLoading := false;
    }

    /** `refreshProfile(overrideToken)`: `fetchProfile` with the current token. */
    method FetchProfile(overrideToken: Option<string>, reply: Outcome<Profile>)
      returns (result: Result<Option<Profile>>, requested: Option<string>)
      modifies this`storage, this`token, this`user, this`isLoading, this`error
      ensures requested == (var a := ActiveToken(overrideToken, old(token));
                            if Present(a) then a else None)
      ensures requested.None? ==>
        result == Success(None) && user == None && token == old(token)
        && storage == old(storage) && error == old(error) && isLoading == old(isLoading)
      ensures requested.Some? && reply.Done? ==>
        result == Success(Some(reply.value)) && user == Some(reply.value)
        && IsAuthenticated() == Present(token)
        && token == old(token) && storage == old(storage) && error == None && !isLoading
      ensures requested.Some? && reply.Failed? ==>
        result == Failure(reply.error) && !IsAuthenticated() && error == Some(reply.error)
        && !isLoading
      ensures requested.Some? && reply.Failed? ==>
        (token == None <==> StatusOf(reply.error) == Some(401) || old(token) == None)
      // only a 401 removes the stored token
      ensures requested.Some? && reply.Failed? ==>
        storage == (if StatusOf(reply.error) == Some(401)
                    then Persisted(old(storage), storageAvailable, None) else old(storage))
    {
      result, requested := FetchProfileWith(overrideToken, token, reply);
    }

    /** The effect that runs whenever the token changes: fetch the profile for a
        truthy token (the failure is already recorded, so it is dropped), clear
        the user otherwise. */
    method TokenEffect(reply: Outcome<Profile>)
      modifies this`storage, this`token, this`user, this`isLoading, this`error
      ensures !Present(old(token)) ==>
        user == None && token == old(token) && storage == old(storage)
        && error == old(error) && isLoading == old(isLoading)
      ensures Present(old(token)) && reply.Done? ==>
        user == Some(reply.value) && IsAuthenticated() && token == old(token)
        && storage == old(storage) && error == None && !isLoading
      ensures Present(old(token)) && reply.Failed? ==>
        (user == None && (token == None <==> StatusOf(reply.error) == Some(401)))
        && error == Some(reply.error) && !isLoading
      // only a 401 removes the stored token
      ensures Present(old(token)) && reply.Failed? ==>
        storage == (if StatusOf(reply.error) == Some(401)
                    then Persisted(old(storage), storageAvailable, None) else old(storage))
    {
      if Present(token) {
        var _, _ := FetchProfileWith(token, token, reply);
      } else {
        user := None;
      }
    }

    /** `login(userId, password)`: the credentials go to the backend, whose answer
        is `loginReply`; on success the returned token is persisted and set, then
        the profile is fetched with it (`profileReply`). The profile fetch runs in
        the closure of the previous render, so a reply without `access_token`
        falls back to the token held before the login. */
    method Login(loginReply: Outcome<LoginReply>, profileReply: Outcome<Profile>)
      returns (result: Result<()>, requested: Option<string>)
      modifies this`storage, this`token, this`user, this`isLoading, this`error
      // a rejected login call changes nothing
      ensures loginReply.Failed? ==>
        result == Failure(loginReply.error) && requested == None
        && token == old(token) && user == old(user) && storage == old(storage)
        && isLoading == old(isLoading) && error == old(error)
      // the returned token is set; the profile is requested with it, or with the
      // token held before the login when the reply has none
      ensures loginReply.Done? ==>
        requested == (var a := ActiveToken(loginReply.value.accessToken, old(token));
                      if Present(a) then a else None)
      ensures loginReply.Done? ==>
        token == (if requested.Some? && profileReply.Failed?
                     && StatusOf(profileReply.error) == Some(401)
                  then None else loginReply.value.accessToken)
      // the returned token is persisted on every successful login call, whether
      // or not it is truthy; only a 401 on the profile fetch removes it again
      ensures loginReply.Done? ==>
        storage == (var persisted := Persisted(old(storage), storageAvailable, loginReply.value.accessToken);
                    if requested.Some? && profileReply.Failed? && StatusOf(profileReply.error) == Some(401)
                    then Persisted(persisted, storageAvailable, None) else persisted)
      ensures loginReply.Done? && requested.Some? && profileReply.Done? ==>
        result == Success(()) && user == Some(profileReply.value)
      ensures loginReply.Done? && Present(loginReply.value.accessToken) && profileReply.Done? ==>
        result == Success(()) && token == loginReply.value.accessToken
        && user == Some(profileReply.value) && IsAuthenticated()
        && storage == Persisted(old(storage), storageAvailable, loginReply.value.accessToken)
      // no token in the reply and none held before: the login resolves without a user
      ensures loginReply.Done? && requested.None? ==>
        result == Success(()) && user == None && token == loginReply.value.accessToken
      ensures loginReply.Done? && profileReply.Failed? && requested.Some? ==>
        result == Failure(profileReply.error) && user == None
        && error == Some(profileReply.error)
    {
      match loginReply {
        case Failed(err) =>
          return Failure(err), None;
        case Done(reply) =>
          var closureToken := token;
          PersistToken(reply.accessToken);
          token := reply.accessToken;
          var fetched;
          fetched, requested := FetchProfileWith(reply.accessToken, closureToken, profileReply);
          match fetched {
            case Success(_) => result := Success(());
            case Failure(err) => result := Failure(err);
          }
      }
    }

    /** `logout()`: the stored token, the token and the user are cleared and the
        browser is sent to the root route, returned here as `redirect`. */
    method Logout() returns (redirect: string)
      modifies this`storage, this`token, this`user
      ensures token == None && user == None && !IsAuthenticated()
      ensures storage == Persisted(old(storage), storageAvailable, None)
      ensures storageAvailable ==> ReadStoredToken(storage, storageAvailable) == None
      ensures redirect == "/"
    {
      PersistToken(None);
      token := None;
      user := None;
      redirect := "/";
    }
  }

  /** A login whose reply carries no token, made while a token is held, requests
      the profile with the old token and leaves a user without a token, while the
      stored token is erased. */
  method StaleTokenLogin(storedToken: string, profile: Profile)
    returns (requested: Option<string>, user: Option<Profile>, authenticated: bool,
             stored: map<string, string>)
    requires storedToken != ""
    ensures requested == Some(storedToken)
    ensures user == Some(profile) && !authenticated
    ensures stored == map[]
  {
    var auth := new AuthProvider(map[STORAGE_KEY := storedToken], true);
    var result;
    result, requested := auth.Login(Done(LoginReply(None)), Done(profile));
    user := auth.user;
    authenticated := auth.IsAuthenticated();
    stored := auth.storage;
    assert stored == map[STORAGE_KEY := storedToken] - {STORAGE_KEY};
  }
}
