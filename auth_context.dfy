/**
 * `src/contexts/AuthContext.tsx`: the provider that holds the signed-in user in memory,
 * mirrors it into browser storage and exposes login, signup, logout and profile updates.
 * Each server reply (profile check, login, signup) is an input to the operation that awaits
 * it; toasts are returned as values.
 */
module AuthContext {
  import opened Wrappers
  import opened Types
  import opened BrowserStorage
  import opened Auth

  /** A toast shown to the user. An operation that shows an error toast also rejects its promise. */
  datatype Toast = SuccessToast(text: string) | ErrorToast(text: string)

  /** The fields given to `updateUser`: `None` for a field the partial object does not carry. */
  datatype UserPatch = UserPatch(
    id: Option<string>,
    email: Option<string>,
    fullName: Option<string>,
    phoneNumber: Option<string>,
    userType: Option<UserType>,
    isVerified: Option<bool>,
    createdAt: Option<string>)

  const LoginFailed: string := "Login failed"
  const SignupFailed: string := "Signup failed"
  const SignupWelcome: string := "Account created successfully! Please check your email for verification."
  const LoggedOut: string := "Logged out successfully"

  function WelcomeBack(u: User): string {
    "Welcome back, " + u.fullName + "!"
  }

  /** `error.response?.data?.message || fallback`: a missing or empty server message falls back. */
  function FailureText(message: Option<string>, fallback: string): (r: string)
    ensures message.Some? && message.value != "" ==> r == message.value
    ensures message.None? || message.value == "" ==> r == fallback
    ensures fallback != "" ==> r != ""
  {
    match message
    case Some(m) => if m != "" then m else fallback
    case None => fallback
  }

  function PatchField<T>(current: T, patch: Option<T>): T {
    match patch
    case Some(v) => v
    case None => current
  }

  /** `{ ...user, ...patch }`. */
  function Merge(u: User, p: UserPatch): (r: User)
    ensures p.id.None? ==> r.id == u.id
    ensures p.id.Some? ==> r.id == p.id.value
    ensures p.email.None? ==> r.email == u.email
    ensures p.email.Some? ==> r.email == p.email.value
    ensures p.fullName.None? ==> r.fullName == u.fullName
    ensures p.fullName.Some? ==> r.fullName == p.fullName.value
    ensures p.phoneNumber.None? ==> r.phoneNumber == u.phoneNumber
    ensures p.phoneNumber.Some? ==> r.phoneNumber == p.phoneNumber.value
    ensures p.userType.None? ==> r.userType == u.userType
    ensures p.userType.Some? ==> r.userType == p.userType.value
    ensures p.isVerified.None? ==> r.isVerified == u.isVerified
    ensures p.isVerified.Some? ==> r.isVerified == p.isVerified.value
    ensures p.createdAt.None? ==> r.createdAt == u.createdAt
    ensures p.createdAt.Some? ==> r.createdAt == p.createdAt.value
  {
    User(PatchField(u.id, p.id), PatchField(u.email, p.email), PatchField(u.fullName, p.fullName),
      PatchField(u.phoneNumber, p.phoneNumber), PatchField(u.userType, p.userType),
      PatchField(u.isVerified, p.isVerified), PatchField(u.createdAt, p.createdAt))
  }

  const EmptyPatch: UserPatch := UserPatch(None, None, None, None, None, None, None)

  /** Later patches win: `{ ...{ ...u, ...p }, ...q }` equals `{ ...u, ...{ ...p, ...q } }`. */
  function Combine(p: UserPatch, q: UserPatch): UserPatch {
    UserPatch(
      if q.id.Some? then q.id else p.id,
      if q.email.Some? then q.email else p.email,
      if q.fullName.Some? then q.fullName else p.fullName,
      if q.phoneNumber.Some? then q.phoneNumber else p.phoneNumber,
      if q.userType.Some? then q.userType else p.userType,
      if q.isVerified.Some? then q.isVerified else p.isVerified,
      if q.createdAt.Some? then q.createdAt else p.createdAt)
  }

  lemma {:induction false} MergeEmptyPatch(u: User)
    ensures Merge(u, EmptyPatch) == u
  {
  }

  lemma {:induction false} MergeIdempotent(u: User, p: UserPatch)
    ensures Merge(Merge(u, p), p) == Merge(u, p)
  {
  }

  lemma {:induction false} MergeCombine(u: User, p: UserPatch, q: UserPatch)
    ensures Merge(Merge(u, p), q) == Merge(u, Combine(p, q))
  {
  }

  class AuthProvider {
    const storage: LocalStorage
    var user: Option<User>
    var isLoading: bool

    /** A fresh provider: no user yet, loading until `InitializeAuth` has run. */
    constructor (storage: LocalStorage)
      ensures this.storage == storage
      ensures user == None && isLoading
    {
      this.storage := storage;
      user := None;
      isLoading := true;
    }

    /** The user held in memory is the one stored under `user`. */
    predicate Consistent()
      reads this, storage
    {
      user.Some? ==> GetUser(storage.items) == user
    }

    /** `isAuthenticated`: a user in memory and a non-empty stored token. */
    function IsAuthenticated(): (b: bool)
      reads this, storage
      ensures b ==> user.Some?
      ensures b ==> AuthTokenKey in storage.items && storage.items[AuthTokenKey] != ""
      ensures user.Some? && GetAuthToken(storage.items).Some? && GetAuthToken(storage.items).value != "" ==> b
    {
      user.Some? && Auth.IsAuthenticated(storage.items)
    }

    /** The start-up effect. Only when a token and a readable stored user exist is the profile
        fetched: a successful reply replaces the user in memory and in storage, a failed one
        clears the session. Loading ends either way. */
    method InitializeAuth(profile: Result<User, string>)
      modifies this, storage
      ensures !isLoading
      ensures !(Auth.IsAuthenticated(old(storage.items)) && GetUser(old(storage.items)).Some?) ==>
        storage.items == old(storage.items) && user == old(user)
      ensures Auth.IsAuthenticated(old(storage.items)) && GetUser(old(storage.items)).Some? && profile.Success? ==>
        storage.items == old(storage.items)[UserKey := SerializeUser(profile.value)] && user == Some(profile.value)
      ensures Auth.IsAuthenticated(old(storage.items)) && GetUser(old(storage.items)).Some? && profile.Failure? ==>
        storage.items == old(storage.items) - SessionKeys && user == None
      ensures old(Consistent()) ==> Consistent()
    {
      var token := GetAuthToken(storage.items);
      var storedUser := GetUser(storage.items);
      if token.Some? && token.value != "" && storedUser.Some? {
        user := storedUser;
        match profile {
          case Success(u) =>
            user := Some(u);
            SetUser(storage, u);
          case Failure(_) =>
            ClearAuth(storage);
            user := None;
        }
      }
      isLoading := false;
    }

    /** Stores both tokens and the user, then holds the user in memory. */
    method StartSession(response: AuthResponse)
      modifies this, storage
      ensures storage.items == old(storage.items)[AuthTokenKey := response.token]
        [RefreshTokenKey := response.refreshToken][UserKey := SerializeUser(response.user)]
      ensures user == Some(response.user) && isLoading == old(isLoading)
      ensures Consistent()
      ensures IsAuthenticated() <==> response.token != ""
    {
      SetAuthToken(storage, response.token);
      SetRefreshToken(storage, response.refreshToken);
      SetUser(storage, response.user);
      user := Some(response.user);
    }

    /** `login`, given the server's reply: the session on success, or the server's message
        (else "Login failed") with storage and user untouched. */
    method Login(reply: Result<AuthResponse, Option<string>>) returns (toast: Toast)
      modifies this, storage
      ensures !isLoading
      ensures reply.Success? ==>
        && storage.items == old(storage.items)[AuthTokenKey := reply.value.token]
             [RefreshTokenKey := reply.value.refreshToken][UserKey := SerializeUser(reply.value.user)]
        && user == Some(reply.value.user)
        && toast == SuccessToast(WelcomeBack(reply.value.user))
        && (IsAuthenticated() <==> reply.value.token != "")
      ensures reply.Failure? ==>
        && storage.items == old(storage.items) && user == old(user)
        && toast == ErrorToast(FailureText(reply.error, LoginFailed))
      ensures old(Consistent()) ==> Consistent()
    {
      isLoading := true;
      match reply {
        case Success(response) =>
          StartSession(response);
          toast := SuccessToast(WelcomeBack(response.user));
        case Failure(message) =>
          toast := ErrorToast(FailureText(message, LoginFailed));
      }
      isLoading := false;
    }

    /** `signup`, given the server's reply; the same shape as `Login` with its own texts. */
    method Signup(reply: Result<AuthResponse, Option<string>>) returns (toast: Toast)
      modifies this, storage
      ensures !isLoading
      ensures reply.Success? ==>
        && storage.items == old(storage.items)[AuthTokenKey := reply.value.token]
             [RefreshTokenKey := reply.value.refreshToken][UserKey := SerializeUser(reply.value.user)]
        && user == Some(reply.value.user)
        && toast == SuccessToast(SignupWelcome)
        && (IsAuthenticated() <==> reply.value.token != "")
      ensures reply.Failure? ==>
        && storage.items == old(storage.items) && user == old(user)
        && toast == ErrorToast(FailureText(reply.error, SignupFailed))
      ensures old(Consistent()) ==> Consistent()
    {
      isLoading := true;
      match reply {
        case Success(response) =>
          StartSession(response);
          toast := SuccessToast(SignupWelcome);
        case Failure(message) =>
          toast := ErrorToast(FailureText(message, SignupFailed));
      }
      isLoading := false;
    }

    /** `logout`: clears the session slots and the user; other storage keys survive. */
    method Logout() returns (toast: Toast)
      modifies this, storage
      ensures storage.items == old(storage.items) - SessionKeys
      ensures user == None && isLoading == old(isLoading)
      ensures !IsAuthenticated() && Consistent()
      ensures toast == SuccessToast(LoggedOut)
    {
      ClearAuth(storage);
      user := None;
      toast := SuccessToast(LoggedOut);
    }

    /** `updateUser`: merges the patch into the user in memory and in storage; a no-op when
        nobody is signed in. */
    method UpdateUser(patch: UserPatch)
      modifies this, storage
      ensures old(user).None? ==> storage.items == old(storage.items) && user == None
      ensures old(user).Some? ==>
        && user == Some(Merge(old(user).value, patch))
        && storage.items == old(storage.items)[UserKey := SerializeUser(Merge(old(user).value, patch))]
      ensures isLoading == old(isLoading)
      ensures old(Consistent()) ==> Consistent()
    {
      if user.Some? {
        var updated := Merge(user.value, patch);
        SetUser(storage, updated);
        user := Some(updated);
      }
    }
  }

  /** A failed login or signup always shows some text. */
  lemma {:induction false} FailureToastNeverBlank(message: Option<string>)
    ensures FailureText(message, LoginFailed) != "" && FailureText(message, SignupFailed) != ""
  {
  }
}
