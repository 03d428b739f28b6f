/**
 * `src/lib/mockAuth.ts`: an account store kept in browser storage as one serialised list
 * under `rentzw_mock_users`, with signup, login, profile fetch and demo seeding.
 * Ids, tokens and timestamps come in as parameters; the simulated delays are left out.
 */
module MockAuth {
  import opened Wrappers
  import opened Ascii
  import opened Seqs
  import opened Types
  import opened BrowserStorage
  import Codec

  const UsersStorageKey: string := "rentzw_mock_users"
  const CurrentUserKey: string := "rentzw_current_user"

  /** An account as stored, password in plain text. */
  datatype StoredUser = StoredUser(
    id: string,
    email: string,
    password: string,
    fullName: string,
    phoneNumber: string,
    userType: UserType,
    isVerified: bool,
    createdAt: string)

  datatype SignupData = SignupData(
    fullName: string,
    email: string,
    phoneNumber: string,
    password: string,
    userType: UserType)

  /** The errors the service throws. `MalformedProfile` is the exception `JSON.parse` raises
      on an unreadable current-user snapshot; its text is the browser's, so the one given
      below is only a stand-in. */
  datatype AuthError = DuplicateAccount | InvalidCredentials | NotAuthenticated | MalformedProfile

  function ErrorMessage(e: AuthError): string {
    match e
    case DuplicateAccount => "User already exists with this email address"
    case InvalidCredentials => "Invalid email or password"
    case NotAuthenticated => "Not authenticated"
    case MalformedProfile => "Unexpected token in JSON"
  }

  // ---------------------------------------------------------------------------------------
  // The stored form of the account list

  function StoredUserFields(u: StoredUser): seq<string> {
    [u.id, u.email, u.password, u.fullName, u.phoneNumber, UserTypeName(u.userType), BoolName(u.isVerified), u.createdAt]
  }

  function StoredUserFromFields(fs: seq<string>): Option<StoredUser> {
    if |fs| != 8 then None
    else match (ParseUserType(fs[5]), ParseBool(fs[6]))
      case (Some(t), Some(v)) => Some(StoredUser(fs[0], fs[1], fs[2], fs[3], fs[4], t, v, fs[7]))
      case _ => None
  }

  function SerializeStoredUser(u: StoredUser): string {
    Codec.EncodeList(StoredUserFields(u))
  }

  function ParseStoredUser(s: string): Option<StoredUser> {
    match Codec.DecodeList(s)
    case None => None
    case Some(fs) => StoredUserFromFields(fs)
  }

  function SerializeUsers(users: seq<StoredUser>): string {
    Codec.EncodeList(seq(|users|, i requires 0 <= i < |users| => SerializeStoredUser(users[i])))
  }

  /** Parses each entry of the list; one unreadable entry makes the whole list unreadable. */
  function ParseEach(entries: seq<string>): Option<seq<StoredUser>> {
    if entries == [] then Some([])
    else match (ParseStoredUser(entries[0]), ParseEach(entries[1..]))
      case (Some(u), Some(us)) => Some([u] + us)
      case _ => None
  }

  function ParseUsers(s: string): Option<seq<StoredUser>> {
    match Codec.DecodeList(s)
    case None => None
    case Some(entries) => ParseEach(entries)
  }

  lemma {:induction false} ParseSerializeStoredUser(u: StoredUser)
    ensures ParseStoredUser(SerializeStoredUser(u)) == Some(u)
  {
    Codec.DecodeEncodeList(StoredUserFields(u));
  }

  lemma {:induction false} ParseEachSerialized(users: seq<StoredUser>)
    ensures ParseEach(seq(|users|, i requires 0 <= i < |users| => SerializeStoredUser(users[i]))) == Some(users)
  {
    var entries := seq(|users|, i requires 0 <= i < |users| => SerializeStoredUser(users[i]));
    if users != [] {
      ParseSerializeStoredUser(users[0]);
      assert entries[1..] == seq(|users[1..]|, i requires 0 <= i < |users[1..]| => SerializeStoredUser(users[1..][i]));
      ParseEachSerialized(users[1..]);
      assert [users[0]] + users[1..] == users;
    }
  }

  /** Reading back a saved account list gives the same list. */
  lemma {:induction false} ParseSerializeUsers(users: seq<StoredUser>)
    ensures ParseUsers(SerializeUsers(users)) == Some(users)
  {
    Codec.DecodeEncodeList(seq(|users|, i requires 0 <= i < |users| => SerializeStoredUser(users[i])));
    ParseEachSerialized(users);
  }

  // ---------------------------------------------------------------------------------------
  // Reading and writing the account list

  /** `getStoredUsers`: the empty list when the blob is missing, empty or unreadable. */
  function GetStoredUsers(store: map<string, string>): (users: seq<StoredUser>)
    ensures UsersStorageKey !in store ==> users == []
    ensures UsersStorageKey in store && ParseUsers(store[UsersStorageKey]).None? ==> users == []
    ensures users != [] ==> ParseUsers(store[UsersStorageKey]) == Some(users)
    ensures UsersStorageKey in store && store[UsersStorageKey] != "" && ParseUsers(store[UsersStorageKey]).Some? ==>
      users == ParseUsers(store[UsersStorageKey]).value
  {
    if UsersStorageKey !in store || store[UsersStorageKey] == "" then []
    else match ParseUsers(store[UsersStorageKey])
      case None => []
      case Some(us) => us
  }

  /** What `saveUsers` leaves in storage: the whole list rewritten, nothing else touched. */
  function StoreWithUsers(store: map<string, string>, users: seq<StoredUser>): (r: map<string, string>)
    ensures GetStoredUsers(r) == users
    ensures forall k :: k != UsersStorageKey ==> (k in r <==> k in store)
    ensures forall k :: k != UsersStorageKey && k in r ==> r[k] == store[k]
  {
    ParseSerializeUsers(users);
    store[UsersStorageKey := SerializeUsers(users)]
  }

  method SaveUsers(ls: LocalStorage, users: seq<StoredUser>)
    modifies ls
    ensures ls.items == StoreWithUsers(old(ls.items), users)
  {
    ls.SetItem(UsersStorageKey, SerializeUsers(users));
  }

  // ---------------------------------------------------------------------------------------
  // Signup and login

  predicate SameEmail(u: StoredUser, email: string) {
    EqualIgnoringCase(u.email, email)
  }

  /** An account with this email, compared ignoring case, already exists. */
  predicate EmailTaken(users: seq<StoredUser>, email: string) {
    exists i :: 0 <= i < |users| && SameEmail(users[i], email)
  }

  predicate CredentialsMatch(u: StoredUser, email: string, password: string) {
    SameEmail(u, email) && u.password == password
  }

  /** The record with its password dropped. */
  function Sanitize(u: StoredUser): (r: User)
    ensures r.id == u.id && r.email == u.email && r.fullName == u.fullName
    ensures r.phoneNumber == u.phoneNumber && r.userType == u.userType
    ensures r.isVerified == u.isVerified && r.createdAt == u.createdAt
  {
    User(u.id, u.email, u.fullName, u.phoneNumber, u.userType, u.isVerified, u.createdAt)
  }

  /** The record signup creates. */
  function NewAccount(data: SignupData, id: string, now: string): StoredUser {
    StoredUser(id, data.email, data.password, data.fullName, data.phoneNumber, data.userType, true, now)
  }

  /** Index of the account login picks: the first whose email matches ignoring case and whose
      password matches exactly. */
  function LoginMatch(users: seq<StoredUser>, email: string, password: string): (r: Option<nat>)
    ensures r.None? <==> forall i :: 0 <= i < |users| ==> !CredentialsMatch(users[i], email, password)
    ensures r.Some? ==> r.value < |users| && CredentialsMatch(users[r.value], email, password)
    ensures r.Some? ==> forall j :: 0 <= j < r.value ==> !CredentialsMatch(users[j], email, password)
  {
    FindFirst(users, u => CredentialsMatch(u, email, password))
  }

  /** `mockSignup`: rejects an email already registered (ignoring case) and leaves storage as
      it was; otherwise appends one verified account, rewrites the list, and returns the new
      account without its password together with the given tokens. */
  method MockSignup(ls: LocalStorage, data: SignupData, id: string, now: string, token: string, refreshToken: string)
    returns (r: Result<AuthResponse, AuthError>)
    modifies ls
    ensures EmailTaken(old(GetStoredUsers(ls.items)), data.email) ==>
      r == Failure(DuplicateAccount) && ls.items == old(ls.items)
    ensures !EmailTaken(old(GetStoredUsers(ls.items)), data.email) ==>
      && ls.items == StoreWithUsers(old(ls.items), old(GetStoredUsers(ls.items)) + [NewAccount(data, id, now)])
      && r == Success(AuthResponse(Sanitize(NewAccount(data, id, now)), token, refreshToken))
  {
    var users := GetStoredUsers(ls.items);
    var existing := FindFirst(users, u => SameEmail(u, data.email));
    if existing.Some? {
      return Failure(DuplicateAccount);
    }
    var newUser := NewAccount(data, id, now);
    users := users + [newUser];
    SaveUsers(ls, users);
    r := Success(AuthResponse(Sanitize(newUser), token, refreshToken));
  }

  /** `mockLogin`: reads the store and never changes it. */
  method MockLogin(ls: LocalStorage, email: string, password: string, token: string, refreshToken: string)
    returns (r: Result<AuthResponse, AuthError>)
    ensures var users := GetStoredUsers(ls.items);
      r.Success? <==> exists i :: 0 <= i < |users| && CredentialsMatch(users[i], email, password)
    ensures r.Failure? ==> r.error == InvalidCredentials
    ensures r.Success? ==> var users := GetStoredUsers(ls.items);
      && LoginMatch(users, email, password).Some?
      && r.value == AuthResponse(Sanitize(users[LoginMatch(users, email, password).value]), token, refreshToken)
  {
    var users := GetStoredUsers(ls.items);
    var found := FindFirst(users, u => CredentialsMatch(u, email, password));
    if found.None? {
      return Failure(InvalidCredentials);
    }
    r := Success(AuthResponse(Sanitize(users[found.value]), token, refreshToken));
  }

  /** `mockGetProfile`: the token is not consulted; the result depends only on the
      `rentzw_current_user` slot. */
  method MockGetProfile(ls: LocalStorage, token: string) returns (r: Result<User, AuthError>)
    ensures CurrentUserKey !in ls.items || ls.items[CurrentUserKey] == "" ==> r == Failure(NotAuthenticated)
    ensures r.Success? ==> CurrentUserKey in ls.items && ParseUser(ls.items[CurrentUserKey]) == Some(r.value)
    ensures CurrentUserKey in ls.items && ls.items[CurrentUserKey] != "" && ParseUser(ls.items[CurrentUserKey]).None? ==>
      r == Failure(MalformedProfile)
    ensures CurrentUserKey in ls.items && ls.items[CurrentUserKey] != "" && ParseUser(ls.items[CurrentUserKey]).Some? ==>
      r == Success(ParseUser(ls.items[CurrentUserKey]).value)
  {
    if CurrentUserKey !in ls.items || ls.items[CurrentUserKey] == "" {
      return Failure(NotAuthenticated);
    }
    match ParseUser(ls.items[CurrentUserKey]) {
      case None => r := Failure(MalformedProfile);
      case Some(u) => r := Success(u);
    }
  }

  // ---------------------------------------------------------------------------------------
  // Demo accounts

  const DemoPassword: string := "password123"

  const DemoUsers: seq<StoredUser> := [
    StoredUser("user1", "tenant@example.com", DemoPassword, "Alice Johnson", "+263 77 123 4567",
      Tenant, true, "2024-01-01T00:00:00Z"),
    StoredUser("user2", "landlord@example.com", DemoPassword, "John Smith", "+263 77 987 6543",
      Landlord, true, "2024-01-01T00:00:00Z")
  ]

  /** What `initializeMockUsers` leaves in storage. */
  function SeededStore(store: map<string, string>): (r: map<string, string>)
    ensures GetStoredUsers(store) == [] ==> GetStoredUsers(r) == DemoUsers
    ensures forall k :: k != UsersStorageKey ==> (k in r <==> k in store)
    ensures forall k :: k != UsersStorageKey && k in r ==> r[k] == store[k]
    ensures GetStoredUsers(store) != [] ==> r == store
  {
    if GetStoredUsers(store) == [] then StoreWithUsers(store, DemoUsers) else store
  }

  method InitializeMockUsers(ls: LocalStorage)
    modifies ls
    ensures ls.items == SeededStore(old(ls.items))
  {
    var users := GetStoredUsers(ls.items);
    if |users| == 0 {
      SaveUsers(ls, DemoUsers);
    }
  }

  // ---------------------------------------------------------------------------------------
  // Properties across operations

  /** Seeding twice is seeding once. */
  lemma {:induction false} SeedingIdempotent(store: map<string, string>)
    ensures SeededStore(SeededStore(store)) == SeededStore(store)
  {
    if GetStoredUsers(store) == [] {
      assert GetStoredUsers(SeededStore(store)) == DemoUsers;
      assert DemoUsers != [];
    }
  }

  /** After a successful signup, logging in with the same email and password succeeds and
      yields the new account. */
  lemma {:induction false} SignupThenLogin(users: seq<StoredUser>, data: SignupData, id: string, now: string)
    requires !EmailTaken(users, data.email)
    ensures LoginMatch(users + [NewAccount(data, id, now)], data.email, data.password) == Some(|users|)
    ensures Sanitize((users + [NewAccount(data, id, now)])[|users|]) ==
      User(id, data.email, data.fullName, data.phoneNumber, data.userType, true, now)
  {
    var all := users + [NewAccount(data, id, now)];
    forall j | 0 <= j < |users| ensures !CredentialsMatch(all[j], data.email, data.password) {
      assert all[j] == users[j];
    }
    assert CredentialsMatch(all[|users|], data.email, data.password);
  }

  /** The stored list, once no two accounts share an email ignoring case, keeps that property
      through signup. */
  lemma {:induction false} SignupKeepsEmailsUnique(users: seq<StoredUser>, data: SignupData, id: string, now: string)
    requires forall i, j :: 0 <= i < j < |users| ==> !EqualIgnoringCase(users[i].email, users[j].email)
    requires !EmailTaken(users, data.email)
    ensures var all := users + [NewAccount(data, id, now)];
      forall i, j :: 0 <= i < j < |all| ==> !EqualIgnoringCase(all[i].email, all[j].email)
  {
    var all := users + [NewAccount(data, id, now)];
    forall i, j | 0 <= i < j < |all| ensures !EqualIgnoringCase(all[i].email, all[j].email) {
      if j == |users| {
        assert !SameEmail(users[i], data.email);
      } else {
        assert all[i] == users[i] && all[j] == users[j];
      }
    }
  }

  /** A signup whose email differs from a stored one only in letter case is refused. */
  lemma {:induction false} UpperCasedEmailIsTaken(users: seq<StoredUser>, i: nat)
    requires i < |users|
    ensures EmailTaken(users, ToUpper(users[i].email))
  {
    EqualIgnoringCaseUpper(users[i].email);
    assert SameEmail(users[i], ToUpper(users[i].email));
  }

  /** Clearing the session slots leaves the account list alone. */
  lemma {:induction false} SessionClearKeepsAccounts(store: map<string, string>, sessionKeys: set<string>)
    requires UsersStorageKey !in sessionKeys
    ensures GetStoredUsers(store - sessionKeys) == GetStoredUsers(store)
  {
    assert UsersStorageKey in store ==> (store - sessionKeys)[UsersStorageKey] == store[UsersStorageKey];
  }
}
