/** The records of `src/types/index.ts` the modelled code uses, and their stored form. */
module Types {
  import opened Wrappers
  import Codec

  datatype UserType = Tenant | Landlord

  /** A user as the client sees it: no password. */
  datatype User = User(
    id: string,
    email: string,
    fullName: string,
    phoneNumber: string,
    userType: UserType,
    isVerified: bool,
    createdAt: string)

  datatype AuthResponse = AuthResponse(user: User, token: string, refreshToken: string)

  datatype PropertyImage = PropertyImage(id: string, url: string, alt: string, isPrimary: bool)

  /** A listing; prices, description and landlord are not used by the modelled logic. */
  datatype Property = Property(
    id: string,
    title: string,
    city: string,
    suburb: string,
    propertyType: string,
    furnishingStatus: string,
    bedrooms: int,
    bathrooms: int,
    amenities: seq<string>,
    images: seq<PropertyImage>,
    status: string,
    views: int)

  datatype PropertyApplication = PropertyApplication(
    id: string,
    propertyId: string,
    tenantId: string,
    message: string,
    status: string,
    createdAt: string)

  function UserTypeName(t: UserType): string {
    match t
    case Tenant => "tenant"
    case Landlord => "landlord"
  }

  function ParseUserType(s: string): (r: Option<UserType>)
    ensures r.Some? ==> UserTypeName(r.value) == s
  {
    if s == "tenant" then Some(Tenant) else if s == "landlord" then Some(Landlord) else None
  }

  function BoolName(b: bool): string {
    if b then "true" else "false"
  }

  function ParseBool(s: string): (r: Option<bool>)
    ensures r.Some? ==> BoolName(r.value) == s
  {
    if s == "true" then Some(true) else if s == "false" then Some(false) else None
  }

  function UserFields(u: User): seq<string> {
    [u.id, u.email, u.fullName, u.phoneNumber, UserTypeName(u.userType), BoolName(u.isVerified), u.createdAt]
  }

  /** Reads the seven fields of a user back; any other shape is rejected. */
  function UserFromFields(fs: seq<string>): Option<User> {
    if |fs| != 7 then None
    else match (ParseUserType(fs[4]), ParseBool(fs[5]))
      case (Some(t), Some(v)) => Some(User(fs[0], fs[1], fs[2], fs[3], t, v, fs[6]))
      case _ => None
  }

  /** `JSON.stringify(user)`. */
  function SerializeUser(u: User): string {
    Codec.EncodeList(UserFields(u))
  }

  /** `JSON.parse` of a stored user; None where it would throw. */
  function ParseUser(s: string): Option<User> {
    match Codec.DecodeList(s)
    case None => None
    case Some(fs) => UserFromFields(fs)
  }

  lemma {:induction false} ParseSerializeUser(u: User)
    ensures ParseUser(SerializeUser(u)) == Some(u)
  {
    Codec.DecodeEncodeList(UserFields(u));
  }

  /** A serialised user is never the empty string, which the source reads as "no user". */
  lemma {:induction false} SerializeUserNonEmpty(u: User)
    ensures SerializeUser(u) != ""
  {
    assert Codec.EncodeString(u.id) != [];
  }
}
