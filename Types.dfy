/** The records the authentication layer passes around: the user role of the
    profiles table, the identity provider's user and session, the profile row,
    and the provider's error object. */
module Types {

  datatype Option<+T> = None | Some(value: T) {
    function GetOr(default: T): T {
      match this
      case Some(v) => v
      case None => default
    }
  }

  /** `UserRole`: the role column of the profiles table */
  datatype Role = Designer | Merchant | Admin

  /** The string the database and the provider metadata use for a role */
  function RoleName(r: Role): string {
    match r
    case Designer => "designer"
    case Merchant => "merchant"
    case Admin => "admin"
  }

  /** The provider's user record. `identities` is absent or a list of linked
      identity ids; the provider returns an empty list for an address that is
      already registered. */
  datatype User = User(id: string, email: string, identities: Option<seq<string>>)

  /** A provider session always carries its user. */
  datatype Session = Session(accessToken: string, user: User)

  /** A row of the profiles table */
  datatype Profile = Profile(
    id: string,
    fullName: Option<string>,
    role: Role,
    avatarUrl: Option<string>,
    createdAt: string,
    updatedAt: string)

  /** The provider's error object; only its message is read. */
  datatype AuthError = AuthError(message: string)

  /** JavaScript truthiness of an optional string: present and non-empty */
  predicate Truthy(s: Option<string>) {
    s.Some? && s.value != ""
  }
}
