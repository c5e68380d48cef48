/** The account record kept in `users/{uid}` (src/app/models/user.model.ts). */
module UserModel {
  import opened Common

  datatype Role = Customer | Admin

  /** The string a role is stored as: exactly one of the two literals of the
      union type, and "admin" for no role but Admin. */
  function RoleName(role: Role): (r: string)
    ensures r == "admin" <==> role == Admin
    ensures r == "customer" <==> role == Customer
  {
    match role
    case Customer => "customer"
    case Admin => "admin"
  }

  /** An account. A field the stored document lacks is held as "" (uid, email)
      or None (displayName, photoURL); the server timestamps are not modelled. */
  datatype User = User(
    uid: string,
    email: string,
    displayName: Option<string>,
    photoURL: Option<string>,
    role: Role)
}
