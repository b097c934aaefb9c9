/**
 * src/utils/utils.ts: `removePassword`, the response projection of a user.
 * The projection is its own type, which has no password field at all.
 */
module Utils {
  import opened UserModel

  /** A user as a response carries it: every field but `password`. */
  datatype PublicUser = PublicUser(
    id: string,
    fullName: string,
    email: string,
    userType: UserType,
    createdDate: string)

  /** Puts a password back on a projected user. */
  function WithPassword(p: PublicUser, password: string): User
  {
    User(p.id, p.fullName, p.email, password, p.userType, p.createdDate)
  }

  /** `removePassword`: drops the credential and keeps the other five fields. */
  function RemovePassword(user: User): (p: PublicUser)
    ensures WithPassword(p, user.password) == user
  {
    PublicUser(user.id, user.fullName, user.email, user.userType, user.createdDate)
  }

  /** Two users project alike exactly when they differ at most in their passwords. */
  lemma RemovePasswordForgetsOnlyPassword(u: User, v: User)
    ensures RemovePassword(u) == RemovePassword(v) <==> u.(password := v.password) == v
  {
  }

  /** Projecting a user rebuilt from a projection gives the projection back. */
  lemma RemovePasswordWithPassword(p: PublicUser, password: string)
    ensures RemovePassword(WithPassword(p, password)) == p
  {
  }
}
