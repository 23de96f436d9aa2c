/**
 * The accounts the handlers consult: who is making the request, and the user
 * records of the site (users/models.py).
 */
module Users {

  type UserId = nat
  type Email = string

  /** `request.user`: the anonymous visitor, or a signed-in account. */
  datatype RequestUser = Anonymous | SignedIn(id: UserId, superuser: bool)
  {
    /** `request.user.is_authenticated` */
    predicate IsAuthenticated() { SignedIn? }

    /** `request.user.is_superuser`; the anonymous visitor is never a superuser. */
    predicate IsSuperuser() { SignedIn? && superuser }
  }

  /** A row of the user table, reduced to the fields the core reads. */
  datatype Account = Account(id: UserId, email: Email, isSuperuser: bool, subscribe: bool)
}
