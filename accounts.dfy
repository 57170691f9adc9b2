/** The user object that Django hands to a request or a WebSocket scope. */
module Accounts {
  type UserId = int

  /**
    * `request.user` / `scope['user']`: either Django's `AnonymousUser` (not logged in,
    * `id` is `None`, `username` is empty, never a superuser) or a saved `User` row.
    * Both are truthy Python objects.
    */
  datatype User = Anonymous | Registered(id: UserId, username: string, isSuperuser: bool)

  /** `user.is_authenticated` */
  predicate IsAuthenticated(u: User) { u.Registered? }

  /** `user.is_superuser` */
  predicate IsSuperuser(u: User) { u.Registered? && u.isSuperuser }

  /** `user.username` */
  function Username(u: User): string { if u.Registered? then u.username else "" }
}
