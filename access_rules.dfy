/** The home screen's access rules (`view.ViewHome.openShop` and `openProductAdmin`), stated
    on the session's current user. */
module AccessRules {
  import opened Common
  import opened Entities
  import opened Session
  import opened EmailWhitelist

  /** The shop opens for any logged-in user. */
  predicate CanOpenShop(u: Option<User>)
    ensures CanOpenShop(u) ==> u.Some? && u.value.email.Some? && u.value.email.value != []
  {
    LoggedIn(u)
  }

  /** The product administration opens for a logged-in user whose email is whitelisted. */
  predicate CanOpenProductAdmin(u: Option<User>)
    ensures CanOpenProductAdmin(u) ==> CanOpenShop(u) && IsAllowed(u.value.email)
  {
    LoggedIn(u) && IsAllowed(u.value.email)
  }

  /** Administration needs everything the shop needs, and more: a logged-in customer whose
      email is not listed sees the shop but not the administration. */
  lemma AdminImpliesShop(u: Option<User>)
    ensures CanOpenProductAdmin(u) ==> CanOpenShop(u)
    ensures CanOpenShop(u) && !IsAllowed(u.value.email) ==> !CanOpenProductAdmin(u)
    ensures !LoggedIn(u) ==> !CanOpenShop(u) && !CanOpenProductAdmin(u)
  {
  }

  /** After `logout()` neither screen opens. */
  lemma LogoutClosesBoth()
    ensures !CanOpenShop(None) && !CanOpenProductAdmin(None)
  {
  }
}
