/** The sign-in gate in front of actions that need a user
    (src/composables/useRequireAuth.ts). */
module RequireAuth {
  import opened Wrappers
  import UserStore
  import opened AuthModal

  /** True when a user is signed in. Otherwise opens the sign-in dialog on
      the given tab (the login tab by default) with the given redirect
      (the current route by default, while an explicit empty text is kept)
      and answers false. */
  method EnsureAuth(user: UserStore.Store, modal: ModalStore, tab: Option<Tab>,
                    redirect: Option<string>, currentRoute: string) returns (ok: bool)
    modifies modal
    ensures ok <==> user.IsLoggedIn()
    ensures ok ==> unchanged(modal)
    ensures !ok ==> modal.visible && modal.activeTab == tab.GetOr(Login)
                    && modal.redirectPath == redirect.GetOr(currentRoute)
  {
    if user.IsLoggedIn() {
      return true;
    }
    modal.Open(Some(tab.GetOr(Login)), Some(redirect.GetOr(currentRoute)));
    return false;
  }
}
