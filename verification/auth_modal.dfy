/** The global sign-in dialog (src/stores/authModal.ts). */
module AuthModal {
  import opened Wrappers

  datatype Tab = Login | Register

  class ModalStore {
    var visible: bool
    var activeTab: Tab
    /** Where to go after signing in; empty when nowhere. */
    var redirectPath: string

    constructor ()
      ensures !visible && activeTab == Login && redirectPath == []
    {
      visible := false;
      activeTab := Login;
      redirectPath := [];
    }

    /** Shows the dialog. A tab is switched to only when one is given, and
        the redirect is replaced only when a text is given, even an empty one. */
    method Open(tab: Option<Tab>, redirect: Option<string>)
      modifies this
      ensures visible
      ensures activeTab == tab.GetOr(old(activeTab))
      ensures redirectPath == redirect.GetOr(old(redirectPath))
    {
      if tab.Some? {
        activeTab := tab.value;
      }
      if redirect.Some? {
        redirectPath := redirect.value;
      }
      visible := true;
    }

    method Close()
      modifies this
      ensures !visible
      ensures activeTab == old(activeTab) && redirectPath == old(redirectPath)
    {
      visible := false;
    }

    method ClearRedirect()
      modifies this
      ensures redirectPath == []
      ensures visible == old(visible) && activeTab == old(activeTab)
    {
      redirectPath := [];
    }
  }
}
