/** Admin login and logout in the sidebar. */
module Admin {
  import opened Wrappers

  const SuperAdminKey: string := "superadmin123"

  datatype Role = SuperAdmin | StoreAdmin

  /** The login decision. The super admin key is tried first and opens every
      store; otherwise the entered password must equal the current store's
      `admin_key` (`storeKey` is None when no store is selected or it has no
      key). */
  function Authenticate(entered: string, storeKey: Option<string>): (r: Option<Role>)
    ensures r == Some(SuperAdmin) <==> entered == SuperAdminKey
    ensures r == Some(StoreAdmin) <==> entered != SuperAdminKey && storeKey == Some(entered)
    ensures r == None <==> entered != SuperAdminKey && storeKey != Some(entered)
  {
    if entered == SuperAdminKey then Some(SuperAdmin)
    else if storeKey.Some? && entered == storeKey.value then Some(StoreAdmin)
    else None
  }

  /** A store's own key never grants super admin rights, unless it is the
      super admin key itself; a store without a key only admits the super admin. */
  lemma StoreKeyScope(entered: string, key: string)
    ensures Authenticate(entered, Some(key)) == Some(SuperAdmin) ==> entered == SuperAdminKey
    ensures Authenticate(entered, None) != Some(StoreAdmin)
    ensures Authenticate(key, Some(key)).Some?
  {
  }

  datatype ViewMode = MenuView | CounterView

  /** The session flags the sidebar reads and writes. */
  class Session {
    var isAdmin: bool
    var isSuperAdmin: bool
    var editingId: Option<string>
    var viewMode: ViewMode

    /** A fresh session: customer view of the menu. */
    constructor ()
      ensures !isAdmin && !isSuperAdmin && editingId == None && viewMode == MenuView
    {
      isAdmin := false;
      isSuperAdmin := false;
      editingId := None;
      viewMode := MenuView;
    }

    /** The "Login" button: on success both flags are set from the role; a
        wrong password leaves the session as it was. */
    method Login(entered: string, storeKey: Option<string>) returns (r: Option<Role>)
      modifies this
      ensures r == Authenticate(entered, storeKey)
      ensures r.Some? ==> isAdmin && isSuperAdmin == (r.value == SuperAdmin)
      ensures r.None? ==> isAdmin == old(isAdmin) && isSuperAdmin == old(isSuperAdmin)
      ensures editingId == old(editingId) && viewMode == old(viewMode)
    {
      if entered == SuperAdminKey {
        isAdmin := true;
        isSuperAdmin := true;
        r := Some(SuperAdmin);
      } else if storeKey.Some? && entered == storeKey.value {
        isAdmin := true;
        isSuperAdmin := false;
        r := Some(StoreAdmin);
      } else {
        r := None;
      }
    }

    /** The "Logout" button: back to a fresh session. */
    method Logout()
      modifies this
      ensures !isAdmin && !isSuperAdmin && editingId == None && viewMode == MenuView
    {
      isAdmin := false;
      isSuperAdmin := false;
      editingId := None;
      viewMode := MenuView;
    }
  }
}
