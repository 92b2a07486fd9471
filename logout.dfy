/** The logout page: it removes both tokens from local storage and then
    (after a short delay) shows the login page. */
module Logout {
  import opened Browser

  /** The mount effect of the logout page, ending at its delayed navigation.
      Session storage and every other local key, the saved username
      included, stay as they were. */
  method Mount(w: Window)
    modifies w`local, w`location
    ensures w.local == ClearTokens(old(w.local))
    ensures w.location == LOGIN_PATH
  {
    w.local := w.local - {ACCESS_TOKEN};
    w.local := w.local - {REFRESH_TOKEN};
    w.location := LOGIN_PATH;
  }
}
