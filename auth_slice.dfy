/** The authentication slice of the Redux store (src/store/authSlice.tsx): whether a user
    is logged in, and which. The reducers assign the draft state's two fields in place. */
module AuthSlice {
  import opened Wrappers

  /** The user record the store keeps (src/store/index.tsx). */
  datatype UserInfo = UserInfo(
    memId: string,
    name: string,
    email: string,
    phone: string,
    addr: string,
    birth: string,
    gender: string,
    role: string,
    status: string,
    createdAt: string)

  class AuthState {
    var isLoggedIn: bool
    var user: Option<UserInfo>

    /** Logged in exactly when a user is held. */
    predicate Valid()
      reads this
    {
      isLoggedIn <==> user.Some?
    }

    /** `initialState`: logged out, no user. */
    constructor()
      ensures Valid() && !isLoggedIn && user == None
    {
      isLoggedIn, user := false, None;
    }

    /** `setUser`: logged in as `payload`, whoever was there before. */
    method SetUser(payload: UserInfo)
      modifies this
      ensures Valid() && isLoggedIn && user == Some(payload)
    {
      isLoggedIn := true;
      user := Some(payload);
    }

    /** `clearUser`: logged out, no user, whatever the state was. */
    method ClearUser()
      modifies this
      ensures Valid() && !isLoggedIn && user == None
    {
      isLoggedIn := false;
      user := None;
    }
  }

  /** Logging in twice keeps only the second user; clearing twice is the same as clearing
      once: both reducers overwrite rather than accumulate. */
  method LoginSwitchLogout(first: UserInfo, second: UserInfo)
    returns (afterSecond: Option<UserInfo>, afterClear: Option<UserInfo>, loggedInAfterClear: bool)
    ensures afterSecond == Some(second)
    ensures afterClear == None && !loggedInAfterClear
  {
    var state := new AuthState();
    state.SetUser(first);
    state.SetUser(second);
    afterSecond := state.user;
    state.ClearUser();
    state.ClearUser();
    afterClear, loggedInAfterClear := state.user, state.isLoggedIn;
  }
}
