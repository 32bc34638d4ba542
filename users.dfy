/** The user records the flow reads, and the user lookup it consults
    (`UserDetailsService.loadUserByUsername`). */
module Users {
  import opened Lang
  import opened Preferences

  type Authority = string

  /** The parts of `UserDetails` the two-factor flow reads: its preferences
      are indexed by an integer, index 1 being the primary one. */
  datatype UserDetails = UserDetails(
    username: string,
    authorities: seq<Authority>,
    twoFactorEnabled: bool,
    preferences: map<int, Pref>)

  /** A user store: the users known by name. */
  type UserDetailsService = map<string, UserDetails>

  /** `loadUserByUsername`: the stored user, or `UsernameNotFoundException`. */
  function LoadUserByUsername(users: UserDetailsService, username: string): (r: Result<UserDetails, Exception>)
    ensures r.Success? <==> username in users
    ensures r.Success? ==> r.value == users[username]
    ensures r.Failure? ==> r.error == UsernameNotFound(username) && r.error.IsAuthenticationException()
  {
    if username in users then Success(users[username]) else Failure(UsernameNotFound(username))
  }

  /** Whether some preference of the user is an authenticator-app key. */
  predicate HasKeyPreference(user: UserDetails) {
    exists i :: i in user.preferences && user.preferences[i].isKey
  }
}
