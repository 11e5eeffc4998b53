/** The values the hosted auth service (nhost) hands to the client. Its calls
    themselves are outside the model; their results arrive as parameters. */
module Provider {

  import opened Wrappers

  /** A signed-in user, as returned by `getUser()`. */
  datatype User = User(id: string)

  /** A session, as returned by `getSession()` or pushed to
      `onAuthStateChanged`; its access token may be missing. */
  datatype Session = Session(accessToken: Option<string>)
}
