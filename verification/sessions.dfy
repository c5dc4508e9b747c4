/** The session state handed to the provider by the redeem flow. */
module Sessions {

  /** The fields of an authenticated session that the Civo provider reads or
      could write. The provider borrows the object for one call. */
  class SessionState {
    var AccessToken: string
    var Email: string
    var User: string
    var Groups: seq<string>

    constructor (accessToken: string, email: string, user: string, groups: seq<string>)
      ensures AccessToken == accessToken && Email == email && User == user && Groups == groups
    {
      AccessToken := accessToken;
      Email := email;
      User := user;
      Groups := groups;
    }
  }
}
