/** The Civo identity provider: the required-permission set built at
    construction, the permission match, the account-scoped permissions
    endpoint, and the enrichment of a session after the token redeem. */
module Providers {
  import opened Wrappers
  import opened Requests
  import opened Sessions

  /** One permission record returned by the permissions endpoint. Only `code`
      takes part in decisions. */
  datatype Permission = Permission(code: string, name: string, description: string)

  /** The Civo part of the configuration. */
  datatype CivoOptions = CivoOptions(account: string, permissions: seq<string>, permissionsURL: string)

  /** What the provider relies on but cannot see: the query-string test used
      when joining URLs, and the two remote calls with their JSON decoding
      (a simple-JSON document for the profile, a list of permission records
      for the permissions endpoint). */
  datatype Externals = Externals(
    hasQueryParams: string -> bool,
    getJson: Request -> Response<Json>,
    getPermissions: Request -> Response<seq<Permission>>)

  /** The query parameter that scopes the permission lookup to an account. */
  const AccountIdParam: string := "account_id="

  // ---------------------------------------------------------------------------
  // Permission set and permission match
  // ---------------------------------------------------------------------------

  /** Builds the set of required permission codes from the configured list,
      one insertion per element. */
  method RequiredPermissionsMap(permissions: seq<string>) returns (required: set<string>)
    ensures forall code :: code in required <==> code in permissions
    ensures |required| <= |permissions|
  {
    required := {};
    for i := 0 to |permissions|
      invariant forall code :: code in required <==> code in permissions[..i]
      invariant |required| <= i
    {
      required := required + {permissions[i]};
    }
    assert permissions[..|permissions|] == permissions;
  }

  /** The permission match: the user holds at least one permission whose code
      is required. */
  predicate AnyPermissionIn(userPermissions: seq<Permission>, required: set<string>)
  {
    exists p :: p in userPermissions && p.code in required
  }

  /** The codes of a list of permission records. */
  function Codes(userPermissions: seq<Permission>): (codes: set<string>)
  {
    set p | p in userPermissions :: p.code
  }

  /** The match is "the user's codes and the required codes overlap", so an
      empty list or an empty requirement never matches. */
  lemma AnyPermissionInIffCodesOverlap(userPermissions: seq<Permission>, required: set<string>)
    ensures AnyPermissionIn(userPermissions, required) <==> Codes(userPermissions) * required != {}
    ensures userPermissions == [] ==> !AnyPermissionIn(userPermissions, required)
    ensures required == {} ==> !AnyPermissionIn(userPermissions, required)
  {
    if AnyPermissionIn(userPermissions, required) {
      var p :| p in userPermissions && p.code in required;
      assert p.code in Codes(userPermissions) * required;
    }
    if Codes(userPermissions) * required != {} {
      var c :| c in Codes(userPermissions) * required;
      var p :| p in userPermissions && p.code == c;
      assert p in userPermissions && p.code in required;
    }
  }

  /** Only codes decide the match: two lists carrying the same codes, whatever
      their names, descriptions, order or repetitions, match alike. */
  lemma SameCodesSameMatch(ps: seq<Permission>, qs: seq<Permission>, required: set<string>)
    requires Codes(ps) == Codes(qs)
    ensures AnyPermissionIn(ps, required) <==> AnyPermissionIn(qs, required)
  {
    AnyPermissionInIffCodesOverlap(ps, required);
    AnyPermissionInIffCodesOverlap(qs, required);
  }

  // ---------------------------------------------------------------------------
  // Permissions endpoint
  // ---------------------------------------------------------------------------

  /** The separator that appends one more query parameter to `url`. */
  function JoinerChar(url: string, hasQueryParams: string -> bool): (joiner: string)
    ensures joiner == "&" || joiner == "?"
    ensures joiner == "&" <==> hasQueryParams(url)
  {
    if hasQueryParams(url) then "&" else "?"
  }

  /** The permissions URL with `account_id=<account>` appended as a query
      parameter; the account is inserted verbatim, without escaping. */
  function PermissionsEndpoint(permissionsURL: string, account: string, hasQueryParams: string -> bool): (endpoint: string)
    ensures |endpoint| == |permissionsURL| + 1 + |AccountIdParam| + |account|
    ensures endpoint[..|permissionsURL|] == permissionsURL
    ensures endpoint[|permissionsURL|] == if hasQueryParams(permissionsURL) then '&' else '?'
    ensures endpoint[|permissionsURL| + 1..] == AccountIdParam + account
  {
    permissionsURL + JoinerChar(permissionsURL, hasQueryParams) + AccountIdParam + account
  }

  /** For one permissions URL, the endpoint names the account it was built
      for: different accounts never share an endpoint. */
  lemma PermissionsEndpointDeterminesAccount(permissionsURL: string, a: string, b: string, hasQueryParams: string -> bool)
    requires PermissionsEndpoint(permissionsURL, a, hasQueryParams) == PermissionsEndpoint(permissionsURL, b, hasQueryParams)
    ensures a == b
  {
    var k := |permissionsURL| + 1;
    var e := PermissionsEndpoint(permissionsURL, a, hasQueryParams);
    assert AccountIdParam + a == e[k..] == AccountIdParam + b;
    assert a == (AccountIdParam + a)[|AccountIdParam|..];
    assert b == (AccountIdParam + b)[|AccountIdParam|..];
  }

  // ---------------------------------------------------------------------------
  // The provider
  // ---------------------------------------------------------------------------

  /** A Civo provider: immutable after construction. */
  class CivoProvider {
    /** The profile (userinfo) URL of the provider data. */
    const ProfileURL: string
    /** The account access is restricted to. */
    const Account: string
    /** The required permission codes; any one of them grants access. */
    const PermissionsMap: set<string>
    /** Where the user's permissions in an account are looked up. */
    const PermissionsURL: string

    /** `profileURL` is the provider data's profile URL, defaults already applied. */
    constructor (profileURL: string, opts: CivoOptions)
      ensures ProfileURL == profileURL
      ensures Account == opts.account && PermissionsURL == opts.permissionsURL
      ensures forall code :: code in PermissionsMap <==> code in opts.permissions
    {
      var required := RequiredPermissionsMap(opts.permissions);
      ProfileURL := profileURL;
      Account := opts.account;
      PermissionsMap := required;
      PermissionsURL := opts.permissionsURL;
    }

    /** The profile request made with a session's access token. */
    function ProfileRequest(accessToken: string): (request: Request)
    {
      Request(ProfileURL, accessToken)
    }

    /** The permissions request made with a session's access token. */
    function PermissionsRequest(accessToken: string, hasQueryParams: string -> bool): (request: Request)
    {
      Request(PermissionsEndpoint(PermissionsURL, Account, hasQueryParams), accessToken)
    }

    /** Looks up the user's permissions in the configured account. Returns
        the lookup's outcome and the request it issued. */
    method GetUserPermissionsInAccount(accessToken: string, ext: Externals)
      returns (permissions: Result<seq<Permission>>, request: Request)
      ensures request.accessToken == accessToken
      ensures request.url == PermissionsEndpoint(PermissionsURL, Account, ext.hasQueryParams)
      ensures ext.getPermissions(request).Received? ==> permissions == Ok(ext.getPermissions(request).body)
      ensures ext.getPermissions(request).Failed? ==> permissions == Err(RequestFailed(ext.getPermissions(request).msg))
    {
      var endpoint := PermissionsEndpoint(PermissionsURL, Account, ext.hasQueryParams);
      request := Request(endpoint, accessToken);
      match ext.getPermissions(request)
      case Received(body) => permissions := Ok(body);
      case Failed(msg) => permissions := Err(RequestFailed(msg));
    }

    /** Whether some permission the user holds is a required one; stops at the
        first match. */
    method IsUserAllowed(userPermissions: seq<Permission>) returns (allowed: bool)
      ensures allowed == AnyPermissionIn(userPermissions, PermissionsMap)
    {
      for i := 0 to |userPermissions|
        invariant forall j :: 0 <= j < i ==> userPermissions[j].code !in PermissionsMap
      {
        if userPermissions[i].code in PermissionsMap {
          return true;
        }
      }
      return false;
    }

    /** The email address of the session's user, read from the profile. On any
        error the address is empty. `requests` lists the remote calls made. */
    method GetEmailAddress(s: SessionState, ext: Externals)
      returns (email: string, err: Option<Error>, requests: seq<Request>)
      ensures s.AccessToken == "" ==> email == "" && requests == []
      ensures err == Some(MissingAccessToken) <==> s.AccessToken == ""
      ensures s.AccessToken != "" ==> requests == [ProfileRequest(s.AccessToken)]
      ensures var profile := ext.getJson(ProfileRequest(s.AccessToken));
              s.AccessToken != "" && profile.Failed? ==> email == "" && err == Some(RequestFailed(profile.msg))
      ensures var profile := ext.getJson(ProfileRequest(s.AccessToken));
              s.AccessToken != "" && profile.Received? ==>
                if profile.body.JObject? && "email" in profile.body.fields && profile.body.fields["email"].JString?
                then email == profile.body.fields["email"].s && err == None
                else email == "" && err == Some(NotAString)
    {
      if s.AccessToken == "" {
        return "", Some(MissingAccessToken), [];
      }
      var request := ProfileRequest(s.AccessToken);
      requests := [request];
      var json := ext.getJson(request);
      if json.Failed? {
        return "", Some(RequestFailed(json.msg)), requests;
      }
      var address := GetPathString(json.body, "email");
      if address.Err? {
        return "", Some(address.error), requests;
      }
      return address.value, None, requests;
    }

    /** Authorizes the session's user in the configured account: fetch the
        profile, read `user_id`, fetch the user's permissions in the account,
        and on a match add the account to the session's groups. No other
        session field is written, and nothing is written on failure.
        `requests` lists the remote calls made, in order. */
    method EnrichSession(s: SessionState, ext: Externals) returns (err: Option<Error>, requests: seq<Request>)
      modifies s`Groups
      ensures err == None ==> s.Groups == old(s.Groups) + [Account]
      ensures err != None ==> s.Groups == old(s.Groups)
      // the token is checked before anything is fetched
      ensures s.AccessToken == "" ==> requests == []
      ensures err == Some(MissingAccessToken) <==> s.AccessToken == ""
      // the profile is fetched first, the permissions only once `user_id` is known
      ensures s.AccessToken != "" ==> 1 <= |requests| <= 2 && requests[0] == ProfileRequest(s.AccessToken)
      ensures |requests| == 2 ==> requests[1] == PermissionsRequest(s.AccessToken, ext.hasQueryParams)
      ensures var profile := ext.getJson(ProfileRequest(s.AccessToken));
              s.AccessToken != "" && profile.Failed? ==> err == Some(RequestFailed(profile.msg)) && |requests| == 1
      ensures var profile := ext.getJson(ProfileRequest(s.AccessToken));
              s.AccessToken != "" && profile.Received? && GetPathString(profile.body, "user_id").Err? ==>
                err == Some(NotAString) && |requests| == 1
      ensures var profile := ext.getJson(ProfileRequest(s.AccessToken));
              var permissions := ext.getPermissions(PermissionsRequest(s.AccessToken, ext.hasQueryParams));
              s.AccessToken != "" && profile.Received? && GetPathString(profile.body, "user_id").Ok? ==>
                |requests| == 2 &&
                (permissions.Failed? ==> err == Some(RequestFailed(permissions.msg))) &&
                (permissions.Received? && !AnyPermissionIn(permissions.body, PermissionsMap) ==>
                   err == Some(NoSufficientPermissions(GetPathString(profile.body, "user_id").value, Account)))
      // success exactly when every step succeeds and some permission matches
      ensures var profile := ext.getJson(ProfileRequest(s.AccessToken));
              var permissions := ext.getPermissions(PermissionsRequest(s.AccessToken, ext.hasQueryParams));
              err == None <==>
                s.AccessToken != "" && profile.Received? && GetPathString(profile.body, "user_id").Ok? &&
                permissions.Received? && AnyPermissionIn(permissions.body, PermissionsMap)
    {
      if s.AccessToken == "" {
        return Some(MissingAccessToken), [];
      }
      var request := ProfileRequest(s.AccessToken);
      requests := [request];
      var json := ext.getJson(request);
      if json.Failed? {
        return Some(RequestFailed(json.msg)), requests;
      }
      var user := GetPathString(json.body, "user_id");
      if user.Err? {
        return Some(user.error), requests;
      }
      var permissions, permissionsRequest := GetUserPermissionsInAccount(s.AccessToken, ext);
      requests := requests + [permissionsRequest];
      if permissions.Err? {
        return Some(permissions.error), requests;
      }
      var allowed := IsUserAllowed(permissions.value);
      if !allowed {
        return Some(NoSufficientPermissions(user.value, Account)), requests;
      }
      s.Groups := s.Groups + [Account];
      return None, requests;
    }
  }

  /** Enrichment is not deduplicated: a second call on the same session with
      the same remote answers reaches the same decision, and each success
      appends the account once more. */
  method EnrichTwice(p: CivoProvider, s: SessionState, ext: Externals) returns (first: Option<Error>, second: Option<Error>)
    modifies s`Groups
    ensures second == first
    ensures first == None ==> s.Groups == old(s.Groups) + [p.Account, p.Account]
    ensures first != None ==> s.Groups == old(s.Groups)
  {
    var requests;
    first, requests := p.EnrichSession(s, ext);
    second, requests := p.EnrichSession(s, ext);
  }
}
