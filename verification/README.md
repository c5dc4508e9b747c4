# Civo provider authorization, modelled in Dafny

This project models the authorization decision of the Civo identity provider of
oauth2-proxy (`providers/civo.go`). A provider is configured with an account, a
list of required permission codes and a permissions URL. After the OAuth2 token
redeem, the provider enriches the user's session in four steps:

1. it fetches the profile (userinfo) document with the session's access token
   and reads `user_id`;
2. it fetches the user's permissions in the configured account, from the
   permissions URL with `account_id=<account>` appended;
3. it allows the user when **any** returned permission code is one of the
   required codes;
4. on success only, it appends the account to the session's `Groups`.

`GetEmailAddress` reads `email` from the same profile document.

Files and modules:

- `wrappers.dfy` (`Wrappers`): the provider's error values, plus `Option` and `Result`.
  `Option.None` stands for Go's `nil` error.
- `requests.dfy` (`Requests`): an outbound request (URL and access token), a
  decoded JSON document, and `json.GetPath(key).String()` on it.
- `sessions.dfy` (`Sessions`): the session fields the provider reads or could write.
  This is a class, because the provider mutates the session it borrows.
- `civo.dfy` (`Providers`): the permission records, the options, the set
  construction, the permission match and the lemmas about it, the endpoint
  builder, and the `CivoProvider` class with its methods.

The remote calls and `hasQueryParams` are not visible to the model. They are
passed in as total functions in an `Externals` value:

- `hasQueryParams: string -> bool` is left uninterpreted.
- `getJson` plays the profile request together with its simple-JSON decoding.
- `getPermissions` plays the permissions request together with its decoding
  into `[]Permission`.
- Either call yields a decoded body or a failure message. The provider passes
  a failure on as a `RequestFailed` error carrying that message, so a
  missing-token error arises only from an empty access token.

`GetEmailAddress` and `EnrichSession` also return the list of requests they
issued, and `GetUserPermissionsInAccount` returns the one request it issued.
That list plays a call counter on the HTTP collaborator: for example, an empty
access token yields an empty list.

Where the code and its own doc comments differ, the model follows the code.
The doc comment at `providers/civo.go:123` says `EnrichSession` updates the
session's User and Email. The code only appends to `Groups`, and the model
forbids writes to any other field (`modifies s`Groups`).

Other facts about the source that the model reflects:

- `civo.go` restricts access only by the account-scoped permission match. The
  `p.setTeam(team)` call at `providers/civo.go:113` is commented out.
- The account is inserted into the endpoint verbatim, without URL escaping.

## Model

| member | source | states |
|---|---|---|
| `Providers.RequiredPermissionsMap` | providers/civo.go:70-74 | a code is in the built set iff it occurs in the configured list; duplicates collapse (the set is no larger than the list), so an empty list gives an empty set |
| `Providers.CivoProvider.constructor` | providers/civo.go:58-91 | the provider keeps the configured account and permissions URL; a code is in `PermissionsMap` iff it is in `opts.Permissions` |
| `Providers.AnyPermissionInIffCodesOverlap` | providers/civo.go:199-208 | the match holds iff the user's codes and the required codes intersect (OR semantics, not a subset test); it never holds for an empty permission list or an empty required set |
| `Providers.SameCodesSameMatch` | providers/civo.go:166-171 | only `Code` decides the match: two lists with the same set of codes match alike, whatever their `Name`, `Description`, order or repetitions |
| `Providers.CivoProvider.IsUserAllowed` | providers/civo.go:199-208 | the loop with early return yields true iff some returned permission's code is in `PermissionsMap` |
| `Providers.JoinerChar` | providers/civo.go:192-197 | the joiner is always `"&"` or `"?"`, and it is `"&"` exactly when `hasQueryParams(url)` holds |
| `Providers.PermissionsEndpoint` | providers/civo.go:177-178 | the endpoint is the permissions URL unchanged, then the joiner character, then `account_id=` followed by the account; its length is the sum of those parts |
| `Providers.PermissionsEndpointDeterminesAccount` | providers/civo.go:178 | for one permissions URL, equal endpoints imply equal accounts |
| `Providers.CivoProvider.GetUserPermissionsInAccount` | providers/civo.go:173-190 | the single request goes to the account-scoped endpoint with the session's access token; the remote's permissions are returned as they are, and a failure as `RequestFailed` carrying the remote's message |
| `Providers.CivoProvider.GetEmailAddress` | providers/civo.go:93-116 | the missing-token error iff the token is empty, and then `""` and no request; otherwise exactly one profile request; a failed fetch gives `""` and that error; the profile's `email` string gives that address and no error; an absent or non-string `email` gives `""` and an error |
| `Providers.CivoProvider.EnrichSession` | providers/civo.go:123-164 | the missing-token error iff the token is empty, and then no request; requests are the profile, then the permissions endpoint only once `user_id` was read; each failing step (profile fetch, `user_id`, permissions fetch, no matching code) gives its own error; success iff every step succeeds and some code matches; on success `Groups` gains exactly the account at the end; on failure `Groups` is unchanged; no other session field is written |
| `Providers.EnrichTwice` | providers/civo.go:161-163 | with the same remote answers, a second enrichment reaches the same decision, and two successes append the account twice (no deduplication) |

## Left out

- Provider defaults (`setProviderDefaults`, the default login, redeem and profile URLs, the `"read"` scope): configuration handled by a helper that is not part of this model. The constructor takes the already-defaulted profile URL.
- The authorization header (`makeOIDCHeader`): not part of this model. A request carries the access token it is built from.
- `hasQueryParams`: its definition is not part of this model. It is an uninterpreted parameter.
- HTTP and JSON decoding (`requests.New(...).Do()`, `UnmarshalSimpleJSON`, `UnmarshalInto`): foreign library code. Their outcomes are the abstract `getJson` and `getPermissions` results. A failure message passes through unchanged inside `RequestFailed`.
- `json.GetPath(...).String()`: modelled as reading a string field of a top-level object. Any other shape is an error.
- `ValidateSession`: it delegates to a token-validation routine over the network that is not part of this model.
- The debug `fmt.Printf` output: it is output only and does not affect any decision.
- The request context (cancellation, timeouts) and concurrency across requests: not modelled. A cancelled call is just one more failing remote result.
- Error messages: errors are modelled as `Error` constructors, and their message text is not modelled. `NoSufficientPermissions` carries the user and the account that the Go message names. `RequestFailed` carries the message the requests package gave. `NotAString` carries nothing, because the failed string read gives the same error whichever field was read.
