/** The gateway's half of authorization: which scopes a request needs, and whether the scope string
    that came with the key has one of them. */
module AuthGuard {
  import opened Scopes

  /** The scopes of which a request needs one; none for the routes that every key may use. */
  function RequiredScopes(path: string, verb: string): seq<string> {
    if "/v1/auth" <= path then ["auth:write"]
    else if "/v1/payments" <= path then (if verb == "GET" then ["payments:read", "payments:write"] else ["payments:write"])
    else if "/v1/balance" <= path then ["ledger:read", "ledger:write"]
    else if "/v1/transactions" <= path then ["ledger:write"]
    else if "/v1/webhooks" <= path then (if verb == "GET" then ["webhooks:read", "webhooks:write"] else ["webhooks:write"])
    else []
  }

  /** map(trim) and filter of hasAnyScope. */
  function TrimmedItems(pieces: seq<string>): seq<string> {
    if pieces == [] then []
    else (if Trim(pieces[0]) != "" then [Trim(pieces[0])] else []) + TrimmedItems(pieces[1..])
  }

  function HasAnyScope(scope: string, required: seq<string>): bool {
    var scopes := TrimmedItems(Pieces(scope, IsGatewaySeparator));
    "full" in scopes || "admin" in scopes || exists r | r in required :: r in scopes
  }

  /** A request passes if it needs no scope or the key has one of those it needs. */
  function Authorized(scope: string, path: string, verb: string): bool {
    var required := RequiredScopes(path, verb);
    |required| == 0 || HasAnyScope(scope, required)
  }
}
