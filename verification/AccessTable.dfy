/** The gateway's access table read the other way round: not which scopes a route asks for, but which
    routes a scope is good for. */
module AccessTable {
  import opened Scopes
  import opened AuthGuard
  import opened ScopeTheorems

  lemma SingleScope(item: string, required: seq<string>)
    requires Plain(item)
    ensures HasAnyScope(item, required) <==> item == "full" || item == "admin" || item in required
  {
    PrintedIsReadBack([item]);
    assert Join([item]) == item;
    assert TrimmedItems(Pieces(item, IsGatewaySeparator)) == [item];
  }

  /** The route asks for something. */
  predicate Guarded(path: string) {
    "/v1/auth" <= path || "/v1/payments" <= path || "/v1/balance" <= path || "/v1/transactions" <= path || "/v1/webhooks" <= path
  }

  predicate Passes(item: string, path: string, verb: string) {
    !Guarded(path) || item in RequiredScopes(path, verb)
  }

  lemma AuthorizedBySingle(item: string, path: string, verb: string)
    requires Plain(item) && item != "full" && item != "admin"
    ensures Authorized(item, path, verb) <==> Passes(item, path, verb)
  {
    SingleScope(item, RequiredScopes(path, verb));
  }

  /** The part of the platform that a route belongs to. */
  function Area(path: string): string {
    if "/v1/auth" <= path then "auth"
    else if "/v1/payments" <= path then "payments"
    else if "/v1/webhooks" <= path then "webhooks"
    else "ledger"
  }

  predicate IsScopeOf(item: string, area: string) {
    item == area + ":read" || item == area + ":write"
  }

  /** A route asks for its own area's scopes, and the write scope is always one of them. */
  lemma RoutesAskForTheirArea(path: string, verb: string)
    requires Guarded(path)
    ensures forall r :: r in RequiredScopes(path, verb) ==> IsScopeOf(r, Area(path))
    ensures Area(path) + ":write" in RequiredScopes(path, verb)
  {
    assert "auth" + ":write" == "auth:write";
    assert "payments" + ":read" == "payments:read" && "payments" + ":write" == "payments:write";
    assert "ledger" + ":read" == "ledger:read" && "ledger" + ":write" == "ledger:write";
    assert "webhooks" + ":read" == "webhooks:read" && "webhooks" + ":write" == "webhooks:write";
    var required := RequiredScopes(path, verb);
    assert required[|required| - 1] == Area(path) + ":write";
    OneOrTwo(path, verb);
  }

  lemma OneOrTwo(path: string, verb: string)
    ensures |RequiredScopes(path, verb)| <= 2
  {
  }

  /** A scope determines its area, and whether it is for reading. */
  lemma ScopesDiffer(area: string, other: string)
    ensures area + ":read" != other + ":write"
    ensures area + ":read" == other + ":read" || area + ":write" == other + ":write" ==> area == other
  {
    assert (area + ":read")[|area + ":read"| - 1] == 'd' && (other + ":write")[|other + ":write"| - 1] == 'e';
    if area + ":read" == other + ":read" {
      assert area == (area + ":read")[..|area|] && other == (other + ":read")[..|other|];
    }
    if area + ":write" == other + ":write" {
      assert area == (area + ":write")[..|area|] && other == (other + ":write")[..|other|];
    }
  }

  /** A key with a single scope other than full and admin is good for the guarded routes of one area at
      most, whatever the scope and the paths are. */
  lemma OneAreaPerScope(item: string, path: string, verb: string, otherPath: string, otherVerb: string)
    requires Plain(item) && item != "full" && item != "admin" && Guarded(path) && Guarded(otherPath)
    requires Authorized(item, path, verb) && Authorized(item, otherPath, otherVerb)
    ensures Area(path) == Area(otherPath)
  {
    AuthorizedBySingle(item, path, verb);
    AuthorizedBySingle(item, otherPath, otherVerb);
    RoutesAskForTheirArea(path, verb);
    RoutesAskForTheirArea(otherPath, otherVerb);
    ScopesDiffer(Area(path), Area(otherPath));
    ScopesDiffer(Area(otherPath), Area(path));
  }

  /** An area's write scope is good for every route that its read scope is good for. */
  lemma WriteCoversRead(area: string, path: string, verb: string)
    requires Plain(area + ":read") && Plain(area + ":write") && Authorized(area + ":read", path, verb)
    ensures Authorized(area + ":write", path, verb)
  {
    NotSpecial(area);
    AuthorizedBySingle(area + ":read", path, verb);
    AuthorizedBySingle(area + ":write", path, verb);
    if Guarded(path) {
      RoutesAskForTheirArea(path, verb);
      ScopesDiffer(area, Area(path));
    }
  }

  lemma AreaIsPlain(path: string)
    ensures Plain(Area(path) + ":read") && Plain(Area(path) + ":write")
  {
  }

  /** Which routes the scopes of an area open: the write scope opens all routes of its area for every
      verb; the read scope opens balances for every verb, payments and webhooks for GET alone, and
      nothing else. */
  lemma RouteAccess(path: string, verb: string)
    requires Guarded(path)
    ensures Authorized(Area(path) + ":write", path, verb)
    ensures Authorized(Area(path) + ":read", path, verb)
            <==> "/v1/balance" <= path || (verb == "GET" && ("/v1/payments" <= path || "/v1/webhooks" <= path))
  {
    AreaIsPlain(path);
    NotSpecial(Area(path));
    RoutesAskForTheirArea(path, verb);
    AuthorizedBySingle(Area(path) + ":write", path, verb);
    AuthorizedBySingle(Area(path) + ":read", path, verb);
    ReadIsRequired(path, verb);
  }

  lemma ReadIsRequired(path: string, verb: string)
    requires Guarded(path)
    ensures Area(path) + ":read" in RequiredScopes(path, verb)
            <==> "/v1/balance" <= path || (verb == "GET" && ("/v1/payments" <= path || "/v1/webhooks" <= path))
  {
    RoutesDiffer(path);
    ScopesDiffer(Area(path), Area(path));
    assert "auth" + ":write" == "auth:write";
    assert "payments" + ":read" == "payments:read" && "payments" + ":write" == "payments:write";
    assert "ledger" + ":read" == "ledger:read" && "ledger" + ":write" == "ledger:write";
    assert "webhooks" + ":read" == "webhooks:read" && "webhooks" + ":write" == "webhooks:write";
    var required := RequiredScopes(path, verb);
    assert required[|required| - 1] == Area(path) + ":write";
    assert |required| == 2 ==> required[0] == Area(path) + ":read";
    OneOrTwo(path, verb);
  }

  /** No path lies under two of the routes. */
  lemma RoutesDiffer(path: string)
    ensures "/v1/auth" <= path ==> !("/v1/payments" <= path) && !("/v1/balance" <= path) && !("/v1/webhooks" <= path)
    ensures "/v1/payments" <= path ==> !("/v1/balance" <= path) && !("/v1/transactions" <= path) && !("/v1/webhooks" <= path)
    ensures "/v1/transactions" <= path ==> !("/v1/balance" <= path) && !("/v1/webhooks" <= path)
  {
    assert "/v1/auth" <= path ==> path[4] == 'a';
    assert "/v1/payments" <= path ==> path[4] == 'p';
    assert "/v1/balance" <= path ==> path[4] == 'b';
    assert "/v1/transactions" <= path ==> path[4] == 't';
    assert "/v1/webhooks" <= path ==> path[4] == 'w';
  }

  /** A key with the full or the admin scope passes everywhere; a key without a scope only where
      nothing is asked for. */
  lemma SpecialAccess(path: string, verb: string)
    ensures Authorized("full", path, verb) && Authorized("admin", path, verb)
    ensures Authorized("", path, verb) <==> !Guarded(path)
  {
    PlainSpecial();
    SingleScope("full", RequiredScopes(path, verb));
    SingleScope("admin", RequiredScopes(path, verb));
    NoScope(RequiredScopes(path, verb));
  }

  lemma PlainSpecial()
    ensures Plain("full") && Plain("admin")
  {
  }

  lemma NoScope(required: seq<string>)
    ensures !HasAnyScope("", required)
  {
    assert Pieces("", IsGatewaySeparator) == [""];
    assert [""][1..] == [] && Trim("") == "";
    assert TrimmedItems([""]) == [];
  }

  lemma NotSpecial(area: string)
    ensures area + ":read" !in {"full", "admin"} && area + ":write" !in {"full", "admin"}
  {
    assert (area + ":read")[|area|] == ':' && (area + ":write")[|area|] == ':';
  }
}
