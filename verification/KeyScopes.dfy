/** From the scope a key was asked for to what the gateway lets it do: the scope is normalized when the
    key is created, stored, cached, reported by validations, and parsed again by the gateway. */
module KeyScopes {
  import opened GoText
  import opened Scopes
  import opened AuthGuard
  import opened KeyCacheProtocol
  import opened Runs
  import KT = KeyCacheTheorems
  import ST = ScopeTheorems

  /** What the handler stores for the scope asked for; 0 if it rejects the request. */
  function StoredScope(asked: Symbol): Symbol {
    match Normalize(Chars(asked))
    case Ok(scope) => Intern(scope)
    case InvalidScope(_) => 0
  }

  /** A normal form is never empty, so what is stored is 0 only for a rejected scope. */
  lemma NormalFormIsNotEmpty(asked: Symbol)
    ensures StoredScope(asked) != 0 <==> Normalize(Chars(asked)).Ok?
  {
    if Normalize(Chars(asked)).Ok? {
      var chosen := SetOf(Items(Chars(asked)));
      ST.AcceptedItems(Items(Chars(asked)));
      ST.PrintedIsMeaning(ST.Meaning(chosen));
      ST.JoinOfPlainIsNotEmpty(ST.Printed(ST.Meaning(chosen)));
    }
  }

  /** Step n of the run created the key with this hash, and this is the scope it was asked for. */
  ghost predicate CreatedAt(start: int, actions: seq<Action>, hash: Symbol, asked: Symbol, n: nat)
    requires n < |actions|
  {
    && actions[n].CreateKey? && actions[n].key.hash == hash && actions[n].asked == asked
    && hash !in Reach(StoredScope, start, actions[..n]).byHash
    && hash in Reach(StoredScope, start, actions[..n + 1]).byHash
  }

  ghost predicate CreatedFor(start: int, actions: seq<Action>, hash: Symbol, scope: Symbol) {
    exists n, asked :: 0 <= n < |actions| && CreatedAt(start, actions, hash, asked, n) && scope == StoredScope(asked) != 0
  }

  lemma NewHash(s: State, a: Action, hash: Symbol)
    requires hash !in s.byHash && hash in Step(s, a).byHash
    ensures var s' := Step(s, a);
            && a.CreateKey? && a.key.hash == hash && s'.byHash[hash] in s'.keys
            && s'.keys[s'.byHash[hash]].scope == s.normalize(a.asked) != 0
  {
  }

  lemma OldHash(s: State, a: Action, hash: Symbol)
    requires hash in s.byHash && s.byHash[hash] in s.keys
    ensures var s' := Step(s, a);
            && hash in s'.byHash && s'.byHash[hash] in s'.keys
            && s'.keys[s'.byHash[hash]].scope == s.keys[s.byHash[hash]].scope
  {
  }

  lemma NormalizeStays(start: int, actions: seq<Action>)
    ensures Reach(StoredScope, start, actions).normalize == StoredScope
  {
    KT.Later(StoredScope, start, [], actions);
  }

  lemma CreationStays(start: int, actions: seq<Action>, last: Action, hash: Symbol, scope: Symbol)
    requires CreatedFor(start, actions, hash, scope)
    ensures CreatedFor(start, actions + [last], hash, scope)
  {
    var all := actions + [last];
    var n, asked :| 0 <= n < |actions| && CreatedAt(start, actions, hash, asked, n) && scope == StoredScope(asked) != 0;
    assert all[..n] == actions[..n] && all[..n + 1] == actions[..n + 1] && all[n] == actions[n];
    assert CreatedAt(start, all, hash, asked, n);
  }

  /** Every key's scope is the normal form of what was asked for when it was created. */
  lemma {:induction false} KeysWereCreated(start: int, actions: seq<Action>, hash: Symbol)
    requires hash in Reach(StoredScope, start, actions).byHash
    ensures var s := Reach(StoredScope, start, actions);
            s.byHash[hash] in s.keys && CreatedFor(start, actions, hash, s.keys[s.byHash[hash]].scope)
    decreases |actions|
  {
    var n := |actions| - 1;
    var before, last := actions[..n], actions[n];
    var s := Reach(StoredScope, start, before);
    assert before + [last] == actions && actions[..n + 1] == actions;
    if hash in s.byHash {
      KeysWereCreated(start, before, hash);
      OldHash(s, last, hash);
      CreationStays(start, before, last, hash, s.keys[s.byHash[hash]].scope);
    } else {
      NormalizeStays(start, before);
      NewHash(s, last, hash);
      assert CreatedAt(start, actions, hash, last.asked, n);
    }
  }

  /** Whatever scope an accepted validation reports, from the cache or past it, the gateway grants with
      it, on every route, exactly what the scope string grants that the key was created with. */
  lemma GatewayGrantsWhatKeyWasCreatedWith(start: int, actions: seq<Action>, v: nat) returns (n: nat, asked: Symbol)
    requires var s := Reach(StoredScope, start, actions);
             v in s.validations && s.validations[v].pc.Done? && s.validations[v].pc.result.Accepted?
    ensures var validation := Reach(StoredScope, start, actions).validations[v];
            && n < |actions| && CreatedAt(start, actions, validation.hash, asked, n)
            && Normalize(Chars(asked)).Ok?
            && Chars(validation.pc.result.scope) == Normalize(Chars(asked)).scope
    ensures var scope := Chars(Reach(StoredScope, start, actions).validations[v].pc.result.scope);
            forall path, verb :: Authorized(scope, path, verb)
              <==> RequiredScopes(path, verb) == [] || ST.Grants(ST.Meaning(SetOf(Items(Chars(asked)))), RequiredScopes(path, verb))
  {
    var s := Reach(StoredScope, start, actions);
    var validation := s.validations[v];
    KT.ReachableIsGood(StoredScope, start, actions);
    assert KT.ValidationOk(s, validation);
    KeysWereCreated(start, actions, validation.hash);
    n, asked :| 0 <= n < |actions| && CreatedAt(start, actions, validation.hash, asked, n)
                && validation.pc.result.scope == StoredScope(asked) != 0;
    NormalFormIsNotEmpty(asked);
    CharsOfIntern(Normalize(Chars(asked)).scope);
    forall path, verb ensures Authorized(Normalize(Chars(asked)).scope, path, verb)
      <==> RequiredScopes(path, verb) == [] || ST.Grants(ST.Meaning(SetOf(Items(Chars(asked)))), RequiredScopes(path, verb))
    {
      ST.AuthorizedIff(Chars(asked), path, verb);
    }
  }
}
