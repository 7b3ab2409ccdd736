/** NormalizeScope as it is written, and what is true of its results on both sides: in the auth
    service, where it is applied again, and in the gateway, which parses them on its own. */
module ScopeNormalizer {
  import opened GoText
  import opened Scopes

  /** Sorting the distinct items gives the allowed names in their order, as far as chosen. */
  lemma SortedIsCanonical(normalized: seq<string>)
    requires Distinct(normalized) && normalized != [] && SetOf(normalized) <= SetOf(NAMES)
    requires "full" !in SetOf(normalized)
    ensures Join(Sort(normalized)) == Canonical(SetOf(normalized))
  {
    HeadIsIn(normalized);
    SortSorts(normalized);
    NamesAreSorted();
    ListedIsSorted(NAMES, SetOf(normalized));
    SortedIsUnique(Sort(normalized), Listed(NAMES, SetOf(normalized)));
  }

  lemma {:induction false} FirstInvalidAt(items: seq<string>, i: nat)
    requires i < |items| && !Allowed(items[i]) && forall j :: 0 <= j < i ==> Allowed(items[j])
    ensures FirstInvalid(items) == items[i]
  {
    if i > 0 { FirstInvalidAt(items[1..], i - 1); }
  }

  /** What the loop has seen of the items. */
  predicate SeenSoFar(items: seq<string>, i: nat, seen: set<string>, normalized: seq<string>)
    requires i <= |items|
  {
    && seen == SetOf(items[..i]) && seen == SetOf(normalized) && Distinct(normalized)
    && (forall j :: 0 <= j < i ==> items[j] != "full" && Allowed(items[j]))
  }

  lemma OneMoreItem(items: seq<string>, i: nat, seen: set<string>, normalized: seq<string>)
    requires i < |items| && SeenSoFar(items, i, seen, normalized) && items[i] != "full" && Allowed(items[i])
    ensures if items[i] in seen then SeenSoFar(items, i + 1, seen, normalized)
            else SeenSoFar(items, i + 1, seen + {items[i]}, normalized + [items[i]])
  {
    assert items[..i + 1] == items[..i] + [items[i]];
    SetOfSnoc(items[..i], items[i]);
    SetOfSnoc(normalized, items[i]);
    if items[i] in seen {
      assert seen + {items[i]} == seen;
    } else {
      forall j | 0 <= j < |normalized| ensures normalized[j] != items[i] { assert normalized[j] in SetOf(normalized); }
    }
  }

  lemma AllSeen(items: seq<string>, seen: set<string>, normalized: seq<string>)
    requires items != [] && SeenSoFar(items, |items|, seen, normalized)
    ensures Acceptable(items) && Join(Sort(normalized)) == Canonical(SetOf(items))
  {
    assert items[..|items|] == items;
    HeadIsIn(items);
    assert normalized != [];
    forall item | item in seen ensures item in SetOf(NAMES) && item != "full" {
      var j :| 0 <= j < |items| && items[j] == item;
      var k :| 0 <= k < |NAMES| && NAMES[k] == item;
      assert NAMES[k] in SetOf(NAMES);
    }
    SortedIsCanonical(normalized);
  }

  /** NormalizeScope. */
  method NormalizeScope(scope: string) returns (r: Result)
    ensures r == Normalize(scope)
  {
    var items := SplitScopes(scope);
    if |items| == 0 {
      return Ok("full");
    }
    var seen: set<string>, normalized: seq<string> := {}, [];
    for i := 0 to |items|
      invariant SeenSoFar(items, i, seen, normalized)
    {
      var item := items[i];
      if !Allowed(item) {
        FirstInvalidAt(items, i);
        return InvalidScope(item);
      }
      if item == "full" {
        assert "full" in SetOf(items);
        return Ok("full");
      }
      OneMoreItem(items, i, seen, normalized);
      if item !in seen {
        seen, normalized := seen + {item}, normalized + [item];
      }
    }
    AllSeen(items, seen, normalized);
    return Ok(Join(Sort(normalized)));
  }
}
