/** The canonical scope string of an API key: NormalizeScope, which parses, checks, deduplicates,
    sorts and prints it, and the reader on the other side, the gateway's hasAnyScope. */
module Scopes {
  import opened GoText

  // ---------- names ----------

  /** The allowed scopes but for "full", in the order of strings. */
  const NAMES: seq<string> := [
    "admin", "auth:write", "ledger:read", "ledger:write",
    "payments:read", "payments:write", "webhooks:read", "webhooks:write"]

  predicate Allowed(item: string) {
    item == "full" || item in NAMES
  }

  datatype Result = Ok(scope: string) | InvalidScope(item: string)

  // ---------- text ----------

  /** Lower case, as far as scope names can tell: besides the capital letters, a dotted capital I and
      the Kelvin sign have lower-case forms among the ASCII letters, and no other character has. */
  function Lower(c: char): char {
    if 'A' <= c <= 'Z' then ((c as int) + 32) as char
    else if c == '\U{0130}' then 'i'
    else if c == '\U{212A}' then 'k'
    else c
  }

  function ToLower(s: string): (r: string)
    ensures |r| == |s| && forall i :: 0 <= i < |s| ==> r[i] == Lower(s[i])
  {
    seq(|s|, i requires 0 <= i < |s| => Lower(s[i]))
  }

  /** The separators of splitScopes. */
  predicate IsSeparator(c: char) {
    c == ',' || c == ' ' || c == '\t' || c == '\n' || c == '\r'
  }

  /** What \s and trim take as white space on the gateway's side, and the comma. */
  predicate IsGatewaySpace(c: char) {
    || '\U{0009}' <= c <= '\U{000D}' || c == ' ' || c == '\U{00A0}' || c == '\U{1680}'
    || '\U{2000}' <= c <= '\U{200A}' || c == '\U{2028}' || c == '\U{2029}' || c == '\U{202F}'
    || c == '\U{205F}' || c == '\U{3000}' || c == '\U{FEFF}'
  }

  predicate IsGatewaySeparator(c: char) {
    c == ',' || IsGatewaySpace(c)
  }

  /** How many of the first characters are, or are not, separators. */
  function Span(s: string, sep: char -> bool, seps: bool): (n: nat)
    ensures n <= |s|
    ensures forall i :: 0 <= i < n ==> sep(s[i]) == seps
    ensures n < |s| ==> sep(s[n]) != seps
  {
    if s == "" || sep(s[0]) != seps then 0 else 1 + Span(s[1..], sep, seps)
  }

  /** strings.FieldsFunc: the maximal runs of characters that are not separators. */
  function Fields(s: string, sep: char -> bool): seq<string>
    decreases |s|
  {
    var rest := s[Span(s, sep, true)..];
    if rest == "" then []
    else
      var n := Span(rest, sep, false);
      [rest[..n]] + Fields(rest[n..], sep)
  }

  /** JavaScript's split at runs of separators: a leading or trailing run leaves an empty piece. */
  function Pieces(s: string, sep: char -> bool): seq<string>
    decreases |s|
  {
    var n := Span(s, sep, false);
    if n == |s| then [s] else [s[..n]] + Pieces(s[n..][Span(s[n..], sep, true)..], sep)
  }

  /** JavaScript's trim. */
  function Trim(s: string): (r: string)
    ensures s != "" && !IsGatewaySpace(s[0]) && !IsGatewaySpace(s[|s| - 1]) ==> r == s
    decreases |s|
  {
    if s != "" && IsGatewaySpace(s[0]) then Trim(s[1..])
    else if s != "" && IsGatewaySpace(s[|s| - 1]) then Trim(s[..|s| - 1])
    else s
  }

  function Join(items: seq<string>): string {
    if items == [] then "" else if |items| == 1 then items[0] else items[0] + " " + Join(items[1..])
  }

  // ---------- splitScopes ----------

  function Item(part: string): string {
    TrimSpace(ToLower(part))
  }

  function NonEmptyItems(parts: seq<string>): seq<string> {
    if parts == [] then []
    else
      var last := Item(parts[|parts| - 1]);
      NonEmptyItems(parts[..|parts| - 1]) + (if last != "" then [last] else [])
  }

  /** The items of a scope string. */
  function Items(scope: string): seq<string> {
    NonEmptyItems(Fields(scope, IsSeparator))
  }

  lemma OneMorePart(parts: seq<string>, i: nat)
    requires i < |parts|
    ensures var item := Item(parts[i]);
            NonEmptyItems(parts[..i + 1]) == NonEmptyItems(parts[..i]) + (if item != "" then [item] else [])
  {
    assert parts[..i + 1][..i] == parts[..i];
  }

  method SplitScopes(scope: string) returns (items: seq<string>)
    ensures items == Items(scope)
  {
    var parts := Fields(scope, IsSeparator);
    items := [];
    for i := 0 to |parts|
      invariant items == NonEmptyItems(parts[..i])
    {
      OneMorePart(parts, i);
      var item := Item(parts[i]);
      if item != "" {
        items := items + [item];
      }
    }
    assert parts[..|parts|] == parts;
  }

  // ---------- what the scope string should be ----------

  function SetOf(items: seq<string>): set<string> {
    set i | 0 <= i < |items| :: items[i]
  }

  /** Every item up to the first "full" is allowed. */
  predicate Acceptable(items: seq<string>) {
    forall i :: 0 <= i < |items| && (forall j :: 0 <= j < i ==> items[j] != "full") ==> Allowed(items[i])
  }

  /** The first item that is not allowed. */
  function FirstInvalid(items: seq<string>): string {
    if items == [] then "" else if !Allowed(items[0]) then items[0] else FirstInvalid(items[1..])
  }

  /** The names in a set, in order. */
  function Listed(names: seq<string>, chosen: set<string>): seq<string> {
    if names == [] then []
    else (if names[0] in chosen then [names[0]] else []) + Listed(names[1..], chosen)
  }

  /** The canonical string of a set of scopes. The empty set stands for "full". */
  function Canonical(chosen: set<string>): string {
    if chosen == {} || "full" in chosen then "full" else Join(Listed(NAMES, chosen))
  }

  /** What a scope string is normalized to. */
  function Normalize(scope: string): Result {
    var items := Items(scope);
    if Acceptable(items) then Ok(Canonical(SetOf(items))) else InvalidScope(FirstInvalid(items))
  }

  // ---------- the order of strings ----------

  predicate Less(a: string, b: string) {
    if b == "" then false
    else if a == "" then true
    else a[0] < b[0] || (a[0] == b[0] && Less(a[1..], b[1..]))
  }

  predicate StrictlySorted(items: seq<string>) {
    forall i, j :: 0 <= i < j < |items| ==> Less(items[i], items[j])
  }

  lemma {:induction false} LessIsTransitive(a: string, b: string, c: string)
    requires Less(a, b) && Less(b, c)
    ensures Less(a, c)
  {
    if a != "" && a[0] == b[0] == c[0] {
      LessIsTransitive(a[1..], b[1..], c[1..]);
    }
  }

  lemma {:induction false} LessIsIrreflexive(a: string)
    ensures !Less(a, a)
  {
    if a != "" { LessIsIrreflexive(a[1..]); }
  }

  lemma {:induction false} LessIsTotal(a: string, b: string)
    ensures a == b || Less(a, b) || Less(b, a)
  {
    if a != "" && b != "" && a[0] == b[0] {
      LessIsTotal(a[1..], b[1..]);
      if a[1..] == b[1..] { assert a == [a[0]] + a[1..] && b == [b[0]] + b[1..]; }
    }
  }

  /** Where an item belongs in a sorted list. */
  function Insert(sorted: seq<string>, item: string): seq<string> {
    if sorted == [] || Less(item, sorted[0]) then [item] + sorted
    else [sorted[0]] + Insert(sorted[1..], item)
  }

  /** sort.Strings */
  function Sort(items: seq<string>): seq<string> {
    if items == [] then [] else Insert(Sort(items[..|items| - 1]), items[|items| - 1])
  }

  lemma InsertKeepsSet(sorted: seq<string>, item: string)
    ensures SetOf(Insert(sorted, item)) == SetOf(sorted) + {item}
  {
    if sorted != [] && !Less(item, sorted[0]) {
      InsertKeepsSet(sorted[1..], item);
      assert SetOf(sorted) == {sorted[0]} + SetOf(sorted[1..]) by { SetOfCons(sorted); }
      SetOfCons(Insert(sorted, item));
    } else {
      SetOfCons(Insert(sorted, item));
    }
  }

  lemma HeadIsIn(items: seq<string>)
    ensures items != [] ==> items[0] in SetOf(items)
  {
  }

  lemma SetOfCons(items: seq<string>)
    requires items != []
    ensures SetOf(items) == {items[0]} + SetOf(items[1..])
  {
    forall i | 0 <= i < |items| ensures items[i] in {items[0]} + SetOf(items[1..]) {
      if i > 0 { assert items[i] == items[1..][i - 1]; }
    }
    forall i | 0 <= i < |items| - 1 ensures items[1..][i] in SetOf(items) { assert items[1..][i] == items[i + 1]; }
  }

  lemma SetOfSnoc(items: seq<string>, item: string)
    ensures SetOf(items + [item]) == SetOf(items) + {item}
  {
    var all := items + [item];
    forall i | 0 <= i < |items| ensures items[i] in SetOf(all) { assert items[i] == all[i]; }
    assert all[|items|] == item;
  }

  lemma ConsStaysSorted(first: string, rest: seq<string>)
    requires StrictlySorted(rest) && (rest != [] ==> Less(first, rest[0]))
    ensures StrictlySorted([first] + rest)
  {
    forall j | 0 <= j < |rest| ensures Less(first, rest[j]) {
      if j > 0 { LessIsTransitive(first, rest[0], rest[j]); }
    }
  }

  lemma {:induction false} InsertStaysSorted(sorted: seq<string>, item: string)
    requires StrictlySorted(sorted) && item !in sorted
    ensures StrictlySorted(Insert(sorted, item))
  {
    if sorted == [] || Less(item, sorted[0]) {
      ConsStaysSorted(item, sorted);
    } else {
      LessIsTotal(item, sorted[0]);
      InsertStaysSorted(sorted[1..], item);
      ConsStaysSorted(sorted[0], Insert(sorted[1..], item));
    }
  }

  predicate Distinct(items: seq<string>) {
    forall i, j :: 0 <= i < j < |items| ==> items[i] != items[j]
  }

  lemma {:induction false} SortSorts(items: seq<string>)
    requires Distinct(items)
    ensures StrictlySorted(Sort(items)) && SetOf(Sort(items)) == SetOf(items)
  {
    if items != [] {
      var n := |items| - 1;
      SortSorts(items[..n]);
      var sorted, item := Sort(items[..n]), items[n];
      assert items[..n] + [item] == items;
      SetOfSnoc(items[..n], item);
      InsertKeepsSet(sorted, item);
      HeadIsIn(sorted);
      InsertStaysSorted(sorted, item);
    }
  }

  /** A strictly sorted list is determined by its elements. */
  lemma {:induction false} SortedIsUnique(a: seq<string>, b: seq<string>)
    requires StrictlySorted(a) && StrictlySorted(b) && SetOf(a) == SetOf(b)
    ensures a == b
  {
    HeadIsIn(a);
    HeadIsIn(b);
    if a != [] {
      FirstIsLeast(a, b);
      FirstIsLeast(b, a);
      LessIsTotal(a[0], b[0]);
      if Less(a[0], b[0]) { LessIsTransitive(a[0], b[0], a[0]); LessIsIrreflexive(a[0]); }
      RestOfSorted(a);
      RestOfSorted(b);
      SortedIsUnique(a[1..], b[1..]);
      assert a == [a[0]] + a[1..] && b == [b[0]] + b[1..];
    }
  }

  lemma FirstIsLeast(a: seq<string>, b: seq<string>)
    requires a != [] && b != [] && StrictlySorted(b) && SetOf(a) == SetOf(b)
    ensures a[0] == b[0] || Less(b[0], a[0])
  {
    assert a[0] in SetOf(a);
    var i :| 0 <= i < |b| && b[i] == a[0];
  }

  lemma RestOfSorted(a: seq<string>)
    requires a != [] && StrictlySorted(a)
    ensures StrictlySorted(a[1..]) && SetOf(a[1..]) == SetOf(a) - {a[0]}
  {
    SetOfCons(a);
    forall i | 0 <= i < |a| - 1 ensures a[1..][i] != a[0] {
      LessIsIrreflexive(a[0]);
    }
  }

  // ---------- the list of names ----------

  lemma {:induction false} ListedIsSorted(names: seq<string>, chosen: set<string>)
    requires StrictlySorted(names)
    ensures StrictlySorted(Listed(names, chosen))
    ensures SetOf(Listed(names, chosen)) == SetOf(names) * chosen
  {
    if names != [] {
      RestOfSorted(names);
      ListedIsSorted(names[1..], chosen);
      var rest := Listed(names[1..], chosen);
      SetOfCons(names);
      if names[0] in chosen {
        SetOfCons([names[0]] + rest);
        if rest != [] { FirstBelow(names, rest); }
        ConsStaysSorted(names[0], rest);
      } else {
        assert Listed(names, chosen) == rest;
      }
    }
  }

  lemma FirstBelow(names: seq<string>, rest: seq<string>)
    requires StrictlySorted(names) && names != [] && rest != [] && SetOf(rest) <= SetOf(names[1..])
    ensures Less(names[0], rest[0])
  {
    assert rest[0] in SetOf(rest);
    var i :| 0 <= i < |names[1..]| && names[1..][i] == rest[0];
    assert rest[0] == names[i + 1];
  }

  lemma {:induction false} LessAfter(prefix: string, a: string, b: string)
    requires Less(a, b)
    ensures Less(prefix + a, prefix + b)
  {
    if prefix == "" {
      assert prefix + a == a && prefix + b == b;
    } else {
      LessAfter(prefix[1..], a, b);
      assert (prefix + a)[1..] == prefix[1..] + a && (prefix + b)[1..] == prefix[1..] + b;
    }
  }

  lemma {:induction false} SortedByNeighbours(items: seq<string>)
    requires forall i :: 0 <= i < |items| - 1 ==> Less(items[i], items[i + 1])
    ensures StrictlySorted(items)
  {
    if |items| > 1 {
      forall i | 0 <= i < |items| - 2 ensures Less(items[1..][i], items[1..][i + 1]) {
        assert items[1..][i] == items[i + 1] && items[1..][i + 1] == items[i + 2];
      }
      SortedByNeighbours(items[1..]);
      ConsStaysSorted(items[0], items[1..]);
      assert [items[0]] + items[1..] == items;
    }
  }

  lemma AdminBeforeAuth()
    ensures Less("admin", "auth:write")
  {
    LessAfter("a", "dmin", "uth:write");
    assert "a" + "dmin" == "admin" && "a" + "uth:write" == "auth:write";
  }

  lemma LedgerInOrder()
    ensures Less("ledger:read", "ledger:write")
  {
    LessAfter("ledger:", "read", "write");
    assert "ledger:" + "read" == "ledger:read" && "ledger:" + "write" == "ledger:write";
  }

  lemma PaymentsInOrder()
    ensures Less("payments:read", "payments:write")
  {
    LessAfter("payments:", "read", "write");
    assert "payments:" + "read" == "payments:read" && "payments:" + "write" == "payments:write";
  }

  lemma WebhooksInOrder()
    ensures Less("webhooks:read", "webhooks:write")
  {
    LessAfter("webhooks:", "read", "write");
    assert "webhooks:" + "read" == "webhooks:read" && "webhooks:" + "write" == "webhooks:write";
  }

  lemma AreasInOrder()
    ensures Less("auth:write", "ledger:read") && Less("ledger:write", "payments:read") && Less("payments:write", "webhooks:read")
  {
  }

  lemma EightInOrder(a: string, b: string, c: string, d: string, e: string, f: string, g: string, h: string)
    requires Less(a, b) && Less(b, c) && Less(c, d) && Less(d, e) && Less(e, f) && Less(f, g) && Less(g, h)
    ensures StrictlySorted([a, b, c, d, e, f, g, h])
  {
    SortedByNeighbours([a, b, c, d, e, f, g, h]);
  }

  lemma NamesAreSorted()
    ensures StrictlySorted(NAMES)
  {
    AdminBeforeAuth();
    LedgerInOrder();
    PaymentsInOrder();
    WebhooksInOrder();
    AreasInOrder();
    EightInOrder("admin", "auth:write", "ledger:read", "ledger:write",
                 "payments:read", "payments:write", "webhooks:read", "webhooks:write");
  }
}
