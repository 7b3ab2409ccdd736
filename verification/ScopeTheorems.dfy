/** What is true of normalized scope strings: they are canonical, they are their own normal form, they
    fit their column, and the gateway's reader, which splits and trims by other rules than the
    writer, grants on them exactly what the caller asked for. */
module ScopeTheorems {
  import opened GoText
  import opened Scopes
  import opened AuthGuard

  // ---------- printed lists are read back ----------

  predicate Word(w: string, sep: char -> bool) {
    w != "" && forall i :: 0 <= i < |w| ==> !sep(w[i])
  }

  predicate Words(items: seq<string>, sep: char -> bool) {
    forall i :: 0 <= i < |items| ==> Word(items[i], sep)
  }

  lemma {:induction false} SpanIs(s: string, sep: char -> bool, seps: bool, n: nat)
    requires n <= |s| && (forall i :: 0 <= i < n ==> sep(s[i]) == seps) && (n < |s| ==> sep(s[n]) != seps)
    ensures Span(s, sep, seps) == n
  {
    if n > 0 { SpanIs(s[1..], sep, seps, n - 1); }
  }

  lemma JoinStartsWithWord(items: seq<string>, sep: char -> bool)
    requires items != [] && Words(items, sep)
    ensures Join(items) != "" && !sep(Join(items)[0])
  {
    assert Word(items[0], sep);
  }

  /** A word is cut off where the space after it, or the end, is. */
  lemma SpanOfWord(w: string, tail: string, sep: char -> bool)
    requires Word(w, sep) && (tail != "" ==> sep(tail[0]))
    ensures Span(w + tail, sep, true) == 0 && Span(w + tail, sep, false) == |w|
    ensures (w + tail)[..|w|] == w && (w + tail)[|w|..] == tail
  {
    SpanIs(w + tail, sep, true, 0);
    SpanIs(w + tail, sep, false, |w|);
  }

  lemma SpanOfSpace(s: string, sep: char -> bool)
    requires s != "" && sep(' ') && !sep(s[0])
    ensures Span(" " + s, sep, true) == 1 && (" " + s)[1..] == s
  {
    SpanIs(" " + s, sep, true, 1);
  }

  lemma FieldsOfWord(w: string, tail: string, sep: char -> bool)
    requires Word(w, sep) && (tail != "" ==> sep(tail[0]))
    ensures Fields(w + tail, sep) == [w] + Fields(tail, sep)
  {
    SpanOfWord(w, tail, sep);
    assert (w + tail)[0..] == w + tail;
  }

  lemma FieldsAfterSpace(s: string, sep: char -> bool)
    requires s != "" && sep(' ') && !sep(s[0])
    ensures Fields(" " + s, sep) == Fields(s, sep)
  {
    SpanOfSpace(s, sep);
    SpanIs(s, sep, true, 0);
    assert s[0..] == s;
  }

  lemma FieldsOfNothing(sep: char -> bool)
    ensures Fields("", sep) == []
  {
  }

  lemma JoinOfMany(items: seq<string>)
    requires |items| > 1
    ensures Join(items) == items[0] + (" " + Join(items[1..])) && items == [items[0]] + items[1..]
  {
  }

  /** What Go's FieldsFunc makes of a printed list is the list. */
  lemma {:induction false} FieldsOfJoin(items: seq<string>, sep: char -> bool)
    requires Words(items, sep) && sep(' ')
    ensures Fields(Join(items), sep) == items
  {
    FieldsOfNothing(sep);
    if |items| == 1 {
      assert Word(items[0], sep);
      assert Join(items) == items[0] + "";
      FieldsOfWord(items[0], "", sep);
    } else if items != [] {
      var rest := items[1..];
      assert Word(items[0], sep);
      FieldsOfJoin(rest, sep);
      JoinStartsWithWord(rest, sep);
      JoinOfMany(items);
      FieldsOfWord(items[0], " " + Join(rest), sep);
      FieldsAfterSpace(Join(rest), sep);
    }
  }

  /** And so is what JavaScript's split makes of it. */
  lemma {:induction false} PiecesOfJoin(items: seq<string>, sep: char -> bool)
    requires Words(items, sep) && sep(' ') && items != []
    ensures Pieces(Join(items), sep) == items
  {
    var w, rest := items[0], items[1..];
    assert Word(w, sep);
    if rest == [] {
      SpanOfWord(w, "", sep);
      assert w + "" == Join(items);
    } else {
      PiecesOfJoin(rest, sep);
      JoinStartsWithWord(rest, sep);
      SpanOfWord(w, " " + Join(rest), sep);
      SpanOfSpace(Join(rest), sep);
      assert w + (" " + Join(rest)) == Join(items);
    }
  }

  // ---------- scope names are plain words ----------

  predicate Plain(w: string) {
    w != "" && forall i :: 0 <= i < |w| ==> 'a' <= w[i] <= 'z' || w[i] == ':'
  }

  lemma PlainIsWord(w: string)
    requires Plain(w)
    ensures Word(w, IsSeparator) && Word(w, IsGatewaySeparator) && Item(w) == w && Trim(w) == w
  {
    assert ToLower(w) == w;
    assert !IsSpace(w[0]) && !IsSpace(w[|w| - 1]);
    assert !IsGatewaySpace(w[0]) && !IsGatewaySpace(w[|w| - 1]);
  }

  lemma PlainAuth()
    ensures Plain("full") && Plain("admin") && Plain("auth:write")
  {
  }

  lemma PlainLedger()
    ensures Plain("ledger:read") && Plain("ledger:write")
  {
  }

  lemma PlainPayments()
    ensures Plain("payments:read") && Plain("payments:write")
  {
  }

  lemma PlainWebhooks()
    ensures Plain("webhooks:read") && Plain("webhooks:write")
  {
  }

  lemma NamesArePlain()
    ensures Plain("full") && forall i :: 0 <= i < |NAMES| ==> Plain(NAMES[i])
  {
    PlainAuth();
    PlainLedger();
    PlainPayments();
    PlainWebhooks();
  }

  // ---------- canonical strings are read back as what they stand for ----------

  /** What a set of scopes means: no scope at all means "full", and "full" makes the rest irrelevant. */
  function Meaning(chosen: set<string>): set<string> {
    if chosen == {} || "full" in chosen then {"full"} else chosen
  }

  predicate AllPlain(items: seq<string>) {
    forall i :: 0 <= i < |items| ==> Plain(items[i])
  }

  lemma {:induction false} ListedIsPlain(names: seq<string>, chosen: set<string>)
    requires AllPlain(names)
    ensures AllPlain(Listed(names, chosen))
  {
    if names != [] {
      assert AllPlain(names[1..]);
      ListedIsPlain(names[1..], chosen);
    }
  }

  lemma TakeAllButLast(parts: seq<string>)
    requires parts != []
    ensures parts == parts[..|parts| - 1] + [parts[|parts| - 1]]
  {
  }

  lemma {:induction false} ItemsOfPlain(parts: seq<string>)
    requires AllPlain(parts)
    ensures NonEmptyItems(parts) == parts
  {
    if parts != [] {
      var n := |parts| - 1;
      var rest := parts[..n];
      ItemsOfPlain(rest);
      PlainIsWord(parts[n]);
      TakeAllButLast(parts);
      assert Item(parts[n]) != "";
    }
  }

  lemma {:induction false} TrimmedOfPlain(pieces: seq<string>)
    requires AllPlain(pieces)
    ensures TrimmedItems(pieces) == pieces
  {
    if pieces != [] {
      TrimmedOfPlain(pieces[1..]);
      PlainIsWord(pieces[0]);
      assert pieces == [pieces[0]] + pieces[1..];
    }
  }

  /** A printed list of plain names is read back as that list, by either reader. */
  lemma PrintedIsReadBack(items: seq<string>)
    requires items != [] && AllPlain(items)
    ensures Items(Join(items)) == items
    ensures TrimmedItems(Pieces(Join(items), IsGatewaySeparator)) == items
  {
    forall i | 0 <= i < |items| ensures Word(items[i], IsSeparator) && Word(items[i], IsGatewaySeparator) {
      PlainIsWord(items[i]);
    }
    FieldsOfJoin(items, IsSeparator);
    PiecesOfJoin(items, IsGatewaySeparator);
    ItemsOfPlain(items);
    TrimmedOfPlain(items);
  }

  lemma JoinOfPlainIsNotEmpty(items: seq<string>)
    requires items != [] && AllPlain(items)
    ensures Join(items) != ""
  {
    assert Plain(items[0]);
  }

  /** The list that a canonical string prints. */
  function Printed(chosen: set<string>): seq<string> {
    if chosen == {} || "full" in chosen then ["full"] else Listed(NAMES, chosen)
  }

  lemma PrintedIsMeaning(chosen: set<string>)
    requires chosen <= SetOf(NAMES) + {"full"}
    ensures Canonical(chosen) == Join(Printed(chosen)) && Printed(chosen) != [] && AllPlain(Printed(chosen))
    ensures SetOf(Printed(chosen)) == Meaning(chosen) && StrictlySorted(Printed(chosen))
  {
    NamesArePlain();
    NamesAreSorted();
    ListedIsSorted(NAMES, chosen);
    ListedIsPlain(NAMES, chosen);
    if chosen == {} || "full" in chosen {
      assert SetOf(["full"]) == {"full"} by { assert ["full"][0] == "full"; }
    } else {
      assert SetOf(NAMES) * chosen == chosen;
    }
  }

  // ---------- what accepted input can contain ----------

  /** Items that were accepted are allowed ones, unless "full" cut the check short. */
  lemma AcceptedItems(items: seq<string>)
    requires Acceptable(items)
    ensures Meaning(SetOf(items)) <= SetOf(NAMES) + {"full"}
    ensures Canonical(SetOf(items)) == Canonical(Meaning(SetOf(items)))
  {
    if "full" !in SetOf(items) {
      forall i | 0 <= i < |items| ensures items[i] in SetOf(NAMES) {
        forall j | 0 <= j < i ensures items[j] != "full" { assert items[j] in SetOf(items); }
        assert Allowed(items[i]) && items[i] in SetOf(items);
        var k :| 0 <= k < |NAMES| && NAMES[k] == items[i];
      }
    }
  }

  lemma MeaningOfMeaning(chosen: set<string>)
    ensures Meaning(Meaning(chosen)) == Meaning(chosen)
  {
  }

  /** The normal form of accepted input prints, in order and without repetition, what the input's
      items mean, and both readers read back exactly that. */
  lemma NormalFormIsFaithful(scope: string)
    requires Normalize(scope).Ok?
    ensures var out, meant := Normalize(scope).scope, Meaning(SetOf(Items(scope)));
            && StrictlySorted(Items(out)) && SetOf(Items(out)) == meant
            && TrimmedItems(Pieces(out, IsGatewaySeparator)) == Items(out)
            && out == Join(Items(out))
  {
    var meant := Meaning(SetOf(Items(scope)));
    AcceptedItems(Items(scope));
    PrintedIsMeaning(meant);
    MeaningOfMeaning(SetOf(Items(scope)));
    PrintedIsReadBack(Printed(meant));
  }

  /** A normalized scope string is its own normal form. */
  lemma NormalFormIsFixed(scope: string)
    requires Normalize(scope).Ok?
    ensures Normalize(Normalize(scope).scope) == Normalize(scope)
  {
    var out, meant := Normalize(scope).scope, Meaning(SetOf(Items(scope)));
    NormalFormIsFaithful(scope);
    AcceptedItems(Items(scope));
    MeaningIsAcceptable(Items(out), meant);
  }

  lemma MeaningIsAcceptable(items: seq<string>, meant: set<string>)
    requires SetOf(items) == meant && meant <= SetOf(NAMES) + {"full"}
    ensures Acceptable(items)
  {
    forall i | 0 <= i < |items| ensures Allowed(items[i]) {
      assert items[i] in SetOf(items);
      if items[i] != "full" { var k :| 0 <= k < |NAMES| && NAMES[k] == items[i]; }
    }
  }

  /** Two accepted inputs have the same normal form exactly when their items mean the same. */
  lemma NormalFormIsCanonical(scope: string, other: string)
    requires Normalize(scope).Ok? && Normalize(other).Ok?
    ensures Normalize(scope) == Normalize(other) <==> Meaning(SetOf(Items(scope))) == Meaning(SetOf(Items(other)))
  {
    NormalFormIsFaithful(scope);
    NormalFormIsFaithful(other);
    AcceptedItems(Items(scope));
    AcceptedItems(Items(other));
  }

  // ---------- the column it is stored in ----------

  /** The length of a printed list. */
  function Printing(items: seq<string>): nat {
    if items == [] then 0 else |items[0]| + 1 + Printing(items[1..])
  }

  lemma {:induction false} LengthOfJoin(items: seq<string>)
    ensures items != [] ==> |Join(items)| + 1 == Printing(items)
  {
    if items != [] { LengthOfJoin(items[1..]); }
  }

  lemma {:induction false} ListedIsShorter(names: seq<string>, chosen: set<string>)
    ensures Printing(Listed(names, chosen)) <= Printing(names)
  {
    if names != [] {
      ListedIsShorter(names[1..], chosen);
      var rest := Listed(names[1..], chosen);
      if names[0] in chosen {
        assert ([names[0]] + rest)[1..] == rest;
      } else {
        assert Listed(names, chosen) == rest;
      }
    }
  }

  lemma LengthOfNames()
    ensures Printing(NAMES) == 100
  {
    assert NAMES[1..][1..] == NAMES[2..] && NAMES[2..][1..] == NAMES[3..] && NAMES[3..][1..] == NAMES[4..]
           && NAMES[4..][1..] == NAMES[5..] && NAMES[5..][1..] == NAMES[6..] && NAMES[6..][1..] == NAMES[7..]
           && NAMES[7..][1..] == [];
    assert Printing(NAMES[7..]) == 15 && Printing(NAMES[6..]) == 29 && Printing(NAMES[5..]) == 44 && Printing(NAMES[4..]) == 58;
    assert Printing(NAMES[3..]) == 71 && Printing(NAMES[2..]) == 83 && Printing(NAMES[1..]) == 94;
  }

  /** At most 99 characters, whatever was asked for. */
  lemma NormalFormIsShort(scope: string)
    requires Normalize(scope).Ok?
    ensures |Normalize(scope).scope| <= 99
  {
    var chosen := SetOf(Items(scope));
    LengthOfNames();
    ListedIsShorter(NAMES, chosen);
    if !(chosen == {} || "full" in chosen) {
      AcceptedItems(Items(scope));
      PrintedIsMeaning(chosen);
      LengthOfJoin(Listed(NAMES, chosen));
    }
  }

  /** The bound is met when everything but "full" was asked for. */
  lemma LongestNormalForm()
    ensures |Canonical(SetOf(NAMES))| == 99
  {
    NamesAreSorted();
    ListedIsSorted(NAMES, SetOf(NAMES));
    assert SetOf(NAMES) * SetOf(NAMES) == SetOf(NAMES);
    SortedIsUnique(Listed(NAMES, SetOf(NAMES)), NAMES);
    HeadIsIn(NAMES);
    LengthOfNames();
    LengthOfJoin(NAMES);
  }

  // ---------- the gateway ----------

  /** What a set of scopes grants. */
  predicate Grants(chosen: set<string>, required: seq<string>) {
    "full" in chosen || "admin" in chosen || exists r :: r in required && r in chosen
  }

  lemma SetOfIsMembership(items: seq<string>)
    ensures forall x :: x in items <==> x in SetOf(items)
  {
  }

  /** The gateway grants on a normalized string exactly what the items asked for grant, for every list
      of required scopes. */
  lemma GatewayGrantsWhatWasAsked(scope: string, required: seq<string>)
    requires Normalize(scope).Ok?
    ensures HasAnyScope(Normalize(scope).scope, required) <==> Grants(Meaning(SetOf(Items(scope))), required)
  {
    NormalFormIsFaithful(scope);
    SetOfIsMembership(Items(Normalize(scope).scope));
  }

  /** From request to answer: a key whose scope was accepted passes a route exactly if the route needs
      nothing, or its items grant what the route needs. */
  lemma AuthorizedIff(scope: string, path: string, verb: string)
    requires Normalize(scope).Ok?
    ensures Authorized(Normalize(scope).scope, path, verb)
            <==> RequiredScopes(path, verb) == [] || Grants(Meaning(SetOf(Items(scope))), RequiredScopes(path, verb))
  {
    GatewayGrantsWhatWasAsked(scope, RequiredScopes(path, verb));
  }
}
