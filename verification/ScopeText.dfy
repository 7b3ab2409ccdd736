/** Where scope strings are cut: two scopes with one character in between. */
module ScopeText {
  import opened GoText
  import opened Scopes
  import opened AuthGuard
  import opened ScopeTheorems

  /** A word after a separator, up to the end of the text. */
  lemma FieldsOfLast(b: string, c: char, sep: char -> bool)
    requires Word(b, sep) && sep(c)
    ensures Fields([c] + b, sep) == [b]
  {
    SpanIs([c] + b, sep, true, 1);
    assert ([c] + b)[1..] == b;
    SpanIs(b, sep, false, |b|);
    FieldsOfNothing(sep);
    assert b[..|b|] == b && b[|b|..] == "";
  }

  lemma FieldsOfTwo(a: string, b: string, c: char, sep: char -> bool)
    requires Word(a, sep) && Word(b, sep) && sep(c)
    ensures Fields(a + ([c] + b), sep) == [a, b]
  {
    FieldsOfWord(a, [c] + b, sep);
    FieldsOfLast(b, c, sep);
  }

  lemma ItemsOfTwo(a: string, b: string)
    requires Plain(a) && Plain(b)
    ensures NonEmptyItems([a, b]) == [a, b]
  {
    PlainIsWord(a);
    PlainIsWord(b);
    assert [a, b][..1] == [a] && [a][..0] == [];
    assert NonEmptyItems([a]) == [a];
  }

  lemma WordOfTwo(a: string, b: string, c: char)
    requires Plain(a) && Plain(b) && !IsSeparator(c)
    ensures Word(a + ([c] + b), IsSeparator)
  {
  }

  lemma FieldsOfOne(w: string, sep: char -> bool)
    requires Word(w, sep)
    ensures Fields(w, sep) == [w]
  {
    assert w + "" == w && [w] + [] == [w];
    FieldsOfWord(w, "", sep);
    FieldsOfNothing(sep);
  }

  lemma SingleItem(w: string)
    requires Item(w) != ""
    ensures NonEmptyItems([w]) == [Item(w)]
  {
    assert [w][..0] == [];
  }

  /** What begins and ends with letters stays whole. */
  lemma ItemIsWhole(w: string)
    requires w != "" && ('a' <= w[0] <= 'z' || w[0] == ':') && ('a' <= w[|w| - 1] <= 'z' || w[|w| - 1] == ':')
    ensures Item(w) == ToLower(w)
  {
    assert !IsSpace(ToLower(w)[0]) && !IsSpace(ToLower(w)[|w| - 1]);
  }

  lemma ItemsOfOne(a: string, b: string, c: char)
    requires Plain(a) && Plain(b) && !IsSeparator(c)
    ensures Items(a + ([c] + b)) == [ToLower(a + ([c] + b))]
  {
    WordOfTwo(a, b, c);
    FieldsOfOne(a + ([c] + b), IsSeparator);
    ItemIsWhole(a + ([c] + b));
    SingleItem(a + ([c] + b));
  }

  /** The auth service separates scopes at commas, spaces, tabs and line ends, and nowhere else. */
  lemma AuthSeparators(a: string, b: string, c: char)
    requires Plain(a) && Plain(b)
    ensures c in {',', ' ', '\t', '\n', '\r'} ==> Items(a + ([c] + b)) == [a, b]
    ensures c !in {',', ' ', '\t', '\n', '\r'} ==> Items(a + ([c] + b)) == [ToLower(a + ([c] + b))]
  {
    if IsSeparator(c) {
      PlainIsWord(a);
      PlainIsWord(b);
      FieldsOfTwo(a, b, c, IsSeparator);
      ItemsOfTwo(a, b);
    } else {
      ItemsOfOne(a, b, c);
    }
  }

  lemma PiecesOfTwo(a: string, b: string, c: char)
    requires Plain(a) && Plain(b) && IsGatewaySeparator(c)
    ensures Pieces(a + ([c] + b), IsGatewaySeparator) == [a, b]
  {
    PlainIsWord(a);
    PlainIsWord(b);
    SpanOfWord(a, [c] + b, IsGatewaySeparator);
    SpanIs([c] + b, IsGatewaySeparator, true, 1);
    assert ([c] + b)[1..] == b;
    SpanIs(b, IsGatewaySeparator, false, |b|);
  }

  /** The gateway separates them there, too, and grants what either of the two grants. */
  lemma GatewaySeparators(a: string, b: string, c: char, required: seq<string>)
    requires Plain(a) && Plain(b) && c in {',', ' ', '\t', '\n', '\r'}
    ensures HasAnyScope(a + ([c] + b), required) <==>
            a in {"full", "admin"} || b in {"full", "admin"} || a in required || b in required
  {
    PiecesOfTwo(a, b, c);
    TrimmedTwo(a, b);
  }

  lemma TrimmedTwo(a: string, b: string)
    requires Plain(a) && Plain(b)
    ensures TrimmedItems([a, b]) == [a, b]
  {
    PlainIsWord(a);
    PlainIsWord(b);
    assert [a, b][1..] == [b] && [b][1..] == [];
    assert TrimmedItems([b]) == [b];
  }

  // ---------- case and white space ----------

  /** The text spells this scope, with capital letters or without. */
  predicate Spells(u: string, w: string) {
    |u| == |w| && forall i :: 0 <= i < |u| ==> u[i] == w[i] || ('A' <= u[i] <= 'Z' && u[i] as int + 32 == w[i] as int)
  }

  /** White space that does not separate. */
  predicate Padding(s: string) {
    forall i :: 0 <= i < |s| ==> IsSpace(s[i]) && !IsSeparator(s[i])
  }

  lemma LowerOfPadded(l: string, u: string, r: string, w: string)
    requires Plain(w) && Spells(u, w) && Padding(l) && Padding(r)
    ensures ToLower(l + (u + r)) == l + (w + r)
    ensures Word(l + (u + r), IsSeparator)
  {
    assert forall i :: 0 <= i < |l| ==> Lower(l[i]) == l[i];
    assert forall i :: 0 <= i < |r| ==> Lower(r[i]) == r[i];
    assert forall i :: 0 <= i < |u| ==> Lower(u[i]) == w[i];
  }

  /** Neither the case of a scope nor white space around it matters. */
  lemma CaseAndPaddingDoNotMatter(l: string, u: string, r: string, w: string)
    requires Plain(w) && Spells(u, w) && Padding(l) && Padding(r)
    ensures Items(l + (u + r)) == [w]
  {
    LowerOfPadded(l, u, r, w);
    FieldsOfOne(l + (u + r), IsSeparator);
    TrimSpaceDropsSpace(l, w, r);
    SingleItem(l + (u + r));
  }

  // ---------- which scope strings are accepted ----------

  /** The scopes but for "full". */
  predicate IsName(item: string) {
    item in {"admin", "auth:write", "ledger:read", "ledger:write", "payments:read", "payments:write", "webhooks:read", "webhooks:write"}
  }

  lemma NamesAreAllowed(item: string)
    ensures Allowed(item) <==> item == "full" || IsName(item)
    ensures !IsName("full")
  {
    assert "full"[0] == 'f';
  }

  /** The first item that is not one of the names decides: with "full" the scope is full, whatever comes
      after, and anything else is reported. */
  lemma {:induction false} FirstOtherDecides(items: seq<string>, i: nat)
    requires i < |items| && (forall j :: 0 <= j < i ==> IsName(items[j])) && !IsName(items[i])
    ensures items[i] == "full" ==> Acceptable(items) && Canonical(SetOf(items)) == "full"
    ensures items[i] != "full" ==> !Acceptable(items) && FirstInvalid(items) == items[i]
    decreases i
  {
    forall j | 0 <= j < i ensures Allowed(items[j]) && items[j] != "full" { NamesAreAllowed(items[j]); }
    NamesAreAllowed(items[i]);
    if items[i] == "full" {
      assert items[i] in SetOf(items);
    } else if i > 0 {
      FirstOtherDecides(items[1..], i - 1);
    }
  }

  /** What NormalizeScope answers, by the first item that is not one of the names; if there is none, it
      accepts. */
  lemma FirstOtherDecidesScope(scope: string, i: nat)
    requires i <= |Items(scope)| && forall j :: 0 <= j < i ==> IsName(Items(scope)[j])
    ensures i == |Items(scope)| ==> Normalize(scope).Ok?
    ensures i < |Items(scope)| && Items(scope)[i] == "full" ==> Normalize(scope) == Ok("full")
    ensures i < |Items(scope)| && Items(scope)[i] != "full" && !IsName(Items(scope)[i]) ==>
              Normalize(scope) == InvalidScope(Items(scope)[i])
  {
    var items := Items(scope);
    forall j | 0 <= j < i ensures Allowed(items[j]) { NamesAreAllowed(items[j]); }
    if i < |items| && !IsName(items[i]) { FirstOtherDecides(items, i); }
    NamesAreAllowed("full");
  }
}
