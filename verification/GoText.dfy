/** The parts of Go's `strings` package, and of the text conventions around it, that the services
    rely on: which characters count as white space, trimming, and what a ULID looks like. */
module GoText {

  /** unicode.IsSpace */
  predicate IsSpace(c: char) {
    || c == ' ' || '\U{0009}' <= c <= '\U{000D}'
    || c == '\U{0085}' || c == '\U{00A0}' || c == '\U{1680}'
    || '\U{2000}' <= c <= '\U{200A}'
    || c == '\U{2028}' || c == '\U{2029}' || c == '\U{202F}' || c == '\U{205F}' || c == '\U{3000}'
  }

  function TrimLeft(s: string): (r: string)
    ensures |r| <= |s|
    ensures r != "" ==> !IsSpace(r[0])
    ensures s != "" && !IsSpace(s[0]) ==> r == s
  {
    if s != "" && IsSpace(s[0]) then TrimLeft(s[1..]) else s
  }

  function TrimRight(s: string): (r: string)
    ensures r <= s
    ensures r != "" ==> !IsSpace(r[|r| - 1])
    ensures s != "" && !IsSpace(s[|s| - 1]) ==> r == s
  {
    if s != "" && IsSpace(s[|s| - 1]) then TrimRight(s[..|s| - 1]) else s
  }

  /** strings.TrimSpace */
  function TrimSpace(s: string): (r: string)
    ensures s != "" && !IsSpace(s[0]) && !IsSpace(s[|s| - 1]) ==> r == s
    ensures r != "" ==> !IsSpace(r[0]) && !IsSpace(r[|r| - 1])
  {
    TrimRight(TrimLeft(s))
  }

  lemma {:induction false} TrimLeftDrops(l: string, s: string)
    requires (forall i :: 0 <= i < |l| ==> IsSpace(l[i])) && s != "" && !IsSpace(s[0])
    ensures TrimLeft(l + s) == s
  {
    if l == "" {
      assert l + s == s;
    } else {
      assert (l + s)[1..] == l[1..] + s;
      TrimLeftDrops(l[1..], s);
    }
  }

  lemma {:induction false} TrimRightDrops(s: string, r: string)
    requires (forall i :: 0 <= i < |r| ==> IsSpace(r[i])) && s != "" && !IsSpace(s[|s| - 1])
    ensures TrimRight(s + r) == s
  {
    if r == "" {
      assert s + r == s;
    } else {
      assert (s + r)[..|s + r| - 1] == s + r[..|r| - 1];
      TrimRightDrops(s, r[..|r| - 1]);
    }
  }

  /** Trimming takes away all white space around a text, and nothing else. */
  lemma TrimSpaceDropsSpace(l: string, s: string, r: string)
    requires (forall i :: 0 <= i < |l| ==> IsSpace(l[i])) && (forall i :: 0 <= i < |r| ==> IsSpace(r[i]))
    requires s != "" && !IsSpace(s[0]) && !IsSpace(s[|s| - 1])
    ensures TrimSpace(l + (s + r)) == s
  {
    TrimLeftDrops(l, s + r);
    TrimRightDrops(s, r);
  }

  /** A ULID is 26 characters of Crockford's base 32. */
  predicate IsUlid(s: string) {
    |s| == 26 && forall i :: 0 <= i < |s| ==> '0' <= s[i] <= '9' || 'A' <= s[i] <= 'Z'
  }

  lemma UlidIsNotBlank(s: string)
    requires IsUlid(s)
    ensures TrimSpace(s) == s != ""
  {
    assert !IsSpace(s[0]) && !IsSpace(s[25]);
  }

  // ---------- interned strings ----------

  /** A string by its number. The protocols only ever compare ids, keys and names, so their states
      hold the numbers; Chars gives the characters back wherever the code looks at them. */
  type Symbol = int

  const BASE: int := 0x11_0001

  function Intern(s: string): (n: Symbol)
    ensures n >= 0
    ensures s != "" ==> n > 0
  {
    if s == "" then 0 else Intern(s[..|s| - 1]) * BASE + (s[|s| - 1] as int) + 1
  }

  function CharOf(code: int): char {
    if 0 <= code < 0xD800 || 0xE000 <= code < 0x11_0000 then code as char else ' '
  }

  function Chars(n: Symbol): string {
    if n <= 0 then "" else Chars(n / BASE) + [CharOf(n % BASE - 1)]
  }

  lemma {:induction false} CharsOfIntern(s: string)
    ensures Chars(Intern(s)) == s
  {
    if s != "" {
      CharsOfIntern(s[..|s| - 1]);
      var rest, last := Intern(s[..|s| - 1]), s[|s| - 1] as int;
      assert (rest * BASE + last + 1) / BASE == rest && (rest * BASE + last + 1) % BASE == last + 1;
      assert s == s[..|s| - 1] + [s[|s| - 1]];
    }
  }

  /** Distinct strings have distinct symbols. */
  lemma InternIsInjective(s: string, t: string)
    requires Intern(s) == Intern(t)
    ensures s == t
  {
    CharsOfIntern(s);
    CharsOfIntern(t);
  }
}
