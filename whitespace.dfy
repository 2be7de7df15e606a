/**
 * Python's `str.strip()` with no argument, which the webhook applies to every inbound
 * body. The trimming functions take the set of characters to remove, as `strip(chars)`
 * does; `Strip` instantiates it with the characters `str.isspace()` accepts.
 */
module Whitespace {

  /** The characters for which Python's `str.isspace()` holds. */
  const Spaces: set<char> := {
    '\U{0009}', '\U{000A}', '\U{000B}', '\U{000C}', '\U{000D}',
    '\U{001C}', '\U{001D}', '\U{001E}', '\U{001F}', '\U{0020}',
    '\U{0085}', '\U{00A0}', '\U{1680}',
    '\U{2000}', '\U{2001}', '\U{2002}', '\U{2003}', '\U{2004}', '\U{2005}',
    '\U{2006}', '\U{2007}', '\U{2008}', '\U{2009}', '\U{200A}',
    '\U{2028}', '\U{2029}', '\U{202F}', '\U{205F}', '\U{3000}'}

  predicate IsSpace(c: char) {
    c in Spaces
  }

  /** `lstrip(chars)`: the longest suffix of `s` not starting with one of `chars`; only those are dropped. */
  function TrimStart(s: string, chars: set<char>): (r: string)
    ensures |r| <= |s| && r == s[|s| - |r|..]
    ensures forall i | 0 <= i < |s| - |r| :: s[i] in chars
    ensures r != [] ==> r[0] !in chars
  {
    if s != [] && s[0] in chars then TrimStart(s[1..], chars) else s
  }

  /** `rstrip(chars)`: the longest prefix of `s` not ending in one of `chars`; only those are dropped. */
  function TrimEnd(s: string, chars: set<char>): (r: string)
    ensures |r| <= |s| && r == s[..|r|]
    ensures forall i | |r| <= i < |s| :: s[i] in chars
    ensures r != [] ==> r[|r| - 1] !in chars
  {
    if s != [] && s[|s| - 1] in chars then TrimEnd(s[..|s| - 1], chars) else s
  }

  /** `strip(chars)`: empty exactly when every character of `s` is in `chars`, and otherwise neither starts nor ends with one. */
  function StripChars(s: string, chars: set<char>): (r: string)
    ensures r == [] <==> forall i | 0 <= i < |s| :: s[i] in chars
    ensures r != [] ==> r[0] !in chars && r[|r| - 1] !in chars
  {
    var t := TrimStart(s, chars);
    if t == [] then t
    else
      var r := TrimEnd(t, chars);
      assert s[|s| - |t|] == t[0];
      assert r != [] ==> r[0] == t[0];
      r
  }

  /** `strip()`: empty exactly when `s` is all spaces, and otherwise neither starts nor ends with one. */
  function Strip(s: string): (r: string)
    ensures r == [] <==> forall i | 0 <= i < |s| :: IsSpace(s[i])
    ensures r != [] ==> !IsSpace(r[0]) && !IsSpace(r[|r| - 1])
  {
    StripChars(s, Spaces)
  }

  /** What `strip(chars)` is in terms of `lstrip(chars)` and `rstrip(chars)`. */
  lemma StripCases(s: string, chars: set<char>)
    ensures TrimStart(s, chars) == [] ==> StripChars(s, chars) == []
    ensures TrimStart(s, chars) != [] ==> StripChars(s, chars) == TrimEnd(TrimStart(s, chars), chars)
  {
  }

  /**
   * A suffix `t = s[k..]` whose first `|r|` characters are `r` and whose remaining ones are
   * all in `chars`: `r` is the slice `s[k..j]` and every later character of `s` is in `chars`.
   */
  lemma SliceOfSuffix(s: string, t: string, r: string, chars: set<char>, k: nat, j: nat)
    requires k <= |s| && t == s[k..]
    requires |r| <= |t| && r == t[..|r|] && j == k + |r|
    requires forall i | |r| <= i < |t| :: t[i] in chars
    ensures j <= |s| && r == s[k..j]
    ensures forall i | j <= i < |s| :: s[i] in chars
  {
    forall i | j <= i < |s| ensures s[i] in chars {
      assert s[i] == t[i - k];
    }
  }

  /** `strip(chars)` removes those characters and nothing else: the result is the slice `s[k..j]` between them. */
  lemma StripKeepsMiddle(s: string, chars: set<char>)
    ensures var k := |s| - |TrimStart(s, chars)|;
            var j := k + |StripChars(s, chars)|;
            && j <= |s| && StripChars(s, chars) == s[k..j]
            && (forall i | 0 <= i < k :: s[i] in chars)
            && (forall i | j <= i < |s| :: s[i] in chars)
  {
    var t, r := TrimStart(s, chars), StripChars(s, chars);
    var k := |s| - |t|;
    var j := k + |r|;
    StripCases(s, chars);
    if t == [] {
      assert r == [] == s[k..j];
    } else {
      SliceOfSuffix(s, t, r, chars, k, j);
    }
  }

  /** Stripping twice is stripping once. */
  lemma StripIdempotent(s: string, chars: set<char>)
    ensures StripChars(StripChars(s, chars), chars) == StripChars(s, chars)
  {
    var r := StripChars(s, chars);
    assert TrimStart(r, chars) == r;
    if r != [] {
      assert TrimEnd(r, chars) == r;
    }
  }
}
