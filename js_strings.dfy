/**
 * The string operations the routes use: `trim`, `startsWith`, `includes`,
 * `split(sep)[1]`, and the fixed-shape regular expressions `/^...$/` built
 * from `\d` and literal characters.
 */
module JsStrings {
  import opened Wrappers

  /** The WhiteSpace and LineTerminator code points of ECMAScript, which `trim` removes. */
  predicate IsWhitespace(c: char)
  {
    || c == '\t' || c == '\n' || c == '\U{B}' || c == '\U{C}' || c == '\r'
    || c == ' ' || c == '\U{A0}' || c == '\U{1680}'
    || ('\U{2000}' <= c <= '\U{200A}')
    || c == '\U{2028}' || c == '\U{2029}' || c == '\U{202F}' || c == '\U{205F}'
    || c == '\U{3000}' || c == '\U{FEFF}'
  }

  /** Removes leading whitespace: the result is a suffix of `s`. */
  function TrimStart(s: string): (r: string)
    ensures |r| <= |s| && r == s[|s| - |r|..]
    ensures r == [] || !IsWhitespace(r[0])
    ensures forall i :: 0 <= i < |s| - |r| ==> IsWhitespace(s[i])
  {
    if s != [] && IsWhitespace(s[0]) then TrimStart(s[1..]) else s
  }

  /** Removes trailing whitespace: the result is a prefix of `s`. */
  function TrimEnd(s: string): (r: string)
    ensures |r| <= |s| && r == s[..|r|]
    ensures r == [] || !IsWhitespace(r[|r| - 1])
    ensures forall i :: |r| <= i < |s| ==> IsWhitespace(s[i])
  {
    if s != [] && IsWhitespace(s[|s| - 1]) then TrimEnd(s[..|s| - 1]) else s
  }

  /** `s.trim()` */
  function Trim(s: string): (r: string)
    ensures |r| <= |s|
    ensures r != [] ==> !IsWhitespace(r[0]) && !IsWhitespace(r[|r| - 1])
    ensures PaddedInfix(s, r, |s| - |TrimStart(s)|)
  {
    var t := TrimStart(s);
    var r := TrimEnd(t);
    TrimInfix(s, t, r);
    r
  }

  /** `r` is the infix of `s` starting at `k`, with only whitespace before and after it. */
  predicate PaddedInfix(s: string, r: string, k: int)
  {
    && 0 <= k && k + |r| <= |s| && r == s[k..k + |r|]
    && (forall i :: 0 <= i < k ==> IsWhitespace(s[i]))
    && (forall i :: k + |r| <= i < |s| ==> IsWhitespace(s[i]))
  }

  /** What is kept from the end of what is kept from the start is an infix of `s` with whitespace all around it. */
  lemma TrimInfix(s: string, t: string, r: string)
    requires |t| <= |s| && t == s[|s| - |t|..] && forall i :: 0 <= i < |s| - |t| ==> IsWhitespace(s[i])
    requires |r| <= |t| && r == t[..|r|] && forall i :: |r| <= i < |t| ==> IsWhitespace(t[i])
    ensures r != [] ==> r[0] == t[0]
    ensures PaddedInfix(s, r, |s| - |t|)
  {
    var k := |s| - |t|;
    assert r == t[..|r|] && t[..|r|] == s[k..k + |r|];
    forall i | k + |r| <= i < |s| ensures IsWhitespace(s[i]) {
      assert s[i] == t[i - k];
    }
  }

  /** A string is blank after trimming exactly when every character of it is whitespace. */
  lemma TrimEmptyIff(s: string)
    ensures Trim(s) == [] <==> forall i :: 0 <= i < |s| ==> IsWhitespace(s[i])
  {
    var t := TrimStart(s);
    if Trim(s) == [] {
      forall i | 0 <= i < |s| ensures IsWhitespace(s[i]) {
        if i >= |s| - |t| {
          assert s[i] == t[i - (|s| - |t|)];
        }
      }
    } else {
      var r := Trim(s);
      assert r == TrimEnd(t) && r[0] == t[0];
      assert t[0] == s[|s| - |t|];
    }
  }

  /** `s.startsWith(p)` */
  predicate StartsWith(s: string, p: string)
  {
    |p| <= |s| && s[..|p|] == p
  }

  /** `sub` occurs in `s` at index `i`. */
  predicate OccursAt(s: string, sub: string, i: int)
  {
    0 <= i && i + |sub| <= |s| && s[i..i + |sub|] == sub
  }

  /** `s.indexOf(sub)`: the first index at which `sub` occurs, if any. */
  function IndexOf(s: string, sub: string): (r: Option<nat>)
    ensures r.Some? ==> OccursAt(s, sub, r.value)
    ensures r.Some? ==> forall j :: 0 <= j < r.value ==> !OccursAt(s, sub, j)
    ensures r.None? ==> forall j :: !OccursAt(s, sub, j)
    decreases |s|
  {
    if |s| < |sub| then
      None
    else if s[..|sub|] == sub then
      Some(0)
    else
      match IndexOf(s[1..], sub)
      case None =>
        assert forall j :: OccursAt(s, sub, j) && j > 0 ==> OccursAt(s[1..], sub, j - 1);
        None
      case Some(i) =>
        assert OccursAt(s[1..], sub, i) ==> OccursAt(s, sub, i + 1);
        assert forall j :: 0 < j <= i && OccursAt(s, sub, j) ==> OccursAt(s[1..], sub, j - 1);
        Some(i + 1)
  }

  /** `s.includes(sub)` */
  predicate Contains(s: string, sub: string)
  {
    IndexOf(s, sub).Some?
  }

  /** A string contains each of its prefixes. */
  lemma PrefixContained(s: string, sub: string)
    requires StartsWith(s, sub)
    ensures Contains(s, sub)
  {
    assert OccursAt(s, sub, 0);
  }

  /** A string that lacks the first character of `sub` cannot contain `sub`. */
  lemma NotContainedWithoutFirstChar(s: string, sub: string)
    requires sub != []
    requires forall i :: 0 <= i < |s| ==> s[i] != sub[0]
    ensures !Contains(s, sub)
  {
    forall j | 0 <= j ensures !OccursAt(s, sub, j) {
      if j < |s| {
        assert s[j] != sub[0];
      }
    }
  }

  /**
   * `s.split(sep)[1]`: the text between the first and the second occurrence of
   * `sep`, or after the first when there is no second; `None` (JavaScript's
   * `undefined`) when `sep` does not occur.
   */
  function SplitSecond(s: string, sep: string): (r: Option<string>)
    requires sep != []
    ensures r.None? <==> !Contains(s, sep)
    ensures r.Some? ==> LeadingField(AfterFirst(s, sep), sep, r.value)
  {
    if Contains(s, sep) then Some(FirstField(AfterFirst(s, sep), sep)) else None
  }

  /** The text of `s` after the first occurrence of `sep`. */
  function AfterFirst(s: string, sep: string): string
    requires Contains(s, sep)
  {
    s[IndexOf(s, sep).value + |sep|..]
  }

  /**
   * `r` is the leading field of `s` split at `sep`: it starts `s`, `sep`
   * occurs nowhere inside it nor begins within it, and it is either all of `s`
   * or followed in `s` by `sep`.
   */
  predicate LeadingField(s: string, sep: string, r: string)
  {
    && StartsWith(s, r) && !Contains(r, sep)
    && (forall j :: 0 <= j < |r| ==> !OccursAt(s, sep, j))
    && (r == s || StartsWith(s, r + sep))
  }

  /** `s.split(sep)[0]`: the text before the first occurrence of `sep`, or all of `s`. */
  function FirstField(s: string, sep: string): (r: string)
    requires sep != []
    ensures LeadingField(s, sep, r)
    ensures r == s <==> !Contains(s, sep)
  {
    match IndexOf(s, sep)
    case None => s
    case Some(j) =>
      PrefixBeforeFirstOccurrence(s, sep, j);
      OccurrenceFollowsPrefix(s, sep, j);
      s[..j]
  }

  /** The part of `s` before the first occurrence of `sub` does not contain `sub`. */
  lemma PrefixBeforeFirstOccurrence(s: string, sub: string, j: nat)
    requires sub != [] && IndexOf(s, sub) == Some(j)
    ensures !Contains(s[..j], sub)
  {
    if Contains(s[..j], sub) {
      var k := IndexOf(s[..j], sub).value;
      assert s[..j][k..k + |sub|] == s[k..k + |sub|];
      assert OccursAt(s, sub, k);
    }
  }

  /** `s` starts with what precedes an occurrence of `sub` followed by `sub`. */
  lemma OccurrenceFollowsPrefix(s: string, sub: string, j: int)
    requires OccursAt(s, sub, j)
    ensures StartsWith(s, s[..j]) && StartsWith(s, s[..j] + sub)
  {
    assert s[..j + |sub|] == s[..j] + s[j..j + |sub|];
  }

  /** One position of a fixed-shape pattern: `\d` or a literal character. */
  datatype CharClass = Digit | Exactly(c: char)

  /** `\d` without the `u` flag: an ASCII decimal digit. */
  predicate IsDigit(c: char)
  {
    '0' <= c <= '9'
  }

  predicate InClass(c: char, k: CharClass)
  {
    match k
    case Digit => IsDigit(c)
    case Exactly(d) => c == d
  }

  /** `/^p$/.test(s)` for a pattern `p` with one character class per position. */
  predicate FullMatch(s: string, p: seq<CharClass>)
  {
    |s| == |p| && forall i :: 0 <= i < |s| ==> InClass(s[i], p[i])
  }
}
