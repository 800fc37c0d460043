/**
 * String helpers that several parts of the app rely on: whitespace trimming
 * (Foundation's `trimmingCharacters(in: .whitespacesAndNewlines)` and
 * ECMAScript's `String.prototype.trim`), prefix and
 * substring tests, ASCII case mapping, decimal rendering of integers and
 * joining lines. Strings are sequences of Unicode scalar values.
 */
module Text {

  /** The two whitespace sets the app trims with. */
  datatype Charset =
    | Foundation  // `CharacterSet.whitespacesAndNewlines`, used by the Swift code
    | EcmaScript  // the set of `String.prototype.trim`, used by the Convex code

  /**
   * Both sets hold tab, the line breaks U+000A..U+000D, U+2028 and U+2029,
   * and every scalar of the Unicode category Zs. Foundation's adds U+0085;
   * ECMAScript's adds the byte-order mark U+FEFF instead.
   */
  predicate IsWhitespace(cs: Charset, c: char) {
    || c == ' '
    || ('\t' <= c <= '\r')
    || c == '\U{00A0}'
    || c == '\U{1680}'
    || ('\U{2000}' <= c <= '\U{200A}')
    || c == '\U{2028}'
    || c == '\U{2029}'
    || c == '\U{202F}'
    || c == '\U{205F}'
    || c == '\U{3000}'
    || (cs == Foundation && c == '\U{0085}')
    || (cs == EcmaScript && c == '\U{FEFF}')
  }

  ghost predicate AllWhitespace(cs: Charset, s: string) {
    forall i :: 0 <= i < |s| ==> IsWhitespace(cs, s[i])
  }

  /**
   * Whitespace removed from both ends: what remains is empty or begins and
   * ends with a scalar outside the set.
   */
  function Trim(cs: Charset, s: string): (r: string)
    ensures |r| <= |s|
    ensures r != [] ==> !IsWhitespace(cs, r[0]) && !IsWhitespace(cs, r[|r| - 1])
  {
    if s == [] then []
    else if IsWhitespace(cs, s[0]) then Trim(cs, s[1..])
    else if IsWhitespace(cs, s[|s| - 1]) then Trim(cs, s[..|s| - 1])
    else s
  }

  /** Trimming leaves nothing exactly when the input is all whitespace. */
  lemma {:induction false} TrimEmptyIffAllWhitespace(cs: Charset, s: string)
    ensures Trim(cs, s) == [] <==> AllWhitespace(cs, s)
  {
    if s != [] {
      if IsWhitespace(cs, s[0]) {
        TrimEmptyIffAllWhitespace(cs, s[1..]);
        if AllWhitespace(cs, s[1..]) {
          forall i | 0 <= i < |s|
            ensures IsWhitespace(cs, s[i])
          {
            if i > 0 {
              assert s[i] == s[1..][i - 1];
            }
          }
        } else {
          var i :| 0 <= i < |s[1..]| && !IsWhitespace(cs, s[1..][i]);
          assert s[i + 1] == s[1..][i];
        }
      } else if IsWhitespace(cs, s[|s| - 1]) {
        TrimEmptyIffAllWhitespace(cs, s[..|s| - 1]);
        var i :| 0 <= i < |s[..|s| - 1]| && !IsWhitespace(cs, s[..|s| - 1][i]);
        assert s[i] == s[..|s| - 1][i];
      }
    }
  }

  /** Trimming removed exactly `s[..i]` and `s[i + |r|..]`, both all whitespace. */
  ghost predicate TrimmedAt(cs: Charset, s: string, r: string, i: int) {
    && OccursAt(s, r, i)
    && AllWhitespace(cs, s[..i])
    && AllWhitespace(cs, s[i + |r|..])
  }

  /**
   * What trimming leaves is a contiguous run of the input, and everything
   * removed before and after it is whitespace: only the ends are removed.
   */
  lemma {:induction false} TrimIsInfix(cs: Charset, s: string)
    ensures exists i | 0 <= i <= |s| :: TrimmedAt(cs, s, Trim(cs, s), i)
    ensures Contains(s, Trim(cs, s))
  {
    var r := Trim(cs, s);
    if s == [] || (!IsWhitespace(cs, s[0]) && !IsWhitespace(cs, s[|s| - 1])) {
      assert s[..0] == [] && s[|r|..] == [];
      assert TrimmedAt(cs, s, r, 0);
    } else if IsWhitespace(cs, s[0]) {
      TrimIsInfix(cs, s[1..]);
      var j :| 0 <= j <= |s[1..]| && TrimmedAt(cs, s[1..], r, j);
      DropFirstWhitespace(cs, s, r, j);
    } else {
      TrimIsInfix(cs, s[..|s| - 1]);
      var i :| 0 <= i <= |s| - 1 && TrimmedAt(cs, s[..|s| - 1], r, i);
      DropLastWhitespace(cs, s, r, i);
    }
  }

  /** A leading whitespace scalar in front of a trimmed split extends the removed prefix. */
  lemma DropFirstWhitespace(cs: Charset, s: string, r: string, j: int)
    requires s != [] && IsWhitespace(cs, s[0])
    requires TrimmedAt(cs, s[1..], r, j)
    ensures TrimmedAt(cs, s, r, j + 1)
  {
    var u := s[1..];
    assert s[j + 1..j + 1 + |r|] == u[j..j + |r|];
    assert s[j + 1 + |r|..] == u[j + |r|..];
    forall k | 0 <= k < j + 1
      ensures IsWhitespace(cs, s[k])
    {
      if k > 0 {
        assert s[k] == u[..j][k - 1];
      }
    }
    assert forall k | 0 <= k < j + 1 :: s[..j + 1][k] == s[k];
  }

  /** A trailing whitespace scalar after a trimmed split extends the removed suffix. */
  lemma DropLastWhitespace(cs: Charset, s: string, r: string, i: int)
    requires s != [] && IsWhitespace(cs, s[|s| - 1])
    requires TrimmedAt(cs, s[..|s| - 1], r, i)
    ensures TrimmedAt(cs, s, r, i)
  {
    var t := s[..|s| - 1];
    assert s[i..i + |r|] == t[i..i + |r|];
    assert s[..i] == t[..i];
    forall k | i + |r| <= k < |s|
      ensures IsWhitespace(cs, s[k])
    {
      if k < |s| - 1 {
        assert s[k] == t[i + |r|..][k - (i + |r|)];
      }
    }
    assert forall k | i + |r| <= k < |s| :: s[i + |r|..][k - (i + |r|)] == s[k];
  }

  /**
   * The trimmed text is the only one of its kind: any contiguous run of `s`
   * that is empty or has no whitespace at either end, and has only whitespace
   * around it, is `Trim(cs, s)`.
   */
  lemma TrimUnique(cs: Charset, s: string, r: string, i: int)
    requires TrimmedAt(cs, s, r, i)
    requires r != [] ==> !IsWhitespace(cs, r[0]) && !IsWhitespace(cs, r[|r| - 1])
    ensures r == Trim(cs, s)
  {
    var t := Trim(cs, s);
    TrimIsInfix(cs, s);
    TrimEmptyIffAllWhitespace(cs, s);
    var j :| 0 <= j <= |s| && TrimmedAt(cs, s, t, j);
    WhitespaceAround(cs, s, r, i);
    if r == [] {
      assert AllWhitespace(cs, s);
    } else {
      assert s[i] == r[0] && s[i + |r| - 1] == r[|r| - 1];
      assert !AllWhitespace(cs, s);
      WhitespaceAround(cs, s, t, j);
      assert s[j] == t[0] && s[j + |t| - 1] == t[|t| - 1];
      assert i == j;
      assert i + |r| == j + |t|;
    }
  }

  /** The scalars of `s` before and after a trimmed split, one by one. */
  lemma WhitespaceAround(cs: Charset, s: string, r: string, i: int)
    requires TrimmedAt(cs, s, r, i)
    ensures forall k | 0 <= k < i :: IsWhitespace(cs, s[k])
    ensures forall k | i + |r| <= k < |s| :: IsWhitespace(cs, s[k])
  {
    assert forall k | 0 <= k < i :: s[k] == s[..i][k];
    assert forall k | i + |r| <= k < |s| :: s[k] == s[i + |r|..][k - (i + |r|)];
  }

  /** Trimming an already trimmed string changes nothing. */
  lemma TrimIdempotent(cs: Charset, s: string)
    ensures Trim(cs, Trim(cs, s)) == Trim(cs, s)
  {
  }

  predicate HasPrefix(s: string, prefix: string) {
    |prefix| <= |s| && s[..|prefix|] == prefix
  }

  /** `sub` occurs somewhere in `s` as a contiguous run. */
  predicate Contains(s: string, sub: string) {
    exists i | 0 <= i <= |s| - |sub| :: OccursAt(s, sub, i)
  }

  predicate OccursAt(s: string, sub: string, i: int) {
    0 <= i <= |s| - |sub| && s[i..i + |sub|] == sub
  }

  /** Every string contains itself. */
  lemma ContainsSelf(s: string)
    ensures Contains(s, s)
  {
    assert OccursAt(s, s, 0);
  }

  /** ASCII letters are mapped; every other scalar is left as it is. */
  function UpperChar(c: char): char {
    if 'a' <= c <= 'z' then (c as int - 32) as char else c
  }

  function LowerChar(c: char): char {
    if 'A' <= c <= 'Z' then (c as int + 32) as char else c
  }

  /**
   * `uppercased()`, ASCII letters only: no lowercase letter is left, and the
   * text is the same as the input up to letter case.
   */
  function Uppercased(s: string): (r: string)
    ensures |r| == |s| && forall i :: 0 <= i < |s| ==> r[i] == UpperChar(s[i])
    ensures forall i :: 0 <= i < |r| ==> !('a' <= r[i] <= 'z')
    ensures Lowercased(r) == Lowercased(s)
  {
    var r := seq(|s|, i requires 0 <= i < |s| => UpperChar(s[i]));
    assert forall i :: 0 <= i < |s| ==> LowerChar(r[i]) == LowerChar(s[i]);
    r
  }

  /**
   * `lowercased()`, ASCII letters only: no uppercase letter is left, and
   * every scalar other than an ASCII letter is kept.
   */
  function Lowercased(s: string): (r: string)
    ensures |r| == |s| && forall i :: 0 <= i < |s| ==> r[i] == LowerChar(s[i])
    ensures forall i :: 0 <= i < |r| ==> !('A' <= r[i] <= 'Z')
    ensures forall i :: 0 <= i < |r| && !('A' <= s[i] <= 'Z') && !('a' <= s[i] <= 'z') ==> r[i] == s[i]
  {
    seq(|s|, i requires 0 <= i < |s| => LowerChar(s[i]))
  }

  /** Lowercasing a lowercased text changes nothing. */
  lemma LowercasedIdempotent(s: string)
    ensures Lowercased(Lowercased(s)) == Lowercased(s)
  {
  }

  /** A case-insensitive search does not depend on the letter case of the query. */
  lemma ContainsIgnoringQueryCase(s: string, q: string)
    ensures ContainsIgnoringCase(s, Uppercased(q)) <==> ContainsIgnoringCase(s, q)
    ensures ContainsIgnoringCase(s, Lowercased(q)) <==> ContainsIgnoringCase(s, q)
  {
    LowercasedIdempotent(q);
  }

  /** Nor on the letter case of the text searched. */
  lemma ContainsIgnoringTextCase(s: string, q: string)
    ensures ContainsIgnoringCase(Uppercased(s), q) <==> ContainsIgnoringCase(s, q)
    ensures ContainsIgnoringCase(Lowercased(s), q) <==> ContainsIgnoringCase(s, q)
  {
    LowercasedIdempotent(s);
  }

  /** Substring test that ignores ASCII letter case. */
  predicate ContainsIgnoringCase(s: string, sub: string) {
    Contains(Lowercased(s), Lowercased(sub))
  }

  function DigitChar(d: nat): char
    requires d < 10
  {
    ('0' as int + d) as char
  }

  predicate IsDigit(c: char) {
    '0' <= c <= '9'
  }

  /** The number a string of decimal digits denotes, most significant digit first. */
  function DigitsValue(s: string): nat
    requires forall i :: 0 <= i < |s| ==> IsDigit(s[i])
  {
    if s == [] then 0
    else
      assert IsDigit(s[|s| - 1]);
      DigitsValue(s[..|s| - 1]) * 10 + (s[|s| - 1] as int - '0' as int)
  }

  /** Decimal digits of `n`, most significant first, with no leading zero; they denote `n`. */
  function NatToString(n: nat): (r: string)
    ensures |r| >= 1 && forall i :: 0 <= i < |r| ==> IsDigit(r[i])
    ensures |r| > 1 ==> r[0] != '0'
    ensures DigitsValue(r) == n
  {
    if n < 10 then [DigitChar(n)] else NatToString(n / 10) + [DigitChar(n % 10)]
  }

  /** Swift's string interpolation of an `Int`. */
  function IntToString(n: int): string {
    if n < 0 then "-" + NatToString(-n) else NatToString(n)
  }

  /** `joined(separator:)` on an array of strings. */
  function Join(lines: seq<string>, sep: string): string {
    if |lines| == 0 then ""
    else if |lines| == 1 then lines[0]
    else lines[0] + sep + Join(lines[1..], sep)
  }
}
