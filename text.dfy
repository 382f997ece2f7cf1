/**
 * The string operations the view models rely on, as Kotlin defines them:
 * `Char.isWhitespace`, `String.trim`, `String.isBlank`, `String.uppercase`
 * (restricted to ASCII letters) and the decimal rendering of a counter.
 */
module Text {

  /** Kotlin `Char.isWhitespace`: Java whitespace plus the Unicode space separators. */
  predicate IsWhitespace(c: char) {
    c == '\t' || c == '\n' || c == '\U{000B}' || c == '\U{000C}' || c == '\r'
    || ('\U{001C}' <= c <= '\U{001F}') || c == ' ' || c == '\U{00A0}' || c == '\U{1680}'
    || ('\U{2000}' <= c <= '\U{200A}') || c == '\U{2028}' || c == '\U{2029}'
    || c == '\U{202F}' || c == '\U{205F}' || c == '\U{3000}'
  }

  /** Kotlin `isBlank`: empty or whitespace only. */
  predicate IsBlank(s: string) {
    forall i :: 0 <= i < |s| ==> IsWhitespace(s[i])
  }

  /** Drops leading whitespace. */
  function TrimStart(s: string): (r: string)
    ensures |r| <= |s| && r == s[|s| - |r|..]
    ensures r == [] || !IsWhitespace(r[0])
    ensures IsBlank(s[..|s| - |r|])
  {
    if s != [] && IsWhitespace(s[0]) then
      var tail := s[1..];
      var r := TrimStart(tail);
      assert r == s[|s| - |r|..] by {
        assert tail[|tail| - |r|..] == s[|s| - |r|..];
      }
      assert IsBlank(s[..|s| - |r|]) by {
        assert tail[..|tail| - |r|] == s[1..|s| - |r|];
        assert s[..|s| - |r|] == [s[0]] + tail[..|tail| - |r|];
      }
      r
    else s
  }

  /** Drops trailing whitespace. */
  function TrimEnd(s: string): (r: string)
    ensures |r| <= |s| && r == s[..|r|]
    ensures r == [] || !IsWhitespace(r[|r| - 1])
    ensures IsBlank(s[|r|..])
  {
    if s != [] && IsWhitespace(s[|s| - 1]) then
      var init := s[..|s| - 1];
      var r := TrimEnd(init);
      assert r == s[..|r|] by {
        assert init[..|r|] == s[..|r|];
      }
      assert IsBlank(s[|r|..]) by {
        assert init[|r|..] == s[|r|..|s| - 1];
        assert s[|r|..] == init[|r|..] + [s[|s| - 1]];
      }
      r
    else s
  }

  /**
   * Kotlin `String.trim()`: the scan from the front stops at the first
   * non-whitespace character, the scan from the back at the last one.
   */
  function Trim(s: string): (r: string)
    ensures |r| <= |s|
  {
    TrimEnd(TrimStart(s))
  }

  /** The number of whitespace characters `Trim` drops from the front. */
  function LeadingBlanks(s: string): (k: nat)
    ensures k <= |s|
  {
    |s| - |TrimStart(s)|
  }

  /** A non-empty trimmed string starts and ends with a non-whitespace character. */
  lemma TrimEndsNonBlank(s: string)
    ensures var r := Trim(s);
      r == [] || (!IsWhitespace(r[0]) && !IsWhitespace(r[|r| - 1]))
  {
    var t := TrimStart(s);
    var r := TrimEnd(t);
    if r != [] {
      assert r[0] == t[0];
    }
  }

  /** Slicing a suffix of `s` is slicing `s` further along. */
  lemma SliceOfSuffix(s: string, k: nat, n: nat)
    requires k + n <= |s|
    ensures s[k..][..n] == s[k..k + n]
    ensures s[k..][n..] == s[k + n..]
  {
  }

  /**
   * The trimmed string is the stretch of the original between a blank prefix
   * and a blank suffix.
   */
  lemma TrimIsFramedSlice(s: string)
    ensures var r, k := Trim(s), LeadingBlanks(s);
      k + |r| <= |s| && r == s[k..k + |r|] && IsBlank(s[..k]) && IsBlank(s[k + |r|..])
  {
    var t := TrimStart(s);
    var r := TrimEnd(t);
    var k := |s| - |t|;
    SliceOfSuffix(s, k, |r|);
    assert t == s[k..];
  }

  /** A trimmed string is empty exactly when the original was blank. */
  lemma TrimEmptyIffBlank(s: string)
    ensures Trim(s) == [] <==> IsBlank(s)
    ensures IsBlank(Trim(s)) <==> Trim(s) == []
  {
    var t := TrimStart(s);
    var r := TrimEnd(t);
    if r == [] {
      assert t == [] by {
        assert t == t[|r|..];
      }
      assert s == s[..|s| - |t|];
    } else {
      assert !IsWhitespace(r[0]);
      assert r[0] == t[0] == s[|s| - |t|];
    }
  }

  /** Trimming twice trims nothing more. */
  lemma TrimIdempotent(s: string)
    ensures Trim(Trim(s)) == Trim(s)
  {
    var r := Trim(s);
    if r != [] {
      var t := TrimStart(s);
      assert r == t[..|r|];
      assert !IsWhitespace(r[0]) by {
        TrimEmptyIffBlank(s);
        assert r[0] == t[0];
      }
    }
  }

  /** Upper case of an ASCII letter; every other character is left as it is. */
  function UpperChar(c: char): (u: char)
    ensures 'a' <= c <= 'z' ==> 'A' <= u <= 'Z'
    ensures !('a' <= c <= 'z') ==> u == c
  {
    if 'a' <= c <= 'z' then (c as int - 'a' as int + 'A' as int) as char else c
  }

  /** `uppercase()` over the ASCII letters. */
  function Uppercase(s: string): (u: string)
    ensures |u| == |s|
    ensures forall i :: 0 <= i < |s| ==> u[i] == UpperChar(s[i])
  {
    seq(|s|, i requires 0 <= i < |s| => UpperChar(s[i]))
  }

  /** Upper-casing a key that is already upper case changes nothing. */
  lemma UppercaseIdempotent(s: string)
    ensures Uppercase(Uppercase(s)) == Uppercase(s)
  {
    var u := Uppercase(s);
    forall i | 0 <= i < |s|
      ensures UpperChar(u[i]) == u[i]
    {
      assert !('a' <= u[i] <= 'z');
    }
  }

  function DigitChar(d: nat): (c: char)
    requires d < 10
    ensures '0' <= c <= '9'
  {
    ('0' as int + d) as char
  }

  /** Decimal rendering, as string templates print a non-negative integer. */
  function NatToString(n: nat): (s: string)
    ensures |s| >= 1
    ensures forall i :: 0 <= i < |s| ==> '0' <= s[i] <= '9'
    ensures n < 10 ==> s == [DigitChar(n)]
  {
    if n < 10 then [DigitChar(n)] else NatToString(n / 10) + [DigitChar(n % 10)]
  }
}
