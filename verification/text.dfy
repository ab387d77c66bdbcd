/** The few Python `str` methods the name-normalising lookups rely on:
    `strip()`, `lower()` and `upper()`. */
module Text {

  /** Python's `str.isspace()` for one character: the code points that
      `str.strip()` with no argument removes. */
  predicate IsSpace(c: char) {
    var n := c as int;
    (9 <= n <= 13) || (28 <= n <= 32) || n == 0x85 || n == 0xA0 || n == 0x1680
    || (0x2000 <= n <= 0x200A) || n == 0x2028 || n == 0x2029 || n == 0x202F
    || n == 0x205F || n == 0x3000
  }

  /** Removes leading whitespace (`str.lstrip()`). */
  function TrimStart(s: string): (r: string)
    ensures |r| <= |s| && r == s[|s| - |r|..]
    ensures forall k :: 0 <= k < |s| - |r| ==> IsSpace(s[k])
    ensures r == [] || !IsSpace(r[0])
  {
    if |s| > 0 && IsSpace(s[0]) then TrimStart(s[1..]) else s
  }

  /** Removes trailing whitespace (`str.rstrip()`). */
  function TrimEnd(s: string): (r: string)
    ensures |r| <= |s| && r == s[..|r|]
    ensures forall k :: |r| <= k < |s| ==> IsSpace(s[k])
    ensures r == [] || !IsSpace(r[|r| - 1])
  {
    if |s| > 0 && IsSpace(s[|s| - 1]) then TrimEnd(s[..|s| - 1]) else s
  }

  /** Python's `str.strip()`: `rstrip()` then `lstrip()`. */
  function Strip(s: string): (r: string)
    ensures |r| <= |s|
    ensures r == [] || (!IsSpace(r[0]) && !IsSpace(r[|r| - 1]))
  {
    TrimStart(TrimEnd(s))
  }

  /** A text with no whitespace at either end is its own `strip()`. */
  lemma StripUnpadded(s: string)
    requires s == [] || (!IsSpace(s[0]) && !IsSpace(s[|s| - 1]))
    ensures Strip(s) == s
  {
  }

  /** `strip()` keeps an infix of its input and drops only whitespace around it. */
  lemma StripSpec(s: string)
    ensures var r := Strip(s);
      exists i, j ::
        && 0 <= i <= j <= |s| && r == s[i..j]
        && (forall k :: 0 <= k < i ==> IsSpace(s[k]))
        && (forall k :: j <= k < |s| ==> IsSpace(s[k]))
  {
    var e := TrimEnd(s);
    var r := TrimStart(e);
    var i, j := |e| - |r|, |e|;
    assert e == s[..j];
    assert r == s[i..j];
    assert forall k :: 0 <= k < i ==> IsSpace(s[k]) by {
      forall k | 0 <= k < i ensures IsSpace(s[k]) {
        assert s[k] == e[k];
      }
    }
  }

  /** ASCII case mapping of one character. */
  function LowerChar(c: char): char {
    if 'A' <= c <= 'Z' then (c as int + 32) as char else c
  }

  function UpperChar(c: char): char {
    if 'a' <= c <= 'z' then (c as int - 32) as char else c
  }

  /** `str.lower()` restricted to ASCII letters. */
  function Lower(s: string): (r: string)
    ensures |r| == |s|
    ensures forall i :: 0 <= i < |s| ==> r[i] == LowerChar(s[i])
  {
    seq(|s|, i requires 0 <= i < |s| => LowerChar(s[i]))
  }

  /** `str.upper()` restricted to ASCII letters. */
  function Upper(s: string): (r: string)
    ensures |r| == |s|
    ensures forall i :: 0 <= i < |s| ==> r[i] == UpperChar(s[i])
  {
    seq(|s|, i requires 0 <= i < |s| => UpperChar(s[i]))
  }

  /** Lower-casing twice is lower-casing once. */
  lemma LowerIdempotent(s: string)
    ensures Lower(Lower(s)) == Lower(s)
  {
  }

  /** Upper-casing a lower-cased name gives the same text as upper-casing it
      directly. */
  lemma UpperOfLower(s: string)
    ensures Upper(Lower(s)) == Upper(s)
  {
  }

  /** Case mapping neither creates nor removes whitespace. */
  lemma LowerKeepsSpace(c: char)
    ensures IsSpace(LowerChar(c)) <==> IsSpace(c)
  {
  }

  /** Lower-casing commutes with `lstrip()`. */
  lemma {:induction false} TrimStartLower(s: string)
    ensures TrimStart(Lower(s)) == Lower(TrimStart(s))
    decreases |s|
  {
    if |s| > 0 {
      LowerKeepsSpace(s[0]);
      if IsSpace(s[0]) {
        assert Lower(s)[1..] == Lower(s[1..]);
        TrimStartLower(s[1..]);
      }
    }
  }

  /** Lower-casing commutes with taking a prefix. */
  lemma LowerPrefix(s: string, n: nat)
    requires n <= |s|
    ensures Lower(s)[..n] == Lower(s[..n])
  {
  }

  /** Lower-casing commutes with `rstrip()`. */
  lemma {:induction false} TrimEndLower(s: string)
    ensures TrimEnd(Lower(s)) == Lower(TrimEnd(s))
    decreases |s|
  {
    if |s| > 0 {
      var last := s[|s| - 1];
      assert Lower(s)[|s| - 1] == LowerChar(last);
      LowerKeepsSpace(last);
      if IsSpace(last) {
        LowerPrefix(s, |s| - 1);
        TrimEndLower(s[..|s| - 1]);
      }
    }
  }

  /** Lower-casing commutes with `strip()`, so a lookup that strips and then
      lower-cases sees the same key for `s` and for `Lower(s)`. */
  lemma StripLower(s: string)
    ensures Strip(Lower(s)) == Lower(Strip(s))
  {
    TrimEndLower(s);
    TrimStartLower(TrimEnd(s));
  }

  /** `rstrip()` of a text with one more leading character: that character
      survives exactly when something else does, or when it is not itself
      whitespace. */
  lemma {:induction false} TrimEndCons(c: char, s: string)
    ensures TrimEnd([c] + s) == if TrimEnd(s) == [] then TrimEnd([c]) else [c] + TrimEnd(s)
    decreases |s|
  {
    if |s| > 0 && IsSpace(s[|s| - 1]) {
      assert ([c] + s)[..|s|] == [c] + s[..|s| - 1];
      TrimEndCons(c, s[..|s| - 1]);
    } else if |s| == 0 {
      assert [c] + s == [c];
    }
  }

  /** Leading whitespace does not reach the result of `strip()`. */
  lemma LeadingSpaceIgnored(c: char, s: string)
    requires IsSpace(c)
    ensures Strip([c] + s) == Strip(s)
  {
    TrimEndCons(c, s);
    assert TrimEnd([c]) == TrimEnd([]);
  }

  /** Trailing whitespace does not reach the result of `strip()`. */
  lemma TrailingSpaceIgnored(s: string, c: char)
    requires IsSpace(c)
    ensures Strip(s + [c]) == Strip(s)
  {
    assert (s + [c])[..|s|] == s;
  }
}
