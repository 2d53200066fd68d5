/** The handful of Python `str` operations the tool's helpers are built from,
    with the semantics CPython gives them on the inputs that occur here. */
module PyStr {

  datatype Option<T> = None | Some(value: T)

  /** `s.replace(pat, rep)`: every non-overlapping occurrence of `pat`,
      scanning left to right, is replaced by `rep`. */
  function Replace(s: string, pat: string, rep: string): string
    requires pat != []
    decreases |s|
  {
    if |s| < |pat| then s
    else if s[..|pat|] == pat then rep + Replace(s[|pat|..], pat, rep)
    else [s[0]] + Replace(s[1..], pat, rep)
  }

  /** Replacing one character: each occurrence of `a` becomes `rep`. */
  function Subst(s: string, a: char, rep: string): string
  {
    if s == [] then [] else (if s[0] == a then rep else [s[0]]) + Subst(s[1..], a, rep)
  }

  lemma {:induction false} ReplaceOneChar(s: string, a: char, rep: string)
    ensures Replace(s, [a], rep) == Subst(s, a, rep)
  {
    if s != [] {
      ReplaceOneChar(s[1..], a, rep);
      assert s[..1] == [s[0]];
    }
  }

  /** A replacement introduces no character that is neither in the input nor in `rep`. */
  lemma {:induction false} ReplaceChars(s: string, pat: string, rep: string, c: char)
    requires pat != []
    requires c in Replace(s, pat, rep)
    ensures c in s || c in rep
    decreases |s|
  {
    if |s| < |pat| {
    } else if s[..|pat|] == pat {
      if c !in rep {
        ReplaceChars(s[|pat|..], pat, rep, c);
        assert s[|pat|..] == s[|pat|..];
        assert c in s[|pat|..];
      }
    } else {
      if c != s[0] {
        ReplaceChars(s[1..], pat, rep, c);
      }
    }
  }

  /** A replacement by text no longer than the pattern never lengthens the string. */
  lemma {:induction false} ReplaceNoLonger(s: string, pat: string, rep: string)
    requires pat != [] && |rep| <= |pat|
    ensures |Replace(s, pat, rep)| <= |s|
    decreases |s|
  {
    if |s| < |pat| {
    } else if s[..|pat|] == pat {
      ReplaceNoLonger(s[|pat|..], pat, rep);
    } else {
      ReplaceNoLonger(s[1..], pat, rep);
    }
  }

  /** Replacing a single character by a string that does not hold it removes it everywhere. */
  lemma {:induction false} SubstRemoves(s: string, a: char, rep: string)
    requires a !in rep
    ensures a !in Subst(s, a, rep)
  {
    if s != [] {
      SubstRemoves(s[1..], a, rep);
    }
  }

  lemma {:induction false} SubstChars(s: string, a: char, rep: string, c: char)
    requires c in Subst(s, a, rep)
    ensures (c in s && c != a) || c in rep
  {
    if s != [] {
      if s[0] == a {
        if c !in rep { SubstChars(s[1..], a, rep, c); }
      } else if c != s[0] {
        SubstChars(s[1..], a, rep, c);
      }
    }
  }

  /** Removing `c` by a one-character replace and then replacing other text
      leaves no `c` behind, provided the later replacement text has none. */
  lemma ReplaceKeepsOut(s: string, pat: string, rep: string, c: char)
    requires pat != []
    requires c !in s && c !in rep
    ensures c !in Replace(s, pat, rep)
  {
    if c in Replace(s, pat, rep) {
      ReplaceChars(s, pat, rep, c);
    }
  }

  lemma ReplaceRemoves(s: string, a: char, rep: string)
    requires a !in rep
    ensures a !in Replace(s, [a], rep)
  {
    ReplaceOneChar(s, a, rep);
    SubstRemoves(s, a, rep);
  }

  // ---------------------------------------------------------------------------
  // Case and whitespace
  // ---------------------------------------------------------------------------

  predicate IsUpperAscii(c: char) { 'A' <= c <= 'Z' }

  /** `str.lower()` on the ASCII letters; other characters are kept. */
  function LowerChar(c: char): char
  {
    if IsUpperAscii(c) then (c as int + 32) as char else c
  }

  function Lower(s: string): (r: string)
    ensures |r| == |s|
    ensures forall i :: 0 <= i < |r| ==> r[i] == LowerChar(s[i])
  {
    if s == [] then [] else [LowerChar(s[0])] + Lower(s[1..])
  }

  lemma LowerHasNoUpper(s: string)
    ensures forall c :: c in Lower(s) ==> !IsUpperAscii(c)
  {
  }

  /** The characters `str.isspace()` accepts. */
  predicate IsSpace(c: char)
  {
    c == ' ' || '\t' <= c <= '\r' || '\U{1c}' <= c <= '\U{1f}' || c == '\U{85}' || c == '\U{a0}'
    || c == '\U{1680}' || '\U{2000}' <= c <= '\U{200a}' || c == '\U{2028}' || c == '\U{2029}'
    || c == '\U{202f}' || c == '\U{205f}' || c == '\U{3000}'
  }

  function StripLeft(s: string): (r: string)
    ensures |r| <= |s| && r == s[|s| - |r|..]
    ensures r != [] ==> !IsSpace(r[0])
    ensures forall i :: 0 <= i < |s| - |r| ==> IsSpace(s[i])
  {
    if s != [] && IsSpace(s[0]) then StripLeft(s[1..]) else s
  }

  function StripRight(s: string): (r: string)
    ensures |r| <= |s| && r == s[..|r|]
    ensures r != [] ==> !IsSpace(r[|r| - 1])
    ensures forall i :: |r| <= i < |s| ==> IsSpace(s[i])
  {
    if s != [] && IsSpace(s[|s| - 1]) then StripRight(s[..|s| - 1]) else s
  }

  /** `str.strip()`: leading and trailing whitespace removed. */
  function Strip(s: string): string
  {
    StripRight(StripLeft(s))
  }

  lemma StripChars(s: string, c: char)
    requires c in Strip(s)
    ensures c in s
  {
    var l := StripLeft(s);
    assert c in l[..|Strip(s)|];
    assert c in s[|s| - |l|..];
  }

  // ---------------------------------------------------------------------------
  // Slicing
  // ---------------------------------------------------------------------------

  /** `s[:k]` for any integer `k`: a negative bound counts from the end and the
      result is clamped to the string. */
  function SliceTo(s: string, k: int): (r: string)
    ensures k >= 0 ==> r == s[..if k <= |s| then k else |s|]
    ensures k < 0 ==> r == s[..if |s| + k >= 0 then |s| + k else 0]
  {
    if k >= 0 then s[..if k <= |s| then k else |s|]
    else s[..if |s| + k >= 0 then |s| + k else 0]
  }

  /** `s[-k:]` for a positive `k`: the last `k` characters, or all of a shorter string. */
  function LastChars(s: string, k: nat): (r: string)
    ensures |r| == if |s| < k then |s| else k
    ensures r == s[|s| - |r|..]
  {
    if |s| < k then s else s[|s| - k..]
  }

  /** `sub` occurs in `s` starting at index `i`. */
  predicate OccursAt(s: string, sub: string, i: int)
  {
    0 <= i && i + |sub| <= |s| && s[i..i + |sub|] == sub
  }

  /** `sub in s` on strings: `sub` occurs somewhere in `s`. */
  predicate Contains(s: string, sub: string)
  {
    exists i | 0 <= i <= |s| - |sub| :: OccursAt(s, sub, i)
  }

  function EndsWith(s: string, suffix: string): bool
  {
    |suffix| <= |s| && s[|s| - |suffix|..] == suffix
  }

  // ---------------------------------------------------------------------------
  // Decimal text of integers: `str(n)` and `n.zfill(2)`
  // ---------------------------------------------------------------------------

  predicate IsDigit(c: char) { '0' <= c <= '9' }

  predicate AllDigits(s: string) { forall c :: c in s ==> IsDigit(c) }

  function DigitChar(d: nat): (c: char)
    requires d < 10
    ensures IsDigit(c)
  {
    ('0' as int + d) as char
  }

  function DigitValue(c: char): (d: nat)
    requires IsDigit(c)
    ensures d < 10
  {
    c as int - '0' as int
  }

  /** The number a string of decimal digits denotes. */
  function DigitsValue(s: string): nat
    requires AllDigits(s)
  {
    if s == [] then 0 else 10 * DigitsValue(s[..|s| - 1]) + DigitValue(s[|s| - 1])
  }

  /** Two digits denote ten times the first plus the second. */
  lemma DigitsValueTwo(a: char, b: char)
    requires IsDigit(a) && IsDigit(b)
    ensures AllDigits([a, b]) && DigitsValue([a, b]) == 10 * DigitValue(a) + DigitValue(b)
  {
    var s := [a, b];
    assert AllDigits(s) by {
      forall c | c in s ensures IsDigit(c) { }
    }
    assert s[..|s| - 1] == [a] && s[|s| - 1] == b;
    assert [a][..0] == [];
    assert DigitsValue([a]) == DigitValue(a);
  }

  /** `str(n)` for a natural number. */
  function NatToString(n: nat): string
  {
    if n < 10 then [DigitChar(n)] else NatToString(n / 10) + [DigitChar(n % 10)]
  }

  /** `str(n)` is a non-empty digit string without a leading zero that denotes `n`. */
  lemma {:induction false} NatToStringDenotes(n: nat)
    ensures var s := NatToString(n);
      s != [] && AllDigits(s) && DigitsValue(s) == n && (s[0] == '0' ==> n == 0)
  {
    if n >= 10 {
      NatToStringDenotes(n / 10);
      var s := NatToString(n);
      assert s[..|s| - 1] == NatToString(n / 10);
    }
  }

  /** `str(i)` for any integer: a minus sign before the digits of a negative number. */
  function IntToString(i: int): string
  {
    if i < 0 then "-" + NatToString(-i) else NatToString(i)
  }

  /** The reading of a Python integer literal without sign or with a leading minus. */
  function ParseInt(s: string): Option<int>
  {
    if s != [] && s[0] == '-' && s[1..] != [] && AllDigits(s[1..]) then Some(-(DigitsValue(s[1..]) as int))
    else if s != [] && AllDigits(s) then Some(DigitsValue(s))
    else None
  }

  /** `int(str(i)) == i`; the text is negative exactly when `i` is. */
  lemma IntToStringRoundTrip(i: int)
    ensures ParseInt(IntToString(i)) == Some(i)
    ensures IntToString(i) != [] && (IntToString(i)[0] == '-' <==> i < 0)
  {
    if i < 0 {
      var t := NatToString(-i);
      NatToStringDenotes(-i);
      var s := "-" + t;
      assert s[0] == '-' && s[1..] == t;
      assert ParseInt(s) == Some(-(DigitsValue(t) as int));
    } else {
      var s := NatToString(i);
      NatToStringDenotes(i);
      assert IsDigit(s[0]) by { assert s[0] in s; }
      assert ParseInt(s) == Some(DigitsValue(s));
    }
  }

  /** `str(n).zfill(2)`: padded with one `0` when it has a single digit. */
  function Pad2(n: nat): string
  {
    var s := NatToString(n);
    if |s| < 2 then "0" + s else s
  }

  lemma Pad2Denotes(n: nat)
    requires n < 100
    ensures |Pad2(n)| == 2 && AllDigits(Pad2(n)) && DigitsValue(Pad2(n)) == n
  {
    NatToStringDenotes(n);
    var s := NatToString(n);
    if n < 10 {
      assert Pad2(n) == ['0', DigitChar(n)];
      assert Pad2(n)[..1] == ['0'];
    } else {
      NatToStringDenotes(n / 10);
      assert NatToString(n / 10) == [DigitChar(n / 10)];
    }
  }

  // ---------------------------------------------------------------------------
  // Splitting on a separator character
  // ---------------------------------------------------------------------------

  /** `s.split(c)`. */
  function Split(s: string, c: char): (parts: seq<string>)
    ensures |parts| >= 1
  {
    if s == [] then [[]]
    else
      var rest := Split(s[1..], c);
      if s[0] == c then [[]] + rest else [[s[0]] + rest[0]] + rest[1..]
  }

  lemma {:induction false} SplitJoin(a: string, c: char, b: string)
    requires c !in a
    ensures Split(a + [c] + b, c) == [a] + Split(b, c)
  {
    if a == [] {
      assert a + [c] + b == [c] + b;
      assert ([c] + b)[1..] == b;
    } else {
      SplitJoin(a[1..], c, b);
      assert (a + [c] + b)[1..] == a[1..] + [c] + b;
      assert (a + [c] + b)[0] == a[0] && a[0] != c;
      assert [a[0]] + a[1..] == a;
    }
  }

  lemma {:induction false} SplitNone(a: string, c: char)
    requires c !in a
    ensures Split(a, c) == [a]
  {
    if a != [] {
      SplitNone(a[1..], c);
      assert [a[0]] + a[1..] == a;
    }
  }
}
