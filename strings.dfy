/** The string operations of the campaign code: `lower`, `replace`, `in`
    (substring test) and `isalnum`.

    Only ASCII letters are case-mapped and only ASCII letters and digits
    count as alphanumeric. */
module Strings {

  predicate IsUpper(c: char)
  {
    'A' <= c <= 'Z'
  }

  /** `c.isalnum()` on ASCII characters. */
  predicate IsAlnum(c: char)
  {
    'a' <= c <= 'z' || 'A' <= c <= 'Z' || '0' <= c <= '9'
  }

  function LowerChar(c: char): (d: char)
    ensures !IsUpper(d)
    ensures IsAlnum(d) <==> IsAlnum(c)
    ensures !IsUpper(c) ==> d == c
  {
    if IsUpper(c) then (c as int + 32) as char else c
  }

  /** `s.lower()`. */
  function Lower(s: string): (r: string)
    ensures |r| == |s| && forall i :: 0 <= i < |s| ==> r[i] == LowerChar(s[i])
  {
    if |s| == 0 then [] else Lower(s[..|s| - 1]) + [LowerChar(s[|s| - 1])]
  }

  /** `sub in s`: `sub` occurs in `s` at some position. */
  predicate Contains(s: string, sub: string)
    decreases |s|
  {
    (|sub| <= |s| && s[..|sub|] == sub) || (|s| > 0 && Contains(s[1..], sub))
  }

  /** A one-character string occurs exactly where its character does. */
  lemma {:induction false} ContainsChar(s: string, c: char)
    ensures Contains(s, [c]) <==> c in s
    decreases |s|
  {
    if |s| > 0 {
      ContainsChar(s[1..], c);
      assert c in s <==> s[0] == c || c in s[1..];
    }
  }

  /** A non-empty string that occurs in `s` brings its first character with it. */
  lemma {:induction false} ContainsFirstChar(s: string, sub: string)
    requires |sub| > 0 && Contains(s, sub)
    ensures sub[0] in s
    decreases |s|
  {
    if !(|sub| <= |s| && s[..|sub|] == sub) {
      ContainsFirstChar(s[1..], sub);
    } else {
      assert s[0] == sub[0];
    }
  }

  /** `s.replace(pat, rep)`: every occurrence of `pat`, scanning from the
      left without overlaps, replaced by `rep`; an empty `pat` matches before
      every character and at the end. */
  function ReplaceAll(s: string, pat: string, rep: string): string
    decreases |s|, if |pat| == 0 then 1 else 0
  {
    if |pat| == 0 then
      if |s| == 0 then rep else rep + [s[0]] + ReplaceAll(s[1..], pat, rep)
    else if |pat| <= |s| && s[..|pat|] == pat then rep + ReplaceAll(s[|pat|..], pat, rep)
    else if |s| == 0 then []
    else [s[0]] + ReplaceAll(s[1..], pat, rep)
  }

  /** A string in which `pat` does not occur is left as it is. */
  lemma {:induction false} ReplaceAbsent(s: string, pat: string, rep: string)
    requires |pat| > 0 && !Contains(s, pat)
    ensures ReplaceAll(s, pat, rep) == s
    decreases |s|
  {
    if |s| > 0 {
      ReplaceAbsent(s[1..], pat, rep);
      assert s == [s[0]] + s[1..];
    }
  }

  /** A string not starting with the first character of `pat` keeps its
      first character, and the scan goes on after it. */
  lemma ReplaceNoMatchStep(s: string, pat: string, rep: string)
    requires |pat| > 0 && |s| > 0 && s[0] != pat[0]
    ensures ReplaceAll(s, pat, rep) == [s[0]] + ReplaceAll(s[1..], pat, rep)
  {
    if |pat| <= |s| {
      assert s[..|pat|][0] == s[0];
    }
  }

  /** A character other than the first of `pat`, put before `t`, is copied
      and the scan goes on with `t`. */
  lemma ReplaceConsPlain(c: char, t: string, pat: string, rep: string)
    requires |pat| > 0 && c != pat[0]
    ensures ReplaceAll([c] + t, pat, rep) == [c] + ReplaceAll(t, pat, rep)
  {
    var s := [c] + t;
    assert s[0] == c && s[1..] == t;
    ReplaceNoMatchStep(s, pat, rep);
  }

  /** Splitting off the first character of a nonempty prefix. */
  lemma ConsSplit(a: string, t: string)
    requires |a| > 0
    ensures a == [a[0]] + a[1..] && a + t == [a[0]] + (a[1..] + t)
  {
  }

  /** A prefix holding no first character of `pat` is copied as it is, and
      the scan goes on after it. */
  lemma {:induction false} ReplaceAfterPlain(a: string, t: string, pat: string, rep: string)
    requires |pat| > 0 && pat[0] !in a
    ensures ReplaceAll(a + t, pat, rep) == a + ReplaceAll(t, pat, rep)
    decreases |a|
  {
    if |a| == 0 {
      assert a + t == t;
    } else {
      var r := ReplaceAll(t, pat, rep);
      ConsSplit(a, t);
      ConsSplit(a, r);
      ReplaceConsPlain(a[0], a[1..] + t, pat, rep);
      ReplaceAfterPlain(a[1..], t, pat, rep);
    }
  }

  /** A string without the first character of `pat` is left as it is. */
  lemma {:induction false} ReplaceWithoutFirstChar(s: string, pat: string, rep: string)
    requires |pat| > 0 && pat[0] !in s
    ensures ReplaceAll(s, pat, rep) == s
    decreases |s|
  {
    if |s| > 0 {
      assert s[0] in s;
      ReplaceNoMatchStep(s, pat, rep);
      assert forall x :: x in s[1..] ==> x in s;
      ReplaceWithoutFirstChar(s[1..], pat, rep);
      assert s == [s[0]] + s[1..];
    }
  }

  /** With its first character nowhere else, a single occurrence of `pat` is
      replaced by `rep` and the rest kept. */
  lemma ReplaceOne(a: string, b: string, pat: string, rep: string)
    requires |pat| > 0 && pat[0] !in a && pat[0] !in b
    ensures ReplaceAll(a + pat + b, pat, rep) == a + rep + b
  {
    var t := pat + b;
    assert a + pat + b == a + t;
    ReplaceAfterPlain(a, t, pat, rep);
    assert t[..|pat|] == pat && t[|pat|..] == b;
    ReplaceWithoutFirstChar(b, pat, rep);
  }

  /** An occurrence of the first character of `pat` that does not start `pat`
      is kept, when no other occurrence of that character follows it. */
  lemma ReplaceMissAt(a: string, m: string, b: string, pat: string, rep: string)
    requires |pat| > 0 && |m| > 0 && pat[0] !in a && pat[0] !in m[1..] && pat[0] !in b
    requires !(|pat| <= |m + b| && (m + b)[..|pat|] == pat)
    ensures ReplaceAll(a + m + b, pat, rep) == a + m + b
  {
    var t := m + b;
    assert a + m + b == a + t;
    ReplaceAfterPlain(a, t, pat, rep);
    ConsSplit(m, b);
    ReplaceMissStep(t, pat, rep);
    ReplaceWithoutFirstChar(m[1..] + b, pat, rep);
  }

  /** A string not starting with `pat` keeps its first character, and the
      scan goes on after it. */
  lemma ReplaceMissStep(s: string, pat: string, rep: string)
    requires |pat| > 0 && |s| > 0 && !(|pat| <= |s| && s[..|pat|] == pat)
    ensures ReplaceAll(s, pat, rep) == [s[0]] + ReplaceAll(s[1..], pat, rep)
  {
  }

  /** Every character of the result comes from the original or from `rep`. */
  lemma {:induction false} ReplaceChars(s: string, pat: string, rep: string, c: char)
    requires |pat| > 0 && c in ReplaceAll(s, pat, rep)
    ensures c in s || c in rep
    decreases |s|
  {
    var r := ReplaceAll(s, pat, rep);
    if |pat| <= |s| && s[..|pat|] == pat {
      if c !in rep {
        assert c in ReplaceAll(s[|pat|..], pat, rep);
        ReplaceChars(s[|pat|..], pat, rep, c);
        assert s[|pat|..] == s[|pat|..|s|];
      }
    } else if |s| > 0 && c != s[0] {
      assert c in ReplaceAll(s[1..], pat, rep);
      ReplaceChars(s[1..], pat, rep, c);
    }
  }

  /** Replacing one character by a string, character by character. */
  function ReplaceChar(s: string, c: char, rep: string): string
  {
    if |s| == 0 then [] else (if s[0] == c then rep else [s[0]]) + ReplaceChar(s[1..], c, rep)
  }

  /** With a one-character `pat`, `replace` substitutes each of its
      occurrences independently; so the character is gone when `rep` does not
      hold it. */
  lemma {:induction false} ReplaceOneChar(s: string, c: char, rep: string)
    ensures ReplaceAll(s, [c], rep) == ReplaceChar(s, c, rep)
    ensures c !in rep ==> c !in ReplaceAll(s, [c], rep)
    decreases |s|
  {
    if |s| > 0 {
      ReplaceOneChar(s[1..], c, rep);
      assert s[..1] == [s[0]];
      assert s[1..] == s[|[c]|..];
    }
  }

  /** `"".join(c for c in s if keep(c))` for the slug alphabet: ASCII
      letters, digits and `-`. */
  function KeepSlugChars(s: string): (r: string)
    ensures forall i :: 0 <= i < |r| ==> IsAlnum(r[i]) || r[i] == '-'
    ensures forall c :: c in r <==> c in s && (IsAlnum(c) || c == '-')
  {
    if |s| == 0 then []
    else
      var rest := KeepSlugChars(s[1..]);
      assert forall c :: c in s <==> c == s[0] || c in s[1..];
      if IsAlnum(s[0]) || s[0] == '-' then [s[0]] + rest else rest
  }

  /** After replacing `c` by `rep`, a character occurs exactly when it occurred
      and is not `c`, or when `c` occurred and `rep` holds it. */
  lemma {:induction false} ReplaceCharMembership(s: string, c: char, rep: string, x: char)
    ensures x in ReplaceChar(s, c, rep) <==> (x in s && x != c) || (c in s && x in rep)
  {
    if |s| > 0 {
      ReplaceCharMembership(s[1..], c, rep, x);
      assert forall y :: y in s <==> y == s[0] || y in s[1..];
    }
  }

  /** Lower-casing a string without upper-case letters leaves it as it is. */
  lemma LowerIdentity(s: string)
    requires forall i :: 0 <= i < |s| ==> !IsUpper(s[i])
    ensures Lower(s) == s
  {
  }

  /** A string made of slug characters only is kept whole. */
  lemma {:induction false} KeepSlugCharsIdentity(s: string)
    requires forall i :: 0 <= i < |s| ==> IsAlnum(s[i]) || s[i] == '-'
    ensures KeepSlugChars(s) == s
  {
    if |s| > 0 {
      KeepSlugCharsIdentity(s[1..]);
      assert s == [s[0]] + s[1..];
    }
  }

  /** The decimal digit for `d`. */
  function DigitChar(d: nat): (c: char)
    requires d < 10
    ensures '0' <= c <= '9' && c as int - '0' as int == d
  {
    ('0' as int + d) as char
  }

  /** `str(n)` for a natural number: its decimal digits, most significant
      first, without leading zeros. */
  function NatToString(n: nat): (s: string)
    ensures |s| > 0 && forall i :: 0 <= i < |s| ==> '0' <= s[i] <= '9'
    ensures |s| > 1 ==> s[0] != '0'
  {
    if n < 10 then [DigitChar(n)] else NatToString(n / 10) + [DigitChar(n % 10)]
  }

  /** `str(n)` for an integer: a minus sign before the digits of a negative one. */
  function IntToString(n: int): (s: string)
    ensures |s| > 0 && (s[0] == '-' <==> n < 0)
    ensures forall i :: 0 <= i < |s| ==> s[i] == '-' || '0' <= s[i] <= '9'
    ensures n < 0 ==> s[1..] == NatToString(-n)
    ensures n >= 0 ==> s == NatToString(n)
  {
    if n < 0 then "-" + NatToString(-n) else NatToString(n)
  }

  /** The number a string of decimal digits denotes, as `int(s)` reads it. */
  function DigitsValue(s: string): nat
    requires forall i :: 0 <= i < |s| ==> '0' <= s[i] <= '9'
  {
    if |s| == 0 then 0 else DigitsValue(s[..|s| - 1]) * 10 + (s[|s| - 1] as int - '0' as int)
  }

  /** Reading back the digits written for `n` gives `n`. */
  lemma {:induction false} NatToStringRoundTrip(n: nat)
    ensures DigitsValue(NatToString(n)) == n
  {
    if n >= 10 {
      NatToStringRoundTrip(n / 10);
      var s := NatToString(n);
      assert s[..|s| - 1] == NatToString(n / 10);
    }
  }

  lemma NatToStringInjective(a: nat, b: nat)
    requires NatToString(a) == NatToString(b)
    ensures a == b
  {
    NatToStringRoundTrip(a);
    NatToStringRoundTrip(b);
  }

  /** Different integers are written differently. */
  lemma IntToStringInjective(m: int, n: int)
    requires IntToString(m) == IntToString(n)
    ensures m == n
  {
    if m < 0 {
      NatToStringInjective(-m, -n);
    } else {
      NatToStringInjective(m, n);
    }
  }
}
