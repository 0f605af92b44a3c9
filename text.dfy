/**
 * String helpers standing in for the JavaScript string methods the source uses:
 * `toLowerCase`/`toUpperCase` (ASCII letters only), `includes`, `startsWith`,
 * `split`/`join` on a one-character separator, and integer-to-text conversion.
 */
module Text {

  function LowerChar(c: char): char {
    if 'A' <= c <= 'Z' then (c as int + 32) as char else c
  }

  function UpperChar(c: char): char {
    if 'a' <= c <= 'z' then (c as int - 32) as char else c
  }

  /** `s.toLowerCase()`, restricted to ASCII letters. */
  function ToLower(s: string): string {
    seq(|s|, i requires 0 <= i < |s| => LowerChar(s[i]))
  }

  /** `s.toUpperCase()`, restricted to ASCII letters. */
  function ToUpper(s: string): string {
    seq(|s|, i requires 0 <= i < |s| => UpperChar(s[i]))
  }

  /** `s.startsWith(prefix)`. */
  predicate StartsWith(s: string, prefix: string) {
    |prefix| <= |s| && s[..|prefix|] == prefix
  }

  /** `s.includes(needle)`: does `needle` occur at some position of `s`? */
  predicate Includes(s: string, needle: string)
    decreases |s|
  {
    StartsWith(s, needle) || (s != [] && Includes(s[1..], needle))
  }

  /** `needle` occurs in `s` starting at index `i`. */
  predicate OccursAt(s: string, needle: string, i: int) {
    0 <= i <= |s| - |needle| && s[i..i + |needle|] == needle
  }

  /** `Includes` finds an occurrence exactly when there is one. */
  lemma {:induction false} IncludesIff(s: string, needle: string)
    ensures Includes(s, needle) <==>
            exists i :: OccursAt(s, needle, i)
    decreases |s|
  {
    if StartsWith(s, needle) {
      assert OccursAt(s, needle, 0);
    } else if s == [] {
      assert |needle| > 0;
    } else {
      IncludesIff(s[1..], needle);
      if exists i :: OccursAt(s, needle, i) {
        var i :| OccursAt(s, needle, i);
        assert i != 0;
        assert s[1..][i - 1..i - 1 + |needle|] == needle;
        assert OccursAt(s[1..], needle, i - 1);
      }
      if Includes(s[1..], needle) {
        var j :| OccursAt(s[1..], needle, j);
        assert s[j + 1..j + 1 + |needle|] == needle;
        assert OccursAt(s, needle, j + 1);
      }
    }
  }

  /** The empty string is included in every string, as in JavaScript. */
  lemma IncludesEmpty(s: string)
    ensures Includes(s, "")
  {
    assert s[..0] == "";
  }

  /** `s.split(sep)` for a one-character separator: always at least one part. */
  function Split(s: string, sep: char): (parts: seq<string>)
    ensures |parts| >= 1
    decreases |s|
  {
    if s == [] then [[]]
    else
      var rest := Split(s[1..], sep);
      if s[0] == sep then [[]] + rest
      else [[s[0]] + rest[0]] + rest[1..]
  }

  /** `parts.join(sep)`; joining no parts gives the empty string. */
  function Join(parts: seq<string>, sep: string): string
    decreases |parts|
  {
    if parts == [] then []
    else if |parts| == 1 then parts[0]
    else parts[0] + sep + Join(parts[1..], sep)
  }

  /** No part produced by `Split` contains the separator. */
  lemma {:induction false} SplitPartsOmitSeparator(s: string, sep: char)
    ensures forall p :: p in Split(s, sep) ==> sep !in p
    decreases |s|
  {
    if s != [] {
      SplitPartsOmitSeparator(s[1..], sep);
      var rest := Split(s[1..], sep);
      if s[0] != sep {
        assert rest[0] in rest;
        assert forall p :: p in rest[1..] ==> p in rest;
      }
    }
  }

  /** Joining the parts of a split with the separator gives back the string. */
  lemma {:induction false} JoinSplit(s: string, sep: char)
    ensures Join(Split(s, sep), [sep]) == s
    decreases |s|
  {
    if s != [] {
      JoinSplit(s[1..], sep);
      var rest := Split(s[1..], sep);
      if s[0] != sep {
        if |rest| == 1 {
          assert Join(rest, [sep]) == rest[0];
        } else {
          assert Join(rest, [sep]) == rest[0] + [sep] + Join(rest[1..], [sep]);
        }
      }
    }
  }

  /** A string without the separator splits into itself alone. */
  lemma {:induction false} SplitWithoutSeparator(s: string, sep: char)
    requires sep !in s
    ensures Split(s, sep) == [s]
    decreases |s|
  {
    if s != [] {
      SplitWithoutSeparator(s[1..], sep);
      assert [s[0]] + s[1..] == s;
    }
  }

  /** Splitting `a + [sep] + r`, where `a` has no separator, yields `a` followed by the parts of `r`. */
  lemma {:induction false} SplitAfterPart(a: string, sep: char, r: string)
    requires sep !in a
    ensures Split(a + [sep] + r, sep) == [a] + Split(r, sep)
    decreases |a|
  {
    if a == [] {
      assert a + [sep] + r == [sep] + r;
      assert ([sep] + r)[1..] == r;
    } else {
      SplitAfterPart(a[1..], sep, r);
      var s := a + [sep] + r;
      assert s[1..] == a[1..] + [sep] + r;
      assert [a[0]] + a[1..] == a;
    }
  }

  /** Splitting a join of separator-free parts recovers the parts. */
  lemma {:induction false} SplitJoin(parts: seq<string>, sep: char)
    requires |parts| >= 1
    requires forall p :: p in parts ==> sep !in p
    ensures Split(Join(parts, [sep]), sep) == parts
    decreases |parts|
  {
    if |parts| == 1 {
      SplitWithoutSeparator(parts[0], sep);
    } else {
      assert parts[0] in parts;
      assert forall p :: p in parts[1..] ==> p in parts;
      SplitJoin(parts[1..], sep);
      SplitAfterPart(parts[0], sep, Join(parts[1..], [sep]));
    }
  }

  function DigitChar(d: nat): char
    requires d < 10
  {
    "0123456789"[d]
  }

  predicate IsDigit(c: char) {
    '0' <= c <= '9'
  }

  /** The decimal text of `n`, as JavaScript's `${n}` writes a non-negative integer. */
  function NatToString(n: nat): (r: string)
    ensures |r| >= 1
    ensures forall c :: c in r ==> IsDigit(c)
    decreases n
  {
    if n < 10 then [DigitChar(n)] else NatToString(n / 10) + [DigitChar(n % 10)]
  }

  /** `${n}` for any integer: a minus sign before the digits of a negative value. */
  function IntToString(n: int): (r: string)
    ensures n < 0 <==> (|r| > 0 && r[0] == '-')
  {
    if n < 0 then "-" + NatToString(-n)
    else
      var digits := NatToString(n);
      assert digits[0] in digits;
      digits
  }

  /** Reads back the decimal digits of a string (the inverse of `NatToString`). */
  function ParseNat(s: string): nat
    decreases |s|
  {
    if s == [] then 0
    else ParseNat(s[..|s| - 1]) * 10 + (if IsDigit(s[|s| - 1]) then s[|s| - 1] as int - '0' as int else 0)
  }

  /** Writing a number as text and reading it back gives the number. */
  lemma {:induction false} ParseNatToString(n: nat)
    ensures ParseNat(NatToString(n)) == n
    decreases n
  {
    if n >= 10 {
      ParseNatToString(n / 10);
      var s := NatToString(n);
      assert s[..|s| - 1] == NatToString(n / 10);
    }
  }

  /** Code-point order on strings, as a C-collation `ORDER BY` compares text. */
  predicate LexLe(a: string, b: string)
    decreases |a|
  {
    a == [] || (b != [] && (a[0] < b[0] || (a[0] == b[0] && LexLe(a[1..], b[1..]))))
  }

  /** Any two strings are ordered one way or the other. */
  lemma {:induction false} LexLeTotal(a: string, b: string)
    ensures LexLe(a, b) || LexLe(b, a)
    decreases |a|
  {
    if a != [] && b != [] && a[0] == b[0] {
      LexLeTotal(a[1..], b[1..]);
    }
  }

  lemma {:induction false} LexLeTransitive(a: string, b: string, c: string)
    requires LexLe(a, b) && LexLe(b, c)
    ensures LexLe(a, c)
    decreases |a|
  {
    if a != [] && a[0] == b[0] && b[0] == c[0] {
      LexLeTransitive(a[1..], b[1..], c[1..]);
    }
  }
}
