/** String operations the front end relies on (`String(n)`, `padStart`,
    ASCII `toLowerCase`/`toUpperCase`, `trim`, `split`/`join`, `startsWith`,
    `replace` with a string pattern), written out on `seq<char>`, with the
    facts about them that the rest of the model uses. */
module Text {
  import opened Wrappers

  // ---------------------------------------------------------------------
  // Decimal numerals
  // ---------------------------------------------------------------------

  predicate IsDigit(c: char)
  {
    '0' <= c <= '9'
  }

  function DigitChar(d: nat): (c: char)
    requires d < 10
    ensures IsDigit(c) && c as int - '0' as int == d
  {
    (d + '0' as int) as char
  }

  function DigitValue(c: char): nat
    requires IsDigit(c)
  {
    c as int - '0' as int
  }

  predicate AllDigits(s: string)
  {
    forall i :: 0 <= i < |s| ==> IsDigit(s[i])
  }

  /** `String(n)` for a non-negative integer: decimal digits without a
      leading zero. */
  function NatToString(n: nat): (r: string)
    ensures |r| >= 1 && AllDigits(r)
    ensures r[0] == '0' ==> n == 0
  {
    if n < 10 then [DigitChar(n)] else NatToString(n / 10) + [DigitChar(n % 10)]
  }

  /** The value of a string of decimal digits (the inverse of NatToString). */
  function DigitsValue(s: string): nat
    requires AllDigits(s)
  {
    if s == [] then 0 else DigitsValue(s[..|s| - 1]) * 10 + DigitValue(s[|s| - 1])
  }

  /** Reading back the numeral of `n` gives `n`: NatToString loses nothing. */
  lemma {:induction false} NatToStringRoundTrip(n: nat)
    ensures DigitsValue(NatToString(n)) == n
  {
    if n >= 10 {
      var s := NatToString(n);
      assert s[..|s| - 1] == NatToString(n / 10);
      NatToStringRoundTrip(n / 10);
    }
  }

  /** `String(i)` for any integer. */
  function IntToString(i: int): (r: string)
    ensures |r| >= 1
  {
    if i < 0 then "-" + NatToString(-i) else NatToString(i)
  }

  /** `s.padStart(2, "0")`. */
  function PadStart2(s: string): (r: string)
    ensures |r| == if |s| >= 2 then |s| else 2
    ensures r[|r| - |s|..] == s
    ensures forall i :: 0 <= i < |r| - |s| ==> r[i] == '0'
  {
    if |s| >= 2 then s else if |s| == 1 then "0" + s else "00"
  }

  /** `String(n).padStart(2, "0")` for `n` below 100: exactly two digits
      that read back as `n`. */
  function TwoDigits(n: nat): (s: string)
    requires n < 100
    ensures |s| == 2 && AllDigits(s)
    ensures DigitsValue(s) == n
  {
    var digits := NatToString(n);
    NatToStringRoundTrip(n);
    var s := PadStart2(digits);
    assert |digits| <= 2;
    assert s == digits || s == "0" + digits;
    assert s == "0" + digits ==> s[..1] == "0" && s[1..] == digits;
    s
  }

  // ---------------------------------------------------------------------
  // ASCII case mapping
  // ---------------------------------------------------------------------

  function LowerChar(c: char): char
  {
    if 'A' <= c <= 'Z' then (c as int + 32) as char else c
  }

  function UpperChar(c: char): char
  {
    if 'a' <= c <= 'z' then (c as int - 32) as char else c
  }

  /** `s.toLowerCase()` restricted to ASCII letters. */
  function Lower(s: string): (r: string)
    ensures |r| == |s|
    ensures forall i :: 0 <= i < |s| ==> r[i] == LowerChar(s[i])
  {
    if s == [] then [] else [LowerChar(s[0])] + Lower(s[1..])
  }

  /** `a.toLowerCase() === b.toLowerCase()` */
  predicate EqualsIgnoreCase(a: string, b: string)
  {
    Lower(a) == Lower(b)
  }

  // ---------------------------------------------------------------------
  // Whitespace trimming
  // ---------------------------------------------------------------------

  /** The characters `String.prototype.trim` removes: white space and line
      terminators. */
  predicate IsSpace(c: char)
  {
    c == ' ' || c == '\t' || c == '\n' || c == '\r' || c == '\U{000B}' || c == '\U{000C}'
    || c == '\U{00A0}' || c == '\U{FEFF}' || c == '\U{1680}' || ('\U{2000}' <= c <= '\U{200A}')
    || c == '\U{2028}' || c == '\U{2029}' || c == '\U{202F}' || c == '\U{205F}' || c == '\U{3000}'
  }

  function TrimStart(s: string): (r: string)
    ensures |r| <= |s| && r == s[|s| - |r|..]
    ensures r == [] || !IsSpace(r[0])
    ensures forall i :: 0 <= i < |s| - |r| ==> IsSpace(s[i])
    ensures r == [] <==> forall i :: 0 <= i < |s| ==> IsSpace(s[i])
  {
    if s != [] && IsSpace(s[0]) then TrimStart(s[1..]) else s
  }

  function TrimEnd(s: string): (r: string)
    ensures |r| <= |s| && r == s[..|r|]
    ensures r == [] || !IsSpace(r[|r| - 1])
    ensures forall i :: |r| <= i < |s| ==> IsSpace(s[i])
    ensures r == [] <==> forall i :: 0 <= i < |s| ==> IsSpace(s[i])
  {
    if s != [] && IsSpace(s[|s| - 1]) then TrimEnd(s[..|s| - 1]) else s
  }

  /** `s.trim()`: empty exactly when `s` holds only white space. */
  function Trim(s: string): (r: string)
    ensures r == [] <==> forall i :: 0 <= i < |s| ==> IsSpace(s[i])
    ensures r == [] || (!IsSpace(r[0]) && !IsSpace(r[|r| - 1]))
  {
    var t := TrimStart(s);
    var r := TrimEnd(t);
    assert r == [] <==> t == [] by {
      if t != [] { assert !IsSpace(t[0]); }
    }
    assert r != [] ==> !IsSpace(r[0]) by {
      if r != [] { assert r[0] == t[0]; }
    }
    r
  }

  // ---------------------------------------------------------------------
  // split and join on a one-character separator
  // ---------------------------------------------------------------------

  predicate Free(w: string, sep: char)
  {
    forall i :: 0 <= i < |w| ==> w[i] != sep
  }

  /** `s.split(sep)` for a one-character separator: the pieces between
      separators, empty pieces included, so there is always at least one. */
  function Split(s: string, sep: char): (r: seq<string>)
    ensures |r| >= 1
    ensures forall k :: 0 <= k < |r| ==> Free(r[k], sep)
  {
    if s == [] then [""]
    else if s[0] == sep then [""] + Split(s[1..], sep)
    else
      var rest := Split(s[1..], sep);
      [[s[0]] + rest[0]] + rest[1..]
  }

  /** `ws.join(sep)`. */
  function Join(ws: seq<string>, sep: char): string
  {
    if |ws| == 0 then ""
    else if |ws| == 1 then ws[0]
    else ws[0] + [sep] + Join(ws[1..], sep)
  }

  /** Joining the pieces of a split restores the text. */
  lemma {:induction false} JoinSplit(s: string, sep: char)
    ensures Join(Split(s, sep), sep) == s
  {
    if s != [] {
      JoinSplit(s[1..], sep);
      if s[0] != sep {
        var rest := Split(s[1..], sep);
        if |rest| > 1 {
          assert Join(rest, sep) == rest[0] + [sep] + Join(rest[1..], sep);
          assert ([[s[0]] + rest[0]] + rest[1..])[1..] == rest[1..];
        }
      } else {
        assert ([""] + Split(s[1..], sep))[1..] == Split(s[1..], sep);
      }
    }
  }

  /** Splitting a separator-free prefix `w` followed by `t`: `w` is glued to
      the first piece of `t`. */
  lemma {:induction false} SplitPrefix(w: string, t: string, sep: char)
    requires Free(w, sep)
    ensures Split(w + t, sep) == [w + Split(t, sep)[0]] + Split(t, sep)[1..]
  {
    if w != [] {
      SplitPrefix(w[1..], t, sep);
      assert (w + t)[1..] == w[1..] + t;
      assert (w + t)[0] == w[0];
      assert [w[0]] + (w[1..] + Split(t, sep)[0]) == w + Split(t, sep)[0];
    } else {
      var p := Split(t, sep);
      assert w + t == t && w + p[0] == p[0];
      assert p == [p[0]] + p[1..];
    }
  }

  /** Splitting the join of separator-free words followed by a
      separator-free suffix gives the words back, the suffix glued to the
      last one. */
  lemma {:induction false} SplitJoinAppend(ws: seq<string>, suffix: string, sep: char)
    requires |ws| >= 1
    requires forall k :: 0 <= k < |ws| ==> Free(ws[k], sep)
    requires Free(suffix, sep)
    ensures Split(Join(ws, sep) + suffix, sep) == ws[..|ws| - 1] + [ws[|ws| - 1] + suffix]
  {
    if |ws| == 1 {
      SplitPrefix(suffix, [], sep);
      assert suffix + [] == suffix;
      SplitPrefix(ws[0], suffix, sep);
    } else {
      var x := Join(ws[1..], sep) + suffix;
      SplitJoinAppend(ws[1..], suffix, sep);
      JoinConsAppend(ws, suffix, sep);
      SplitAfterSeparator(ws[0], x, sep);
      assert ws[1..][|ws| - 2] == ws[|ws| - 1];
      assert ws[1..][..|ws| - 2] == ws[1..|ws| - 1];
      assert ws[..|ws| - 1] == [ws[0]] + ws[1..|ws| - 1];
    }
  }

  lemma JoinConsAppend(ws: seq<string>, suffix: string, sep: char)
    requires |ws| >= 2
    ensures Join(ws, sep) + suffix == ws[0] + ([sep] + (Join(ws[1..], sep) + suffix))
  {
    var rest := Join(ws[1..], sep);
    assert Join(ws, sep) == ws[0] + [sep] + rest;
    ConcatAssoc(ws[0], [sep], rest, suffix);
  }

  lemma ConcatAssoc(a: string, b: string, c: string, d: string)
    ensures a + b + c + d == a + (b + (c + d))
  {
  }

  /** A separator-free word, a separator, then `x`: the word is the first
      piece and the pieces of `x` follow. */
  lemma SplitAfterSeparator(w: string, x: string, sep: char)
    requires Free(w, sep)
    ensures Split(w + ([sep] + x), sep) == [w] + Split(x, sep)
  {
    SplitPrefix(w, [sep] + x, sep);
    assert ([sep] + x)[1..] == x;
    assert w + "" == w;
  }

  /** Splitting the join of separator-free words gives the words back. */
  lemma SplitJoin(ws: seq<string>, sep: char)
    requires |ws| >= 1
    requires forall k :: 0 <= k < |ws| ==> Free(ws[k], sep)
    ensures Split(Join(ws, sep), sep) == ws
  {
    SplitJoinAppend(ws, "", sep);
    assert Join(ws, sep) + "" == Join(ws, sep);
    assert ws[|ws| - 1] + "" == ws[|ws| - 1];
  }

  // ---------------------------------------------------------------------
  // Prefixes and search
  // ---------------------------------------------------------------------

  /** Joining the first `n` pieces gives a prefix of joining them all. */
  lemma {:induction false} JoinPrefix(ws: seq<string>, n: nat, sep: char)
    requires n <= |ws|
    ensures StartsWith(Join(ws, sep), Join(ws[..n], sep))
    decreases |ws|
  {
    if n == 0 {
    } else if n == 1 {
      if |ws| >= 2 {
        assert Join(ws, sep) == ws[0] + ([sep] + Join(ws[1..], sep));
      }
    } else {
      JoinPrefix(ws[1..], n - 1, sep);
      assert ws[..n][1..] == ws[1..][..n - 1];
      var rest := Join(ws[1..], sep);
      var part := Join(ws[1..][..n - 1], sep);
      assert Join(ws[..n], sep) == ws[0] + [sep] + part;
      assert Join(ws, sep) == ws[0] + [sep] + rest;
      assert rest[..|part|] == part;
      assert (ws[0] + [sep] + rest)[..|ws[0]| + 1 + |part|] == ws[0] + [sep] + rest[..|part|];
    }
  }


  /** `s.startsWith(p)` */
  predicate StartsWith(s: string, p: string)
  {
    |p| <= |s| && s[..|p|] == p
  }

  predicate OccursAt(s: string, p: string, k: int)
  {
    0 <= k && k + |p| <= |s| && s[k..k + |p|] == p
  }

  function IndexOfFrom(s: string, p: string, k: nat): (r: Option<nat>)
    ensures r.Some? ==> k <= r.value && OccursAt(s, p, r.value)
    ensures r.Some? ==> forall j :: k <= j < r.value ==> !OccursAt(s, p, j)
    ensures r.None? ==> forall j :: k <= j ==> !OccursAt(s, p, j)
    decreases |s| - k
  {
    if k + |p| > |s| then None
    else if s[k..k + |p|] == p then Some(k)
    else IndexOfFrom(s, p, k + 1)
  }

  /** `s.indexOf(p)`, with None for -1: the first position where `p` occurs. */
  function IndexOf(s: string, p: string): (r: Option<nat>)
    ensures r.Some? ==> OccursAt(s, p, r.value)
    ensures r.Some? ==> forall j :: 0 <= j < r.value ==> !OccursAt(s, p, j)
    ensures r.None? ==> forall j :: 0 <= j ==> !OccursAt(s, p, j)
  {
    IndexOfFrom(s, p, 0)
  }

  /** `s.replace(p, v)` with a string pattern: only the first occurrence of
      `p` is replaced (the replacement holds no `$` pattern). */
  function ReplaceFirst(s: string, p: string, v: string): string
  {
    match IndexOf(s, p)
    case None => s
    case Some(i) => s[..i] + v + s[i + |p|..]
  }

  // ---------------------------------------------------------------------
  // parseInt
  // ---------------------------------------------------------------------

  /** The longest prefix of `s` made of decimal digits. */
  function DigitPrefix(s: string): (r: string)
    ensures AllDigits(r) && StartsWith(s, r)
    ensures |r| < |s| ==> !IsDigit(s[|r|])
  {
    if s != [] && IsDigit(s[0]) then [s[0]] + DigitPrefix(s[1..]) else []
  }

  lemma {:induction false} DigitPrefixOfDigits(s: string)
    requires AllDigits(s)
    ensures DigitPrefix(s) == s
  {
    if s != [] {
      DigitPrefixOfDigits(s[1..]);
    }
  }

  /** `parseInt(s, 10)`: leading white space is skipped, then an optional
      sign and the longest run of decimal digits; None stands for NaN (no
      digit where one is expected). */
  function ParseInt(s: string): (r: Option<int>)
  {
    var t := TrimStart(s);
    var signed := t != [] && (t[0] == '-' || t[0] == '+');
    var digits := DigitPrefix(if signed then t[1..] else t);
    var magnitude: int := DigitsValue(digits);
    if digits == [] then None
    else if signed && t[0] == '-' then Some(-magnitude)
    else Some(magnitude)
  }

  /** White space is never a digit or a minus sign. */
  lemma NotSpace(c: char)
    requires IsDigit(c) || c == '-'
    ensures !IsSpace(c)
  {
  }

  /** `parseInt(String(i), 10) == i`: the page number written to the URL
      reads back as itself. */
  lemma ParseIntRoundTrip(i: int)
    ensures ParseInt(IntToString(i)) == Some(i)
  {
    var n := if i < 0 then -i else i;
    NatToStringRoundTrip(n);
    if i < 0 {
      ParseIntNegative(NatToString(n));
    } else {
      ParseIntDigits(NatToString(n));
    }
  }

  /** A non-empty run of digits parses to its value. */
  lemma ParseIntDigits(digits: string)
    requires digits != [] && AllDigits(digits)
    ensures ParseInt(digits) == Some(DigitsValue(digits))
  {
    NotSpace(digits[0]);
    assert TrimStart(digits) == digits;
    DigitPrefixOfDigits(digits);
  }

  /** A minus sign before a non-empty run of digits negates its value. */
  lemma ParseIntNegative(digits: string)
    requires digits != [] && AllDigits(digits)
    ensures ParseInt("-" + digits) == Some(0 - DigitsValue(digits))
  {
    var s := "-" + digits;
    NotSpace('-');
    assert s[0] == '-' && s[1..] == digits;
    assert TrimStart(s) == s;
    DigitPrefixOfDigits(digits);
  }

  /** A string with no digit after its white space and sign is NaN. */
  lemma ParseIntNaN(s: string)
    requires s != [] && !IsSpace(s[0]) && !IsDigit(s[0]) && s[0] != '-' && s[0] != '+'
    ensures ParseInt(s).None?
  {
    assert TrimStart(s) == s;
  }

  // ---------------------------------------------------------------------
  // Lexicographic order (plain code-point comparison)
  // ---------------------------------------------------------------------

  /** `a` sorts strictly before `b`: a proper prefix, or smaller at the
      first position where they differ. */
  predicate LexLess(a: string, b: string)
    decreases |a|
  {
    |b| > 0 && (|a| == 0 || a[0] < b[0] || (a[0] == b[0] && LexLess(a[1..], b[1..])))
  }

  lemma {:induction false} LexLessIrreflexive(a: string)
    ensures !LexLess(a, a)
  {
    if |a| > 0 {
      LexLessIrreflexive(a[1..]);
    }
  }

  lemma {:induction false} LexLessTransitive(a: string, b: string, c: string)
    requires LexLess(a, b) && LexLess(b, c)
    ensures LexLess(a, c)
  {
    if |a| > 0 && a[0] == b[0] && b[0] == c[0] {
      LexLessTransitive(a[1..], b[1..], c[1..]);
    }
  }

  lemma {:induction false} LexLessTotal(a: string, b: string)
    requires a != b
    ensures LexLess(a, b) || LexLess(b, a)
  {
    if |a| > 0 && |b| > 0 && a[0] == b[0] {
      assert a == [a[0]] + a[1..] && b == [b[0]] + b[1..];
      LexLessTotal(a[1..], b[1..]);
    }
  }

  lemma {:induction false} LexLessAsymmetric(a: string, b: string)
    requires LexLess(a, b)
    ensures !LexLess(b, a)
  {
    if |a| > 0 && a[0] == b[0] {
      LexLessAsymmetric(a[1..], b[1..]);
    }
  }
}
