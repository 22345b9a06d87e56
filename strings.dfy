/** The JavaScript string primitives the core relies on: `split` on a
    one-character separator, `join`, `trim`, the `\s` class, ASCII case
    conversion and the decimal rendering of integers. */
module Strings {
  import opened Wrappers

  // ---------------------------------------------------------------------
  // split / join
  // ---------------------------------------------------------------------

  /** `s.split(sep)` for a one-character separator: one piece per separator
      plus one, empty pieces kept ("" gives [""], "a..b" gives ["a", "", "b"]). */
  function Split(s: string, sep: char): (parts: seq<string>)
    ensures |parts| >= 1
    ensures forall i :: 0 <= i < |parts| ==> sep !in parts[i]
    decreases |s|
  {
    if s == [] then [[]]
    else
      var rest := Split(s[1..], sep);
      if s[0] == sep then [[]] + rest
      else [[s[0]] + rest[0]] + rest[1..]
  }

  /** `parts.join(sep)`: the empty list joins to "". */
  function Join(parts: seq<string>, sep: string): string
    decreases |parts|
  {
    if |parts| == 0 then ""
    else if |parts| == 1 then parts[0]
    else parts[0] + sep + Join(parts[1..], sep)
  }

  /** Joining the pieces of a split with the same separator gives the string back. */
  lemma {:induction false} JoinSplit(s: string, sep: char)
    ensures Join(Split(s, sep), [sep]) == s
    decreases |s|
  {
    if s != [] {
      JoinSplit(s[1..], sep);
      var rest := Split(s[1..], sep);
      if s[0] != sep && |rest| > 1 {
        assert ([s[0]] + rest[0]) + [sep] + Join(rest[1..], [sep])
            == [s[0]] + (rest[0] + [sep] + Join(rest[1..], [sep]));
      }
    }
  }

  /** Splitting a join of pieces without the separator gives the pieces back. */
  lemma {:induction false} SplitJoin(parts: seq<string>, sep: char)
    requires parts != [] && forall i :: 0 <= i < |parts| ==> sep !in parts[i]
    ensures Split(Join(parts, [sep]), sep) == parts
    decreases |parts|
  {
    SplitWithoutSeparator(parts[0], sep);
    if |parts| > 1 {
      SplitJoin(parts[1..], sep);
      SplitAppend(parts[0], Join(parts[1..], [sep]), sep);
      assert parts == [parts[0]] + parts[1..];
    }
  }

  /** A string that holds the separator splits into at least two pieces. */
  lemma {:induction false} SplitAtSeparator(s: string, sep: char)
    requires sep in s
    ensures |Split(s, sep)| >= 2
    decreases |s|
  {
    if s[0] != sep {
      assert sep in s[1..];
      SplitAtSeparator(s[1..], sep);
    }
  }

  /** A string without the separator is its own single piece. */
  lemma {:induction false} SplitWithoutSeparator(s: string, sep: char)
    requires sep !in s
    ensures Split(s, sep) == [s]
    decreases |s|
  {
    if s != [] {
      assert s[0] in s && sep !in s[1..];
      SplitWithoutSeparator(s[1..], sep);
      assert [s[0]] + s[1..] == s;
    }
  }

  /** Splitting at a separator between two strings splits the two halves. */
  lemma {:induction false} SplitAppend(a: string, b: string, sep: char)
    ensures Split(a + [sep] + b, sep) == Split(a, sep) + Split(b, sep)
    decreases |a|
  {
    if a == [] {
      assert a + [sep] + b == [sep] + b;
      assert ([sep] + b)[1..] == b;
    } else {
      assert (a + [sep] + b)[1..] == a[1..] + [sep] + b;
      SplitAppend(a[1..], b, sep);
    }
  }

  /** Joining a list of two or more splits off its last element. */
  lemma {:induction false} JoinLast(parts: seq<string>, sep: string)
    requires |parts| >= 2
    ensures Join(parts, sep) == Join(parts[..|parts| - 1], sep) + sep + parts[|parts| - 1]
    decreases |parts|
  {
    if |parts| > 2 {
      JoinLast(parts[1..], sep);
      assert parts[1..][..|parts[1..]| - 1] == parts[..|parts| - 1][1..];
    }
  }

  /** Joining a non-empty list followed by more elements. */
  lemma {:induction false} JoinAppend(xs: seq<string>, ys: seq<string>, sep: string)
    requires |xs| >= 1 && |ys| >= 1
    ensures Join(xs + ys, sep) == Join(xs, sep) + sep + Join(ys, sep)
    decreases |xs|
  {
    if |xs| > 1 {
      JoinAppend(xs[1..], ys, sep);
      assert (xs + ys)[1..] == xs[1..] + ys;
    } else {
      assert (xs + ys)[1..] == ys;
    }
  }

  // ---------------------------------------------------------------------
  // whitespace and trim
  // ---------------------------------------------------------------------

  /** The characters of JavaScript's `\s` class, which are also exactly the
      characters `String.prototype.trim` removes (WhiteSpace and LineTerminator). */
  predicate IsSpace(c: char)
  {
    || c == '\t' || c == '\n' || c == '\U{000B}' || c == '\U{000C}' || c == '\r' || c == ' '
    || c == '\U{00A0}' || c == '\U{1680}' || ('\U{2000}' <= c <= '\U{200A}')
    || c == '\U{2028}' || c == '\U{2029}' || c == '\U{202F}' || c == '\U{205F}'
    || c == '\U{3000}' || c == '\U{FEFF}'
  }

  predicate AllSpace(s: string)
  {
    forall i :: 0 <= i < |s| ==> IsSpace(s[i])
  }

  /** Number of whitespace characters at the front of `s`. */
  function LeadingSpaces(s: string): (n: nat)
    ensures n <= |s|
    ensures AllSpace(s[..n])
    ensures n < |s| ==> !IsSpace(s[n])
    decreases |s|
  {
    if s == [] || !IsSpace(s[0]) then 0
    else
      var n := LeadingSpaces(s[1..]);
      assert s[..n + 1] == [s[0]] + s[1..][..n];
      n + 1
  }

  /** Number of whitespace characters at the end of `s`. */
  function TrailingSpaces(s: string): (n: nat)
    ensures n <= |s|
    ensures AllSpace(s[|s| - n..])
    ensures n < |s| ==> !IsSpace(s[|s| - n - 1])
    decreases |s|
  {
    if s == [] || !IsSpace(s[|s| - 1]) then 0
    else
      var n := TrailingSpaces(s[..|s| - 1]);
      TrailingStep(s, n);
      n + 1
  }

  /** One more trailing whitespace character extends the trailing run. */
  lemma TrailingStep(s: string, n: nat)
    requires s != [] && IsSpace(s[|s| - 1])
    requires n <= |s| - 1 && AllSpace(s[..|s| - 1][|s| - 1 - n..])
    requires n < |s| - 1 ==> !IsSpace(s[..|s| - 1][|s| - 1 - n - 1])
    ensures AllSpace(s[|s| - (n + 1)..])
    ensures n + 1 < |s| ==> !IsSpace(s[|s| - (n + 1) - 1])
  {
    var init := s[..|s| - 1];
    assert s[|s| - (n + 1)..] == init[|init| - n..] + [s[|s| - 1]];
    AllSpaceAppend(init[|init| - n..], [s[|s| - 1]]);
    assert n + 1 < |s| ==> s[|s| - (n + 1) - 1] == init[|init| - n - 1];
  }

  lemma AllSpaceAppend(a: string, b: string)
    requires AllSpace(a) && AllSpace(b)
    ensures AllSpace(a + b)
  {
    assert forall i :: 0 <= i < |a + b| ==> (a + b)[i] == if i < |a| then a[i] else b[i - |a|];
  }

  /** `s.trim()`: the slice of `s` between its leading and trailing whitespace. */
  function Trim(s: string): (r: string)
    ensures |r| <= |s|
    ensures r == [] || (!IsSpace(r[0]) && !IsSpace(r[|r| - 1]))
  {
    var front := LeadingSpaces(s);
    var rest := s[front..];
    var back := TrailingSpaces(rest);
    assert rest[|rest| - back..] == s[|s| - back..];
    assert rest[..|rest| - back] == s[front..|s| - back];
    rest[..|rest| - back]
  }

  /** Trimming removes only whitespace, and only at the two ends. */
  lemma TrimSlice(s: string)
    ensures exists i, j :: 0 <= i <= j <= |s| && Trim(s) == s[i..j] && AllSpace(s[..i]) && AllSpace(s[j..])
  {
    var front := LeadingSpaces(s);
    var rest := s[front..];
    var back := TrailingSpaces(rest);
    assert rest[|rest| - back..] == s[|s| - back..];
    assert rest[..|rest| - back] == s[front..|s| - back];
    assert Trim(s) == s[front..|s| - back];
  }

  /** A string with no whitespace at either end is its own trim. */
  lemma TrimTrimmed(s: string)
    requires s == [] || (!IsSpace(s[0]) && !IsSpace(s[|s| - 1]))
    ensures Trim(s) == s
  {
  }

  /** Drops the whitespace at the front of `s`. */
  function SkipSpaces(s: string): (r: string)
    ensures |r| <= |s| && r == s[|s| - |r|..]
    ensures r == [] || !IsSpace(r[0])
    ensures s != [] && IsSpace(s[0]) ==> |r| < |s|
  {
    s[LeadingSpaces(s)..]
  }

  /** `s.replace(/\s+/g, "-")`: every maximal run of whitespace becomes one hyphen. */
  function HyphenateSpaces(s: string): (r: string)
    ensures forall i :: 0 <= i < |r| ==> !IsSpace(r[i])
    decreases |s|
  {
    if s == [] then ""
    else if IsSpace(s[0]) then "-" + HyphenateSpaces(SkipSpaces(s))
    else [s[0]] + HyphenateSpaces(s[1..])
  }

  /** A string without whitespace is left as it is. */
  lemma {:induction false} HyphenateNoSpaces(s: string)
    requires forall i :: 0 <= i < |s| ==> !IsSpace(s[i])
    ensures HyphenateSpaces(s) == s
    decreases |s|
  {
    if s != [] {
      HyphenateNoSpaces(s[1..]);
    }
  }

  /** A whitespace run directly after a word, followed by a non-whitespace
      character or nothing, becomes one hyphen after that word. */
  lemma {:induction false} HyphenateRun(a: string, w: string, b: string)
    requires forall i :: 0 <= i < |a| ==> !IsSpace(a[i])
    requires w != [] && AllSpace(w)
    requires b == [] || !IsSpace(b[0])
    ensures HyphenateSpaces(a + w + b) == a + "-" + HyphenateSpaces(b)
    decreases |a|
  {
    if a == [] {
      assert a + w + b == w + b;
      LeadingRun(w, b);
      assert SkipSpaces(w + b) == b;
    } else {
      var s := a + w + b;
      assert s[0] == a[0] && !IsSpace(s[0]) && s[1..] == a[1..] + w + b;
      assert HyphenateSpaces(s) == [a[0]] + HyphenateSpaces(s[1..]);
      HyphenateRun(a[1..], w, b);
      assert a + "-" + HyphenateSpaces(b) == [a[0]] + (a[1..] + "-" + HyphenateSpaces(b));
    }
  }

  /** The leading whitespace of `w + b` is exactly the run `w`. */
  lemma {:induction false} LeadingRun(w: string, b: string)
    requires AllSpace(w)
    requires b == [] || !IsSpace(b[0])
    ensures LeadingSpaces(w + b) == |w|
    decreases |w|
  {
    if w != [] {
      assert (w + b)[0] == w[0] && (w + b)[1..] == w[1..] + b;
      LeadingRun(w[1..], b);
    } else {
      assert w + b == b;
    }
  }

  // ---------------------------------------------------------------------
  // case conversion (ASCII letters only)
  // ---------------------------------------------------------------------

  function LowerChar(c: char): char
  {
    if 'A' <= c <= 'Z' then (c as int + 32) as char else c
  }

  function UpperChar(c: char): char
  {
    if 'a' <= c <= 'z' then (c as int - 32) as char else c
  }

  /** `s.toLowerCase()`, restricted to the ASCII letters. */
  function ToLower(s: string): (r: string)
    ensures |r| == |s|
    ensures forall i :: 0 <= i < |s| ==> r[i] == LowerChar(s[i])
  {
    seq(|s|, i requires 0 <= i < |s| => LowerChar(s[i]))
  }

  /** Case conversion leaves whitespace and the separators '.' and '-' alone,
      so it never creates or removes one. */
  lemma CaseKeepsPunctuation(c: char)
    ensures IsSpace(LowerChar(c)) == IsSpace(c) && IsSpace(UpperChar(c)) == IsSpace(c)
    ensures (LowerChar(c) == '.') == (c == '.') && (UpperChar(c) == '.') == (c == '.')
    ensures (LowerChar(c) == '-') == (c == '-') && (UpperChar(c) == '-') == (c == '-')
  {
  }

  // ---------------------------------------------------------------------
  // decimal numbers
  // ---------------------------------------------------------------------

  function DigitChar(d: nat): char
    requires d < 10
  {
    ('0' as int + d) as char
  }

  /** The decimal rendering of a natural number, without leading zeros. */
  function NatToString(n: nat): (r: string)
    ensures |r| >= 1
    ensures forall i :: 0 <= i < |r| ==> '0' <= r[i] <= '9'
    ensures |r| > 1 ==> r[0] != '0'
    decreases n
  {
    if n < 10 then [DigitChar(n)] else NatToString(n / 10) + [DigitChar(n % 10)]
  }

  /** `String(i)` for an integer. */
  function IntToString(i: int): string
  {
    if i < 0 then "-" + NatToString(-i) else NatToString(i)
  }

  /** The value of a string of decimal digits. */
  function DigitsValue(s: string): nat
    requires forall i :: 0 <= i < |s| ==> '0' <= s[i] <= '9'
    decreases |s|
  {
    if s == [] then 0 else 10 * DigitsValue(s[..|s| - 1]) + (s[|s| - 1] as int - '0' as int)
  }

  /** The index an array property name denotes: a canonical decimal string
      (no sign, no leading zero except "0" itself). */
  function CanonicalIndex(key: string): Option<nat>
  {
    if key != [] && (forall i :: 0 <= i < |key| ==> '0' <= key[i] <= '9') && (|key| == 1 || key[0] != '0')
    then Some(DigitsValue(key))
    else None
  }

  /** Rendering a number and reading it back as an index gives the number. */
  lemma {:induction false} CanonicalIndexOfNat(n: nat)
    ensures CanonicalIndex(NatToString(n)) == Some(n)
    decreases n
  {
    var s := NatToString(n);
    if n >= 10 {
      CanonicalIndexOfNat(n / 10);
      assert s[..|s| - 1] == NatToString(n / 10);
      assert DigitsValue(NatToString(n / 10)) == n / 10;
    } else {
      assert s[..0] == [];
    }
    assert s[|s| - 1] as int - '0' as int == n % 10;
    assert DigitsValue(s) == n;
  }
}
