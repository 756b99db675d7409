/**
 * String and sequence helpers with the meaning of Python built-ins. The
 * chatbot itself uses `sep.join(parts)`, `s.strip()`, `sub in s` and `str(n)`
 * for a non-negative integer. `s.split(sep)` is used only by the reader of
 * the report text, and `"".join(parts)` stands for a chain of `+=` appends.
 */
module Text {

  /** `sep` placed between consecutive parts, as Python's `sep.join(parts)` for a one-character `sep`. */
  function Join(parts: seq<string>, sep: char): string
  {
    if |parts| == 0 then []
    else if |parts| == 1 then parts[0]
    else parts[0] + [sep] + Join(parts[1..], sep)
  }

  /** The runs between occurrences of `sep`, as Python's `s.split(sep)`. */
  function Split(s: string, sep: char): (r: seq<string>)
    ensures |r| > 0
  {
    if |s| == 0 then [[]]
    else
      var rest := Split(s[1..], sep);
      if s[0] == sep then [[]] + rest
      else [[s[0]] + rest[0]] + rest[1..]
  }

  /** Splitting a string that starts with `c`: one step of the definition. */
  lemma SplitCons(c: char, t: string, sep: char)
    ensures c == sep ==> Split([c] + t, sep) == [[]] + Split(t, sep)
    ensures c != sep ==> Split([c] + t, sep) == [[c] + Split(t, sep)[0]] + Split(t, sep)[1..]
  {
    assert ([c] + t)[0] == c && ([c] + t)[1..] == t;
  }

  /** Extending the first run of a split before appending more runs. */
  lemma PrependToFirst(c: char, left: seq<string>, right: seq<string>)
    requires |left| > 0
    ensures [[c] + (left + right)[0]] + (left + right)[1..] == ([[c] + left[0]] + left[1..]) + right
  {
    assert (left + right)[0] == left[0];
    assert (left + right)[1..] == left[1..] + right;
  }

  /** Splitting at one separator splits each side independently. */
  lemma {:induction false} SplitAround(a: string, sep: char, b: string)
    ensures Split(a + [sep] + b, sep) == Split(a, sep) + Split(b, sep)
    decreases |a|
  {
    if |a| == 0 {
      assert a + [sep] + b == [sep] + b;
      SplitCons(sep, b, sep);
    } else {
      var c, tail := a[0], a[1..] + [sep] + b;
      assert a + [sep] + b == [c] + tail;
      assert a == [c] + a[1..];
      SplitAround(a[1..], sep, b);
      SplitCons(c, tail, sep);
      SplitCons(c, a[1..], sep);
      if c != sep {
        PrependToFirst(c, Split(a[1..], sep), Split(b, sep));
      }
    }
  }

  /** A run without the separator splits into itself. */
  lemma {:induction false} SplitWithoutSeparator(a: string, sep: char)
    requires sep !in a
    ensures Split(a, sep) == [a]
    decreases |a|
  {
    if |a| > 0 {
      SplitWithoutSeparator(a[1..], sep);
      assert [a[0]] + a[1..] == a;
    }
  }

  /** Splitting undoes joining, when no part holds the separator. */
  lemma {:induction false} SplitJoin(parts: seq<string>, sep: char)
    requires |parts| > 0
    requires forall i :: 0 <= i < |parts| ==> sep !in parts[i]
    ensures Split(Join(parts, sep), sep) == parts
    decreases |parts|
  {
    SplitWithoutSeparator(parts[0], sep);
    if |parts| > 1 {
      SplitJoin(parts[1..], sep);
      SplitAround(parts[0], sep, Join(parts[1..], sep));
      assert parts == [parts[0]] + parts[1..];
    }
  }

  /** Joining two non-empty lists of parts puts one separator between them. */
  lemma {:induction false} JoinAppend(xs: seq<string>, ys: seq<string>, sep: char)
    requires |xs| > 0 && |ys| > 0
    ensures Join(xs + ys, sep) == Join(xs, sep) + [sep] + Join(ys, sep)
    decreases |xs|
  {
    if |xs| > 1 {
      JoinAppend(xs[1..], ys, sep);
      assert (xs + ys)[1..] == xs[1..] + ys;
    } else {
      assert (xs + ys)[1..] == ys;
    }
  }

  /** The parts glued end to end, as Python's `"".join(parts)`. */
  function Concat(parts: seq<string>): string
  {
    if |parts| == 0 then [] else parts[0] + Concat(parts[1..])
  }

  /** Concatenation distributes over appending lists of parts. */
  lemma {:induction false} ConcatAppend(xs: seq<string>, ys: seq<string>)
    ensures Concat(xs + ys) == Concat(xs) + Concat(ys)
    decreases |xs|
  {
    if |xs| > 0 {
      ConcatAppend(xs[1..], ys);
      assert (xs + ys)[1..] == xs[1..] + ys;
    } else {
      assert xs + ys == ys;
    }
  }

  /** The characters for which Python's `str.isspace()` holds, which `str.strip()` removes. */
  predicate IsSpace(c: char)
  {
    || c == ' ' || '\t' <= c <= '\r' || '\U{1C}' <= c <= '\U{1F}'
    || c == '\U{85}' || c == '\U{A0}' || c == '\U{1680}' || '\U{2000}' <= c <= '\U{200A}'
    || c == '\U{2028}' || c == '\U{2029}' || c == '\U{202F}' || c == '\U{205F}' || c == '\U{3000}'
  }

  /** `s` without its leading whitespace. */
  function TrimStart(s: string): (r: string)
    ensures |r| <= |s| && r == s[|s| - |r|..]
    ensures forall i :: 0 <= i < |s| - |r| ==> IsSpace(s[i])
    ensures |r| > 0 ==> !IsSpace(r[0])
  {
    if |s| > 0 && IsSpace(s[0]) then TrimStart(s[1..]) else s
  }

  /** `s` without its trailing whitespace. */
  function TrimEnd(s: string): (r: string)
    ensures |r| <= |s| && r == s[..|r|]
    ensures forall i :: |r| <= i < |s| ==> IsSpace(s[i])
    ensures |r| > 0 ==> !IsSpace(r[|r| - 1])
  {
    if |s| > 0 && IsSpace(s[|s| - 1]) then TrimEnd(s[..|s| - 1]) else s
  }

  /** Python's `s.strip()`: whitespace removed from both ends. */
  function Strip(s: string): string
  {
    TrimEnd(TrimStart(s))
  }

  /** Python's `sub in s`. */
  predicate Contains(s: string, sub: string)
  {
    exists i | 0 <= i <= |s| - |sub| :: OccursAt(s, sub, i)
  }

  /** `sub` is found in `s` starting at index `i`. */
  predicate OccursAt(s: string, sub: string, i: int)
  {
    0 <= i <= |s| - |sub| && s[i..i + |sub|] == sub
  }

  /** A label with no whitespace is found in the stripped text exactly when it is found in the raw text. */
  lemma StripKeepsContains(s: string, sub: string)
    requires |sub| > 0
    requires forall k :: 0 <= k < |sub| ==> !IsSpace(sub[k])
    ensures Contains(Strip(s), sub) <==> Contains(s, sub)
  {
    var a, b := StripBounds(s);
    ContainsBetweenSpaces(s, sub, a, b);
  }

  /** The stripped text is a slice of the raw text with only whitespace outside it. */
  lemma StripBounds(s: string) returns (a: nat, b: nat)
    ensures a <= b <= |s| && Strip(s) == s[a..b]
    ensures forall k :: 0 <= k < a ==> IsSpace(s[k])
    ensures forall k :: b <= k < |s| ==> IsSpace(s[k])
  {
    var t := TrimStart(s);
    var r := TrimEnd(t);
    a, b := |s| - |t|, |s| - |t| + |r|;
    PrefixOfSuffix(s, t, r, a);
  }

  /** A prefix `r` of the suffix `t` of `s` that starts at `a` is a slice of `s`, and what `t` holds beyond `r` is what `s` holds there. */
  lemma PrefixOfSuffix(s: string, t: string, r: string, a: nat)
    requires a <= |s| && t == s[a..]
    requires |r| <= |t| && r == t[..|r|]
    requires forall i :: |r| <= i < |t| ==> IsSpace(t[i])
    ensures r == s[a..a + |r|]
    ensures forall k :: a + |r| <= k < |s| ==> IsSpace(s[k])
  {
    forall k | a + |r| <= k < |s| ensures IsSpace(s[k]) {
      assert s[k] == t[k - a];
    }
  }

  /** An occurrence of a label with no whitespace cannot overlap whitespace padding. */
  lemma ContainsBetweenSpaces(s: string, sub: string, a: nat, b: nat)
    requires a <= b <= |s|
    requires |sub| > 0
    requires forall k :: 0 <= k < |sub| ==> !IsSpace(sub[k])
    requires forall k :: 0 <= k < a ==> IsSpace(s[k])
    requires forall k :: b <= k < |s| ==> IsSpace(s[k])
    ensures Contains(s[a..b], sub) <==> Contains(s, sub)
  {
    if Contains(s, sub) {
      var i :| 0 <= i <= |s| - |sub| && OccursAt(s, sub, i);
      var last := i + |sub| - 1;
      assert s[i] == sub[0] by { assert s[i..i + |sub|][0] == s[i]; }
      assert s[last] == sub[|sub| - 1] by { assert s[i..i + |sub|][|sub| - 1] == s[last]; }
      assert a <= i && last < b;
      forall k | 0 <= k < |sub| ensures s[a..b][i - a..i - a + |sub|][k] == sub[k] {
        assert s[a..b][i - a + k] == s[i + k] == s[i..i + |sub|][k];
      }
      assert OccursAt(s[a..b], sub, i - a);
    }
    if Contains(s[a..b], sub) {
      var j :| 0 <= j <= (b - a) - |sub| && OccursAt(s[a..b], sub, j);
      forall k | 0 <= k < |sub| ensures s[j + a..j + a + |sub|][k] == sub[k] {
        assert s[j + a + k] == s[a..b][j + k] == s[a..b][j..j + |sub|][k];
      }
      assert OccursAt(s, sub, j + a);
    }
  }

  /** The decimal digit character for `d`. */
  function DigitChar(d: nat): (c: char)
    requires d < 10
    ensures '0' <= c <= '9' && c as int - '0' as int == d
  {
    (d + '0' as int) as char
  }

  predicate IsDigits(s: string)
  {
    forall i :: 0 <= i < |s| ==> '0' <= s[i] <= '9'
  }

  /** Python's `str(n)` for a non-negative integer: digits, no leading zero. */
  function NatToDecimal(n: nat): (r: string)
    ensures |r| > 0 && IsDigits(r)
    ensures r[0] == '0' ==> n == 0
  {
    if n < 10 then [DigitChar(n)] else NatToDecimal(n / 10) + [DigitChar(n % 10)]
  }

  /** The number a string of decimal digits denotes. */
  function DecimalValue(s: string): nat
    requires IsDigits(s)
  {
    if |s| == 0 then 0
    else DecimalValue(s[..|s| - 1]) * 10 + (s[|s| - 1] as int - '0' as int)
  }

  /** Reading back the rendered digits gives the number. */
  lemma {:induction false} DecimalRoundTrip(n: nat)
    ensures DecimalValue(NatToDecimal(n)) == n
    decreases n
  {
    var r := NatToDecimal(n);
    if n >= 10 {
      DecimalRoundTrip(n / 10);
      assert r[..|r| - 1] == NatToDecimal(n / 10);
    } else {
      assert r[..|r| - 1] == [];
    }
  }
}
