/**
 * The few Go standard-library string and path helpers that the modelled code
 * calls: strings.HasPrefix, strings.TrimSpace, strings.Split, strconv.Atoi,
 * filepath.Base and filepath.ToSlash, for a system whose path separator is '/'.
 */
module GoStrings {
  import opened Wrappers

  /** filepath.Separator on the systems modelled here. */
  const Separator: char := '/'

  predicate HasPrefix(s: string, prefix: string) {
    prefix <= s
  }

  /** unicode.IsSpace: the Latin-1 spaces and the Unicode White_Space characters. */
  predicate IsSpace(c: char) {
    c == '\t' || c == '\n' || c == '\U{000B}' || c == '\U{000C}' || c == '\r' || c == ' '
    || c == '\U{0085}' || c == '\U{00A0}' || c == '\U{1680}'
    || ('\U{2000}' <= c <= '\U{200A}')
    || c == '\U{2028}' || c == '\U{2029}' || c == '\U{202F}' || c == '\U{205F}' || c == '\U{3000}'
  }

  predicate AllSpace(s: string) {
    forall i | 0 <= i < |s| :: IsSpace(s[i])
  }

  // Index of the first character that is not a space (|s| when there is none).
  function FirstNonSpace(s: string): (n: nat)
    ensures n <= |s|
    ensures forall i | 0 <= i < n :: IsSpace(s[i])
    ensures n < |s| ==> !IsSpace(s[n])
  {
    if s != [] && IsSpace(s[0]) then 1 + FirstNonSpace(s[1..]) else 0
  }

  // One past the last character that is not a space (0 when there is none).
  function EndOfNonSpace(s: string): (m: nat)
    ensures m <= |s|
    ensures forall i | m <= i < |s| :: IsSpace(s[i])
    ensures m > 0 ==> !IsSpace(s[m - 1])
  {
    if s != [] && IsSpace(s[|s| - 1]) then EndOfNonSpace(s[..|s| - 1]) else |s|
  }

  /** strings.TrimSpace: drops leading and trailing white space. */
  function TrimSpace(s: string): (r: string)
    ensures r != [] ==> !IsSpace(r[0]) && !IsSpace(r[|r| - 1])
  {
    var i := FirstNonSpace(s);
    if i == |s| then "" else s[i..EndOfNonSpace(s)]
  }

  /** TrimSpace leaves nothing exactly when every character is a space. */
  lemma TrimSpaceEmpty(s: string)
    ensures TrimSpace(s) == [] <==> AllSpace(s)
  {
    var i := FirstNonSpace(s);
    if i < |s| {
      assert !IsSpace(s[i]);
      assert i < EndOfNonSpace(s);
    }
  }

  /** strings.Split with a one-character separator. */
  function Split(s: string, sep: char): (parts: seq<string>)
    ensures |parts| >= 1
  {
    if s == [] then [""]
    else
      var rest := Split(s[1..], sep);
      if s[0] == sep then [""] + rest else [[s[0]] + rest[0]] + rest[1..]
  }

  /** strings.Join with a one-character separator, the inverse of Split. */
  function JoinWith(parts: seq<string>, sep: char): string
    requires |parts| >= 1
  {
    if |parts| == 1 then parts[0] else parts[0] + [sep] + JoinWith(parts[1..], sep)
  }

  /** The pieces never contain the separator, and joining them gives back the input. */
  lemma {:induction false} SplitJoin(s: string, sep: char)
    ensures forall k | 0 <= k < |Split(s, sep)| :: sep !in Split(s, sep)[k]
    ensures JoinWith(Split(s, sep), sep) == s
  {
    if s != [] {
      SplitJoin(s[1..], sep);
      var rest := Split(s[1..], sep);
      if s[0] != sep {
        var parts := Split(s, sep);
        assert parts[1..] == rest[1..];
        if |rest| == 1 {
          assert JoinWith(parts, sep) == [s[0]] + rest[0];
        } else {
          assert JoinWith(parts, sep) == [s[0]] + rest[0] + [sep] + JoinWith(rest[1..], sep);
        }
      }
    }
  }

  /** Splitting at a separator splits each side independently. */
  lemma {:induction false} SplitAppend(a: string, sep: char, b: string)
    ensures Split(a + [sep] + b, sep) == Split(a, sep) + Split(b, sep)
  {
    if a == [] {
      assert a + [sep] + b == [sep] + b;
      assert ([sep] + b)[1..] == b;
    } else {
      assert (a + [sep] + b)[1..] == a[1..] + [sep] + b;
      SplitAppend(a[1..], sep, b);
    }
  }

  lemma {:induction false} SplitNoSeparator(s: string, sep: char)
    requires sep !in s
    ensures Split(s, sep) == [s]
  {
    if s != [] {
      assert sep !in s[1..] by { assert forall k | 0 <= k < |s| - 1 :: s[1..][k] == s[k + 1]; }
      SplitNoSeparator(s[1..], sep);
      assert s[0] in s;
      var rest := Split(s[1..], sep);
      assert rest[1..] == [];
      assert [s[0]] + s[1..] == s;
    }
  }

  /** Appending a separator and a name with no separator adds that name as one more piece. */
  lemma SplitChild(path: string, name: string)
    requires Separator !in name
    ensures Split(path + [Separator] + name, Separator) == Split(path, Separator) + [name]
  {
    SplitAppend(path, Separator, name);
    SplitNoSeparator(name, Separator);
  }

  /** filepath.ToSlash: each separator becomes '/'. */
  function ToSlash(s: string): (r: string)
    ensures |r| == |s|
    ensures forall i | 0 <= i < |s| :: r[i] == (if s[i] == Separator then '/' else s[i])
  {
    if s == [] then [] else [if s[0] == Separator then '/' else s[0]] + ToSlash(s[1..])
  }

  predicate IsDigit(c: char) {
    '0' as int <= c as int <= '9' as int
  }

  // Value of a non-empty run of decimal digits.
  function DigitsValue(d: string): nat
    requires forall i | 0 <= i < |d| :: IsDigit(d[i])
  {
    if d == [] then 0
    else
      var last := d[|d| - 1];
      assert IsDigit(last);
      DigitsValue(d[..|d| - 1]) * 10 + (last as int - '0' as int)
  }

  function Pow10(n: nat): (p: nat)
    ensures p >= 1
  {
    if n == 0 then 1 else 10 * Pow10(n - 1)
  }

  const MinInt64: int := -0x8000_0000_0000_0000
  const MaxInt64: int := 0x7FFF_FFFF_FFFF_FFFF

  /**
   * strconv.Atoi on a 64-bit platform: an optional sign followed by at least one
   * decimal digit, with a value that fits in an int; anything else is an error.
   */
  function Atoi(s: string): (r: Option<int>)
    ensures r.Some? ==> MinInt64 <= r.value <= MaxInt64
    ensures r.Some? ==> s != [] && (IsDigit(s[0]) || s[0] == '+' || s[0] == '-')
  {
    var neg := s != [] && s[0] == '-';
    var digits := if s != [] && (s[0] == '+' || s[0] == '-') then s[1..] else s;
    if digits == [] || exists i | 0 <= i < |digits| :: !IsDigit(digits[i]) then None
    else
      var n: int := DigitsValue(digits);
      var v := if neg then -n else n;
      if MinInt64 <= v <= MaxInt64 then Some(v) else None
  }

  /** A run of n decimal digits is below 10^n. */
  lemma {:induction false} DigitsBelow(d: string)
    requires forall i | 0 <= i < |d| :: IsDigit(d[i])
    ensures DigitsValue(d) < Pow10(|d|)
  {
    if d != [] {
      DigitsBelow(d[..|d| - 1]);
    }
  }

  /**
   * Atoi reads up to 18 digits, with no sign, '+' or '-', as their decimal value;
   * a sign with no digits after it is an error.
   */
  lemma AtoiDecimal(d: string)
    requires 0 < |d| <= 18 && forall i | 0 <= i < |d| :: IsDigit(d[i])
    ensures Atoi(d) == Some(DigitsValue(d))
    ensures Atoi("+" + d) == Some(DigitsValue(d))
    ensures Atoi("-" + d) == Some(-(DigitsValue(d) as int))
    ensures Atoi("") == None && Atoi("+") == None && Atoi("-") == None
  {
    DigitsFit(d);
    AtoiSigned("+" + d, d);
    AtoiSigned("-" + d, d);
  }

  lemma AtoiSigned(s: string, d: string)
    requires 0 < |s| && (s[0] == '+' || s[0] == '-') && s[1..] == d
    requires 0 < |d| && forall i | 0 <= i < |d| :: IsDigit(d[i])
    requires DigitsValue(d) < 1_000_000_000_000_000_000
    ensures Atoi(s) == Some(if s[0] == '-' then -(DigitsValue(d) as int) else DigitsValue(d))
  {
  }

  // Eighteen digits always fit in a 64-bit int.
  lemma DigitsFit(d: string)
    requires |d| <= 18 && forall i | 0 <= i < |d| :: IsDigit(d[i])
    ensures DigitsValue(d) < 1_000_000_000_000_000_000
  {
    DigitsBelow(d);
    Pow10Grows(|d|, 18);
    Pow10Eighteen();
  }

  lemma Pow10Eighteen()
    ensures Pow10(18) == 1_000_000_000_000_000_000
  {
    assert Pow10(3) == 1000;
    assert Pow10(6) == 1000_000;
    assert Pow10(9) == 1000_000_000;
    assert Pow10(12) == 1000_000_000_000;
    assert Pow10(15) == 1000_000_000_000_000;
  }

  lemma {:induction false} Pow10Grows(m: nat, n: nat)
    requires m <= n
    ensures Pow10(m) <= Pow10(n)
  {
    if m < n {
      Pow10Grows(m, n - 1);
    }
  }

  function DropTrailingSlashes(s: string): (r: string)
    ensures r <= s
    ensures r != [] ==> r[|r| - 1] != Separator
  {
    if s != [] && s[|s| - 1] == Separator then DropTrailingSlashes(s[..|s| - 1]) else s
  }

  // The part of s after its last separator (all of s when there is none).
  function AfterLastSeparator(s: string): (r: string)
    ensures Separator !in r
    ensures |r| <= |s| && r == s[|s| - |r|..]
    ensures |r| < |s| ==> s[|s| - |r| - 1] == Separator
  {
    if s == [] then []
    else if s[|s| - 1] == Separator then []
    else AfterLastSeparator(s[..|s| - 1]) + [s[|s| - 1]]
  }

  /** filepath.Base: the last element of path, "." for the empty path, "/" for a path of separators. */
  function Base(path: string): (r: string)
    ensures r != []
    ensures r == "/" || Separator !in r
  {
    if path == [] then "."
    else
      var trimmed := DropTrailingSlashes(path);
      if trimmed == [] then [Separator]
      else
        var last := AfterLastSeparator(trimmed);
        if last == [] then [Separator] else last
  }

  /** The base of "dir/name" is name, for a name with no separator. */
  lemma BaseOfChild(dir: string, name: string)
    requires name != [] && Separator !in name
    ensures Base(dir + [Separator] + name) == name
    ensures Base(name) == name
  {
    var p := dir + [Separator] + name;
    assert p[|p| - 1] == name[|name| - 1];
    assert DropTrailingSlashes(p) == p;
    AfterLastOfChild(dir, name);
    AfterLastOfChild([], name);
    assert [Separator] + name == [] + [Separator] + name;
    assert DropTrailingSlashes(name) == name;
    AfterLastNoSeparator(name);
  }

  lemma {:induction false} AfterLastNoSeparator(s: string)
    requires Separator !in s
    ensures AfterLastSeparator(s) == s
  {
    if s != [] {
      assert Separator !in s[..|s| - 1];
      AfterLastNoSeparator(s[..|s| - 1]);
    }
  }

  lemma {:induction false} AfterLastOfChild(dir: string, name: string)
    requires Separator !in name
    ensures AfterLastSeparator(dir + [Separator] + name) == name
  {
    var p := dir + [Separator] + name;
    if name != [] {
      assert p[..|p| - 1] == dir + [Separator] + name[..|name| - 1];
      assert Separator !in name[..|name| - 1];
      AfterLastOfChild(dir, name[..|name| - 1]);
      assert p[|p| - 1] == name[|name| - 1];
    }
  }
}
