/** The parts of PHP's string and scalar semantics that the static-map builder relies on:
    empty(), the (bool) cast, trim(), array_filter with 'trim', implode/explode with a
    one-character separator, the (string) cast of an int, the ASCII alphanumeric test of
    preg_match('/[A-Za-z0-9]/') and upper-casing. */
module Php {

  datatype Option<+T> = None | Some(value: T)

  // ---------------------------------------------------------------------------
  // empty() and the (bool) cast
  // ---------------------------------------------------------------------------

  /** PHP's empty() on a string: only "" and "0" are empty. */
  predicate IsEmpty(s: string) {
    s == "" || s == "0"
  }

  /** empty() on a string that may be null: null is empty as well. */
  predicate IsEmptyOpt(s: Option<string>) {
    s.None? || IsEmpty(s.value)
  }

  /** A scalar argument as a PHP caller may pass it, before a (bool) cast.
      Floats, arrays and objects are not modelled. */
  datatype Value = Null | Bool(b: bool) | Int(i: int) | Str(s: string)

  /** PHP's (bool) cast: null, false, 0, "" and "0" are false, every other scalar is true. */
  function ToBool(v: Value): bool {
    match v
    case Null => false
    case Bool(b) => b
    case Int(i) => i != 0
    case Str(s) => !IsEmpty(s)
  }

  // ---------------------------------------------------------------------------
  // trim() and array_filter($xs, 'trim')
  // ---------------------------------------------------------------------------

  /** The characters trim() strips by default: space, tab, line feed, carriage return, NUL
      and vertical tab. */
  predicate IsTrimSpace(c: char) {
    c == ' ' || c == '\t' || c == '\n' || c == '\r' || c == '\0' || c == '\U{000B}'
  }

  /** Strips the leading trim characters: what remains is a suffix of `s` that starts with a
      character trim() keeps, and everything cut off is a trim character. */
  function TrimLeft(s: string): (r: string)
    ensures |r| <= |s| && r == s[|s| - |r|..]
    ensures r == "" || !IsTrimSpace(r[0])
    ensures forall i :: 0 <= i < |s| - |r| ==> IsTrimSpace(s[i])
    decreases |s|
  {
    if |s| > 0 && IsTrimSpace(s[0]) then TrimLeft(s[1..]) else s
  }

  /** Strips the trailing trim characters: what remains is a prefix of `s` that ends with a
      character trim() keeps, and everything cut off is a trim character. */
  function TrimRight(s: string): (r: string)
    ensures |r| <= |s| && r == s[..|r|]
    ensures r == "" || !IsTrimSpace(r[|r| - 1])
    ensures forall i :: |r| <= i < |s| ==> IsTrimSpace(s[i])
    decreases |s|
  {
    if |s| > 0 && IsTrimSpace(s[|s| - 1]) then TrimRight(s[..|s| - 1]) else s
  }

  /** PHP's trim() with its default character list. */
  function Trim(s: string): string {
    TrimRight(TrimLeft(s))
  }

  /** trim() gives "" exactly for strings made only of trim characters; otherwise its result
      starts and ends with characters it keeps, and a string starting with such a character
      keeps its first character. */
  lemma TrimFacts(s: string)
    ensures Trim(s) == "" <==> forall i :: 0 <= i < |s| ==> IsTrimSpace(s[i])
    ensures Trim(s) != "" ==> !IsTrimSpace(Trim(s)[0]) && !IsTrimSpace(Trim(s)[|Trim(s)| - 1])
    ensures |s| > 0 && !IsTrimSpace(s[0]) ==> Trim(s) != "" && Trim(s)[0] == s[0]
  {
    var l := TrimLeft(s);
    var r := TrimRight(l);
    if l != "" {
      assert !IsTrimSpace(l[0]);
      assert r[0] == l[0];
      assert l[0] == s[|s| - |l|];
    } else {
      assert forall i :: 0 <= i < |s| ==> IsTrimSpace(s[i]);
    }
  }

  /** The strings held by the non-null entries, in order. */
  function Present(xs: seq<Option<string>>): seq<string> {
    if xs == [] then []
    else (if xs[0].Some? then [xs[0].value] else []) + Present(xs[1..])
  }

  lemma {:induction false} PresentAppend(a: seq<Option<string>>, b: seq<Option<string>>)
    ensures Present(a + b) == Present(a) + Present(b)
    decreases |a|
  {
    if a == [] {
      assert a + b == b;
    } else {
      assert (a + b)[1..] == a[1..] + b;
      PresentAppend(a[1..], b);
    }
  }

  lemma {:induction false} PresentAllSome(xs: seq<Option<string>>)
    requires forall i :: 0 <= i < |xs| ==> xs[i].Some?
    ensures |Present(xs)| == |xs| && forall i :: 0 <= i < |xs| ==> Present(xs)[i] == xs[i].value
    decreases |xs|
  {
    if xs != [] {
      PresentAllSome(xs[1..]);
    }
  }

  /** array_filter($xs, 'trim'): keeps, in order, the entries whose trimmed text is not
      PHP-empty (a null entry trims to "" and goes); a kept entry is the original, untrimmed
      string. */
  function FilterTrim(xs: seq<Option<string>>): (r: seq<string>)
    ensures |r| <= |xs|
    ensures forall i :: 0 <= i < |r| ==> !IsEmpty(Trim(r[i]))
  {
    if xs == [] then []
    else if xs[0].Some? && !IsEmpty(Trim(xs[0].value)) then [xs[0].value] + FilterTrim(xs[1..])
    else FilterTrim(xs[1..])
  }

  predicate IsAsciiLetter(c: char) {
    'A' <= c <= 'Z' || 'a' <= c <= 'z'
  }

  /** Every non-null entry starts with an ASCII letter, as a `key=` or `key:` entry does. */
  predicate Keyed(xs: seq<Option<string>>) {
    forall i :: 0 <= i < |xs| && xs[i].Some? ==> |xs[i].value| > 0 && IsAsciiLetter(xs[i].value[0])
  }

  lemma KeyedAppend(a: seq<Option<string>>, b: seq<Option<string>>)
    requires Keyed(a) && Keyed(b)
    ensures Keyed(a + b)
  {
    forall i | 0 <= i < |a + b| && (a + b)[i].Some?
      ensures |(a + b)[i].value| > 0 && IsAsciiLetter((a + b)[i].value[0])
    {
      if i >= |a| {
        assert (a + b)[i] == b[i - |a|];
      }
    }
  }

  /** When every non-null entry starts with an ASCII letter (a `key=` or `key:` entry),
      array_filter with 'trim' drops exactly the nulls. */
  lemma {:induction false} FilterTrimKeyed(xs: seq<Option<string>>)
    requires Keyed(xs)
    ensures FilterTrim(xs) == Present(xs)
  {
    if xs != [] {
      if xs[0].Some? {
        LetterKept(xs[0].value);
      }
      FilterTrimKeyed(xs[1..]);
    }
  }

  /** array_filter([$key, $rest], 'trim') where $key is null or starts with an ASCII letter:
      the key is kept whenever it is there, the rest only when it is not blank. */
  lemma FilterTrimPair(key: Option<string>, rest: string)
    requires key.Some? ==> |key.value| > 0 && IsAsciiLetter(key.value[0])
    ensures FilterTrim([key, Some(rest)]) ==
              (if key.Some? then [key.value] else []) + (if IsEmpty(Trim(rest)) then [] else [rest])
  {
    var xs := [key, Some(rest)];
    assert xs[0] == key && xs[1..] == [Some(rest)];
    FilterTrimOne(rest);
    if key.Some? {
      LetterKept(key.value);
    }
  }

  lemma FilterTrimOne(s: string)
    ensures FilterTrim([Some(s)]) == if IsEmpty(Trim(s)) then [] else [s]
  {
    assert [Some(s)][1..] == [];
  }

  /** A string starting with a letter is not blank to trim(). */
  lemma LetterKept(s: string)
    requires |s| > 0 && IsAsciiLetter(s[0])
    ensures !IsEmpty(Trim(s))
  {
    TrimFacts(s);
    assert Trim(s)[0] == s[0];
  }

  // ---------------------------------------------------------------------------
  // implode() and explode() with a one-character separator
  // ---------------------------------------------------------------------------

  predicate IsSuffix(a: string, b: string) {
    |a| <= |b| && b[|b| - |a|..] == a
  }

  /** implode($sep, $parts). */
  function Join(parts: seq<string>, sep: char): (r: string)
    ensures parts == [] ==> r == ""
    decreases |parts|
  {
    if |parts| == 0 then ""
    else if |parts| == 1 then parts[0]
    else parts[0] + [sep] + Join(parts[1..], sep)
  }

  /** The joined string starts with the first part (and the separator after it) and ends with
      the last part (and the separator before it). */
  lemma {:induction false} JoinEnds(parts: seq<string>, sep: char)
    requires parts != []
    ensures parts[0] <= Join(parts, sep) && IsSuffix(parts[|parts| - 1], Join(parts, sep))
    ensures |parts| >= 2 ==> parts[0] + [sep] + parts[1] <= Join(parts, sep)
    ensures |parts| >= 2 ==> IsSuffix([sep] + parts[|parts| - 1], Join(parts, sep))
    decreases |parts|
  {
    if |parts| >= 2 {
      var rest := parts[1..];
      var t := Join(rest, sep);
      JoinEnds(rest, sep);
      assert Join(parts, sep) == parts[0] + [sep] + t;
      assert rest[|rest| - 1] == parts[|parts| - 1];
      assert rest[0] == parts[1];
      assert parts[0] + [sep] + t == (parts[0] + [sep]) + t;
    }
  }

  lemma JoinPair(a: string, b: string, sep: char)
    ensures Join([a, b], sep) == a + [sep] + b
  {
    assert [a, b][1..] == [b];
  }

  lemma JoinTriple(a: string, b: string, c: string, sep: char)
    ensures Join([a, b, c], sep) == a + [sep] + b + [sep] + c
  {
    assert [a, b, c][1..] == [b, c];
    JoinPair(b, c, sep);
  }

  /** explode($sep, $s): the pieces between separators; there is always at least one. */
  function Split(s: string, sep: char): (r: seq<string>)
    ensures |r| >= 1
    ensures forall i :: 0 <= i < |r| ==> sep !in r[i]
    decreases |s|
  {
    if s == "" then [""]
    else
      var rest := Split(s[1..], sep);
      if s[0] == sep then [""] + rest else [[s[0]] + rest[0]] + rest[1..]
  }

  /** implode undoes explode. */
  lemma {:induction false} JoinSplit(s: string, sep: char)
    ensures Join(Split(s, sep), sep) == s
    decreases |s|
  {
    if s != "" {
      var rest := Split(s[1..], sep);
      JoinSplit(s[1..], sep);
      if s[0] == sep {
        JoinConsEmpty(rest, sep);
      } else {
        JoinConsChar(s[0], rest, sep);
      }
      assert s == [s[0]] + s[1..];
    }
  }

  /** Joining after a new empty first part puts one separator in front. */
  lemma JoinConsEmpty(rest: seq<string>, sep: char)
    requires rest != []
    ensures Join([""] + rest, sep) == [sep] + Join(rest, sep)
  {
    assert ([""] + rest)[1..] == rest;
  }

  /** Joining after a character is put in front of the first part puts it in front of all. */
  lemma JoinConsChar(c: char, rest: seq<string>, sep: char)
    requires rest != []
    ensures Join([[c] + rest[0]] + rest[1..], sep) == [c] + Join(rest, sep)
  {
    var r := [[c] + rest[0]] + rest[1..];
    assert r[0] == [c] + rest[0] && r[1..] == rest[1..];
    if |rest| >= 2 {
      var tail := Join(rest[1..], sep);
      assert Join(r, sep) == ([c] + rest[0]) + [sep] + tail;
      assert ([c] + rest[0]) + [sep] + tail == [c] + (rest[0] + [sep] + tail);
    }
  }

  lemma {:induction false} SplitWithout(a: string, sep: char)
    requires sep !in a
    ensures Split(a, sep) == [a]
    decreases |a|
  {
    if a != "" {
      SplitWithout(a[1..], sep);
      assert a[0] != sep;
      assert [a[0]] + a[1..] == a;
    }
  }

  lemma {:induction false} SplitAfter(a: string, b: string, sep: char)
    requires sep !in a
    ensures Split(a + [sep] + b, sep) == [a] + Split(b, sep)
    decreases |a|
  {
    var s := a + [sep] + b;
    if a == "" {
      assert s[1..] == b;
    } else {
      assert s[1..] == a[1..] + [sep] + b;
      SplitAfter(a[1..], b, sep);
      assert [a[0]] + a[1..] == a;
    }
  }

  /** explode undoes implode when no part contains the separator. */
  lemma {:induction false} SplitJoin(parts: seq<string>, sep: char)
    requires parts != []
    requires forall i :: 0 <= i < |parts| ==> sep !in parts[i]
    ensures Split(Join(parts, sep), sep) == parts
    decreases |parts|
  {
    if |parts| == 1 {
      SplitWithout(parts[0], sep);
    } else {
      SplitJoin(parts[1..], sep);
      SplitAfter(parts[0], Join(parts[1..], sep), sep);
      assert [parts[0]] + parts[1..] == parts;
    }
  }

  /** Joining two non-empty lists is joining their joins. */
  lemma {:induction false} JoinAppend(a: seq<string>, b: seq<string>, sep: char)
    requires a != [] && b != []
    ensures Join(a + b, sep) == Join(a, sep) + [sep] + Join(b, sep)
    decreases |a|
  {
    if |a| == 1 {
      assert (a + b)[1..] == b;
    } else {
      assert (a + b)[1..] == a[1..] + b;
      JoinAppend(a[1..], b, sep);
    }
  }

  /** Joining never introduces a character other than the separator. */
  lemma {:induction false} JoinWithout(parts: seq<string>, sep: char, c: char)
    requires c != sep && forall i :: 0 <= i < |parts| ==> c !in parts[i]
    ensures c !in Join(parts, sep)
    decreases |parts|
  {
    if |parts| >= 2 {
      JoinWithout(parts[1..], sep, c);
    }
  }

  /** Joining a group in place of its own join is joining the flattened list. */
  lemma JoinFlatten(a: seq<string>, b: seq<string>, c: seq<string>, sep: char)
    requires a != [] && b != [] && c != []
    ensures Join(a + [Join(b, sep)] + c, sep) == Join(a + b + c, sep)
  {
    JoinAppend(a, [Join(b, sep)] + c, sep);
    assert a + [Join(b, sep)] + c == a + ([Join(b, sep)] + c);
    JoinAppend([Join(b, sep)], c, sep);
    JoinAppend(a, b + c, sep);
    assert a + b + c == a + (b + c);
    JoinAppend(b, c, sep);
  }

  // ---------------------------------------------------------------------------
  // The (string) cast of an int, and its inverse
  // ---------------------------------------------------------------------------

  predicate IsDigit(c: char) {
    '0' <= c <= '9'
  }

  function DigitChar(d: nat): (c: char)
    requires d < 10
    ensures IsDigit(c) && c as int - '0' as int == d
  {
    ('0' as int + d) as char
  }

  /** Decimal digits of `n`, most significant first, without leading zeros. */
  function NatToString(n: nat): (r: string)
    ensures |r| >= 1 && forall i :: 0 <= i < |r| ==> IsDigit(r[i])
    ensures r[0] == '0' ==> n == 0
    decreases n
  {
    if n < 10 then [DigitChar(n)] else NatToString(n / 10) + [DigitChar(n % 10)]
  }

  /** What PHP writes for an int: at least one character, a digit everywhere except perhaps
      for a leading '-'. */
  predicate IsDecimal(s: string) {
    |s| >= 1 && forall k :: 0 <= k < |s| ==> IsDigit(s[k]) || (k == 0 && s[k] == '-')
  }

  /** PHP's (string) cast of an int: decimal digits, after a '-' when negative. */
  function IntToString(i: int): (r: string)
    ensures IsDecimal(r) && forall c :: c in r ==> IsDigit(c) || c == '-'
    ensures r[0] == '-' <==> i < 0
  {
    if i < 0 then "-" + NatToString(-i) else NatToString(i)
  }

  /** The value of a string of decimal digits. */
  function DigitsValue(s: string): nat
    requires forall i :: 0 <= i < |s| ==> IsDigit(s[i])
    decreases |s|
  {
    if s == "" then 0
    else
      var d := s[|s| - 1] as int - '0' as int;
      assert IsDigit(s[|s| - 1]);
      DigitsValue(s[..|s| - 1]) * 10 + d
  }

  /** Reading back a decimal as PHP writes it: an optional '-' followed by digits. */
  function ParseInt(s: string): int
    requires IsDecimal(s)
  {
    if s[0] == '-' then -(DigitsValue(s[1..]) as int) else DigitsValue(s)
  }

  lemma {:induction false} NatStringRoundTrip(n: nat)
    ensures DigitsValue(NatToString(n)) == n
    decreases n
  {
    if n >= 10 {
      var r := NatToString(n);
      NatStringRoundTrip(n / 10);
      assert r[..|r| - 1] == NatToString(n / 10);
    }
  }

  /** The (string) cast of an int loses nothing. */
  lemma IntStringRoundTrip(i: int)
    ensures ParseInt(IntToString(i)) == i
  {
    if i < 0 {
      NatStringRoundTrip(-i);
      assert IntToString(i)[1..] == NatToString(-i);
    } else {
      NatStringRoundTrip(i);
    }
  }

  // ---------------------------------------------------------------------------
  // preg_match('/[A-Za-z0-9]/') and upper-casing
  // ---------------------------------------------------------------------------

  predicate IsAsciiAlnum(c: char) {
    IsAsciiLetter(c) || IsDigit(c)
  }

  /** preg_match('/[A-Za-z0-9]/', $s): the pattern is not anchored, so one ASCII letter or
      digit anywhere in the string is enough. */
  predicate HasAsciiAlnum(s: string) {
    exists i :: 0 <= i < |s| && IsAsciiAlnum(s[i])
  }

  predicate IsLowerAscii(c: char) {
    'a' <= c <= 'z'
  }

  function UpperChar(c: char): char {
    if IsLowerAscii(c) then (c as int - 32) as char else c
  }

  /** mb_strtoupper for the ASCII letters a-z; every other character is kept as it is. */
  function ToUpper(s: string): (r: string)
    ensures |r| == |s|
    ensures forall i :: 0 <= i < |r| ==> !IsLowerAscii(r[i])
    ensures forall i :: 0 <= i < |r| ==> (IsAsciiAlnum(r[i]) <==> IsAsciiAlnum(s[i]))
    ensures forall i :: 0 <= i < |r| && !IsLowerAscii(s[i]) ==> r[i] == s[i]
    ensures HasAsciiAlnum(r) <==> HasAsciiAlnum(s)
  {
    var r := seq(|s|, i requires 0 <= i < |s| => UpperChar(s[i]));
    assert HasAsciiAlnum(r) ==> HasAsciiAlnum(s) by {
      if HasAsciiAlnum(r) {
        var i :| 0 <= i < |r| && IsAsciiAlnum(r[i]);
        assert IsAsciiAlnum(s[i]);
      }
    }
    assert HasAsciiAlnum(s) ==> HasAsciiAlnum(r) by {
      if HasAsciiAlnum(s) {
        var i :| 0 <= i < |s| && IsAsciiAlnum(s[i]);
        assert IsAsciiAlnum(r[i]);
      }
    }
    r
  }
}
