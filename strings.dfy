/**
 * The few Python string operations the service relies on, over `seq<char>`:
 * `str.split(sep)` with a one-character separator, `str.strip()` with no
 * argument, and `str(n)` for a non-negative integer.
 */
module Strings {

  /** Number of occurrences of `c` in `s`. */
  function Occurrences(s: string, c: char): (n: nat)
    ensures n <= |s|
  {
    if s == [] then 0
    else (if s[0] == c then 1 else 0) + Occurrences(s[1..], c)
  }

  /** A character occurs zero times exactly when it is absent. */
  lemma {:induction false} NoOccurrences(s: string, c: char)
    ensures Occurrences(s, c) == 0 <==> c !in s
  {
    if s != [] {
      NoOccurrences(s[1..], c);
      assert s == [s[0]] + s[1..];
    }
  }

  /** Position of the first `c` in `s`, or `|s|` when there is none (Python's `s.find(c)`, with `|s|` for -1). */
  function IndexOf(s: string, c: char): (i: nat)
    ensures i <= |s|
    ensures i < |s| ==> s[i] == c
    ensures forall k :: 0 <= k < i ==> s[k] != c
  {
    if s == [] || s[0] == c then 0 else 1 + IndexOf(s[1..], c)
  }

  /** The first `c` in `a + [c] + b` is the one right after `a` when `a` has none. */
  lemma IndexOfAfter(a: string, c: char, b: string)
    requires c !in a
    ensures IndexOf(a + [c] + b, c) == |a|
  {
    var s := a + [c] + b;
    assert s[|a|] == c;
    assert forall k :: 0 <= k < |a| ==> s[k] == a[k];
  }

  // ---------------------------------------------------------------------------
  // str.split(sep)
  // ---------------------------------------------------------------------------

  /**
   * Python's `s.split(sep)` for a single-character separator: the pieces of `s`
   * between separators, left to right. There is always at least one piece, an
   * empty string gives `[""]`, and adjacent separators give empty pieces.
   */
  function Split(s: string, sep: char): (fields: seq<string>)
    ensures |fields| == Occurrences(s, sep) + 1
  {
    if s == [] then [""]
    else
      var rest := Split(s[1..], sep);
      if s[0] == sep then [""] + rest
      else [[s[0]] + rest[0]] + rest[1..]
  }

  /** No piece contains the separator. */
  lemma {:induction false} PiecesLackSeparator(s: string, sep: char)
    ensures forall i :: 0 <= i < |Split(s, sep)| ==> sep !in Split(s, sep)[i]
  {
    if s != [] {
      PiecesLackSeparator(s[1..], sep);
      var rest := Split(s[1..], sep);
      if s[0] != sep {
        assert sep !in [s[0]] + rest[0];
        assert Split(s, sep)[1..] == rest[1..];
      }
    }
  }

  /** Python's `sep.join(fields)`, the inverse of `Split`. */
  function Join(fields: seq<string>, sep: char): string
  {
    if fields == [] then ""
    else if |fields| == 1 then fields[0]
    else fields[0] + [sep] + Join(fields[1..], sep)
  }

  /** Joining the pieces back with the separator gives the original string. */
  lemma {:induction false} JoinSplit(s: string, sep: char)
    ensures Join(Split(s, sep), sep) == s
  {
    if s != [] {
      var rest := Split(s[1..], sep);
      JoinSplit(s[1..], sep);
      if s[0] == sep {
        assert Split(s, sep) == [""] + rest;
        assert ([""] + rest)[1..] == rest;
      } else {
        var fields := Split(s, sep);
        assert fields == [[s[0]] + rest[0]] + rest[1..];
        if |rest| == 1 {
          assert fields == [[s[0]] + rest[0]];
        } else {
          assert fields[1..] == rest[1..];
          assert Join(rest, sep) == rest[0] + [sep] + Join(rest[1..], sep);
        }
        assert s == [s[0]] + s[1..];
      }
    }
  }

  /** A string without the separator is a single piece. */
  lemma {:induction false} SplitWithoutSeparator(s: string, sep: char)
    requires sep !in s
    ensures Split(s, sep) == [s]
  {
    if s != [] {
      SplitWithoutSeparator(s[1..], sep);
      assert s == [s[0]] + s[1..];
    }
  }

  /**
   * `Split(s, sep)[0]` (Python's `s.split(sep)[0]`) is the longest prefix of `s`
   * without the separator: it is a prefix, it has no separator, and it stops
   * either at the end of `s` or right before the first separator.
   */
  lemma {:induction false} FirstPiece(s: string, sep: char)
    ensures Split(s, sep)[0] <= s
    ensures sep !in Split(s, sep)[0]
    ensures |Split(s, sep)[0]| < |s| ==> s[|Split(s, sep)[0]|] == sep
    ensures sep !in s ==> Split(s, sep)[0] == s
  {
    if s != [] && s[0] != sep {
      FirstPiece(s[1..], sep);
      assert s == [s[0]] + s[1..];
    }
  }

  // ---------------------------------------------------------------------------
  // str.strip()
  // ---------------------------------------------------------------------------

  /**
   * The characters Python's `str.isspace()` accepts, which are the ones
   * `str.strip()` removes when it is given no argument.
   */
  predicate IsSpace(c: char)
    ensures IsSpace(c) ==> c != ',' && c != ':' && !IsDigit(c)
  {
    || c == ' ' || c == '\t' || c == '\n' || c == '\r'
    || c == '\U{000B}' || c == '\U{000C}'
    || ('\U{001C}' <= c <= '\U{001F}')
    || c == '\U{0085}' || c == '\U{00A0}' || c == '\U{1680}'
    || ('\U{2000}' <= c <= '\U{200A}')
    || c == '\U{2028}' || c == '\U{2029}' || c == '\U{202F}' || c == '\U{205F}'
    || c == '\U{3000}'
  }

  /** `s` is made of whitespace only (the empty string is). */
  predicate Blank(s: string)
  {
    forall i :: 0 <= i < |s| ==> IsSpace(s[i])
  }

  /** `s` neither starts nor ends with whitespace. */
  predicate Stripped(s: string)
  {
    s == [] || (!IsSpace(s[0]) && !IsSpace(s[|s| - 1]))
  }

  /**
   * Python's `s.strip()`: `s` without leading and trailing whitespace,
   * removed one character at a time from either end.
   */
  function Strip(s: string): (r: string)
    ensures |r| <= |s| && Stripped(r)
  {
    if s != [] && IsSpace(s[0]) then Strip(s[1..])
    else if s != [] && IsSpace(s[|s| - 1]) then Strip(s[..|s| - 1])
    else s
  }

  /**
   * What `strip()` removes: the result is the part of `s` between a
   * whitespace-only prefix and a whitespace-only suffix.
   */
  lemma {:induction false} StripShape(s: string) returns (i: nat, j: nat)
    ensures i <= j <= |s| && Strip(s) == s[i..j]
    ensures Blank(s[..i]) && Blank(s[j..])
  {
    if s != [] && IsSpace(s[0]) {
      var i', j' := StripShape(s[1..]);
      i, j := i' + 1, j' + 1;
      DropFirst(s, i', j');
    } else if s != [] && IsSpace(s[|s| - 1]) {
      i, j := StripShape(s[..|s| - 1]);
      DropLast(s, i, j);
    } else {
      i, j := 0, |s|;
      assert s[..0] == [] && s[|s|..] == [];
    }
  }

  /** The step of `StripShape` that removes a leading whitespace character. */
  lemma DropFirst(s: string, i: nat, j: nat)
    requires s != [] && IsSpace(s[0])
    requires i <= j <= |s| - 1 && Blank(s[1..][..i]) && Blank(s[1..][j..])
    ensures s[1..][i..j] == s[i + 1..j + 1]
    ensures Blank(s[..i + 1]) && Blank(s[j + 1..])
  {
    assert s[1..][j..] == s[j + 1..];
    forall k | 0 <= k < i + 1 ensures IsSpace(s[k]) {
      if k > 0 { assert s[k] == s[1..][..i][k - 1]; }
    }
  }

  /** The step of `StripShape` that removes a trailing whitespace character. */
  lemma DropLast(s: string, i: nat, j: nat)
    requires s != [] && IsSpace(s[|s| - 1])
    requires i <= j <= |s| - 1 && Blank(s[..|s| - 1][..i]) && Blank(s[..|s| - 1][j..])
    ensures s[..|s| - 1][i..j] == s[i..j]
    ensures Blank(s[..i]) && Blank(s[j..])
  {
    assert s[..|s| - 1][..i] == s[..i];
    forall k | j <= k < |s| ensures IsSpace(s[k]) {
      if k < |s| - 1 { assert s[k] == s[..|s| - 1][j..][k - j]; }
    }
  }

  /** A string without surrounding whitespace is its own `strip()`. */
  lemma StripFixed(s: string)
    requires Stripped(s)
    ensures Strip(s) == s
  {
  }

  /** `strip()` gives the empty string exactly for all-whitespace strings. */
  lemma StripEmpty(s: string)
    ensures Strip(s) == [] <==> Blank(s)
  {
    var i, j := StripShape(s);
    if Strip(s) == [] {
      assert s == s[..i] + s[j..];
    }
  }

  /** Stripping a stripped string changes nothing. */
  lemma StripIdempotent(s: string)
    ensures Strip(Strip(s)) == Strip(s)
  {
    StripFixed(Strip(s));
  }

  // ---------------------------------------------------------------------------
  // str(n) for n >= 0
  // ---------------------------------------------------------------------------

  predicate IsDigit(c: char)
  {
    '0' <= c <= '9'
  }

  predicate AllDigits(s: string)
  {
    forall i :: 0 <= i < |s| ==> IsDigit(s[i])
  }

  function DigitChar(d: nat): (c: char)
    requires d < 10
    ensures IsDigit(c) && (c as int) - ('0' as int) == d
  {
    (('0' as int) + d) as char
  }

  /** Python's `str(n)` for a non-negative integer: its decimal digits. */
  function Decimal(n: nat): (s: string)
    ensures s != [] && AllDigits(s)
    ensures n > 0 ==> s[0] != '0'
  {
    if n < 10 then [DigitChar(n)] else Decimal(n / 10) + [DigitChar(n % 10)]
  }

  /** The number a string of decimal digits denotes (Python's `int(s)`). */
  function DigitsValue(s: string): nat
    requires AllDigits(s)
  {
    if s == [] then 0
    else DigitsValue(s[..|s| - 1]) * 10 + ((s[|s| - 1] as int) - ('0' as int))
  }

  /** Reading back the digits `Decimal` writes gives the number again. */
  lemma {:induction false} DecimalRoundTrip(n: nat)
    ensures DigitsValue(Decimal(n)) == n
  {
    if n >= 10 {
      DecimalRoundTrip(n / 10);
      var s := Decimal(n);
      assert s[..|s| - 1] == Decimal(n / 10);
    }
  }
}
