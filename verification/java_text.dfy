/**
 * The few `java.lang.String` operations the migrators rely on, with Java's
 * semantics written out: `startsWith`, `contains`, `split` (which drops
 * trailing empty strings), `Integer.toString` and `equalsIgnoreCase`.
 */
module JavaText {

  /** `s.startsWith(prefix)` */
  predicate StartsWith(s: string, prefix: string) {
    |prefix| <= |s| && s[..|prefix|] == prefix
  }

  /** `sep` occurs in `s` starting at index `i`. */
  predicate OccursAt(s: string, sep: string, i: int) {
    0 <= i && i + |sep| <= |s| && s[i..i + |sep|] == sep
  }

  /** `s.contains(sep)` */
  predicate Contains(s: string, sep: string) {
    exists i | 0 <= i <= |s| :: OccursAt(s, sep, i)
  }

  /** `s.indexOf(sep, from)`: the first occurrence at or after `from`, or -1. */
  function IndexOf(s: string, sep: string, from: nat): (k: int)
    ensures k == -1 || (from <= k && OccursAt(s, sep, k))
    ensures k == -1 ==> forall j :: from <= j ==> !OccursAt(s, sep, j)
    ensures k != -1 ==> forall j :: from <= j < k ==> !OccursAt(s, sep, j)
    decreases |s| - from
  {
    if from + |sep| > |s| then -1
    else if s[from..from + |sep|] == sep then from
    else IndexOf(s, sep, from + 1)
  }

  /** The pieces joined back together with `sep` between neighbours. */
  function Join(pieces: seq<string>, sep: string): string {
    if |pieces| == 0 then ""
    else if |pieces| == 1 then pieces[0]
    else pieces[0] + sep + Join(pieces[1..], sep)
  }

  /** An occurrence of `sep` inside a prefix of `s` is an occurrence in `s`. */
  lemma OccursInPrefix(s: string, sep: string, k: nat, j: int)
    requires k <= |s|
    requires OccursAt(s[..k], sep, j)
    ensures OccursAt(s, sep, j)
  {
    assert s[..k][j..j + |sep|] == s[j..j + |sep|];
  }

  /** An occurrence of `sep` inside a suffix of `s` is an occurrence in `s`, shifted. */
  lemma OccursInSuffix(s: string, sep: string, k: nat, j: int)
    requires k <= |s|
    requires OccursAt(s[k..], sep, j)
    ensures OccursAt(s, sep, k + j)
  {
    assert s[k..][j..j + |sep|] == s[k + j..k + j + |sep|];
  }

  /**
   * Cuts `s` at every leftmost, non-overlapping occurrence of `sep`, keeping
   * every piece (empty ones included). Joining the pieces gives `s` back.
   */
  function SplitAll(s: string, sep: string): (pieces: seq<string>)
    requires |sep| > 0
    ensures |pieces| >= 1
    ensures Join(pieces, sep) == s
    decreases |s|
  {
    var k := IndexOf(s, sep, 0);
    if k == -1 then
      [s]
    else
      var rest := SplitAll(s[k + |sep|..], sep);
      assert ([s[..k]] + rest)[1..] == rest;
      assert s[..k] + sep + s[k + |sep|..] == s;
      [s[..k]] + rest
  }

  /**
   * The pieces of `SplitAll` are separator-free, and there is more than one
   * exactly when the separator occurs at all.
   */
  lemma {:induction false} SplitAllPieces(s: string, sep: string)
    requires |sep| > 0
    ensures forall i :: 0 <= i < |SplitAll(s, sep)| ==> !Contains(SplitAll(s, sep)[i], sep)
    ensures |SplitAll(s, sep)| == 1 <==> !Contains(s, sep)
    decreases |s|
  {
    var k := IndexOf(s, sep, 0);
    var pieces := SplitAll(s, sep);
    if k != -1 {
      var rest := SplitAll(s[k + |sep|..], sep);
      SplitAllPieces(s[k + |sep|..], sep);
      assert pieces == [s[..k]] + rest;
      if Contains(s[..k], sep) {
        var j :| 0 <= j <= k && OccursAt(s[..k], sep, j);
        OccursInPrefix(s, sep, k, j);
        assert false;
      }
      forall i | 1 <= i < |pieces|
        ensures !Contains(pieces[i], sep)
      {
        assert pieces[i] == rest[i - 1];
      }
      assert OccursAt(s, sep, k);
    }
  }

  /** Where piece `i` starts in the string the pieces were cut from: the earlier pieces and a separator after each. */
  function PieceStart(pieces: seq<string>, sep: string, i: nat): nat
    requires i < |pieces|
  {
    if i == 0 then 0 else |pieces[0]| + |sep| + PieceStart(pieces[1..], sep, i - 1)
  }

  /** No occurrence of `sep` in `s` starts in the `len` positions from `from`. */
  ghost predicate NoOccurrenceIn(s: string, sep: string, from: int, len: int) {
    forall p :: from <= p < from + len ==> !OccursAt(s, sep, p)
  }

  /**
   * The cuts are leftmost: no occurrence of the separator starts inside any
   * piece, so each cut is made at the first occurrence after the previous
   * one (`":::"` is cut into `""` and `":"`, never `":"` and `""`).
   */
  lemma {:induction false} SplitAllLeftmost(s: string, sep: string)
    requires |sep| > 0
    ensures forall i :: 0 <= i < |SplitAll(s, sep)| ==>
      NoOccurrenceIn(s, sep, PieceStart(SplitAll(s, sep), sep, i), |SplitAll(s, sep)[i]|)
    decreases |s|
  {
    var pieces := SplitAll(s, sep);
    var k := IndexOf(s, sep, 0);
    if k == -1 {
      assert pieces == [s];
    } else {
      var t := s[k + |sep|..];
      var rest := SplitAll(t, sep);
      assert pieces == [s[..k]] + rest;
      SplitAllLeftmost(t, sep);
      forall i | 0 <= i < |pieces|
        ensures NoOccurrenceIn(s, sep, PieceStart(pieces, sep, i), |pieces[i]|)
      {
        if i > 0 {
          assert pieces[1..] == rest;
          assert pieces[i] == rest[i - 1];
          ShiftNoOccurrence(s, sep, k + |sep|, PieceStart(rest, sep, i - 1), |rest[i - 1]|);
        }
      }
    }
  }

  /** A stretch of a suffix free of occurrences is free of them in the whole string too. */
  lemma ShiftNoOccurrence(s: string, sep: string, m: nat, from: nat, len: int)
    requires m <= |s|
    requires NoOccurrenceIn(s[m..], sep, from, len)
    ensures NoOccurrenceIn(s, sep, m + from, len)
  {
    forall p | m + from <= p < m + from + len
      ensures !OccursAt(s, sep, p)
    {
      OccursFromSuffix(s, sep, m, p);
    }
  }

  /** An occurrence at or after `m` is an occurrence in the suffix from `m`, shifted. */
  lemma OccursFromSuffix(s: string, sep: string, m: nat, p: int)
    requires m <= p
    ensures OccursAt(s, sep, p) ==> OccursAt(s[m..], sep, p - m)
  {
    if OccursAt(s, sep, p) {
      assert s[m..][p - m..p - m + |sep|] == s[p..p + |sep|];
    }
  }

  /** The sequence with its trailing empty strings removed. */
  function DropTrailingEmpty(parts: seq<string>): (r: seq<string>)
    ensures |r| <= |parts| && r == parts[..|r|]
    ensures forall i :: |r| <= i < |parts| ==> parts[i] == ""
    ensures |r| == 0 || r[|r| - 1] != ""
  {
    if |parts| == 0 then []
    else if parts[|parts| - 1] == "" then DropTrailingEmpty(parts[..|parts| - 1])
    else parts
  }

  /**
   * `s.split(sep)` for a literal separator: when `sep` does not occur the
   * result is `[s]`; otherwise the full cut with its trailing empty strings
   * removed (so the result can be empty, as for `"::".split("::")`). No
   * piece holds the separator.
   */
  function Split(s: string, sep: string): (r: seq<string>)
    requires |sep| > 0
    ensures !Contains(s, sep) ==> r == [s]
    ensures Contains(s, sep) ==>
      var parts := SplitAll(s, sep);
      && |r| <= |parts| && r == parts[..|r|]
      && (forall i :: |r| <= i < |parts| ==> parts[i] == "")
      && (|r| == 0 || r[|r| - 1] != "")
    ensures forall i :: 0 <= i < |r| ==> !Contains(r[i], sep)
  {
    SplitAllPieces(s, sep);
    var parts := SplitAll(s, sep);
    if |parts| == 1 then
      assert Join(parts, sep) == parts[0];
      parts
    else
      var r := DropTrailingEmpty(parts);
      assert forall i :: 0 <= i < |r| ==> r[i] == parts[i];
      r
  }

  /** The decimal digit for `d`. */
  function DigitChar(d: nat): char
    requires d < 10
  {
    "0123456789"[d]
  }

  /** The value of a decimal digit character, -1 for anything else. */
  function DigitValue(c: char): int {
    if '0' <= c <= '9' then c as int - '0' as int else -1
  }

  /** The decimal digits of `n`, most significant first, without leading zeros. */
  function Digits(n: nat): (s: string)
    ensures |s| >= 1
    ensures forall i :: 0 <= i < |s| ==> '0' <= s[i] <= '9'
    ensures n > 0 ==> s[0] != '0'
  {
    if n < 10 then [DigitChar(n)] else Digits(n / 10) + [DigitChar(n % 10)]
  }

  /** The number a string of decimal digits denotes, read left to right. */
  function DigitsNumber(s: string): int {
    if |s| == 0 then 0 else DigitsNumber(s[..|s| - 1]) * 10 + DigitValue(s[|s| - 1])
  }

  /** `Integer.toString(i)` / `Long.toString(i)`: an optional minus sign and the digits. */
  function DecimalString(i: int): string {
    if i < 0 then "-" + Digits(-i) else Digits(i)
  }

  /** Reads back what `DecimalString` writes. */
  function ParseDecimal(s: string): int {
    if |s| > 0 && s[0] == '-' then -DigitsNumber(s[1..]) else DigitsNumber(s)
  }

  lemma {:induction false} DigitsRoundTrip(n: nat)
    ensures DigitsNumber(Digits(n)) == n
  {
    var s := Digits(n);
    if n < 10 {
      assert s[..0] == [];
      assert DigitValue(s[0]) == n;
    } else {
      DigitsRoundTrip(n / 10);
      assert s[..|s| - 1] == Digits(n / 10);
      assert DigitValue(s[|s| - 1]) == n % 10;
      assert n == n / 10 * 10 + n % 10;
    }
  }

  /** Printing an integer in decimal and reading it back gives the integer. */
  lemma DecimalRoundTrip(i: int)
    ensures ParseDecimal(DecimalString(i)) == i
  {
    var s := DecimalString(i);
    if i < 0 {
      DigitsRoundTrip(-i);
      assert s[0] == '-';
      assert s[1..] == Digits(-i);
      assert ParseDecimal(s) == -DigitsNumber(Digits(-i));
    } else {
      DigitsRoundTrip(i);
      assert '0' <= s[0] <= '9';
      assert ParseDecimal(s) == DigitsNumber(Digits(i));
    }
  }

  /** `Character.toUpperCase` on the characters whose upper case is an ASCII letter. */
  function UpperCase(c: char): char {
    if 'a' <= c <= 'z' then (c as int - 32) as char
    else if c == '\U{17F}' then 'S'   // LATIN SMALL LETTER LONG S
    else if c == '\U{131}' then 'I'   // LATIN SMALL LETTER DOTLESS I
    else c
  }

  /** `Character.toLowerCase` on the characters whose lower case is an ASCII letter. */
  function LowerCase(c: char): char {
    if 'A' <= c <= 'Z' then (c as int + 32) as char
    else if c == '\U{130}' then 'i'   // LATIN CAPITAL LETTER I WITH DOT ABOVE
    else if c == '\U{212A}' then 'k'   // KELVIN SIGN
    else c
  }

  /** One step of `String.regionMatches(true, ...)`: equal, equal upper cases, or equal lower cases of those. */
  predicate CharEqualsIgnoreCase(a: char, b: char) {
    a == b || UpperCase(a) == UpperCase(b) || LowerCase(UpperCase(a)) == LowerCase(UpperCase(b))
  }

  /**
   * `a.equalsIgnoreCase(b)` where one side is a word of ASCII letters, as
   * in every use here; other letters (`é` and `É`) are not case-mapped.
   */
  predicate EqualsIgnoreCase(a: string, b: string) {
    |a| == |b| && forall i :: 0 <= i < |a| ==> CharEqualsIgnoreCase(a[i], b[i])
  }

  /** The case fold a character reduces to under `CharEqualsIgnoreCase`. */
  function Fold(c: char): char {
    LowerCase(UpperCase(c))
  }

  /** Every character of `s` folded. */
  function FoldAll(s: string): (r: string)
    ensures |r| == |s| && forall i :: 0 <= i < |s| ==> r[i] == Fold(s[i])
  {
    seq(|s|, i requires 0 <= i < |s| => Fold(s[i]))
  }

  /**
   * Case-insensitive equality is equality of the folded strings, so it is an
   * equivalence relation on strings.
   */
  lemma EqualsIgnoreCaseIsFoldEquality(a: string, b: string)
    ensures EqualsIgnoreCase(a, b) <==> FoldAll(a) == FoldAll(b)
  {
    if FoldAll(a) == FoldAll(b) {
      forall i | 0 <= i < |a|
        ensures CharEqualsIgnoreCase(a[i], b[i])
      {
        assert FoldAll(a)[i] == FoldAll(b)[i];
      }
    }
  }
}
