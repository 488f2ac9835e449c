/** The handful of Swift `String` operations the core relies on: substring search
    (`contains`), `joined(separator:)`, `trimmingCharacters(in: .whitespaces)`,
    `String(repeating:count:)` and decimal interpolation of integers. Strings are
    sequences of Unicode scalars; grapheme clustering is not modelled. */
module Text {

  /** `sub` occurs in `s` starting at position `i`. */
  predicate OccursAt(s: string, sub: string, i: nat)
  {
    i + |sub| <= |s| && s[i..i + |sub|] == sub
  }

  /** Swift's `s.contains(sub)` for a string argument. */
  predicate Contains(s: string, sub: string)
  {
    exists i: nat | i <= |s| :: OccursAt(s, sub, i)
  }

  /** A string that lacks the first character of `sub` cannot contain `sub`. */
  lemma NotContainsWithoutFirstChar(s: string, sub: string)
    requires sub != [] && sub[0] !in s
    ensures !Contains(s, sub)
  {
  }

  /** `parts.joined(separator: sep)`. */
  function Join(parts: seq<string>, sep: string): (r: string)
    ensures parts == [] ==> r == ""
    ensures |parts| == 1 ==> r == parts[0]
  {
    if parts == [] then ""
    else if |parts| == 1 then parts[0]
    else parts[0] + sep + Join(parts[1..], sep)
  }

  /** The joined string is exactly the parts plus one separator between each adjacent pair. */
  lemma {:induction false} JoinLength(parts: seq<string>, sep: string)
    ensures |Join(parts, sep)| == SumLengths(parts) + (if parts == [] then 0 else (|parts| - 1) * |sep|)
  {
    if |parts| > 1 {
      JoinLength(parts[1..], sep);
    }
  }

  /** Joining two non-empty runs of parts puts exactly one separator between them, so
      the parts appear in order with one separator between each adjacent pair. */
  lemma {:induction false} JoinAppend(a: seq<string>, b: seq<string>, sep: string)
    requires a != [] && b != []
    ensures Join(a + b, sep) == Join(a, sep) + sep + Join(b, sep)
  {
    var ab := a + b;
    assert ab[0] == a[0] && ab[1..] == a[1..] + b;
    if |a| == 1 {
      assert a[1..] + b == b;
    } else {
      JoinAppend(a[1..], b, sep);
      calc {
        Join(ab, sep);
        a[0] + sep + Join(a[1..] + b, sep);
        a[0] + sep + (Join(a[1..], sep) + sep + Join(b, sep));
        (a[0] + sep + Join(a[1..], sep)) + sep + Join(b, sep);
      }
    }
  }

  function SumLengths(parts: seq<string>): nat
  {
    if parts == [] then 0 else |parts[0]| + SumLengths(parts[1..])
  }

  /** Membership in Foundation's `CharacterSet.whitespaces` (space, tab and the
      no-break and other Unicode space separators). */
  predicate IsWhitespace(c: char)
  {
    c == ' ' || c == '\t' || c == '\U{00A0}' || c == '\U{1680}'
      || ('\U{2000}' <= c <= '\U{200A}') || c == '\U{202F}' || c == '\U{205F}' || c == '\U{3000}'
  }

  function TrimLeading(s: string): (r: string)
    ensures |r| <= |s| && r == s[|s| - |r|..]
    ensures r == [] || !IsWhitespace(r[0])
    ensures forall i :: 0 <= i < |s| - |r| ==> IsWhitespace(s[i])
  {
    if s != [] && IsWhitespace(s[0]) then TrimLeading(s[1..]) else s
  }

  function TrimTrailing(s: string): (r: string)
    ensures |r| <= |s| && r == s[..|r|]
    ensures r == [] || !IsWhitespace(r[|r| - 1])
    ensures forall i :: |r| <= i < |s| ==> IsWhitespace(s[i])
  {
    if s != [] && IsWhitespace(s[|s| - 1]) then TrimTrailing(s[..|s| - 1]) else s
  }

  /** `r` is the infix of `s` at `lo`, and everything of `s` outside it is whitespace. */
  predicate TrimmedAt(s: string, r: string, lo: nat)
  {
    && lo + |r| <= |s| && r == s[lo..lo + |r|]
    && (forall i :: 0 <= i < lo ==> IsWhitespace(s[i]))
    && (forall i :: lo + |r| <= i < |s| ==> IsWhitespace(s[i]))
  }

  /** `s.trimmingCharacters(in: .whitespaces)`: the longest infix of `s` that neither
      starts nor ends with whitespace, obtained by dropping whitespace at both ends. */
  function Trim(s: string): (r: string)
    ensures r == [] || (!IsWhitespace(r[0]) && !IsWhitespace(r[|r| - 1]))
    ensures exists lo: nat | lo <= |s| :: TrimmedAt(s, r, lo)
  {
    var left := TrimLeading(s);
    var r := TrimTrailing(left);
    var lo := |s| - |left|;
    assert TrimmedAt(s, r, lo);
    r
  }

  /** `s` neither starts nor ends with whitespace: it is what trimming produces. */
  predicate Trimmed(s: string)
  {
    s == [] || (!IsWhitespace(s[0]) && !IsWhitespace(s[|s| - 1]))
  }

  /** Two whitespace-free-edged infixes of `s` with whitespace-only margins are the same infix. */
  lemma TrimmedAtUnique(s: string, a: string, la: nat, b: string, lb: nat)
    requires TrimmedAt(s, a, la) && a != [] && !IsWhitespace(a[0]) && !IsWhitespace(a[|a| - 1])
    requires TrimmedAt(s, b, lb) && b != [] && !IsWhitespace(b[0]) && !IsWhitespace(b[|b| - 1])
    ensures a == b
  {
    assert s[la] == a[0] && s[lb] == b[0];
    assert la == lb;
    var ea, eb := la + |a| - 1, lb + |b| - 1;
    assert s[ea] == a[|a| - 1] && s[eb] == b[|b| - 1];
    assert ea == eb;
  }

  /** Trimming is determined by the layout of the string: whatever `s` holds between
      whitespace-only margins, if it neither starts nor ends with whitespace, is its trim. */
  lemma TrimExact(s: string, core: string, lo: nat)
    requires TrimmedAt(s, core, lo) && Trimmed(core)
    ensures Trim(s) == core
  {
    var r := Trim(s);
    var lo': nat :| lo' <= |s| && TrimmedAt(s, r, lo');
    if core == [] {
      if r != [] {
        assert false;
      }
    } else if r == [] {
      assert false;
    } else {
      TrimmedAtUnique(s, core, lo, r, lo');
    }
  }

  /** A string with no whitespace at either end is its own trim. */
  lemma TrimNoop(s: string)
    requires s == [] || (!IsWhitespace(s[0]) && !IsWhitespace(s[|s| - 1]))
    ensures Trim(s) == s
  {
  }

  /** `String(repeating: c, count: n)`. */
  function Repeat(c: char, n: nat): (r: string)
    ensures |r| == n
    ensures forall i :: 0 <= i < n ==> r[i] == c
  {
    if n == 0 then "" else [c] + Repeat(c, n - 1)
  }

  predicate IsDigit(c: char)
  {
    '0' <= c <= '9'
  }

  function DigitChar(d: nat): (c: char)
    requires d < 10
    ensures IsDigit(c)
  {
    ['0', '1', '2', '3', '4', '5', '6', '7', '8', '9'][d]
  }

  function DigitValue(c: char): (d: nat)
    requires IsDigit(c)
    ensures d < 10
  {
    (c as int - '0' as int) as nat
  }

  /** Decimal rendering of a natural number, as string interpolation prints it. */
  function NatToString(n: nat): (r: string)
    ensures r != [] && forall i :: 0 <= i < |r| ==> IsDigit(r[i])
    decreases n
  {
    if n < 10 then [DigitChar(n)] else NatToString(n / 10) + [DigitChar(n % 10)]
  }

  /** Decimal rendering of an integer, with a leading '-' for negatives. */
  function IntToString(n: int): (r: string)
    ensures r != []
    ensures (r[0] == '-') <==> n < 0
  {
    if n < 0 then "-" + NatToString(-n) else NatToString(n)
  }

  /** Reads a string of decimal digits back as the number it denotes. */
  function ParseDigits(s: string): nat
    requires forall i :: 0 <= i < |s| ==> IsDigit(s[i])
  {
    if s == [] then 0 else ParseDigits(s[..|s| - 1]) * 10 + DigitValue(s[|s| - 1])
  }

  /** The rendering is faithful: reading it back gives the number. */
  lemma {:induction false} NatToStringRoundTrip(n: nat)
    ensures ParseDigits(NatToString(n)) == n
    decreases n
  {
    var r := NatToString(n);
    if n < 10 {
      assert r[..|r| - 1] == [];
    } else {
      NatToStringRoundTrip(n / 10);
      assert r[..|r| - 1] == NatToString(n / 10);
    }
  }

  /** Different numbers render differently. */
  lemma NatToStringInjective(m: nat, n: nat)
    requires NatToString(m) == NatToString(n)
    ensures m == n
  {
    NatToStringRoundTrip(m);
    NatToStringRoundTrip(n);
  }
}
