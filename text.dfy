/**
 * The text handling the two services rely on: decimal formatting of
 * integers as .NET's string interpolation renders them, .NET's parsing of
 * an unsigned 64-bit integer, splitting at a separator, the lines a
 * StringBuilder accumulates through AppendLine, and Math.Round's rounding
 * of a value to the nearest integer.
 */
module Text {
  import opened Wrappers

  predicate IsDigit(c: char) { '0' <= c <= '9' }

  predicate AllDigits(s: string) { forall i :: 0 <= i < |s| ==> IsDigit(s[i]) }

  /** The characters .NET skips around a number: U+0009 to U+000D and the space. */
  predicate IsWhite(c: char) { c == ' ' || '\t' <= c <= '\r' }

  function DigitChar(d: nat): (c: char)
    requires d < 10
    ensures IsDigit(c) && c as int - '0' as int == d
  {
    ('0' as int + d) as char
  }

  /** The decimal digits of `n`, most significant first, without leading zeros. */
  function NatToString(n: nat): (s: string)
    ensures |s| >= 1 && AllDigits(s)
    ensures s[0] == '0' ==> |s| == 1
    decreases n
  {
    if n < 10 then [DigitChar(n)] else NatToString(n / 10) + [DigitChar(n % 10)]
  }

  /** How an `int` is interpolated into a string: a minus sign, then the digits. */
  function IntToString(i: int): (s: string)
    ensures s != [] && (s[0] == '-' <==> i < 0)
    ensures var digits := if i < 0 then s[1..] else s;
            AllDigits(digits) && DigitsValue(digits) == (if i < 0 then -i else i)
  {
    DigitsValueOfNatToString(if i < 0 then -i else i);
    if i < 0 then "-" + NatToString(-i) else NatToString(i)
  }

  /** The number a string of decimal digits denotes. */
  function DigitsValue(s: string): nat
    requires AllDigits(s)
    decreases |s|
  {
    if s == [] then 0 else 10 * DigitsValue(s[..|s| - 1]) + (s[|s| - 1] as int - '0' as int)
  }

  lemma {:induction false} DigitsValueOfNatToString(n: nat)
    ensures DigitsValue(NatToString(n)) == n
    decreases n
  {
    if n >= 10 {
      var s := NatToString(n / 10);
      DigitsValueOfNatToString(n / 10);
      assert (s + [DigitChar(n % 10)])[..|s|] == s;
    }
  }

  // ---------------------------------------------------------------------
  // ulong.Parse(string) with the default NumberStyles.Integer: leading and
  // trailing white space, an optional sign, then at least one digit; a run
  // of U+0000 characters at the very end is accepted as well.

  const ULongMax: nat := 0xFFFF_FFFF_FFFF_FFFF

  /** The exceptions ulong.Parse raises for a string that is not a ulong. */
  datatype NumberError = FormatException | OverflowException

  function TrimStart(s: string): (r: string)
    ensures |r| <= |s| && r == s[|s| - |r|..]
    ensures forall i :: 0 <= i < |s| - |r| ==> IsWhite(s[i])
    ensures r != [] ==> !IsWhite(r[0])
    decreases |s|
  {
    if s != [] && IsWhite(s[0]) then TrimStart(s[1..]) else s
  }

  function TrimEnd(s: string): (r: string)
    ensures |r| <= |s| && r == s[..|r|]
    ensures forall i :: |r| <= i < |s| ==> IsWhite(s[i])
    ensures r != [] ==> !IsWhite(r[|r| - 1])
    decreases |s|
  {
    if s != [] && IsWhite(s[|s| - 1]) then TrimEnd(s[..|s| - 1]) else s
  }

  /** The text without the run of U+0000 characters it ends with. */
  function TrimTrailingNuls(s: string): (r: string)
    ensures |r| <= |s| && r == s[..|r|]
    ensures forall i :: |r| <= i < |s| ==> s[i] == '\0'
    ensures r != [] ==> r[|r| - 1] != '\0'
    decreases |s|
  {
    if s != [] && s[|s| - 1] == '\0' then TrimTrailingNuls(s[..|s| - 1]) else s
  }

  /**
   * The text of the number with its sign: leading white space, the final
   * run of U+0000 characters and then trailing white space removed.
   */
  function SignedPart(s: string): string
  {
    TrimEnd(TrimTrailingNuls(TrimStart(s)))
  }

  /** The text of the number without its surrounding white space and its sign. */
  function UnsignedPart(s: string): string
  {
    var t := SignedPart(s);
    if t != [] && (t[0] == '+' || t[0] == '-') then t[1..] else t
  }

  predicate HasMinusSign(s: string)
  {
    var t := SignedPart(s);
    t != [] && t[0] == '-'
  }

  /**
   * ulong.Parse: a FormatException unless the trimmed, unsigned text is a
   * non-empty run of digits; an OverflowException for a value above
   * ulong.MaxValue or a negative value other than zero.
   */
  function ParseULong(s: string): (r: Result<nat, NumberError>)
    ensures r.Success? ==> r.value <= ULongMax
    ensures r.Success? <==> UnsignedPart(s) != [] && AllDigits(UnsignedPart(s))
                            && DigitsValue(UnsignedPart(s)) <= ULongMax
                            && (HasMinusSign(s) ==> DigitsValue(UnsignedPart(s)) == 0)
  {
    var digits := UnsignedPart(s);
    if digits == [] || !AllDigits(digits) then Failure(FormatException)
    else if DigitsValue(digits) > ULongMax || (HasMinusSign(s) && DigitsValue(digits) != 0) then Failure(OverflowException)
    else Success(DigitsValue(digits))
  }

  /** Every ulong, printed in decimal, parses back to itself. */
  lemma ParseULongOfNatToString(n: nat)
    requires n <= ULongMax
    ensures ParseULong(NatToString(n)) == Success(n)
  {
    var s := NatToString(n);
    assert !IsWhite(s[0]) && !IsWhite(s[|s| - 1]);
    assert TrimStart(s) == s;
    assert s[|s| - 1] != '\0';
    assert TrimTrailingNuls(s) == s;
    assert TrimEnd(s) == s;
    assert UnsignedPart(s) == s;
    DigitsValueOfNatToString(n);
  }

  /** A number followed by U+0000 parses as the number. */
  lemma ParseULongAcceptsTrailingNul()
    ensures ParseULong("1\0") == Success(1)
  {
    assert TrimStart("1\0") == "1\0";
    assert TrimTrailingNuls("1\0"[..1]) == "1";
    assert TrimEnd("1") == "1";
    assert UnsignedPart("1\0") == "1";
    assert DigitsValue("1") == 1 by { assert "1"[..0] == ""; }
  }

  /** U+0000 after trailing white space is accepted too. */
  lemma ParseULongAcceptsNulAfterWhiteSpace()
    ensures ParseULong("1 \0") == Success(1)
  {
    assert TrimStart("1 \0") == "1 \0";
    assert TrimTrailingNuls("1 \0"[..2]) == "1 ";
    assert TrimEnd("1 "[..1]) == "1";
    assert UnsignedPart("1 \0") == "1";
    assert DigitsValue("1") == 1 by { assert "1"[..0] == ""; }
  }

  /** U+0000 followed by white space is not. */
  lemma ParseULongRejectsNulBeforeWhiteSpace()
    ensures ParseULong("1\0 ") == Failure(FormatException)
  {
    assert TrimStart("1\0 ") == "1\0 ";
    assert TrimTrailingNuls("1\0 ") == "1\0 ";
    assert TrimEnd("1\0 "[..2]) == "1\0";
    assert UnsignedPart("1\0 ") == "1\0";
    assert !IsDigit("1\0"[1]);
  }

  /** A character that is neither a digit, white space, a sign nor U+0000 makes the parse fail. */
  lemma ParseULongRejectsStrayCharacter(s: string, k: nat)
    requires k < |s| && !IsDigit(s[k]) && !IsWhite(s[k]) && s[k] != '+' && s[k] != '-' && s[k] != '\0'
    ensures ParseULong(s) == Failure(FormatException)
  {
    var a := TrimStart(s);
    var j := k - (|s| - |a|);
    assert 0 <= j < |a| && a[j] == s[k];
    var b := TrimTrailingNuls(a);
    assert j < |b| && b[j] == s[k];
    var c := TrimEnd(b);
    assert j < |c| && c[j] == s[k];
    var t := UnsignedPart(s);
    if c[0] == '+' || c[0] == '-' {
      assert t[j - 1] == s[k];
    } else {
      assert t[j] == s[k];
    }
  }

  // ---------------------------------------------------------------------
  // Joining with and splitting at a one-character separator.

  function IndexOf(s: string, c: char): (k: nat)
    ensures k <= |s|
    ensures k < |s| ==> s[k] == c
    ensures forall i :: 0 <= i < k ==> s[i] != c
    decreases |s|
  {
    if s == [] then 0 else if s[0] == c then 0 else 1 + IndexOf(s[1..], c)
  }

  function Join(parts: seq<string>, sep: char): string
    decreases |parts|
  {
    if parts == [] then "" else if |parts| == 1 then parts[0] else parts[0] + [sep] + Join(parts[1..], sep)
  }

  /** The pieces of `s` between occurrences of `sep`, in order. */
  function Split(s: string, sep: char): (parts: seq<string>)
    ensures |parts| >= 1
    decreases |s|
  {
    var k := IndexOf(s, sep);
    if k == |s| then [s] else [s[..k]] + Split(s[k + 1..], sep)
  }

  lemma IndexOfAfterPrefix(p: string, c: char, rest: string)
    requires forall i :: 0 <= i < |p| ==> p[i] != c
    ensures IndexOf(p + [c] + rest, c) == |p|
  {
    var s := p + [c] + rest;
    assert s[|p|] == c;
    forall i | 0 <= i < |p| ensures s[i] != c { assert s[i] == p[i]; }
  }

  lemma IndexOfAbsent(p: string, c: char)
    requires forall i :: 0 <= i < |p| ==> p[i] != c
    ensures IndexOf(p, c) == |p|
  {
  }

  /** Splitting undoes joining when no piece contains the separator. */
  lemma {:induction false} SplitJoin(parts: seq<string>, sep: char)
    requires |parts| >= 1
    requires forall j, i :: 0 <= j < |parts| && 0 <= i < |parts[j]| ==> parts[j][i] != sep
    ensures Split(Join(parts, sep), sep) == parts
    decreases |parts|
  {
    if |parts| == 1 {
      IndexOfAbsent(parts[0], sep);
    } else {
      var rest := Join(parts[1..], sep);
      var s := parts[0] + [sep] + rest;
      assert forall i :: 0 <= i < |parts[0]| ==> parts[0][i] != sep;
      IndexOfAfterPrefix(parts[0], sep, rest);
      assert s[..|parts[0]|] == parts[0];
      assert s[|parts[0]| + 1..] == rest;
      SplitJoin(parts[1..], sep);
    }
  }

  // ---------------------------------------------------------------------
  // "a.b.c.d": four numbers in decimal separated by dots.

  function DottedQuad(a: nat, b: nat, c: nat, d: nat): string
  {
    NatToString(a) + "." + NatToString(b) + "." + NatToString(c) + "." + NatToString(d)
  }

  /** Reads back four dot-separated decimal numbers; None for any other text. */
  function ParseDottedQuad(s: string): Option<(nat, nat, nat, nat)>
  {
    var parts := Split(s, '.');
    if |parts| == 4 && (forall j :: 0 <= j < 4 ==> parts[j] != [] && AllDigits(parts[j])) then
      Some((DigitsValue(parts[0]), DigitsValue(parts[1]), DigitsValue(parts[2]), DigitsValue(parts[3])))
    else None
  }

  lemma DigitsHaveNoDot(n: nat)
    ensures forall i :: 0 <= i < |NatToString(n)| ==> NatToString(n)[i] != '.'
  {
  }

  /** The four numbers of a dotted quad are recovered, most significant first. */
  lemma ParseDottedQuadOfDottedQuad(a: nat, b: nat, c: nat, d: nat)
    ensures ParseDottedQuad(DottedQuad(a, b, c, d)) == Some((a, b, c, d))
  {
    var parts := [NatToString(a), NatToString(b), NatToString(c), NatToString(d)];
    assert Join(parts[1..][1..][1..], '.') == NatToString(d);
    assert Join(parts[1..][1..], '.') == NatToString(c) + "." + NatToString(d);
    assert Join(parts[1..], '.') == NatToString(b) + "." + NatToString(c) + "." + NatToString(d);
    assert Join(parts, '.') == DottedQuad(a, b, c, d);
    DigitsHaveNoDot(a);
    DigitsHaveNoDot(b);
    DigitsHaveNoDot(c);
    DigitsHaveNoDot(d);
    SplitJoin(parts, '.');
    DigitsValueOfNatToString(a);
    DigitsValueOfNatToString(b);
    DigitsValueOfNatToString(c);
    DigitsValueOfNatToString(d);
  }

  // ---------------------------------------------------------------------
  // The text of a StringBuilder after AppendLine calls: each line followed
  // by Environment.NewLine, which is "\r\n" on Windows.

  const NewLine: string := "\r\n"

  predicate CrLfAt(s: string, i: int)
  {
    0 <= i && i + 1 < |s| && s[i] == '\r' && s[i + 1] == '\n'
  }

  predicate NoCrLf(s: string)
  {
    forall i :: 0 <= i < |s| ==> !CrLfAt(s, i)
  }

  function Joined(lines: seq<string>): string
    decreases |lines|
  {
    if lines == [] then "" else lines[0] + NewLine + Joined(lines[1..])
  }

  /** The position of the first line break in `s`, or |s| when there is none. */
  function IndexOfCrLf(s: string): (k: nat)
    ensures k <= |s|
    ensures k < |s| ==> CrLfAt(s, k)
    ensures forall i :: 0 <= i < k ==> !CrLfAt(s, i)
    decreases |s|
  {
    if |s| < 2 then |s|
    else if s[0] == '\r' && s[1] == '\n' then 0
    else
      var k := 1 + IndexOfCrLf(s[1..]);
      assert forall i :: 1 <= i < k ==> (CrLfAt(s, i) <==> CrLfAt(s[1..], i - 1));
      k
  }

  /** The lines of a text in which every line ends with a line break. */
  function SplitLines(s: string): seq<string>
    decreases |s|
  {
    if s == [] then []
    else
      var k := IndexOfCrLf(s);
      if k == |s| then [s] else [s[..k]] + SplitLines(s[k + 2..])
  }

  lemma IndexOfCrLfAfterLine(line: string, rest: string)
    requires NoCrLf(line)
    ensures IndexOfCrLf(line + NewLine + rest) == |line|
  {
    var s := line + NewLine + rest;
    assert CrLfAt(s, |line|);
    forall i | 0 <= i < |line| ensures !CrLfAt(s, i) {
      if i + 1 < |line| {
        assert s[i] == line[i] && s[i + 1] == line[i + 1];
        assert !CrLfAt(line, i);
      } else {
        assert s[i + 1] == '\r';
      }
    }
  }

  /** The lines appended to a builder are exactly the lines of its text. */
  lemma {:induction false} SplitLinesOfJoined(lines: seq<string>)
    requires forall j :: 0 <= j < |lines| ==> NoCrLf(lines[j])
    ensures SplitLines(Joined(lines)) == lines
    decreases |lines|
  {
    if lines != [] {
      var rest := Joined(lines[1..]);
      var s := lines[0] + NewLine + rest;
      IndexOfCrLfAfterLine(lines[0], rest);
      assert s[..|lines[0]|] == lines[0];
      assert s[|lines[0]| + 2..] == rest;
      SplitLinesOfJoined(lines[1..]);
    }
  }

  // ---------------------------------------------------------------------
  // Math.Round(double): to the nearest integer, halves to the even one.

  function RoundHalfEven(x: real): (n: int)
    ensures x - 0.5 <= n as real <= x + 0.5
    ensures (n as real - x == 0.5 || x - n as real == 0.5) ==> n % 2 == 0
  {
    var f := x.Floor;
    var frac := x - f as real;
    if frac < 0.5 then f
    else if frac > 0.5 then f + 1
    else if f % 2 == 0 then f
    else f + 1
  }
}
