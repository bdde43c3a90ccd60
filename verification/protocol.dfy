/**
 * The plotter command subset that joyplot writes to the serial line: `IN;`, `PU;`, `PD;`,
 * `SP<c>;`, `PA<x>,<y>;` and `PR<dx>,<dy>;`. Every command is ASCII text closed by `;`; the
 * numeric fields are signed 16-bit integers written in decimal, as a C++ stream writes an
 * `std::int16_t` (a leading `-` for negative values, no `+`, no leading zeros).
 *
 * `Render` is the serialiser; `ParseOne`/`ParseAll` read a command stream back, and the
 * round-trip lemmas prove that every rendered stream parses back to exactly its commands.
 */
module Protocol {
  import opened Wrappers

  /** A signed 16-bit integer, the field type of `PA` and `PR`. */
  type Int16 = x: int | -0x8000 <= x < 0x8000

  datatype Command =
    | Init                                // IN;
    | PenUp                               // PU;
    | PenDown                             // PD;
    | SelectPen(pen: char)                // SP<pen>;
    | MoveAbsolute(x: Int16, y: Int16)    // PA<x>,<y>;
    | MoveRelative(dx: Int16, dy: Int16)  // PR<dx>,<dy>;

  predicate IsDigit(c: char) {
    '0' <= c <= '9'
  }

  function DigitChar(d: nat): (c: char)
    requires d < 10
    ensures IsDigit(c) && DigitValue(c) == d
  {
    ('0' as int + d) as char
  }

  function DigitValue(c: char): nat
    requires IsDigit(c)
  {
    c as int - '0' as int
  }

  /** Decimal text of a natural number, most significant digit first. */
  function NatText(n: nat): (s: string)
    ensures 1 <= |s|
    ensures forall k :: 0 <= k < |s| ==> IsDigit(s[k])
    ensures |s| > 1 ==> s[0] != '0'
  {
    if n < 10 then [DigitChar(n)] else NatText(n / 10) + [DigitChar(n % 10)]
  }

  /** Decimal text of a signed integer, as `operator<<` writes a `std::int16_t`. */
  function IntText(i: int): (s: string)
    ensures 1 <= |s|
    ensures s[0] == '-' <==> i < 0
    ensures forall k :: (if i < 0 then 1 else 0) <= k < |s| ==> IsDigit(s[k])
  {
    if i < 0 then "-" + NatText(-i) else NatText(i)
  }

  /** The exact text written to the serial line for one command. */
  function Render(c: Command): string {
    match c
    case Init => "IN;"
    case PenUp => "PU;"
    case PenDown => "PD;"
    case SelectPen(p) => "SP" + [p] + ";"
    case MoveAbsolute(x, y) => "PA" + Fields(x, y)
    case MoveRelative(dx, dy) => "PR" + Fields(dx, dy)
  }

  /** The two numeric fields of `PA` and `PR` and the closing `;`. */
  function Fields(a: Int16, b: Int16): string {
    IntText(a) + "," + IntText(b) + ";"
  }

  /**
   * The text of a command is a two-letter upper-case mnemonic, the arguments, and a closing
   * `;`: three characters for `IN`, `PU` and `PD`, four for `SP` with the pen at position 2.
   */
  lemma RenderShape(c: Command)
    ensures 3 <= |Render(c)| && Render(c)[|Render(c)| - 1] == ';'
    ensures 'A' <= Render(c)[0] <= 'Z' && 'A' <= Render(c)[1] <= 'Z'
    ensures c.Init? || c.PenUp? || c.PenDown? ==> |Render(c)| == 3
    ensures c.SelectPen? ==> |Render(c)| == 4 && Render(c)[2] == c.pen
  {
  }

  /**
   * The closing `;` of a command is its only `;`, unless the command selects the pen named
   * `;`: a reader can split the stream at each `;`.
   */
  lemma SingleTerminator(c: Command)
    requires !(c.SelectPen? && c.pen == ';')
    ensures forall k :: 0 <= k < |Render(c)| - 1 ==> Render(c)[k] != ';'
  {
    match c
    case MoveAbsolute(x, y) => FieldsTerminator(x, y);
    case MoveRelative(dx, dy) => FieldsTerminator(dx, dy);
    case _ =>
  }

  lemma FieldsTerminator(a: Int16, b: Int16)
    ensures forall k :: 0 <= k < |Fields(a, b)| - 1 ==> Fields(a, b)[k] != ';'
  {
    var ta, tb := IntText(a), IntText(b);
    assert forall k :: 0 <= k < |ta| ==> ta[k] != ';' by {
      forall k | 0 <= k < |ta| ensures ta[k] != ';' {
        if k == 0 && a < 0 { assert ta[k] == '-'; } else { assert IsDigit(ta[k]); }
      }
    }
    assert forall k :: 0 <= k < |tb| ==> tb[k] != ';' by {
      forall k | 0 <= k < |tb| ensures tb[k] != ';' {
        if k == 0 && b < 0 { assert tb[k] == '-'; } else { assert IsDigit(tb[k]); }
      }
    }
  }

  /** The text of a sequence of commands written one after another. */
  function RenderAll(cs: seq<Command>): string {
    if cs == [] then "" else Render(cs[0]) + RenderAll(cs[1..])
  }

  /** A stream's text has at least 3 characters per command and, unless empty, ends in `;`. */
  lemma {:induction false} RenderAllShape(cs: seq<Command>)
    ensures |RenderAll(cs)| >= 3 * |cs|
    ensures cs != [] ==> RenderAll(cs)[|RenderAll(cs)| - 1] == ';'
  {
    if cs != [] {
      RenderShape(cs[0]);
      RenderAllShape(cs[1..]);
    }
  }

  // ---------------------------------------------------------------------------------------
  // Reading a command stream back
  // ---------------------------------------------------------------------------------------

  /** The number of leading decimal digits of `s`. */
  function DigitRun(s: string): (n: nat)
    ensures n <= |s|
    ensures forall k :: 0 <= k < n ==> IsDigit(s[k])
    ensures n < |s| ==> !IsDigit(s[n])
  {
    if |s| > 0 && IsDigit(s[0]) then 1 + DigitRun(s[1..]) else 0
  }

  /** The value of a string of decimal digits, most significant first. */
  function DigitsValue(ds: string): nat
    requires forall k :: 0 <= k < |ds| ==> IsDigit(ds[k])
  {
    if ds == [] then 0 else 10 * DigitsValue(ds[..|ds| - 1]) + DigitValue(ds[|ds| - 1])
  }

  /** Reads an unsigned decimal number at the front of `s`: its value and the text after it. */
  function ParseNat(s: string): (r: Option<(nat, string)>)
    ensures r.Some? ==> |r.value.1| < |s|
  {
    var n := DigitRun(s);
    if n == 0 then None else Some((DigitsValue(s[..n]), s[n..]))
  }

  /** Reads a signed decimal number in the 16-bit range at the front of `s`. */
  function ParseInt16(s: string): (r: Option<(Int16, string)>)
    ensures r.Some? ==> |r.value.1| < |s|
  {
    if |s| > 0 && s[0] == '-' then
      match ParseNat(s[1..])
      case None => None
      case Some((v, rest)) =>
        var neg: int := -(v as int);
        if v <= 0x8000 then Some((neg, rest)) else None
    else
      match ParseNat(s)
      case None => None
      case Some((v, rest)) => if v < 0x8000 then Some((v, rest)) else None
  }

  /** Reads `<a>,<b>;` at the front of `s`. */
  function ParsePair(s: string): (r: Option<(Int16, Int16, string)>)
    ensures r.Some? ==> |r.value.2| < |s|
  {
    match ParseInt16(s)
    case None => None
    case Some((a, r1)) =>
      if |r1| > 0 && r1[0] == ',' then
        match ParseInt16(r1[1..])
        case None => None
        case Some((b, r2)) =>
          if |r2| > 0 && r2[0] == ';' then Some((a, b, r2[1..])) else None
      else None
  }

  /** Reads one command at the front of `s`: the command and the text after it. */
  function ParseOne(s: string): (r: Option<(Command, string)>)
    ensures r.Some? ==> |r.value.1| < |s|
  {
    if |s| < 3 then None
    else if s[0] == 'I' && s[1] == 'N' then (if s[2] == ';' then Some((Init, s[3..])) else None)
    else if s[0] == 'P' && s[1] == 'U' then (if s[2] == ';' then Some((PenUp, s[3..])) else None)
    else if s[0] == 'P' && s[1] == 'D' then (if s[2] == ';' then Some((PenDown, s[3..])) else None)
    else if s[0] == 'S' && s[1] == 'P' then
      (if |s| >= 4 && s[3] == ';' then Some((SelectPen(s[2]), s[4..])) else None)
    else if s[0] == 'P' && (s[1] == 'A' || s[1] == 'R') then
      match ParsePair(s[2..])
      case None => None
      case Some((a, b, rest)) =>
        Some((if s[1] == 'A' then MoveAbsolute(a, b) else MoveRelative(a, b), rest))
    else None
  }

  /** Reads a whole stream of commands; `None` if any part of it is not a command. */
  function ParseAll(s: string): Option<seq<Command>>
    decreases |s|
  {
    if s == [] then Some([])
    else
      match ParseOne(s)
      case None => None
      case Some((c, rest)) =>
        match ParseAll(rest)
        case None => None
        case Some(cs) => Some([c] + cs)
  }

  // ---------------------------------------------------------------------------------------
  // Round trip
  // ---------------------------------------------------------------------------------------

  lemma {:induction false} DigitRunAppend(ds: string, rest: string)
    requires forall k :: 0 <= k < |ds| ==> IsDigit(ds[k])
    ensures DigitRun(ds + rest) == |ds| + DigitRun(rest)
  {
    if ds != [] {
      assert (ds + rest)[1..] == ds[1..] + rest;
      DigitRunAppend(ds[1..], rest);
    } else {
      assert ds + rest == rest;
    }
  }

  lemma {:induction false} DigitsValueOfNatText(n: nat)
    ensures DigitsValue(NatText(n)) == n
  {
    var s := NatText(n);
    if n >= 10 {
      assert s[..|s| - 1] == NatText(n / 10);
      DigitsValueOfNatText(n / 10);
    }
  }

  /** The decimal text of `n`, followed by anything that is not a digit, reads back as `n`. */
  lemma NatRoundTrip(n: nat, rest: string)
    requires rest == [] || !IsDigit(rest[0])
    ensures ParseNat(NatText(n) + rest) == Some((n, rest))
  {
    var t := NatText(n);
    var s := t + rest;
    DigitRunAppend(t, rest);
    assert DigitRun(rest) == 0;
    assert s[..|t|] == t;
    assert s[|t|..] == rest;
    DigitsValueOfNatText(n);
  }

  /** The decimal text of a 16-bit value, followed by a non-digit, reads back as that value. */
  lemma Int16RoundTrip(i: Int16, rest: string)
    requires rest == [] || !IsDigit(rest[0])
    ensures ParseInt16(IntText(i) + rest) == Some((i, rest))
  {
    if i < 0 {
      var m: nat := -(i as int);
      var s := IntText(i) + rest;
      assert s == ['-'] + (NatText(m) + rest);
      assert s[1..] == NatText(m) + rest;
      NatRoundTrip(m, rest);
    } else {
      NatRoundTrip(i, rest);
    }
  }

  lemma PairRoundTrip(a: Int16, b: Int16, rest: string)
    ensures ParsePair(Fields(a, b) + rest) == Some((a, b, rest))
  {
    var ta, tb := IntText(a), IntText(b);
    var r2 := [';'] + rest;
    var r1 := [','] + (tb + r2);
    assert Fields(a, b) + rest == ta + r1;
    Int16RoundTrip(a, r1);
    assert r1[1..] == tb + r2;
    Int16RoundTrip(b, r2);
    assert r2[1..] == rest;
  }

  lemma ParseOneMove(tag: char, tail: string)
    requires tag == 'A' || tag == 'R'
    ensures ParseOne(['P', tag] + tail)
         == match ParsePair(tail)
            case None => None
            case Some((a, b, rest)) =>
              Some((if tag == 'A' then MoveAbsolute(a, b) else MoveRelative(a, b), rest))
  {
    var s := ['P', tag] + tail;
    assert s[2..] == tail;
  }

  lemma MoveRoundTrip(absolute: bool, a: Int16, b: Int16, rest: string)
    ensures var c := if absolute then MoveAbsolute(a, b) else MoveRelative(a, b);
            ParseOne(Render(c) + rest) == Some((c, rest))
  {
    var tag := if absolute then 'A' else 'R';
    var tail := Fields(a, b) + rest;
    assert Render(if absolute then MoveAbsolute(a, b) else MoveRelative(a, b)) == ['P', tag] + Fields(a, b);
    assert (['P', tag] + Fields(a, b)) + rest == ['P', tag] + tail;
    ParseOneMove(tag, tail);
    PairRoundTrip(a, b, rest);
  }

  /** Any command, rendered and followed by any text, reads back as itself, leaving exactly that text. */
  lemma RenderRoundTrip(c: Command, rest: string)
    ensures ParseOne(Render(c) + rest) == Some((c, rest))
  {
    match c
    case MoveAbsolute(x, y) => MoveRoundTrip(true, x, y, rest);
    case MoveRelative(dx, dy) => MoveRoundTrip(false, dx, dy, rest);
    case _ =>
      var s := Render(c) + rest;
      assert s[|Render(c)|..] == rest;
  }

  lemma {:induction false} RenderAllAppend(a: seq<Command>, b: seq<Command>)
    ensures RenderAll(a + b) == RenderAll(a) + RenderAll(b)
  {
    if a == [] {
      assert a + b == b;
    } else {
      assert (a + b)[1..] == a[1..] + b;
      RenderAllAppend(a[1..], b);
    }
  }

  /** Every rendered command stream reads back as exactly the commands that were written. */
  lemma {:induction false} StreamRoundTrip(cs: seq<Command>)
    ensures ParseAll(RenderAll(cs)) == Some(cs)
  {
    if cs != [] {
      RenderRoundTrip(cs[0], RenderAll(cs[1..]));
      StreamRoundTrip(cs[1..]);
      assert [cs[0]] + cs[1..] == cs;
    }
  }

  /** Two command streams that put the same text on the line are the same stream. */
  lemma RenderAllInjective(a: seq<Command>, b: seq<Command>)
    requires RenderAll(a) == RenderAll(b)
    ensures a == b
  {
    StreamRoundTrip(a);
    StreamRoundTrip(b);
  }

  /** The literal `IN;PA5180,3800;` written after calibration is `Init` then an absolute move to (5180, 3800). */
  lemma HomeText()
    ensures RenderAll([Init, MoveAbsolute(5180, 3800)]) == "IN;PA5180,3800;"
  {
    assert NatText(5180) == "5180";
    assert NatText(3800) == "3800";
  }
}
