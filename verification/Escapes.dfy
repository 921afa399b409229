/**
 The scanner that refuses JSON text whose \u escapes do not form UTF-16, before it is decoded.

 JSON text is taken apart as section 7 of RFC 8259 does: outside strings no quotation mark occurs,
 inside them a reverse solidus always begins an escape. Every JSON text is the rendering of such
 pieces; the scanner is proved to decide surrogate pairing on all of these renderings.
 */
module Escapes {
  /** A character, a short escape, or a 16-bit code unit written as four hexadecimal digits. */
  datatype Unit = Plain(c: char) | Short(c: char) | Escaped(hex: string)

  datatype Piece = Outside(c: char) | Text(units: seq<Unit>)

  /** The quotation mark, code 34, and the reverse solidus, code 92. */
  const QUOTE: char := 34 as char
  const SOLIDUS: char := 92 as char

  predicate HexDigit(c: char) { '0' <= c <= '9' || 'a' <= c <= 'f' || 'A' <= c <= 'F' }

  function HexValue(c: char): (v: nat)
    requires HexDigit(c)
    ensures v < 16
  {
    if c <= '9' then c as int - '0' as int
    else if c <= 'F' then c as int - 'A' as int + 10
    else c as int - 'a' as int + 10
  }

  predicate AllHex(s: string) { forall i | 0 <= i < |s| :: HexDigit(s[i]) }

  function Value(hex: string): nat
    requires |hex| == 4 && AllHex(hex)
  {
    HexValue(hex[0]) * 4096 + HexValue(hex[1]) * 256 + HexValue(hex[2]) * 16 + HexValue(hex[3])
  }

  predicate High(n: nat) { 0xd800 <= n <= 0xdbff }
  predicate Low(n: nat) { 0xdc00 <= n <= 0xdfff }

  predicate UnitOk(u: Unit) {
    match u
    case Plain(c) => c != QUOTE && c != SOLIDUS
    case Short(c) => c in {QUOTE, SOLIDUS, '/', 'b', 'f', 'n', 'r', 't'}
    case Escaped(hex) => |hex| == 4 && AllHex(hex)
  }

  predicate UnitsOk(units: seq<Unit>) { forall i | 0 <= i < |units| :: UnitOk(units[i]) }

  predicate PieceOk(p: Piece) {
    match p
    case Outside(c) => c != QUOTE
    case Text(units) => UnitsOk(units)
  }

  predicate PiecesOk(pieces: seq<Piece>) { forall i | 0 <= i < |pieces| :: PieceOk(pieces[i]) }

  function RenderUnit(u: Unit): string {
    match u
    case Plain(c) => [c]
    case Short(c) => [SOLIDUS, c]
    case Escaped(hex) => [SOLIDUS, 'u'] + hex
  }

  function RenderUnits(units: seq<Unit>): string {
    if units == [] then [] else RenderUnit(units[0]) + RenderUnits(units[1..])
  }

  function RenderPiece(p: Piece): string {
    match p
    case Outside(c) => [c]
    case Text(units) => [QUOTE] + (RenderUnits(units) + [QUOTE])
  }

  function Render(pieces: seq<Piece>): string {
    if pieces == [] then [] else RenderPiece(pieces[0]) + Render(pieces[1..])
  }

  // The reference: every high surrogate is followed at once by a low one, and no low one stands alone.

  predicate PairedUnits(units: seq<Unit>)
    requires UnitsOk(units)
    decreases |units|
  {
    units == []
    || (if units[0].Escaped? && High(Value(units[0].hex)) then
          |units| > 1 && units[1].Escaped? && Low(Value(units[1].hex)) && PairedUnits(units[2..])
        else !(units[0].Escaped? && Low(Value(units[0].hex))) && PairedUnits(units[1..]))
  }

  predicate Paired(pieces: seq<Piece>)
    requires PiecesOk(pieces)
  {
    forall i | 0 <= i < |pieces| :: pieces[i].Text? ==> PairedUnits(pieces[i].units)
  }

  lemma PairedFront(pieces: seq<Piece>)
    requires PiecesOk(pieces) && pieces != []
    ensures Paired(pieces) <==> (pieces[0].Text? ==> PairedUnits(pieces[0].units)) && Paired(pieces[1..])
  {
    assert forall i | 0 < i < |pieces| :: pieces[i] == pieces[1..][i - 1];
    assert forall i | 0 <= i < |pieces| - 1 :: pieces[1..][i] == pieces[i + 1];
  }

  // The scanner as a function of the text that is left.

  function Scan(t: string, quoted: bool): bool
    decreases |t|
  {
    if t == [] then true
    else if t[0] == QUOTE then Scan(t[1..], !quoted)
    else if quoted && t[0] == SOLIDUS then |t| > 1 && (if t[1] != 'u' then Scan(t[2..], quoted) else ScanEscape(t))
    else Scan(t[1..], quoted)
  }

  /** From the reverse solidus of an escape inside a string. */
  function ScanEscape(t: string): bool
    requires |t| > 1
    decreases |t|, 0
  {
    |t| >= 6 && AllHex(t[2..6])
    && var n := Value(t[2..6]);
    !Low(n)
    && if High(n) then |t| >= 12 && t[6] == SOLIDUS && t[7] == 'u' && AllHex(t[8..12]) && Low(Value(t[8..12]))
                       && Scan(t[12..], true)
       else Scan(t[6..], true)
  }

  /** The digits of a code unit, or none when a character is not hexadecimal. */
  method ParseHex(s: string) returns (ok: bool, n: nat)
    requires |s| == 4
    ensures ok <==> AllHex(s)
    ensures ok ==> n == Value(s)
  {
    n := 0;
    for i := 0 to 4
      invariant forall j | 0 <= j < i :: HexDigit(s[j])
      invariant i == 0 ==> n == 0
      invariant i == 1 ==> n == HexValue(s[0])
      invariant i == 2 ==> n == HexValue(s[0]) * 16 + HexValue(s[1])
      invariant i == 3 ==> n == HexValue(s[0]) * 256 + HexValue(s[1]) * 16 + HexValue(s[2])
      invariant i == 4 ==> n == Value(s)
    {
      if !HexDigit(s[i]) { return false, 0; }
      n := n * 16 + HexValue(s[i]);
    }
    ok := true;
  }

  lemma Drop(data: string, i: nat, k: nat)
    requires i + k <= |data|
    ensures data[i..][k..] == data[i + k..]
    ensures forall j | 0 <= j < |data| - i :: data[i..][j] == data[i + j]
  {
  }

  lemma Slice(data: string, i: nat, a: nat, b: nat)
    requires i + a <= i + b <= |data|
    ensures data[i..][a..b] == data[i + a..i + b]
  {
  }

  /** One pass with an index and a flag computes the scan of the whole text. */
  method ScanText(data: string) returns (ok: bool)
    ensures ok == Scan(data, false)
  {
    var quoted, i := false, 0;
    assert data[0..] == data;
    while i < |data|
      invariant 0 <= i <= |data|
      invariant Scan(data, false) == Scan(data[i..], quoted)
      decreases |data| - i
    {
      ghost var t := data[i..];
      Drop(data, i, 1);
      if data[i] == QUOTE {
        quoted := !quoted;
        i := i + 1;
      } else if quoted && data[i] == SOLIDUS {
        i := i + 1;
        if i >= |data| { return false; }
        assert t[1] == data[i];
        if data[i] != 'u' {
          Drop(data, i - 1, 2);
          i := i + 1;
        } else {
          if i + 4 >= |data| { return false; }
          Slice(data, i - 1, 2, 6);
          var hex, n := ParseHex(data[i + 1..i + 5]);
          if !hex || Low(n) { return false; }
          if High(n) {
            i := i + 4;
            if i + 6 >= |data| { return false; }
            Drop(data, i - 5, 12);
            assert t[6] == data[i + 1] && t[7] == data[i + 2];
            if data[i + 1] != SOLIDUS || data[i + 2] != 'u' { return false; }
            Slice(data, i - 5, 8, 12);
            var lowHex, low := ParseHex(data[i + 3..i + 7]);
            if !lowHex || !Low(low) { return false; }
            i := i + 7;
          } else {
            Drop(data, i - 1, 6);
            i := i + 5;
          }
        }
      } else {
        i := i + 1;
      }
    }
    ok := true;
  }

  // The scan of a rendering decides pairing.

  lemma ScanPlain(c: char, t: string, quoted: bool)
    requires c != QUOTE && !(quoted && c == SOLIDUS)
    ensures Scan([c] + t, quoted) == Scan(t, quoted)
  {
    assert ([c] + t)[1..] == t;
  }

  lemma ScanQuote(t: string, quoted: bool)
    ensures Scan([QUOTE] + t, quoted) == Scan(t, !quoted)
  {
    assert ([QUOTE] + t)[1..] == t;
  }

  lemma ScanShort(c: char, t: string)
    requires c != 'u'
    ensures Scan([SOLIDUS, c] + t, true) == Scan(t, true)
  {
    assert ([SOLIDUS, c] + t)[2..] == t;
  }

  lemma ScanSingle(hex: string, t: string)
    requires |hex| == 4 && AllHex(hex) && !High(Value(hex))
    ensures Scan([SOLIDUS, 'u'] + hex + t, true) == (!Low(Value(hex)) && Scan(t, true))
  {
    var s := [SOLIDUS, 'u'] + hex + t;
    assert s[2..6] == hex && s[6..] == t;
  }

  lemma ScanPair(hex: string, hex': string, t: string)
    requires |hex| == 4 && AllHex(hex) && High(Value(hex)) && |hex'| == 4 && AllHex(hex')
    ensures Scan([SOLIDUS, 'u'] + hex + ([SOLIDUS, 'u'] + hex' + t), true) == (Low(Value(hex')) && Scan(t, true))
  {
    var s := [SOLIDUS, 'u'] + hex + ([SOLIDUS, 'u'] + hex' + t);
    assert s[2..6] == hex && s[6] == SOLIDUS && s[7] == 'u' && s[8..12] == hex' && s[12..] == t;
  }

  lemma ScanLonely(hex: string, t: string)
    requires |hex| == 4 && AllHex(hex) && High(Value(hex))
    requires |t| < 2 || t[0] != SOLIDUS || t[1] != 'u'
    ensures !Scan([SOLIDUS, 'u'] + hex + t, true)
  {
    var s := [SOLIDUS, 'u'] + hex + t;
    assert s[2..6] == hex && (forall k | 0 <= k < |t| :: s[6 + k] == t[k]);
  }

  lemma Associate(a: string, b: string, c: string)
    ensures (a + b) + c == a + (b + c)
  {
  }

  /** What follows a string's first unit. */
  function Following(units: seq<Unit>, tail: string): string
    requires units != []
  {
    RenderUnits(units[1..]) + ([QUOTE] + tail)
  }

  lemma FrontOf(units: seq<Unit>, tail: string)
    requires units != []
    ensures RenderUnits(units) + ([QUOTE] + tail) == RenderUnit(units[0]) + Following(units, tail)
  {
    Associate(RenderUnit(units[0]), RenderUnits(units[1..]), [QUOTE] + tail);
  }

  /** The text after a unit begins with an escape of a code unit only if the next unit is one. */
  lemma NoEscapeFollows(units: seq<Unit>, tail: string)
    requires UnitsOk(units) && units != [] && !(|units| > 1 && units[1].Escaped?)
    ensures var t := Following(units, tail); |t| < 2 || t[0] != SOLIDUS || t[1] != 'u'
  {
    if |units| > 1 {
      FrontOf(units[1..], tail);
      assert units[1..][0] == units[1] && UnitOk(units[1]);
    } else {
      assert RenderUnits(units[1..]) == [];
    }
  }

  lemma {:induction false} ScanUnits(units: seq<Unit>, tail: string)
    requires UnitsOk(units)
    ensures Scan(RenderUnits(units) + ([QUOTE] + tail), true) == (PairedUnits(units) && Scan(tail, false))
    decreases |units|
  {
    if units == [] {
      assert RenderUnits(units) + ([QUOTE] + tail) == [QUOTE] + tail;
      ScanQuote(tail, true);
    } else {
      FrontOf(units, tail);
      var t := Following(units, tail);
      assert UnitOk(units[0]);
      match units[0]
      case Plain(c) =>
        ScanUnits(units[1..], tail);
        ScanPlain(c, t, true);
      case Short(c) =>
        ScanUnits(units[1..], tail);
        ScanShort(c, t);
      case Escaped(hex) =>
        if !High(Value(hex)) {
          ScanUnits(units[1..], tail);
          ScanSingle(hex, t);
        } else if |units| > 1 && units[1].Escaped? {
          ScanHigh(units, tail);
          ScanUnits(units[2..], tail);
        } else {
          NoEscapeFollows(units, tail);
          ScanLonely(hex, t);
        }
    }
  }

  lemma ScanHigh(units: seq<Unit>, tail: string)
    requires UnitsOk(units) && |units| > 1 && units[0].Escaped? && units[1].Escaped? && High(Value(units[0].hex))
    ensures Scan(RenderUnits(units) + ([QUOTE] + tail), true)
         == (Low(Value(units[1].hex)) && Scan(RenderUnits(units[2..]) + ([QUOTE] + tail), true))
  {
    FrontOf(units, tail);
    FrontOf(units[1..], tail);
    assert units[1..][1..] == units[2..] && UnitOk(units[1]);
    ScanPair(units[0].hex, units[1].hex, RenderUnits(units[2..]) + ([QUOTE] + tail));
  }

  lemma {:induction false} ScanPieces(pieces: seq<Piece>)
    requires PiecesOk(pieces)
    ensures Scan(Render(pieces), false) == Paired(pieces)
    decreases |pieces|
  {
    if pieces != [] {
      PairedFront(pieces);
      ScanPieces(pieces[1..]);
      var tail := Render(pieces[1..]);
      match pieces[0]
      case Outside(c) =>
        ScanPlain(c, tail, false);
      case Text(units) =>
        Associate(RenderUnits(units), [QUOTE], tail);
        Associate([QUOTE], RenderUnits(units) + [QUOTE], tail);
        ScanQuote(RenderUnits(units) + ([QUOTE] + tail), false);
        ScanUnits(units, tail);
    }
  }

  predicate DigitD(c: char) { c == 'd' || c == 'D' }
  predicate Digit8B(c: char) { c == '8' || c == '9' || c == 'a' || c == 'A' || c == 'b' || c == 'B' }
  predicate DigitCF(c: char) { c == 'c' || c == 'C' || c == 'd' || c == 'D' || c == 'e' || c == 'E' || c == 'f' || c == 'F' }

  /** An escaped high surrogate begins with d8, d9, da or db, a low one with dc, dd, de or df. */
  predicate HighUnit(u: Unit) { u.Escaped? && |u.hex| == 4 && DigitD(u.hex[0]) && Digit8B(u.hex[1]) }
  predicate LowUnit(u: Unit) { u.Escaped? && |u.hex| == 4 && DigitD(u.hex[0]) && DigitCF(u.hex[1]) }

  lemma DigitsMean(c: char)
    requires HexDigit(c)
    ensures DigitD(c) <==> HexValue(c) == 13
    ensures Digit8B(c) <==> 8 <= HexValue(c) <= 11
    ensures DigitCF(c) <==> 12 <= HexValue(c)
  {
  }

  lemma SurrogateDigits(hex: string)
    requires |hex| == 4 && AllHex(hex)
    ensures High(Value(hex)) <==> DigitD(hex[0]) && Digit8B(hex[1])
    ensures Low(Value(hex)) <==> DigitD(hex[0]) && DigitCF(hex[1])
  {
    hide HexDigit, HexValue, DigitD, Digit8B, DigitCF;
    DigitsMean(hex[0]);
    DigitsMean(hex[1]);
  }

  /** A high surrogate is followed at once by a low one, a low one follows a high one at once. */
  predicate FitsAt(units: seq<Unit>, i: nat)
    requires i < |units|
  {
    && (HighUnit(units[i]) ==> i + 1 < |units| && LowUnit(units[i + 1]))
    && (LowUnit(units[i]) ==> i > 0 && HighUnit(units[i - 1]))
  }

  predicate WellPaired(units: seq<Unit>) { forall i | 0 <= i < |units| :: FitsAt(units, i) }

  /** Pairing read from left to right is pairing of neighbours. */
  lemma {:induction false} PairedIff(units: seq<Unit>)
    requires UnitsOk(units)
    ensures PairedUnits(units) <==> WellPaired(units)
    decreases |units|
  {
    if units != [] {
      assert UnitOk(units[0]);
      if units[0].Escaped? { SurrogateDigits(units[0].hex); }
      if HighUnit(units[0]) {
        PairedHigh(units);
        if |units| > 1 && LowUnit(units[1]) {
          PairedIff(units[2..]);
          assert FitsAt(units, 0) && FitsAt(units, 1);
          NeighboursAfter(units, 2);
        } else {
          assert !FitsAt(units, 0);
        }
      } else if LowUnit(units[0]) {
        assert !FitsAt(units, 0);
      } else {
        PairedIff(units[1..]);
        NeighboursAfter(units, 1);
      }
    }
  }

  lemma PairedHigh(units: seq<Unit>)
    requires UnitsOk(units) && units != [] && HighUnit(units[0])
    ensures PairedUnits(units) <==> |units| > 1 && LowUnit(units[1]) && PairedUnits(units[2..])
  {
    SurrogateDigits(units[0].hex);
    if |units| > 1 && units[1].Escaped? {
      assert UnitOk(units[1]);
      SurrogateDigits(units[1].hex);
    }
  }

  /** After a part that fits and does not end in a high surrogate, the rest decides. */
  lemma NeighboursAfter(units: seq<Unit>, n: nat)
    requires 0 < n <= |units| && !HighUnit(units[n - 1]) && forall i | 0 <= i < n :: FitsAt(units, i)
    ensures WellPaired(units) <==> WellPaired(units[n..])
  {
    var rest := units[n..];
    forall i | 0 <= i < |rest| ensures FitsAt(rest, i) <==> FitsAt(units, i + n) {
      assert rest[i] == units[i + n] && (i > 0 ==> rest[i - 1] == units[i + n - 1]);
    }
    if WellPaired(rest) {
      forall i | n <= i < |units| ensures FitsAt(units, i) {
        assert FitsAt(rest, i - n);
      }
    }
  }

  /** On the rendering of any pieces the scanner answers exactly whether their escapes pair surrogates. */
  method UnicodeEscapesOk(data: string, ghost pieces: seq<Piece>) returns (ok: bool)
    requires PiecesOk(pieces) && data == Render(pieces)
    ensures ok <==> forall i | 0 <= i < |pieces| && pieces[i].Text? :: WellPaired(pieces[i].units)
  {
    ok := ScanText(data);
    ScanPieces(pieces);
    forall i | 0 <= i < |pieces| && pieces[i].Text? ensures PairedUnits(pieces[i].units) <==> WellPaired(pieces[i].units) {
      assert PieceOk(pieces[i]);
      PairedIff(pieces[i].units);
    }
  }
}
