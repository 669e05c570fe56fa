/** Escaping of strings for output, and why the result determines the string. */
module EscapeText {
  import opened Options

  type Byte = x: int | 0 <= x < 256

  const BACKSLASH: Byte := 92
  const DIGIT0: Byte := 48

  predicate Printable(b: Byte) { 32 <= b <= 126 }

  // ----- what is written -----

  /** The letter after the backslash for the bytes that have one. */
  function Letter(b: Byte): Option<Byte> {
    match b
    case 8 => Some(98)     // \b
    case 12 => Some(102)   // \f
    case 10 => Some(110)   // \n
    case 13 => Some(114)   // \r
    case 9 => Some(116)    // \t
    case 11 => Some(118)   // \v
    case 92 => Some(92)    // \\
    case 34 => Some(34)    // \"
    case _ => None
  }

  /** A number in a base, without padding. */
  function Digits(n: nat, base: nat): (r: seq<Byte>)
    requires 2 <= base <= 10
    ensures r != []
    decreases n
  {
    if n < base then [n + DIGIT0] else Digits(n / base, base) + [n % base + DIGIT0]
  }

  function Pad(s: seq<Byte>, width: nat, fill: Byte): seq<Byte>
    decreases width - |s|
  {
    if |s| >= width then s else Pad([fill] + s, width, fill)
  }

  function EscapeByte(b: Byte): seq<Byte> {
    if b == 7 then [BACKSLASH, 48, 48, 55]
    else if Letter(b).Some? then [BACKSLASH, Letter(b).value]
    else if Printable(b) then [b]
    else [BACKSLASH] + Octal(b)
  }

  /** Exactly three octal digits. */
  function Octal(b: Byte): seq<Byte> { [b / 64 + DIGIT0, b / 8 % 8 + DIGIT0, b % 8 + DIGIT0] }

  function Escape(s: seq<Byte>): seq<Byte> {
    if s == [] then [] else EscapeByte(s[0]) + Escape(s[1..])
  }

  // ----- how it is read back -----

  function FromLetter(c: Byte): Option<Byte> {
    match c
    case 98 => Some(8)
    case 102 => Some(12)
    case 110 => Some(10)
    case 114 => Some(13)
    case 116 => Some(9)
    case 118 => Some(11)
    case 92 => Some(92)
    case 34 => Some(34)
    case _ => None
  }

  predicate OctalDigit(c: Byte) { 48 <= c <= 55 }

  /** A backslash is followed by a letter or by three octal digits; anything else stands for itself. */
  function Decode(s: seq<Byte>): Option<seq<Byte>> {
    if s == [] then Some([])
    else if s[0] != BACKSLASH then Prepend(s[0], Decode(s[1..]))
    else if |s| >= 2 && FromLetter(s[1]).Some? then Prepend(FromLetter(s[1]).value, Decode(s[2..]))
    else if |s| >= 4 && OctalDigit(s[1]) && OctalDigit(s[2]) && OctalDigit(s[3]) && s[1] <= 51 then
      Prepend((s[1] - DIGIT0) * 64 + (s[2] - DIGIT0) * 8 + (s[3] - DIGIT0), Decode(s[4..]))
    else None
  }

  function Prepend(b: Byte, r: Option<seq<Byte>>): Option<seq<Byte>> {
    if r.None? then None else Some([b] + r.value)
  }

  // ----- the round trip -----

  lemma PadOctal(b: Byte)
    ensures Pad(Digits(b, 8), 3, DIGIT0) == Octal(b)
  {
    if b < 8 {
      assert Digits(b, 8) == [b + DIGIT0];
      assert Pad([DIGIT0] + [b + DIGIT0], 3, DIGIT0) == Pad([DIGIT0] + ([DIGIT0] + [b + DIGIT0]), 3, DIGIT0);
    } else if b < 64 {
      assert Digits(b / 8, 8) == [b / 8 + DIGIT0];
      assert Digits(b, 8) == [b / 8 + DIGIT0, b % 8 + DIGIT0];
    } else {
      assert Digits(b / 8 / 8, 8) == [b / 64 + DIGIT0];
      assert Digits(b / 8, 8) == [b / 64 + DIGIT0, b / 8 % 8 + DIGIT0];
    }
  }

  lemma OctalValue(b: Byte)
    ensures b / 64 <= 3 && b / 8 % 8 <= 7 && b / 64 * 64 + b / 8 % 8 * 8 + b % 8 == b
  {
    assert b / 64 == b / 8 / 8;
  }

  /** Three octal digits, the first at most 3, are read back as their value. */
  lemma ThreeBack(x: Byte, y: Byte, z: Byte, b: Byte, rest: seq<Byte>)
    requires 48 <= x <= 51 && OctalDigit(y) && OctalDigit(z) && (x - DIGIT0) * 64 + (y - DIGIT0) * 8 + (z - DIGIT0) == b
    ensures Decode([BACKSLASH, x, y, z] + rest) == Prepend(b, Decode(rest))
  {
    var s := [BACKSLASH, x, y, z] + rest;
    assert s[4..] == rest && s[0] == BACKSLASH && s[1] == x && s[2] == y && s[3] == z;
  }

  lemma OctalBack(b: Byte, rest: seq<Byte>)
    ensures Decode([BACKSLASH] + Octal(b) + rest) == Prepend(b, Decode(rest))
  {
    hide Decode;
    OctalValue(b);
    ThreeBack(b / 64 + DIGIT0, b / 8 % 8 + DIGIT0, b % 8 + DIGIT0, b, rest);
    assert [BACKSLASH] + Octal(b) == [BACKSLASH, b / 64 + DIGIT0, b / 8 % 8 + DIGIT0, b % 8 + DIGIT0];
  }

  lemma LetterBack(b: Byte, rest: seq<Byte>)
    requires Letter(b).Some?
    ensures Decode([BACKSLASH, Letter(b).value] + rest) == Prepend(b, Decode(rest))
  {
    var s := [BACKSLASH, Letter(b).value] + rest;
    assert s[0] == BACKSLASH && s[1] == Letter(b).value && s[2..] == rest;
    assert FromLetter(s[1]) == Some(b);
  }

  lemma OneBack(b: Byte, rest: seq<Byte>)
    ensures Decode(EscapeByte(b) + rest) == Prepend(b, Decode(rest))
  {
    hide Decode;
    if b == 7 || (Letter(b).None? && !Printable(b)) {
      assert EscapeByte(b) == [BACKSLASH] + Octal(b);
      OctalBack(b, rest);
    } else if Letter(b).Some? {
      LetterBack(b, rest);
    } else {
      PlainBack(b, rest);
    }
  }

  lemma PlainBack(b: Byte, rest: seq<Byte>)
    requires b != BACKSLASH
    ensures Decode([b] + rest) == Prepend(b, Decode(rest))
  {
    assert ([b] + rest)[1..] == rest;
  }

  /** Decoding gives back the string, whatever its bytes. */
  lemma {:induction false} RoundTrip(s: seq<Byte>)
    ensures Decode(Escape(s)) == Some(s)
  {
    if s != [] {
      assert s == [s[0]] + s[1..];
      RoundTrip(s[1..]);
      OneBack(s[0], Escape(s[1..]));
    }
  }

  /** Printable bytes other than the backslash and the quote stand for themselves, and no others do;
      eight bytes have a letter; the rest take four bytes. */
  lemma ByteForms(b: Byte)
    ensures EscapeByte(b) == [b] <==> Printable(b) && b !in {92, 34}
    ensures |EscapeByte(b)| == 2 <==> b in {8, 9, 10, 11, 12, 13, 34, 92}
    ensures |EscapeByte(b)| == 4 <==> !Printable(b) && !(8 <= b <= 13)
  {}

  lemma Injective(s: seq<Byte>, t: seq<Byte>)
    requires Escape(s) == Escape(t)
    ensures s == t
  {
    RoundTrip(s);
    RoundTrip(t);
  }

  /** Only printable characters are written. */
  lemma {:induction false} AllPrintable(s: seq<Byte>, i: nat)
    requires i < |Escape(s)|
    ensures Printable(Escape(s)[i])
  {
    var n := |EscapeByte(s[0])|;
    if i >= n { AllPrintable(s[1..], i - n); }
  }

  // ----- the stream -----

  lemma EscapeFrom(s: seq<Byte>, i: nat, text: seq<Byte>)
    requires i < |s|
    ensures text + Escape(s[i..]) == text + EscapeByte(s[i]) + Escape(s[i + 1..])
  {
    assert s[i..][1..] == s[i + 1..];
  }

  method ToDigits(n: nat, base: nat) returns (digits: seq<Byte>)
    requires 2 <= base <= 10
    ensures digits == Digits(n, base)
  {
    hide Digits;
    digits := [];
    var rest: nat := n;
    assert Digits(n, base) == Digits(n, base) + digits;
    while rest >= base
      invariant Digits(n, base) == Digits(rest, base) + digits
    {
      LastDigit(rest, base);
      Quotient(rest, base);
      Regroup(Digits(rest / base, base), [rest % base + DIGIT0], digits);
      digits := [rest % base + DIGIT0] + digits;
      rest := rest / base;
    }
    OneDigit(rest, base);
    digits := [rest + DIGIT0] + digits;
  }

  /** The number that digits stand for. */
  function Number(s: seq<Byte>, base: nat): int {
    if s == [] then 0 else Number(s[..|s| - 1], base) * base + s[|s| - 1] - DIGIT0
  }

  lemma NumberLast(s: seq<Byte>, c: Byte, base: nat)
    ensures Number(s + [c], base) == Number(s, base) * base + c - DIGIT0
  {
    assert (s + [c])[..|s|] == s;
  }

  lemma DivMod(n: nat, base: nat)
    requires base > 0
    ensures n / base * base + n % base == n && n / base >= 0 && 0 <= n % base < base
  {}

  /** Numbers are written in the base, without leading zeros. */
  lemma {:induction false} DigitsMean(n: nat, base: nat)
    requires 2 <= base <= 10
    ensures var s := Digits(n, base); Number(s, base) == n && (n > 0 ==> s[0] != DIGIT0)
    ensures forall i | 0 <= i < |Digits(n, base)| :: DIGIT0 <= Digits(n, base)[i] < DIGIT0 + base
    decreases n
  {
    hide Digits, Number;
    if n < base {
      OneDigit(n, base);
      NumberLast([], n + DIGIT0, base);
      NumberNone(base);
      assert [] + [n + DIGIT0] == [n + DIGIT0];
    } else {
      Quotient(n, base);
      DivMod(n, base);
      LastDigit(n, base);
      DigitsMean(n / base, base);
      NumberLast(Digits(n / base, base), n % base + DIGIT0, base);
      Positive(n, base);
    }
  }

  lemma NumberNone(base: nat)
    ensures Number([], base) == 0
  {}

  lemma Positive(n: nat, base: nat)
    requires n >= base > 0
    ensures n / base > 0
  {}

  lemma OneDigit(n: nat, base: nat)
    requires n < base && 2 <= base <= 10
    ensures Digits(n, base) == [n + DIGIT0]
  {}

  lemma LastDigit(n: nat, base: nat)
    requires 2 <= base <= 10 && n >= base
    ensures Digits(n, base) == Digits(n / base, base) + [n % base + DIGIT0]
  {}

  lemma Quotient(n: nat, base: nat)
    requires 2 <= base && n >= base
    ensures 0 <= n / base < n && 0 <= n % base < base
  {}

  lemma Regroup(a: seq<Byte>, b: seq<Byte>, c: seq<Byte>)
    ensures a + b + c == a + (b + c)
  {}

  method PadLeft(s: seq<Byte>, width: nat, fill: Byte) returns (r: seq<Byte>)
    ensures r == Pad(s, width, fill)
  {
    r := s;
    while |r| < width
      invariant Pad(r, width, fill) == Pad(s, width, fill)
    {
      r := [fill] + r;
    }
  }

  class OStream {
    var text: seq<Byte>
    var base: nat
    var fill: Byte

    constructor ()
      ensures text == [] && base == 10 && fill == 32
    {
      text, base, fill := [], 10, 32;
    }

    method Put(s: seq<Byte>)
      modifies this`text
      ensures text == old(text) + s
    {
      text := text + s;
    }

    /** A number, as the flags of the stream say. */
    method PutNumber(n: nat, width: nat)
      requires 2 <= base <= 10
      modifies this`text
      ensures text == old(text) + Pad(Digits(n, base), width, fill)
    {
      var digits := ToDigits(n, base);
      digits := PadLeft(digits, width, fill);
      text := text + digits;
    }

    method PutByte(b: Byte)
      requires base == 8 && fill == DIGIT0
      modifies this`text
      ensures text == old(text) + EscapeByte(b)
    {
      if b == 7 { Put([BACKSLASH, 48, 48, 55]); }
      else if Letter(b).Some? { Put([BACKSLASH, Letter(b).value]); }
      else if Printable(b) { Put([b]); }
      else {
        Put([BACKSLASH]);
        PutNumber(b, 3);
        PadOctal(b);
      }
    }

    /** Write s escaped; the flags of the stream are as before. */
    method PutEscaped(s: seq<Byte>)
      modifies this
      ensures text == old(text) + Escape(s) && base == old(base) && fill == old(fill)
    {
      var oldBase, oldFill := base, fill;
      base, fill := 8, DIGIT0;
      var i := 0;
      assert s[0..] == s;
      while i < |s|
        invariant i <= |s| && base == 8 && fill == DIGIT0
        invariant text + Escape(s[i..]) == old(text) + Escape(s)
      {
        EscapeFrom(s, i, text);
        PutByte(s[i]);
        i := i + 1;
      }
      fill, base := oldFill, oldBase;
    }
  }
}
