/**
 * Standard base64 (section 4 of RFC 4648) over bytes.
 *
 * In the planner, `btoa(String.fromCharCode.apply(null, bytes))` encodes a byte
 * array and `Uint8Array.from(atob(text), c => c.charCodeAt(0))` decodes it, both
 * through one-byte-per-character strings.  `Encode` is exactly what `btoa` computes.
 * `Decode` is strict: it agrees with `atob` on every text `Encode` produces
 * (`DecodeEncode`), but rejects some texts the forgiving `atob` accepts, such as
 * texts with whitespace, missing padding or non-zero trailing bits (`QR==`).
 */
module Base64 {
  import opened Wrappers

  type byte = x: int | 0 <= x < 256

  /** The 6-bit value `i` as a character of the base64 alphabet. */
  function Symbol(i: int): (c: char)
    requires 0 <= i < 64
    ensures c != '='
  {
    if i < 26 then ('A' as int + i) as char
    else if i < 52 then ('a' as int + (i - 26)) as char
    else if i < 62 then ('0' as int + (i - 52)) as char
    else if i == 62 then '+'
    else '/'
  }

  /** The 6-bit value of an alphabet character; `None` for anything else, `=` included. */
  function Value(c: char): (r: Option<int>)
    ensures r.Some? ==> 0 <= r.value < 64 && Symbol(r.value) == c
    ensures c == '=' ==> r.None?
  {
    if 'A' <= c <= 'Z' then Some(c as int - 'A' as int)
    else if 'a' <= c <= 'z' then Some(c as int - 'a' as int + 26)
    else if '0' <= c <= '9' then Some(c as int - '0' as int + 52)
    else if c == '+' then Some(62)
    else if c == '/' then Some(63)
    else None
  }

  lemma ValueOfSymbol(i: int)
    requires 0 <= i < 64
    ensures Value(Symbol(i)) == Some(i)
  {
  }

  /** Three bytes as four characters. */
  function EncodeQuantum(b0: byte, b1: byte, b2: byte): string
  {
    [Symbol(b0 / 4), Symbol((b0 % 4) * 16 + b1 / 16), Symbol((b1 % 16) * 4 + b2 / 64), Symbol(b2 % 64)]
  }

  /** Four alphabet characters as three bytes. */
  function DecodeQuantum(c0: char, c1: char, c2: char, c3: char): Option<seq<byte>>
  {
    if Value(c0).Some? && Value(c1).Some? && Value(c2).Some? && Value(c3).Some? then
      var a, b, c, d := Value(c0).value, Value(c1).value, Value(c2).value, Value(c3).value;
      Some([a * 4 + b / 16, (b % 16) * 16 + c / 4, (c % 4) * 64 + d])
    else None
  }

  /** Canonical padded encoding: every group of three bytes gives four characters,
      a final group of one or two bytes is padded with `=` to four. */
  function Encode(b: seq<byte>): (s: string)
    ensures |s| == 4 * ((|b| + 2) / 3)
    decreases |b|
  {
    if |b| == 0 then ""
    else if |b| == 1 then [Symbol(b[0] / 4), Symbol((b[0] % 4) * 16), '=', '=']
    else if |b| == 2 then [Symbol(b[0] / 4), Symbol((b[0] % 4) * 16 + b[1] / 16), Symbol((b[1] % 16) * 4), '=']
    else EncodeQuantum(b[0], b[1], b[2]) + Encode(b[3..])
  }

  /** The last four characters of a text, which may carry padding.  Only canonical
      padding is accepted: the bits below the last byte must be zero. */
  function DecodeFinal(c0: char, c1: char, c2: char, c3: char): Option<seq<byte>>
  {
    if c2 == '=' && c3 == '=' then
      if Value(c0).Some? && Value(c1).Some? && Value(c1).value % 16 == 0 then
        var a, b := Value(c0).value, Value(c1).value;
        Some([a * 4 + b / 16])
      else None
    else if c3 == '=' then
      if Value(c0).Some? && Value(c1).Some? && Value(c2).Some? && Value(c2).value % 4 == 0 then
        var a, b, c := Value(c0).value, Value(c1).value, Value(c2).value;
        Some([a * 4 + b / 16, (b % 16) * 16 + c / 4])
      else None
    else DecodeQuantum(c0, c1, c2, c3)
  }

  /** Strict decoding; `None` for any text that is not the encoding of some bytes. */
  function Decode(s: string): (r: Option<seq<byte>>)
    decreases |s|
  {
    if |s| == 0 then Some([])
    else if |s| < 4 then None
    else if |s| == 4 then DecodeFinal(s[0], s[1], s[2], s[3])
    else
      match DecodeQuantum(s[0], s[1], s[2], s[3])
      case None => None
      case Some(g) =>
        match Decode(s[4..])
        case None => None
        case Some(rest) => Some(g + rest)
  }

  /** Splitting a number below `256` at bit `k` and joining the halves again. */
  lemma Join16(x: int, y: int)
    requires 0 <= x < 16 && 0 <= y < 16
    ensures (x * 16 + y) / 16 == x && (x * 16 + y) % 16 == y
  {
  }

  lemma Join4(x: int, y: int)
    requires 0 <= x < 64 && 0 <= y < 4
    ensures (x * 4 + y) / 4 == x && (x * 4 + y) % 4 == y
  {
  }

  lemma Join64(x: int, y: int)
    requires 0 <= x < 4 && 0 <= y < 64
    ensures (x * 64 + y) / 64 == x && (x * 64 + y) % 64 == y
  {
  }

  lemma QuantumRoundTrip(b0: byte, b1: byte, b2: byte)
    ensures var q := EncodeQuantum(b0, b1, b2); DecodeQuantum(q[0], q[1], q[2], q[3]) == Some([b0, b1, b2])
  {
    var a, b, c, d := b0 / 4, (b0 % 4) * 16 + b1 / 16, (b1 % 16) * 4 + b2 / 64, b2 % 64;
    ValueOfSymbol(a);
    ValueOfSymbol(b);
    ValueOfSymbol(c);
    ValueOfSymbol(d);
    Join16(b0 % 4, b1 / 16);
    Join4(b1 % 16, b2 / 64);
    assert a * 4 + b / 16 == b0;
    assert (b % 16) * 16 + c / 4 == b1;
    assert (c % 4) * 64 + d == b2;
  }

  lemma FinalOneRoundTrip(b0: byte)
    ensures DecodeFinal(Symbol(b0 / 4), Symbol((b0 % 4) * 16), '=', '=') == Some([b0])
  {
    ValueOfSymbol(b0 / 4);
    ValueOfSymbol((b0 % 4) * 16);
    Join16(b0 % 4, 0);
  }

  lemma FinalTwoRoundTrip(b0: byte, b1: byte)
    ensures DecodeFinal(Symbol(b0 / 4), Symbol((b0 % 4) * 16 + b1 / 16), Symbol((b1 % 16) * 4), '=') == Some([b0, b1])
  {
    var a, b, c := b0 / 4, (b0 % 4) * 16 + b1 / 16, (b1 % 16) * 4;
    ValueOfSymbol(a);
    ValueOfSymbol(b);
    ValueOfSymbol(c);
    Join16(b0 % 4, b1 / 16);
    Join4(b1 % 16, 0);
    assert a * 4 + b / 16 == b0;
    assert (b % 16) * 16 + c / 4 == b1;
  }

  /** Decoding undoes encoding: base64 is lossless. */
  lemma {:induction false} DecodeEncode(b: seq<byte>)
    ensures Decode(Encode(b)) == Some(b)
    decreases |b|
  {
    if |b| <= 3 {
      DecodeEncodeShort(b);
    } else {
      var tail := b[3..];
      DecodeEncode(tail);
      DecodeEncodeStep(b[0], b[1], b[2], tail);
      SplitFirstThree(b);
    }
  }

  lemma SplitFirstThree(b: seq<byte>)
    requires |b| > 3
    ensures b == [b[0], b[1], b[2]] + b[3..]
  {
  }

  lemma DecodeEncodeShort(b: seq<byte>)
    requires |b| <= 3
    ensures Decode(Encode(b)) == Some(b)
  {
    if |b| == 1 {
      OneElement(b);
    } else if |b| == 2 {
      TwoElements(b);
    } else if |b| == 3 {
      ThreeElements(b);
    }
  }

  lemma OneElement(b: seq<byte>)
    requires |b| == 1
    ensures Decode(Encode(b)) == Some(b)
  {
    var b0 := b[0];
    assert b == [b0];
    DecodeEncodeOne(b0);
  }

  lemma TwoElements(b: seq<byte>)
    requires |b| == 2
    ensures Decode(Encode(b)) == Some(b)
  {
    var b0, b1 := b[0], b[1];
    assert b == [b0, b1];
    DecodeEncodeTwo(b0, b1);
  }

  lemma ThreeElements(b: seq<byte>)
    requires |b| == 3
    ensures Decode(Encode(b)) == Some(b)
  {
    var b0, b1, b2 := b[0], b[1], b[2];
    assert b == [b0, b1, b2];
    DecodeEncodeThree(b0, b1, b2);
  }

  lemma DecodeEncodeOne(b0: byte)
    ensures Decode(Encode([b0])) == Some([b0])
  {
    FinalOneRoundTrip(b0);
  }

  lemma DecodeEncodeTwo(b0: byte, b1: byte)
    ensures Decode(Encode([b0, b1])) == Some([b0, b1])
  {
    FinalTwoRoundTrip(b0, b1);
  }

  lemma DecodeEncodeThree(b0: byte, b1: byte, b2: byte)
    ensures Decode(Encode([b0, b1, b2])) == Some([b0, b1, b2])
  {
    var b := [b0, b1, b2];
    assert b[3..] == [];
    var q := EncodeQuantum(b0, b1, b2);
    assert Encode(b) == q;
    QuantumRoundTrip(b0, b1, b2);
  }

  lemma DecodeEncodeStep(b0: byte, b1: byte, b2: byte, tail: seq<byte>)
    requires tail != [] && Decode(Encode(tail)) == Some(tail)
    ensures Decode(Encode([b0, b1, b2] + tail)) == Some([b0, b1, b2] + tail)
  {
    var b := [b0, b1, b2] + tail;
    assert b[..3] == [b0, b1, b2] && b[3..] == tail;
    var q := EncodeQuantum(b0, b1, b2);
    var t := Encode(tail);
    var s := Encode(b);
    assert s == q + t;
    assert s[0] == q[0] && s[1] == q[1] && s[2] == q[2] && s[3] == q[3];
    assert s[4..] == t;
    QuantumRoundTrip(b0, b1, b2);
  }

  /** Four 6-bit groups packed into three bytes and cut into groups again. */
  lemma RegroupFirst(a: int, b: int)
    requires 0 <= a < 64 && 0 <= b < 64
    ensures 0 <= a * 4 + b / 16 < 256 && (a * 4 + b / 16) / 4 == a
  {
    Join4(a, b / 16);
  }

  lemma RegroupSecond(a: int, b: int, c: int)
    requires 0 <= a < 64 && 0 <= b < 64 && 0 <= c < 64
    ensures 0 <= (b % 16) * 16 + c / 4 < 256
    ensures ((a * 4 + b / 16) % 4) * 16 + ((b % 16) * 16 + c / 4) / 16 == b
  {
    Join4(a, b / 16);
    Join16(b % 16, c / 4);
  }

  lemma RegroupThird(b: int, c: int, d: int)
    requires 0 <= b < 64 && 0 <= c < 64 && 0 <= d < 64
    ensures 0 <= (c % 4) * 64 + d < 256
    ensures (((b % 16) * 16 + c / 4) % 16) * 4 + ((c % 4) * 64 + d) / 64 == c
    ensures ((c % 4) * 64 + d) % 64 == d
  {
    Join16(b % 16, c / 4);
    Join64(c % 4, d);
  }

  lemma EncodeRegrouped(a: int, b: int, c: int, d: int)
    requires 0 <= a < 64 && 0 <= b < 64 && 0 <= c < 64 && 0 <= d < 64
    ensures 0 <= a * 4 + b / 16 < 256 && 0 <= (b % 16) * 16 + c / 4 < 256 && 0 <= (c % 4) * 64 + d < 256
    ensures EncodeQuantum(a * 4 + b / 16, (b % 16) * 16 + c / 4, (c % 4) * 64 + d) ==
      [Symbol(a), Symbol(b), Symbol(c), Symbol(d)]
  {
    RegroupFirst(a, b);
    RegroupSecond(a, b, c);
    RegroupThird(b, c, d);
  }

  lemma QuantumCanonical(c0: char, c1: char, c2: char, c3: char)
    requires DecodeQuantum(c0, c1, c2, c3).Some?
    ensures var g := DecodeQuantum(c0, c1, c2, c3).value; EncodeQuantum(g[0], g[1], g[2]) == [c0, c1, c2, c3]
  {
    var a, b, c, d := Value(c0).value, Value(c1).value, Value(c2).value, Value(c3).value;
    var g := DecodeQuantum(c0, c1, c2, c3).value;
    assert g == [a * 4 + b / 16, (b % 16) * 16 + c / 4, (c % 4) * 64 + d];
    EncodeRegrouped(a, b, c, d);
  }

  lemma FinalCanonical(c0: char, c1: char, c2: char, c3: char)
    requires DecodeFinal(c0, c1, c2, c3).Some?
    ensures Encode(DecodeFinal(c0, c1, c2, c3).value) == [c0, c1, c2, c3]
  {
    if c2 == '=' && c3 == '=' {
      PaddedOneCanonical(c0, c1, c2, c3);
    } else if c3 == '=' {
      PaddedTwoCanonical(c0, c1, c2, c3);
    } else {
      UnpaddedCanonical(c0, c1, c2, c3);
    }
  }

  lemma PaddedOneCanonical(c0: char, c1: char, c2: char, c3: char)
    requires c2 == '=' && c3 == '=' && DecodeFinal(c0, c1, c2, c3).Some?
    ensures Encode(DecodeFinal(c0, c1, c2, c3).value) == [c0, c1, c2, c3]
  {
    FinalOneCanonical(Value(c0).value, Value(c1).value);
  }

  lemma PaddedTwoCanonical(c0: char, c1: char, c2: char, c3: char)
    requires c2 != '=' && c3 == '=' && DecodeFinal(c0, c1, c2, c3).Some?
    ensures Encode(DecodeFinal(c0, c1, c2, c3).value) == [c0, c1, c2, c3]
  {
    FinalTwoCanonical(Value(c0).value, Value(c1).value, Value(c2).value);
  }

  lemma UnpaddedCanonical(c0: char, c1: char, c2: char, c3: char)
    requires DecodeQuantum(c0, c1, c2, c3).Some?
    ensures Encode(DecodeQuantum(c0, c1, c2, c3).value) == [c0, c1, c2, c3]
  {
    var g := DecodeQuantum(c0, c1, c2, c3).value;
    QuantumCanonical(c0, c1, c2, c3);
    assert Encode(g) == EncodeQuantum(g[0], g[1], g[2]) + Encode(g[3..]);
  }

  lemma FinalOneCanonical(a: int, b: int)
    requires 0 <= a < 64 && 0 <= b < 64 && b % 16 == 0
    ensures 0 <= a * 4 + b / 16 < 256
    ensures Encode([a * 4 + b / 16]) == [Symbol(a), Symbol(b), '=', '=']
  {
    Join4(a, b / 16);
  }

  lemma FinalTwoCanonical(a: int, b: int, c: int)
    requires 0 <= a < 64 && 0 <= b < 64 && 0 <= c < 64 && c % 4 == 0
    ensures 0 <= a * 4 + b / 16 < 256 && 0 <= (b % 16) * 16 + c / 4 < 256
    ensures Encode([a * 4 + b / 16, (b % 16) * 16 + c / 4]) == [Symbol(a), Symbol(b), Symbol(c), '=']
  {
    RegroupFirst(a, b);
    RegroupSecond(a, b, c);
    Join16(b % 16, c / 4);
  }

  lemma DecodeNonEmpty(s: string)
    requires Decode(s).Some? && s != []
    ensures Decode(s).value != []
  {
  }

  /** Every text the decoder accepts is the encoding of what it returns. */
  lemma {:induction false} EncodeDecode(s: string)
    requires Decode(s).Some?
    ensures Encode(Decode(s).value) == s
    decreases |s|
  {
    if |s| == 4 {
      FinalCanonical(s[0], s[1], s[2], s[3]);
      assert s == [s[0], s[1], s[2], s[3]];
    } else if |s| > 4 {
      var t := s[4..];
      assert s == [s[0], s[1], s[2], s[3]] + t;
      EncodeDecode(t);
      EncodeDecodeStep(s[0], s[1], s[2], s[3], t);
    }
  }

  lemma EncodeDecodeStep(c0: char, c1: char, c2: char, c3: char, t: string)
    requires |t| >= 4 && Decode([c0, c1, c2, c3] + t).Some? && Encode(Decode(t).value) == t
    ensures Encode(Decode([c0, c1, c2, c3] + t).value) == [c0, c1, c2, c3] + t
  {
    var s := [c0, c1, c2, c3] + t;
    assert s[0] == c0 && s[1] == c1 && s[2] == c2 && s[3] == c3 && s[4..] == t;
    var g := DecodeQuantum(c0, c1, c2, c3).value;
    var rest := Decode(t).value;
    assert Decode(s) == Some(g + rest);
    DecodeNonEmpty(t);
    QuantumCanonical(c0, c1, c2, c3);
    EncodeQuantumThen(g, rest);
  }

  lemma EncodeQuantumThen(g: seq<byte>, rest: seq<byte>)
    requires |g| == 3 && rest != []
    ensures Encode(g + rest) == EncodeQuantum(g[0], g[1], g[2]) + Encode(rest)
  {
    var b := g + rest;
    assert b[0] == g[0] && b[1] == g[1] && b[2] == g[2] && b[3..] == rest;
  }

  /** Encoding is injective, so distinct IVs give distinct stored texts. */
  lemma EncodeInjective(a: seq<byte>, b: seq<byte>)
    requires Encode(a) == Encode(b)
    ensures a == b
  {
    DecodeEncode(a);
    DecodeEncode(b);
  }
}
