/** Base64 (RFC 4648, section 4; unpadded as in section 3.2) the way Go's StdEncoding and RawStdEncoding
    print and read it: the reader skips carriage returns and line feeds and ignores spare bits. */
module Base64 {
  import opened Types

  function Symbol(v: nat): char
    requires v < 64
  {
    if v < 26 then 'A' + v as char
    else if v < 52 then 'a' + (v - 26) as char
    else if v < 62 then '0' + (v - 52) as char
    else if v == 62 then '+' else '/'
  }

  predicate IsSymbol(c: char) {
    'A' <= c <= 'Z' || 'a' <= c <= 'z' || '0' <= c <= '9' || c == '+' || c == '/'
  }

  function SymbolValue(c: char): (v: nat)
    requires IsSymbol(c)
    ensures v < 64
  {
    if 'A' <= c <= 'Z' then c as nat - 'A' as nat
    else if 'a' <= c <= 'z' then c as nat - 'a' as nat + 26
    else if '0' <= c <= '9' then c as nat - '0' as nat + 52
    else if c == '+' then 62 else 63
  }

  lemma SymbolRoundTrip(v: nat)
    requires v < 64
    ensures IsSymbol(Symbol(v)) && SymbolValue(Symbol(v)) == v
  {
  }

  /** Table 1 of RFC 4648, in four rows. */
  function Alphabet(row: nat): string
    requires row < 4
  {
    if row == 0 then "ABCDEFGHIJKLMNOP"
    else if row == 1 then "QRSTUVWXYZabcdef"
    else if row == 2 then "ghijklmnopqrstuv"
    else "wxyz0123456789+/"
  }

  lemma SymbolListed(v: nat)
    requires v < 64
    ensures |Alphabet(v / 16)| == 16 && Symbol(v) == Alphabet(v / 16)[v % 16]
  {
  }

  /** Four six-bit values as symbols. */
  function Symbols(w: nat, x: nat, y: nat, z: nat): (q: string)
    requires w < 64 && x < 64 && y < 64 && z < 64
    ensures |q| == 4
  {
    [Symbol(w), Symbol(x), Symbol(y), Symbol(z)]
  }

  function Bits(a: byte, b: byte, c: byte): (n: nat)
    ensures n < 0x100_0000
  {
    a as nat * 65536 + b as nat * 256 + c as nat
  }

  /** Three bytes as four symbols; missing bytes count as zero. */
  function Quantum(a: byte, b: byte, c: byte): (q: string)
    ensures |q| == 4
  {
    var n := Bits(a, b, c);
    Symbols(n / 262144, n / 4096 % 64, n / 64 % 64, n % 64)
  }

  function Encode(data: Bytes, padded: bool): string {
    if |data| == 0 then ""
    else if |data| == 1 then Quantum(data[0], 0, 0)[..2] + if padded then "==" else ""
    else if |data| == 2 then Quantum(data[0], data[1], 0)[..3] + if padded then "=" else ""
    else Quantum(data[0], data[1], data[2]) + Encode(data[3..], padded)
  }

  predicate AllSymbols(s: string) {
    forall i :: 0 <= i < |s| ==> IsSymbol(s[i])
  }

  function BytesOf(n: nat): (r: Bytes)
    requires n < 0x100_0000
    ensures |r| == 3
  {
    [(n / 65536) as byte, (n / 256 % 256) as byte, (n % 256) as byte]
  }

  /** The bytes of four symbols. */
  function Unpack(s: string): (r: Bytes)
    requires |s| == 4 && AllSymbols(s)
    ensures |r| == 3
  {
    BytesOf(SymbolValue(s[0]) * 262144 + SymbolValue(s[1]) * 4096 + SymbolValue(s[2]) * 64 + SymbolValue(s[3]))
  }

  /** Line breaks are invisible to the decoder. */
  function DropBreaks(s: string): string {
    if |s| == 0 then ""
    else (if s[0] == '\r' || s[0] == '\n' then "" else [s[0]]) + DropBreaks(s[1..])
  }

  function DecodeQuanta(s: string, padded: bool): Option<Bytes> {
    if |s| == 0 then Some([])
    else if |s| >= 4 && AllSymbols(s[..4]) then
      match DecodeQuanta(s[4..], padded)
      case None => None
      case Some(rest) => Some(Unpack(s[..4]) + rest)
    else if padded then
      if |s| == 4 && AllSymbols(s[..2]) && s[2..] == "==" then Some(Unpack(s[..2] + "AA")[..1])
      else if |s| == 4 && AllSymbols(s[..3]) && s[3..] == "=" then Some(Unpack(s[..3] + "A")[..2])
      else None
    else if |s| == 2 && AllSymbols(s) then Some(Unpack(s + "AA")[..1])
    else if |s| == 3 && AllSymbols(s) then Some(Unpack(s + "A")[..2])
    else None
  }

  function Decode(s: string, padded: bool): Option<Bytes> {
    DecodeQuanta(DropBreaks(s), padded)
  }

  lemma UnpackSymbols(w: nat, x: nat, y: nat, z: nat)
    requires w < 64 && x < 64 && y < 64 && z < 64
    ensures AllSymbols(Symbols(w, x, y, z))
    ensures Unpack(Symbols(w, x, y, z)) == BytesOf(w * 262144 + x * 4096 + y * 64 + z)
  {
    SymbolRoundTrip(w);
    SymbolRoundTrip(x);
    SymbolRoundTrip(y);
    SymbolRoundTrip(z);
  }

  lemma Sextets(n: nat)
    requires n < 0x100_0000
    ensures n == n / 262144 * 262144 + n / 4096 % 64 * 4096 + n / 64 % 64 * 64 + n % 64
  {
    var a := n / 64;
    var b := a / 64;
    assert n == a * 64 + n % 64;
    assert a == b * 64 + a % 64;
    assert b == n / 4096;
    assert b == b / 64 * 64 + b % 64;
    assert b / 64 == n / 262144;
  }

  lemma BytesOfBits(a: byte, b: byte, c: byte)
    ensures BytesOf(Bits(a, b, c)) == [a, b, c]
  {
    var n := Bits(a, b, c);
    assert n / 65536 == a as nat;
    assert n / 256 == a as nat * 256 + b as nat;
    assert n / 256 % 256 == b as nat;
    assert n % 256 == c as nat;
  }

  lemma UnpackQuantum(a: byte, b: byte, c: byte)
    ensures AllSymbols(Quantum(a, b, c)) && Unpack(Quantum(a, b, c)) == [a, b, c]
  {
    var n := Bits(a, b, c);
    UnpackSymbols(n / 262144, n / 4096 % 64, n / 64 % 64, n % 64);
    Sextets(n);
    BytesOfBits(a, b, c);
  }

  /** With the last bytes zero the dropped symbols are all A. */
  lemma ShortQuantum(a: byte, b: byte)
    ensures Quantum(a, b, 0)[3] == 'A'
    ensures b == 0 ==> Quantum(a, b, 0)[2] == 'A'
  {
    var n := Bits(a, b, 0);
    assert n % 64 == 0;
    assert b == 0 ==> n / 64 % 64 == 0;
    assert Symbol(0) == 'A';
  }

  /** The last quantum, of one byte. */
  lemma OneByte(a: byte, padded: bool)
    ensures DecodeQuanta(Encode([a], padded), padded) == Some([a])
    ensures DecodeQuanta(Encode([a], false), true) == None
  {
    var q := Quantum(a, 0, 0);
    UnpackQuantum(a, 0, 0);
    ShortQuantum(a, 0);
    assert q[..2] + "AA" == q;
    var s := Encode([a], padded);
    assert s[..2] == q[..2];
    if padded {
      assert s[2..] == "==" && s[..4][2] == '=';
    } else {
      assert s == q[..2] && AllSymbols(s) && s + "AA" == q;
      assert DecodeQuanta(s, false) == Some(Unpack(q)[..1]);
      assert [a, 0, 0][..1] == [a];
    }
  }

  /** The last quantum, of two bytes. */
  lemma TwoBytes(a: byte, b: byte, padded: bool)
    ensures DecodeQuanta(Encode([a, b], padded), padded) == Some([a, b])
    ensures DecodeQuanta(Encode([a, b], false), true) == None
  {
    var q := Quantum(a, b, 0);
    UnpackQuantum(a, b, 0);
    ShortQuantum(a, b);
    assert q[..3] + "A" == q;
    var s := Encode([a, b], padded);
    assert s[..3] == q[..3];
    if padded {
      assert s[3..] == "=" && s[..4][3] == '=';
      assert IsSymbol(s[2..][0]);
    } else {
      assert s == q[..3] && AllSymbols(s) && s + "A" == q;
      assert DecodeQuanta(s, false) == Some(Unpack(q)[..2]);
      assert [a, b, 0][..2] == [a, b];
    }
  }

  lemma {:induction false} EncodePlain(data: Bytes, padded: bool)
    ensures forall i :: 0 <= i < |Encode(data, padded)| ==> IsSymbol(Encode(data, padded)[i]) || Encode(data, padded)[i] == '='
  {
    if |data| == 1 {
      UnpackQuantum(data[0], 0, 0);
    } else if |data| == 2 {
      UnpackQuantum(data[0], data[1], 0);
    } else if |data| > 2 {
      UnpackQuantum(data[0], data[1], data[2]);
      EncodePlain(data[3..], padded);
    }
  }

  lemma {:induction false} NoBreaks(s: string)
    requires '\r' !in s && '\n' !in s
    ensures DropBreaks(s) == s
  {
    if |s| > 0 {
      NoBreaks(s[1..]);
      assert [s[0]] + s[1..] == s;
    }
  }

  lemma {:induction false} DropAppend(s: string, t: string)
    ensures DropBreaks(s + t) == DropBreaks(s) + DropBreaks(t)
  {
    if |s| == 0 {
      assert s + t == t;
    } else {
      assert (s + t)[1..] == s[1..] + t;
      DropAppend(s[1..], t);
    }
  }

  /** A line break anywhere in the text makes no difference. */
  lemma BreaksIgnored(s: string, br: char, t: string, padded: bool)
    requires br == '\r' || br == '\n'
    ensures Decode(s + [br] + t, padded) == Decode(s + t, padded)
  {
    DropAppend(s + [br], t);
    DropAppend(s, [br]);
    DropAppend(s, t);
    assert DropBreaks([br]) == DropBreaks([br][1..]) == "";
    assert DropBreaks(s + [br] + t) == DropBreaks(s + t);
  }

  lemma {:induction false} QuantaRoundTrip(data: Bytes, padded: bool)
    ensures DecodeQuanta(Encode(data, padded), padded) == Some(data)
  {
    if |data| == 1 {
      OneByte(data[0], padded);
      assert data == [data[0]];
    } else if |data| == 2 {
      TwoBytes(data[0], data[1], padded);
      assert data == [data[0], data[1]];
    } else if |data| > 2 {
      QuantaRoundTrip(data[3..], padded);
      NextQuantum(data, padded, padded);
      assert data[..3] + data[3..] == data;
    }
  }

  /** Decoding undoes encoding, with and without padding. */
  lemma RoundTrip(data: Bytes, padded: bool)
    ensures Decode(Encode(data, padded), padded) == Some(data)
  {
    EncodePlain(data, padded);
    NoBreaks(Encode(data, padded));
    QuantaRoundTrip(data, padded);
  }

  /** When the padded decoder takes unpadded text at all, it reads it right. */
  lemma {:induction false} PaddedReadsRaw(data: Bytes)
    ensures var d := DecodeQuanta(Encode(data, false), true); d.None? || d == Some(data)
  {
    if |data| == 1 {
      OneByte(data[0], false);
      assert data == [data[0]];
    } else if |data| == 2 {
      TwoBytes(data[0], data[1], false);
      assert data == [data[0], data[1]];
    } else if |data| > 2 {
      PaddedReadsRaw(data[3..]);
      NextQuantum(data, false, true);
      assert data[..3] + data[3..] == data;
    }
  }

  /** A whole quantum is read back before the rest. */
  lemma NextQuantum(data: Bytes, padded: bool, reader: bool)
    requires |data| > 2
    ensures var rest := DecodeQuanta(Encode(data[3..], padded), reader);
      DecodeQuanta(Encode(data, padded), reader) == if rest.None? then None else Some(data[..3] + rest.value)
  {
    var s := Encode(data, padded);
    UnpackQuantum(data[0], data[1], data[2]);
    assert s[..4] == Quantum(data[0], data[1], data[2]) && s[4..] == Encode(data[3..], padded);
    assert [data[0], data[1], data[2]] == data[..3];
  }
}
