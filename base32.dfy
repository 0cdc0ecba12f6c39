/**
  The standard base32 encoding of section 6 of RFC 4648, as Go's `base32.StdEncoding`
  applies it: the alphabet A-Z then 2-7, input taken 5 bytes (40 bits) at a time, each
  quantum written as 8 characters, a short final quantum padded with '='.

  Bytes are turned into a string of bits (most significant first), the bits are cut into
  groups of five, and each group names one character; decoding runs the same steps
  backwards, 8 characters at a time. Go's decoder drops '\r' and '\n' first; like Go's
  non-strict decoder, it ignores the unused low bits of a padded final quantum.
*/
module Base32 {
  import opened Bytes
  import opened Wrappers

  predicate IsAlphabet(c: char)
  {
    'A' <= c <= 'Z' || '2' <= c <= '7'
  }

  const Pad: char := '='

  /** The character for a 5-bit value. */
  function EncodeChar(v: nat): (c: char)
    requires v < 32
    ensures IsAlphabet(c)
  {
    if v < 26 then (v + 'A' as int) as char else (v - 26 + '2' as int) as char
  }

  /** The 5-bit value of an alphabet character. */
  function CharValue(c: char): (v: nat)
    requires IsAlphabet(c)
    ensures v < 32 && EncodeChar(v) == c
  {
    if 'A' <= c <= 'Z' then c as int - 'A' as int else c as int - '2' as int + 26
  }

  // ---- bits ----

  /** The four bits of a value below 16, most significant first. */
  function Bits4(v: nat): (bits: seq<bool>)
    requires v < 16
    ensures |bits| == 4
  {
    [v >= 8, v % 8 >= 4, v % 4 >= 2, v % 2 == 1]
  }

  function FromBits4(bits: seq<bool>): (v: nat)
    requires |bits| == 4
    ensures v < 16
  {
    (if bits[0] then 8 else 0) + (if bits[1] then 4 else 0) + (if bits[2] then 2 else 0) + (if bits[3] then 1 else 0)
  }

  lemma Bits4RoundTrip(v: nat)
    requires v < 16
    ensures FromBits4(Bits4(v)) == v
  {
  }

  lemma FromBits4RoundTrip(bits: seq<bool>)
    requires |bits| == 4
    ensures Bits4(FromBits4(bits)) == bits
  {
  }

  /** The eight bits of a byte, most significant first: its high half, then its low half. */
  function Bits8(b: byte): (bits: seq<bool>)
    ensures |bits| == 8
  {
    Bits4(b as int / 16) + Bits4(b as int % 16)
  }

  function FromBits8(bits: seq<bool>): byte
    requires |bits| == 8
  {
    (FromBits4(bits[..4]) * 16 + FromBits4(bits[4..])) as byte
  }

  lemma Bits8RoundTrip(b: byte)
    ensures FromBits8(Bits8(b)) == b
  {
    var bits := Bits8(b);
    assert bits[..4] == Bits4(b as int / 16) && bits[4..] == Bits4(b as int % 16);
    Bits4RoundTrip(b as int / 16);
    Bits4RoundTrip(b as int % 16);
  }

  lemma FromBits8RoundTrip(bits: seq<bool>)
    requires |bits| == 8
    ensures Bits8(FromBits8(bits)) == bits
  {
    var hi, lo := FromBits4(bits[..4]), FromBits4(bits[4..]);
    var b := FromBits8(bits);
    assert b as int / 16 == hi && b as int % 16 == lo;
    FromBits4RoundTrip(bits[..4]);
    FromBits4RoundTrip(bits[4..]);
    assert bits == bits[..4] + bits[4..];
  }

  /** The five bits of a value below 32, most significant first: the 16s bit, then the rest. */
  function Bits5(v: nat): (bits: seq<bool>)
    requires v < 32
    ensures |bits| == 5
  {
    [v >= 16] + Bits4(v % 16)
  }

  function FromBits5(bits: seq<bool>): (v: nat)
    requires |bits| == 5
    ensures v < 32
  {
    (if bits[0] then 16 else 0) + FromBits4(bits[1..])
  }

  lemma Bits5RoundTrip(v: nat)
    requires v < 32
    ensures FromBits5(Bits5(v)) == v
  {
    assert Bits5(v)[1..] == Bits4(v % 16);
    Bits4RoundTrip(v % 16);
  }

  lemma FromBits5RoundTrip(bits: seq<bool>)
    requires |bits| == 5
    ensures Bits5(FromBits5(bits)) == bits
  {
    var v := FromBits5(bits);
    assert v % 16 == FromBits4(bits[1..]);
    FromBits4RoundTrip(bits[1..]);
    assert bits == [bits[0]] + bits[1..];
  }

  function BytesBits(bs: seq<byte>): (bits: seq<bool>)
    ensures |bits| == 8 * |bs|
  {
    if bs == [] then [] else Bits8(bs[0]) + BytesBits(bs[1..])
  }

  /** Whole bytes from a bit string; fewer than 8 trailing bits are dropped. */
  function BitsToBytes(bits: seq<bool>): (bs: seq<byte>)
    ensures |bs| == |bits| / 8
  {
    if |bits| < 8 then [] else [FromBits8(bits[..8])] + BitsToBytes(bits[8..])
  }

  function BitsToChars(bits: seq<bool>): (cs: string)
    requires |bits| % 5 == 0
    ensures |cs| == |bits| / 5
    ensures forall i :: 0 <= i < |cs| ==> IsAlphabet(cs[i])
  {
    if bits == [] then [] else [EncodeChar(FromBits5(bits[..5]))] + BitsToChars(bits[5..])
  }

  function CharsToBits(cs: string): (bits: seq<bool>)
    requires forall i :: 0 <= i < |cs| ==> IsAlphabet(cs[i])
    ensures |bits| == 5 * |cs|
  {
    if cs == [] then [] else Bits5(CharValue(cs[0])) + CharsToBits(cs[1..])
  }

  lemma {:induction false} BytesBitsRoundTrip(bs: seq<byte>, tail: seq<bool>)
    requires |tail| < 8
    ensures BitsToBytes(BytesBits(bs) + tail) == bs
  {
    if bs != [] {
      var all := BytesBits(bs) + tail;
      assert all[..8] == Bits8(bs[0]);
      assert all[8..] == BytesBits(bs[1..]) + tail;
      Bits8RoundTrip(bs[0]);
      BytesBitsRoundTrip(bs[1..], tail);
    }
  }

  lemma {:induction false} BitsToBytesRoundTrip(bits: seq<bool>)
    requires |bits| % 8 == 0
    ensures BytesBits(BitsToBytes(bits)) == bits
  {
    if |bits| >= 8 {
      var bs := BitsToBytes(bits);
      assert bs[1..] == BitsToBytes(bits[8..]);
      FromBits8RoundTrip(bits[..8]);
      BitsToBytesRoundTrip(bits[8..]);
      assert bits == bits[..8] + bits[8..];
    }
  }

  lemma {:induction false} BitsToCharsRoundTrip(bits: seq<bool>)
    requires |bits| % 5 == 0
    ensures CharsToBits(BitsToChars(bits)) == bits
  {
    if bits != [] {
      var cs := BitsToChars(bits);
      assert cs[1..] == BitsToChars(bits[5..]);
      FromBits5RoundTrip(bits[..5]);
      BitsToCharsRoundTrip(bits[5..]);
      assert bits == bits[..5] + bits[5..];
    }
  }

  lemma {:induction false} CharsToBitsRoundTrip(cs: string)
    requires forall i :: 0 <= i < |cs| ==> IsAlphabet(cs[i])
    ensures BitsToChars(CharsToBits(cs)) == cs
  {
    if cs != [] {
      var bits := CharsToBits(cs);
      assert bits[..5] == Bits5(CharValue(cs[0]));
      assert bits[5..] == CharsToBits(cs[1..]);
      Bits5RoundTrip(CharValue(cs[0]));
      CharsToBitsRoundTrip(cs[1..]);
    }
  }

  // ---- quanta ----

  /** The number of data characters that carry k bytes (1 to 5): 2, 4, 5, 7 or 8. */
  function DataChars(k: nat): nat
  {
    (8 * k + 4) / 5
  }

  /** The data characters of a quantum: the bytes' bits, zero-filled to a multiple of five. */
  function QuantumChars(chunk: seq<byte>): (cs: string)
    requires 1 <= |chunk| <= 5
    ensures |cs| == DataChars(|chunk|)
    ensures forall i :: 0 <= i < |cs| ==> IsAlphabet(cs[i])
  {
    DataCharsOf(|chunk|);
    BitsToChars(BytesBits(chunk) + seq(5 * DataChars(|chunk|) - 8 * |chunk|, _ => false))
  }

  /** One quantum: up to 5 bytes as 8 characters, '=' after the data characters. */
  function EncodeQuantum(chunk: seq<byte>): (q: string)
    requires 1 <= |chunk| <= 5
    ensures |q| == 8
    ensures forall i :: 0 <= i < 8 ==> IsAlphabet(q[i]) || q[i] == Pad
  {
    DataCharsOf(|chunk|);
    QuantumChars(chunk) + seq(8 - DataChars(|chunk|), _ => Pad)
  }

  /** The number of alphabet characters at the front of `s`. */
  function LeadingData(s: string): (n: nat)
    ensures n <= |s|
    ensures forall i :: 0 <= i < n ==> IsAlphabet(s[i])
    ensures n < |s| ==> !IsAlphabet(s[n])
  {
    if s == [] || !IsAlphabet(s[0]) then 0 else 1 + LeadingData(s[1..])
  }

  /**
    One quantum of 8 characters back to bytes. Padding is accepted only in the final
    quantum, after 2, 4, 5 or 7 data characters (a '=' after 0, 1, 3 or 6 data characters,
    or in front of more data, is corrupt input, as it is for Go).
  */
  function DecodeQuantum(q: string, final: bool): (r: Option<seq<byte>>)
    requires |q| == 8
  {
    var n := LeadingData(q);
    if n == 8 then Some(BitsToBytes(CharsToBits(q)))
    else if final && n in {2, 4, 5, 7} && forall i :: n <= i < 8 ==> q[i] == Pad then
      Some(BitsToBytes(CharsToBits(q[..n])))
    else None
  }

  /**
    The outcome of `DecodeString`: the bytes, or on corrupt input the bytes of the
    complete quanta before the bad one (Go returns that prefix beside its error).
  */
  datatype Decoding = Decoded(bytes: seq<byte>) | Corrupt(prefix: seq<byte>)
  {
    function Bytes(): seq<byte>
    {
      match this
      case Decoded(b) => b
      case Corrupt(p) => p
    }
  }

  function DecodeQuanta(s: string): Decoding
    decreases |s|
  {
    if s == [] then Decoded([])
    else if |s| < 8 then Corrupt([])
    else match DecodeQuantum(s[..8], |s| == 8)
      case None => Corrupt([])
      case Some(b) =>
        match DecodeQuanta(s[8..])
        case Decoded(rest) => Decoded(b + rest)
        case Corrupt(p) => Corrupt(b + p)
  }

  predicate IsNewline(c: char)
  {
    c == '\r' || c == '\n'
  }

  function StripNewlines(s: string): (t: string)
    ensures |t| <= |s|
  {
    if s == [] then []
    else if IsNewline(s[0]) then StripNewlines(s[1..])
    else [s[0]] + StripNewlines(s[1..])
  }

  lemma {:induction false} StripWithoutNewlines(s: string)
    requires forall i :: 0 <= i < |s| ==> !IsNewline(s[i])
    ensures StripNewlines(s) == s
  {
    if s != [] {
      StripWithoutNewlines(s[1..]);
    }
  }

  /** `base32.StdEncoding.EncodeToString`. */
  function Encode(bs: seq<byte>): (s: string)
    ensures |s| % 8 == 0
    ensures forall i :: 0 <= i < |s| ==> IsAlphabet(s[i]) || s[i] == Pad
    decreases |bs|
  {
    if bs == [] then []
    else if |bs| <= 5 then EncodeQuantum(bs)
    else EncodeQuantum(bs[..5]) + Encode(bs[5..])
  }

  /** `base32.StdEncoding.DecodeString`. */
  function Decode(s: string): Decoding
  {
    DecodeQuanta(StripNewlines(s))
  }

  /** Decoding a quantum that EncodeQuantum wrote gives back its bytes. */
  lemma QuantumRoundTrip(chunk: seq<byte>, final: bool)
    requires 1 <= |chunk| <= 5
    requires |chunk| < 5 ==> final
    ensures DecodeQuantum(EncodeQuantum(chunk), final) == Some(chunk)
  {
    var n := DataChars(|chunk|);
    DataCharsOf(|chunk|);
    var data := QuantumChars(chunk);
    var q := EncodeQuantum(chunk);
    PaddedLeadingData(data, n);
    QuantumCharsRoundTrip(chunk);
    if n == 8 {
      assert q == data;
    } else {
      assert q[..n] == data;
      assert forall i :: n <= i < 8 ==> q[i] == Pad;
      assert n in {2, 4, 5, 7};
    }
  }

  /** The data characters of a quantum give back its bytes. */
  lemma QuantumCharsRoundTrip(chunk: seq<byte>)
    requires 1 <= |chunk| <= 5
    ensures BitsToBytes(CharsToBits(QuantumChars(chunk))) == chunk
  {
    DataCharsOf(|chunk|);
    var zeros := seq(5 * DataChars(|chunk|) - 8 * |chunk|, _ => false);
    BitsToCharsRoundTrip(BytesBits(chunk) + zeros);
    BytesBitsRoundTrip(chunk, zeros);
  }

  /** 1 to 5 bytes take 2, 4, 5, 7 or 8 characters, leaving fewer than 5 unused bits. */
  lemma DataCharsOf(k: nat)
    requires 1 <= k <= 5
    ensures DataChars(k) == if k == 1 then 2 else if k == 2 then 4 else if k == 3 then 5 else if k == 4 then 7 else 8
    ensures 0 <= 5 * DataChars(k) - 8 * k < 5
  {
  }

  /** Data characters followed by padding up to 8: the data is the leading run. */
  lemma PaddedLeadingData(data: string, n: nat)
    requires |data| == n <= 8
    requires forall i :: 0 <= i < n ==> IsAlphabet(data[i])
    ensures LeadingData(data + seq(8 - n, _ => Pad)) == n
  {
    var q := data + seq(8 - n, _ => Pad);
    assert forall i :: 0 <= i < n ==> IsAlphabet(q[i]);
    assert n < 8 ==> q[n] == Pad;
  }

  /** Section 6 of RFC 4648: decoding an encoding gives back the bytes. */
  lemma {:induction false} DecodeEncode(bs: seq<byte>)
    ensures Decode(Encode(bs)) == Decoded(bs)
  {
    StripWithoutNewlines(Encode(bs));
    EncodedQuantaDecode(bs);
  }

  lemma {:induction false} EncodedQuantaDecode(bs: seq<byte>)
    ensures DecodeQuanta(Encode(bs)) == Decoded(bs)
    decreases |bs|
  {
    if bs == [] {
    } else if |bs| <= 5 {
      var s := Encode(bs);
      assert s[..8] == s;
      QuantumRoundTrip(bs, true);
      assert s[8..] == [];
    } else {
      var s := Encode(bs);
      EncodeSplit(bs);
      QuantumRoundTrip(bs[..5], false);
      EncodedQuantaDecode(bs[5..]);
      assert DecodeQuanta(s) == Decoded(bs[..5] + bs[5..]);
      assert bs == bs[..5] + bs[5..];
    }
  }

  /** More than five bytes encode as the first quantum followed by the encoding of the rest. */
  lemma EncodeSplit(bs: seq<byte>)
    requires |bs| > 5
    ensures |Encode(bs)| > 8
    ensures Encode(bs)[..8] == EncodeQuantum(bs[..5])
    ensures Encode(bs)[8..] == Encode(bs[5..])
  {
    assert |Encode(bs[5..])| > 0;
  }

  /**
    A string made of whole quanta without padding decodes, and encoding the bytes
    gives back the very same string.
  */
  lemma {:induction false} EncodeDecodeUnpadded(s: string)
    requires |s| % 8 == 0
    requires forall i :: 0 <= i < |s| ==> IsAlphabet(s[i])
    ensures Decode(s).Decoded? && Encode(Decode(s).bytes) == s
    decreases |s|
  {
    assert forall i :: 0 <= i < |s| ==> !IsNewline(s[i]);
    StripWithoutNewlines(s);
    UnpaddedQuanta(s);
  }

  lemma {:induction false} UnpaddedQuanta(s: string)
    requires |s| % 8 == 0
    requires forall i :: 0 <= i < |s| ==> IsAlphabet(s[i])
    ensures DecodeQuanta(s).Decoded? && Encode(DecodeQuanta(s).bytes) == s
    ensures |DecodeQuanta(s).bytes| == |s| / 8 * 5
    decreases |s|
  {
    if s != [] {
      var q := s[..8];
      UnpaddedQuantum(q, |s| == 8);
      var chunk := BitsToBytes(CharsToBits(q));
      UnpaddedQuanta(s[8..]);
      var rest := DecodeQuanta(s[8..]).bytes;
      assert DecodeQuanta(s) == Decoded(chunk + rest);
      var all := chunk + rest;
      assert all[..5] == chunk && all[5..] == rest;
      if |s| == 8 {
        assert rest == [] && all == chunk && s == q;
      } else {
        assert s == q + s[8..];
      }
    }
  }

  /** Eight data characters decode to five bytes, whose encoding is those characters again. */
  lemma UnpaddedQuantum(q: string, final: bool)
    requires |q| == 8
    requires forall i :: 0 <= i < 8 ==> IsAlphabet(q[i])
    ensures DecodeQuantum(q, final) == Some(BitsToBytes(CharsToBits(q)))
    ensures |BitsToBytes(CharsToBits(q))| == 5
    ensures EncodeQuantum(BitsToBytes(CharsToBits(q))) == q
  {
    assert LeadingData(q) == 8;
    var chunk := BitsToBytes(CharsToBits(q));
    BitsToBytesRoundTrip(CharsToBits(q));
    CharsToBitsRoundTrip(q);
    assert BytesBits(chunk) + seq(0, _ => false) == CharsToBits(q);
    assert QuantumChars(chunk) == q;
    assert seq(0, _ => Pad) == [];
  }
}
