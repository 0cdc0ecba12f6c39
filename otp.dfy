/**
  The common core of HOTP and TOTP keys: the error codes, the defaults, the shared key
  record (`otpKey`), its construction, its base32 secret, its `otpauth://` URL, and the
  dynamic truncation of section 5.3 of RFC 4226 that turns a counter into a code.

  HMAC is a parameter `mac`: a function from (hash, key, message) to a digest of that hash's
  length. Random bytes are a parameter too.
*/
module Otp {
  import opened Wrappers
  import opened Bytes
  import opened Strings
  import opened Strconv
  import opened NetUrl
  import Base32

  const TypeTotp: string := "totp"
  const TypeHotp: string := "hotp"

  const DefaultDigits: int64 := 6
  const DefaultKeyLength: int64 := 10
  const DefaultAlgorithm: string := "sha1"

  /** The EC* codes; `Error.Desc` and `Error.Err` carry no behaviour and are left out. */
  datatype ErrorCode =
    | MissingLabel
    | InvalidAlgorithm
    | CantReadRandom
    | NotEnoughRandom
    | UrlParseError
    | WrongScheme
    | InvalidOtpType
    | Base32Decoding
    | InvalidDigits
    | MissingSecret
    | NotHotp
    | MissingCounter
    | InvalidCounter
    | NotTotp
    | InvalidPeriod

  /** A value, or the code of the `*Error` returned instead. */
  datatype Result<T> = Ok(value: T) | Err(error: ErrorCode)

  datatype HashAlg = Sha1 | Sha256 | Sha512

  /** Length in bytes of the digest of each hash. */
  function DigestSize(h: HashAlg): (n: nat)
    ensures n >= 20
  {
    match h
    case Sha1 => 20
    case Sha256 => 32
    case Sha512 => 64
  }

  /** HMAC over the chosen hash: any function whose digests have the hash's length. */
  type Mac = f: (HashAlg, seq<byte>, seq<byte>) -> seq<byte> | forall h, key, msg :: |f(h, key, msg)| == DigestSize(h)
    witness (h: HashAlg, key: seq<byte>, msg: seq<byte>) => seq(DigestSize(h), _ => 0)

  /** The spellings `newOtpKey` accepts: the lower-case form is "", sha1, sha256 or sha512. */
  predicate KnownAlgorithm(a: string)
  {
    Lower(a) in {"", "sha1", "sha256", "sha512"}
  }

  /** The hash an accepted spelling selects; "" means SHA-1. */
  function HashOf(a: string): (h: HashAlg)
    requires KnownAlgorithm(a)
    ensures h == Sha256 <==> Lower(a) == "sha256"
    ensures h == Sha512 <==> Lower(a) == "sha512"
    ensures h == Sha1 <==> Lower(a) in {"", "sha1"}
  {
    var l := Lower(a);
    if l == "sha256" then Sha256 else if l == "sha512" then Sha512 else Sha1
  }

  /** The fields of an `otpKey`, as a value. */
  datatype KeyValue = KeyValue(key: seq<byte>, keyLabel: string, issuer: string, algorithm: string, digits: int64)

  /** What reading from the random source gave: an error, or the bytes read. */
  datatype RandomRead = RandomError | RandomBytes(bytes: seq<byte>)

  /** The key length `newOtpKey` asks for. */
  function KeyLength(keyLen: int64): (n: nat)
    ensures n > 0
    ensures keyLen > 0 ==> n == keyLen
    ensures keyLen <= 0 ==> n == DefaultKeyLength
  {
    if keyLen > 0 then keyLen else DefaultKeyLength
  }

  /**
    `newOtpKey`: checks the label, then the algorithm, then the random read.
    Non-positive `digits` and `keyLen` take the defaults.
  */
  function NewOtpKey(keyLen: int64, keyLabel: string, issuer: string, algorithm: string, digits: int64,
                     random: RandomRead): (r: Result<KeyValue>)
    ensures keyLabel == "" ==> r == Err(MissingLabel)
    ensures keyLabel != "" && !KnownAlgorithm(algorithm) ==> r == Err(InvalidAlgorithm)
    ensures keyLabel != "" && KnownAlgorithm(algorithm) && random.RandomError? ==> r == Err(CantReadRandom)
    ensures keyLabel != "" && KnownAlgorithm(algorithm) && random.RandomBytes? && |random.bytes| != KeyLength(keyLen)
            ==> r == Err(NotEnoughRandom)
    ensures r.Ok? <==> keyLabel != "" && KnownAlgorithm(algorithm) && random.RandomBytes? && |random.bytes| == KeyLength(keyLen)
    ensures r.Ok? ==> r.value.key == random.bytes && r.value.keyLabel == keyLabel && r.value.issuer == issuer
                      && r.value.algorithm == algorithm
    ensures r.Ok? ==> |r.value.key| == KeyLength(keyLen)
    ensures r.Ok? ==> r.value.digits > 0 && (digits > 0 ==> r.value.digits == digits)
                      && (digits <= 0 ==> r.value.digits == DefaultDigits)
  {
    if keyLabel == "" then Err(MissingLabel)
    else
      var d := if digits > 0 then digits else DefaultDigits;
      var kl := KeyLength(keyLen);
      if !KnownAlgorithm(algorithm) then Err(InvalidAlgorithm)
      else match random
        case RandomError => Err(CantReadRandom)
        case RandomBytes(b) =>
          if |b| != kl then Err(NotEnoughRandom)
          else Ok(KeyValue(b, keyLabel, issuer, algorithm, d))
  }

  /** Spellings for which `url` writes the algorithm parameter. */
  predicate IncludesAlgorithm(a: string)
  {
    Lower(a) in {"sha256", "sha512"}
  }

  /** The parameter names `url` sets for this key. */
  function Written(k: KeyValue): (names: set<string>)
    ensures "secret" in names
    ensures "digits" in names <==> k.digits != DefaultDigits
    ensures "algorithm" in names <==> IncludesAlgorithm(k.algorithm)
    ensures "issuer" in names <==> k.issuer != ""
    ensures names <= {"secret", "digits", "algorithm", "issuer"}
  {
    {"secret"}
    + (if k.digits != DefaultDigits then {"digits"} else {})
    + (if IncludesAlgorithm(k.algorithm) then {"algorithm"} else {})
    + (if k.issuer != "" then {"issuer"} else {})
  }

  /** The parameter names `url` writes are four different names. */
  lemma NamesDistinct()
    ensures "secret" != "digits" && "secret" != "algorithm" && "secret" != "issuer"
    ensures "digits" != "algorithm" && "digits" != "issuer" && "algorithm" != "issuer"
  {
    assert "secret"[0] == 's' && "digits"[0] == 'd' && "algorithm"[0] == 'a' && "issuer"[0] == 'i';
  }

  /** The URL `url(otpType, params)` builds, as a parsed record. */
  function UrlOf(k: KeyValue, otpType: string, params: Values): (u: Url)
    requires otpType == TypeTotp || otpType == TypeHotp
    requires KnownAlgorithm(k.algorithm)
    ensures u.scheme == "otpauth" && u.host == otpType && u.path == "/" + k.keyLabel
    ensures "secret" in u.query && u.query["secret"] == [Base32.Encode(k.key)]
    ensures k.digits != DefaultDigits ==> "digits" in u.query && u.query["digits"] == [Itoa(k.digits)]
    ensures IncludesAlgorithm(k.algorithm) ==> "algorithm" in u.query && u.query["algorithm"] == [k.algorithm]
    ensures k.issuer != "" ==> "issuer" in u.query && u.query["issuer"] == [k.issuer]
    ensures forall n :: n in params && n !in Written(k) ==> n in u.query && u.query[n] == params[n]
  {
    NamesDistinct();
    var q1 := Set(params, "secret", Base32.Encode(k.key));
    var q2 := if k.digits != DefaultDigits then Set(q1, "digits", Itoa(k.digits)) else q1;
    var q3 := if IncludesAlgorithm(k.algorithm) then Set(q2, "algorithm", k.algorithm) else q2;
    var q4 := if k.issuer != "" then Set(q3, "issuer", k.issuer) else q3;
    Url("otpauth", otpType, "/" + k.keyLabel, q4)
  }

  /** The parameters of the URL `url` builds: the caller's names and the ones it writes. */
  lemma UrlOfKeys(k: KeyValue, otpType: string, params: Values)
    requires otpType == TypeTotp || otpType == TypeHotp
    requires KnownAlgorithm(k.algorithm)
    ensures UrlOf(k, otpType, params).query.Keys == params.Keys + Written(k)
  {
    var q := UrlOf(k, otpType, params).query;
    forall n | n in q
      ensures n in params || n in Written(k)
    {
    }
  }

  /** The 8-byte message for counter `i`: `uint64(i)`, big-endian. */
  function Message(i: int64): (m: seq<byte>)
    ensures |m| == 8
  {
    BigEndian(ToUint64(i), 8)
  }

  /** The offset the library reads: the low nibble of byte 19 (`& 0x0F` on a byte is `% 16`), whatever the digest length. */
  function Offset(digest: seq<byte>): (ofs: nat)
    requires |digest| >= 20
    ensures ofs <= 15 && ofs + 4 <= |digest|
  {
    (digest[19] % 0x10) as int
  }

  /** The offset of the reference code of RFC 6238: the low nibble of the last byte. */
  function LastByteOffset(digest: seq<byte>): (ofs: nat)
    requires |digest| >= 20
    ensures ofs <= 15 && ofs + 4 <= |digest|
  {
    (digest[|digest| - 1] % 0x10) as int
  }

  /** The four bytes at `ofs` with the top bit of the first cleared (`& 0x7F` on a byte is `% 128`). */
  function TruncateAt(digest: seq<byte>, ofs: nat): (c: seq<byte>)
    requires ofs + 4 <= |digest|
    ensures |c| == 4 && c[0] < 0x80
    ensures c[1..] == digest[ofs + 1..ofs + 4]
  {
    [digest[ofs] % 0x80] + digest[ofs + 1..ofs + 4]
  }

  /** Dynamic truncation as the library performs it. */
  function Truncate(digest: seq<byte>): (c: seq<byte>)
    requires |digest| >= 20
    ensures |c| == 4 && c[0] < 0x80
  {
    TruncateAt(digest, Offset(digest))
  }

  /** A number between m and 2m leaves m less as remainder. */
  lemma ModOnce(y: int, m: int)
    requires 0 < m <= y < 2 * m
    ensures y % m == y - m
  {
  }

  /** Clearing bit 31 of a 32-bit value whose top byte is `x` takes it modulo 2^31. */
  lemma ClearBit31(x: int, x7: int, rest: int)
    requires 0 <= x < 0x100 && 0 <= rest < 0x100_0000
    requires x7 == if x < 0x80 then x else x - 0x80
    ensures x7 * 0x100_0000 + rest == (x * 0x100_0000 + rest) % 0x8000_0000
  {
    if x >= 0x80 {
      ModOnce(x * 0x100_0000 + rest, 0x8000_0000);
    }
  }

  /** The truncated value is the 31 low bits of the four selected bytes read big-endian. */
  lemma TruncateIsLow31Bits(digest: seq<byte>, ofs: nat)
    requires ofs + 4 <= |digest|
    ensures Uint32(TruncateAt(digest, ofs)) == Uint32(digest[ofs..ofs + 4]) % 0x8000_0000
  {
    var c := TruncateAt(digest, ofs);
    var s := digest[ofs..ofs + 4];
    assert c[1..] == s[1..];
    if s[0] >= 0x80 {
      ModOnce(s[0] as int, 0x80);
    }
    var rest := (s[1] as int) * 0x1_0000 + (s[2] as int) * 0x100 + s[3] as int;
    ClearBit31(s[0] as int, c[0] as int, rest);
  }

  /** For a SHA-1 digest (20 bytes) byte 19 is the last byte: the library agrees with RFC 6238. */
  lemma OffsetIsRfcOffsetForSha1(digest: seq<byte>)
    requires |digest| == DigestSize(Sha1)
    ensures Truncate(digest) == TruncateAt(digest, LastByteOffset(digest))
  {
  }

  /** For a 32-byte digest the library and the reference code of RFC 6238 can pick different bytes. */
  lemma OffsetDiffersFromRfcForSha256()
    ensures exists digest: seq<byte> :: |digest| == DigestSize(Sha256)
              && Truncate(digest) != TruncateAt(digest, LastByteOffset(digest))
  {
    var digest: seq<byte> := seq(32, i requires 0 <= i < 32 => i as byte);
    assert digest[19] == 19 && digest[31] == 31;
    assert Offset(digest) == 3 && LastByteOffset(digest) == 15;
    assert Truncate(digest)[1] == digest[4] == 4;
    assert TruncateAt(digest, LastByteOffset(digest))[1] == digest[16] == 16;
  }

  /** The HMAC of `msg` under `key`, which has the hash's digest length. */
  function Digest(mac: Mac, h: HashAlg, key: seq<byte>, msg: seq<byte>): (d: seq<byte>)
    ensures |d| == DigestSize(h)
  {
    mac(h, key, msg)
  }

  /** `hashTruncateInt(i)` for a key value: HMAC of the counter message, truncated. */
  function HashTruncate(mac: Mac, k: KeyValue, i: int64): (c: seq<byte>)
    requires KnownAlgorithm(k.algorithm)
    ensures |c| == 4 && c[0] < 0x80
  {
    Truncate(Digest(mac, HashOf(k.algorithm), k.key, Message(i)))
  }

  /** 10 to the power n, the integer `int(math.Pow10(n))` is for n <= 18. */
  function Pow10(n: nat): (p: nat)
    ensures p >= 1
  {
    if n == 0 then 1 else 10 * Pow10(n - 1)
  }

  /** The code of counter `i`: the truncated value modulo 10^digits (`Hotp.Code`, `Totp.CodePeriod`). */
  function CodeAt(mac: Mac, k: KeyValue, i: int64): (code: nat)
    requires KnownAlgorithm(k.algorithm)
    requires 0 <= k.digits <= 18
    ensures code < Pow10(k.digits)
    ensures code < 0x8000_0000
  {
    var v := Uint32(HashTruncate(mac, k, i));
    ModBelow(v, Pow10(k.digits));
    v % Pow10(k.digits)
  }

  /** A remainder is never larger than the number divided. */
  lemma ModBelow(y: nat, m: nat)
    requires 0 < m
    ensures y % m <= y
  {
  }

  /** The code depends on the key, the hash, the digits and the counter, and on nothing else. */
  lemma CodeDependsOnlyOnHashInput(mac: Mac, k1: KeyValue, k2: KeyValue, i: int64)
    requires KnownAlgorithm(k1.algorithm) && KnownAlgorithm(k2.algorithm)
    requires 0 <= k1.digits <= 18
    requires k1.key == k2.key && k1.digits == k2.digits && HashOf(k1.algorithm) == HashOf(k2.algorithm)
    ensures CodeAt(mac, k1, i) == CodeAt(mac, k2, i)
  {
  }

  /** The copy and mask steps of `hashTruncateInt`, on a fresh 4-byte buffer. */
  method CopyTruncated(digest: seq<byte>) returns (c: seq<byte>)
    requires |digest| >= 20
    ensures c == Truncate(digest)
  {
    var ofs := Offset(digest);
    var out := new byte[4];
    var j := 0;
    while j < 4
      invariant 0 <= j <= 4
      invariant forall i :: 0 <= i < j ==> out[i] == digest[ofs + i]
    {
      out[j] := digest[ofs + j];
      j := j + 1;
    }
    out[0] := out[0] % 0x80;
    c := out[..];
    assert c[1..] == digest[ofs + 1..ofs + 4];
    assert c == TruncateAt(digest, ofs);
  }

  /** An `otpKey`: the common fields of HOTP and TOTP keys, updated in place. */
  class OtpKey {
    var Key: seq<byte>
    var Label: string
    var Issuer: string
    var Algorithm: string
    var Digits: int64

    constructor (v: KeyValue)
      ensures Value() == v
    {
      Key := v.key;
      Label := v.keyLabel;
      Issuer := v.issuer;
      Algorithm := v.algorithm;
      Digits := v.digits;
    }

    /** The current fields as a value. */
    function Value(): KeyValue
      reads this
    {
      KeyValue(Key, Label, Issuer, Algorithm, Digits)
    }

    /** `Key32`: the secret in base32, which decodes back to the secret. */
    function Key32(): (s: string)
      reads this
      ensures Base32.Decode(s) == Base32.Decoded(Key)
      ensures |s| % 8 == 0
    {
      Base32.DecodeEncode(Key);
      Base32.Encode(Key)
    }

    /**
      `SetKey32`: decodes `s` into the secret. The secret is overwritten even when decoding
      fails; it then holds the bytes of the quanta decoded before the error.
    */
    method SetKey32(s: string) returns (err: Option<ErrorCode>)
      modifies this
      ensures Key == Base32.Decode(s).Bytes()
      ensures err.None? <==> Base32.Decode(s).Decoded?
      ensures err.Some? ==> err.value == Base32Decoding
      ensures Label == old(Label) && Issuer == old(Issuer) && Algorithm == old(Algorithm) && Digits == old(Digits)
    {
      var d := Base32.Decode(s);
      Key := d.Bytes();
      if d.Corrupt? {
        return Some(Base32Decoding);
      }
      return None;
    }

    /**
      `url(otpType, params)`: sets secret, then digits, algorithm and issuer when they
      differ from their defaults, over the caller's parameters.
    */
    method Url(otpType: string, params: Values) returns (u: Url)
      requires otpType == TypeTotp || otpType == TypeHotp
      requires KnownAlgorithm(Algorithm)
      ensures u == UrlOf(Value(), otpType, params)
    {
      var q := Set(params, "secret", Key32());
      ghost var q1 := q;
      if Digits != DefaultDigits {
        q := Set(q, "digits", Itoa(Digits));
      }
      assert q == if Digits != DefaultDigits then Set(q1, "digits", Itoa(Digits)) else q1;
      ghost var q2 := q;
      var a := Lower(Algorithm);
      if a == "sha256" || a == "sha512" {
        q := Set(q, "algorithm", Algorithm);
      }
      assert q == if IncludesAlgorithm(Algorithm) then Set(q2, "algorithm", Algorithm) else q2;
      ghost var q3 := q;
      if Issuer != "" {
        q := Set(q, "issuer", Issuer);
      }
      assert q == if Issuer != "" then Set(q3, "issuer", Issuer) else q3;
      u := NetUrl.Url.Url("otpauth", otpType, "/" + Label, q);
    }

    /**
      `hashTruncateInt(i)`: writes the counter into an 8-byte buffer, takes its HMAC,
      copies four bytes from the offset and clears the top bit of the first.
    */
    method HashTruncateInt(mac: Mac, i: int64) returns (c: seq<byte>)
      requires KnownAlgorithm(Algorithm)
      ensures c == HashTruncate(mac, Value(), i)
      ensures |c| == 4 && Uint32(c) < 0x8000_0000
    {
      var h := HashOf(Algorithm);
      var b := new byte[8];
      PutUint64(b, ToUint64(i));
      var digest := Digest(mac, h, Key, b[..]);
      c := CopyTruncated(digest);
    }
  }
}
