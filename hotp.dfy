/**
  HOTP keys (section 5 of RFC 4226): a common key plus a counter the caller advances
  between codes.
*/
module Hotp {
  import opened Wrappers
  import opened Bytes
  import opened Strings
  import opened Strconv
  import opened NetUrl
  import Base32
  import opened Otp
  import opened OtpImport

  /** The parameters `Hotp.Url` passes to `url`: the counter only. */
  function CounterParams(counter: int64): (params: Values)
    ensures params.Keys == {"counter"} && WellFormedQuery(params)
    ensures Atoi(params["counter"][0]) == Some(counter)
  {
    ItoaRoundTrip(counter);
    map["counter" := [Itoa(counter)]]
  }

  /** A HOTP key as a value: the common fields and the counter. */
  datatype HotpValue = HotpValue(key: KeyValue, counter: int64)

  /** `importHotp`: the counter parameter, read with a case-sensitive Get. */
  function ImportCounter(params: Values): (r: Result<int64>)
    ensures Get(params, "counter") == "" ==> r == Err(MissingCounter)
    ensures Get(params, "counter") != "" && Atoi(Get(params, "counter")).None? ==> r == Err(InvalidCounter)
    ensures r.Ok? <==> Atoi(Get(params, "counter")).Some?
    ensures r.Ok? ==> Atoi(Get(params, "counter")) == Some(r.value)
  {
    var ctr := Get(params, "counter");
    if ctr == "" then Err(MissingCounter)
    else match Atoi(ctr)
      case None => Err(InvalidCounter)
      case Some(i) => Ok(i)
  }

  /** `ImportHotp` when the query is visited in `order`. */
  function ImportHotpWithOrder(p: ParsedUrl, order: seq<string>): (r: Result<HotpValue>)
    requires p.Parsed? ==> OrderIn(p.url.query, order)
    ensures ImportWithOrder(p, order).Err? ==> r == Err(ImportWithOrder(p, order).error)
    ensures ImportWithOrder(p, order).Ok? && ImportWithOrder(p, order).value.typ != TypeHotp ==> r == Err(NotHotp)
    ensures r.Ok? ==> ImportWithOrder(p, order).Ok? && r.value.key == ImportWithOrder(p, order).value.key
    ensures r.Ok? ==> Atoi(Get(ImportWithOrder(p, order).value.params, "counter")) == Some(r.value.counter)
    ensures var i := ImportWithOrder(p, order);
            i.Ok? && i.value.typ == TypeHotp ==>
              (ImportCounter(i.value.params).Err? ==> r == Err(ImportCounter(i.value.params).error))
              && (ImportCounter(i.value.params).Ok? ==> r == Ok(HotpValue(i.value.key, ImportCounter(i.value.params).value)))
  {
    match ImportWithOrder(p, order)
    case Err(e) => Err(e)
    case Ok(imported) =>
      if imported.typ != TypeHotp then Err(NotHotp)
      else match ImportCounter(imported.params)
        case Err(e) => Err(e)
        case Ok(c) => Ok(HotpValue(imported.key, c))
  }

  /** `Hotp`: the embedded common key and the counter. */
  class Hotp {
    const core: OtpKey
    var Counter: int64

    constructor (core: OtpKey, counter: int64)
      ensures this.core == core && Counter == counter
    {
      this.core := core;
      Counter := counter;
    }

    /** The key and counter as a value. */
    function Value(): HotpValue
      reads this, core
    {
      HotpValue(core.Value(), Counter)
    }

    /** `Url`: the common URL with the counter as the one extra parameter. */
    method Url() returns (u: Url)
      requires KnownAlgorithm(core.Algorithm)
      ensures u == UrlOf(core.Value(), TypeHotp, CounterParams(Counter))
      ensures Atoi(Get(u.query, "counter")) == Some(Counter)
    {
      u := core.Url(TypeHotp, map["counter" := [Itoa(Counter)]]);
    }

    /** `String`: the same as Url. */
    method String() returns (u: Url)
      requires KnownAlgorithm(core.Algorithm)
      ensures u == UrlOf(core.Value(), TypeHotp, CounterParams(Counter))
    {
      u := Url();
    }

    /** `Code`: the code of the current counter; the counter is left as it is. */
    method Code(mac: Mac) returns (code: nat)
      requires KnownAlgorithm(core.Algorithm) && 0 <= core.Digits <= 18
      ensures code == CodeAt(mac, core.Value(), Counter)
      ensures code < Pow10(core.Digits) && code < 0x8000_0000
    {
      var c := core.HashTruncateInt(mac, Counter);
      code := Uint32(c) % Pow10(core.Digits);
    }

    /** The code at counter `c`, whatever the current counter. */
    method CodeCounter(mac: Mac, c: int64) returns (code: nat)
      requires KnownAlgorithm(core.Algorithm) && 0 <= core.Digits <= 18
      ensures code == CodeAt(mac, core.Value(), c)
      ensures code < Pow10(core.Digits)
    {
      var t := core.HashTruncateInt(mac, c);
      code := Uint32(t) % Pow10(core.Digits);
    }

    /** The code `n` steps after the current counter, the sum wrapping as Go's `int` does. */
    method CodeN(mac: Mac, n: int64) returns (code: nat)
      requires KnownAlgorithm(core.Algorithm) && 0 <= core.Digits <= 18
      ensures code == CodeAt(mac, core.Value(), Wrap64(Counter + n))
      ensures code < Pow10(core.Digits)
    {
      code := CodeCounter(mac, Wrap64(Counter + n));
    }

    /** `Type`. */
    function Type(): (t: string)
      ensures t == TypeHotp
    {
      TypeHotp
    }
  }

  /** `NewHotp`: the errors of `newOtpKey`, or a key holding `counter` as given. */
  method NewHotp(keyLen: int64, keyLabel: string, issuer: string, algorithm: string, digits: int64, counter: int64,
                 random: RandomRead) returns (r: Result<Hotp>)
    ensures NewOtpKey(keyLen, keyLabel, issuer, algorithm, digits, random).Err? ==>
              r == Err(NewOtpKey(keyLen, keyLabel, issuer, algorithm, digits, random).error)
    ensures NewOtpKey(keyLen, keyLabel, issuer, algorithm, digits, random).Ok? ==>
              r.Ok? && fresh(r.value) && fresh(r.value.core)
              && r.value.Value() == HotpValue(NewOtpKey(keyLen, keyLabel, issuer, algorithm, digits, random).value, counter)
  {
    match NewOtpKey(keyLen, keyLabel, issuer, algorithm, digits, random)
    case Err(e) =>
      return Err(e);
    case Ok(v) =>
      var k := new OtpKey(v);
      var h := new Hotp(k, counter);
      return Ok(h);
  }

  /** `NewHotpWithDefaults`: a 10-byte secret, SHA-1 under the empty spelling, 6 digits and counter 0. */
  method NewHotpWithDefaults(keyLabel: string, issuer: string, random: RandomRead) returns (r: Result<Hotp>)
    ensures keyLabel == "" ==> r == Err(MissingLabel)
    ensures keyLabel != "" && random.RandomError? ==> r == Err(CantReadRandom)
    ensures keyLabel != "" && random.RandomBytes? && |random.bytes| != DefaultKeyLength ==> r == Err(NotEnoughRandom)
    ensures r.Ok? <==> keyLabel != "" && random.RandomBytes? && |random.bytes| == DefaultKeyLength
    ensures r.Ok? ==> fresh(r.value)
                      && r.value.Value() == HotpValue(KeyValue(random.bytes, keyLabel, issuer, "", DefaultDigits), 0)
  {
    assert KnownAlgorithm("") by { LowerOfLowerCase(""); }
    r := NewHotp(0, keyLabel, issuer, "", 0, 0, random);
  }

  /** `importHotp`: wraps the imported key with the counter parameter. */
  method ImportHotpKey(k: OtpKey, params: Values) returns (r: Result<Hotp>)
    ensures ImportCounter(params).Err? ==> r == Err(ImportCounter(params).error)
    ensures ImportCounter(params).Ok? ==> r.Ok? && fresh(r.value) && r.value.core == k
                                          && r.value.Counter == ImportCounter(params).value
  {
    var ctr := Get(params, "counter");
    if ctr == "" {
      return Err(MissingCounter);
    }
    var i := Atoi(ctr);
    if i.None? {
      return Err(InvalidCounter);
    }
    var h := new Hotp(k, i.value);
    return Ok(h);
  }

  /** `ImportHotp`: the common import, then a HOTP type check, then the counter. */
  method ImportHotp(p: ParsedUrl) returns (r: Result<Hotp>, ghost order: seq<string>)
    requires p.Parsed? ==> WellFormedQuery(p.url.query)
    ensures p.Parsed? ==> Enumerates(order, p.url.query.Keys) && OrderIn(p.url.query, order)
    ensures r.Err? ==> ImportHotpWithOrder(p, order) == Err(r.error)
    ensures r.Ok? ==> fresh(r.value) && fresh(r.value.core) && ImportHotpWithOrder(p, order) == Ok(r.value.Value())
  {
    var imported;
    imported, order := ImportOtpKey(p);
    match imported
    case Err(e) =>
      return Err(e), order;
    case Ok(x) =>
      if x.typ != TypeHotp {
        return Err(NotHotp), order;
      }
      r := ImportHotpKey(x.key, x.params);
  }

  /**
    Importing what `Hotp.Url` wrote gives back the key with its counter, whatever the order
    of the map iteration; only the algorithm spelling may change, never the hash it selects,
    so the codes are the same.
  */
  lemma HotpUrlRoundTrip(h: HotpValue, order: seq<string>)
    requires KnownAlgorithm(h.key.algorithm)
    requires Enumerates(order, UrlOf(h.key, TypeHotp, CounterParams(h.counter)).query.Keys)
    ensures OrderIn(UrlOf(h.key, TypeHotp, CounterParams(h.counter)).query, order)
    ensures ImportHotpWithOrder(Parsed(UrlOf(h.key, TypeHotp, CounterParams(h.counter))), order)
            == Ok(HotpValue(h.key.(algorithm := ExportedAlgorithm(h.key.algorithm)), h.counter))
  {
    CounterParamsOrdinary(h.counter);
    CounterOfFirstValues(h.counter);
    ImportUrlRoundTrip(h.key, TypeHotp, CounterParams(h.counter), order);
  }

  /** The counter parameter is not one of the names the common import interprets. */
  lemma CounterParamsOrdinary(counter: int64)
    ensures forall n :: n in CounterParams(counter) ==> !IsSpecial(n)
  {
    LowerOfParameterName("counter");
  }

  /** The import hands the counter parameter back with its first value, which reads as the counter. */
  lemma CounterOfFirstValues(counter: int64)
    ensures ImportCounter(FirstValues(CounterParams(counter))) == Ok(counter)
  {
    var params := CounterParams(counter);
    assert FirstValues(params)["counter"] == params["counter"];
  }

  /** The key that comes back from a round trip gives the same code at every counter. */
  lemma HotpRoundTripSameCodes(mac: Mac, k: KeyValue, c: int64)
    requires KnownAlgorithm(k.algorithm) && 0 <= k.digits <= 18
    ensures CodeAt(mac, k.(algorithm := ExportedAlgorithm(k.algorithm)), c) == CodeAt(mac, k, c)
  {
    CodeDependsOnlyOnHashInput(mac, k.(algorithm := ExportedAlgorithm(k.algorithm)), k, c);
  }

  /** The base32 secret of the sample key `otpauth://hotp/myKey?counter=0&secret=5STMOV5AVXA2IYVU`. */
  const SampleSecret: string := "5STMOV5AVXA2IYVU"

  /** The sample key's URL, parsed. */
  const SampleUrl: Url := Url("otpauth", "hotp", "/myKey", map["counter" := ["0"], "secret" := [SampleSecret]])

  /** Every character of the sample secret is in the base32 alphabet. */
  lemma SampleSecretIsBase32()
    ensures |SampleSecret| % 8 == 0
    ensures forall i :: 0 <= i < |SampleSecret| ==> Base32.IsAlphabet(SampleSecret[i])
  {
  }

  /** For a key with default digits, algorithm and issuer, `Hotp.Url` writes the counter and the secret only. */
  lemma DefaultKeyUrl(k: KeyValue, counter: int64)
    requires k.digits == DefaultDigits && k.algorithm == "" && k.issuer == ""
    ensures KnownAlgorithm(k.algorithm)
    ensures UrlOf(k, TypeHotp, CounterParams(counter))
            == Url("otpauth", TypeHotp, "/" + k.keyLabel,
                   map["counter" := [Itoa(counter)], "secret" := [Base32.Encode(k.key)]])
  {
    assert Lower("") == "";
    assert Written(k) == {"secret"};
  }

  /** The URL of a key with default digits, algorithm and issuer, and an unpadded base32 secret. */
  function PlainHotpUrl(keyLabel: string, counter: int64, secret: string): Url
  {
    Url("otpauth", TypeHotp, "/" + keyLabel, map["counter" := [Itoa(counter)], "secret" := [secret]])
  }

  /** Such a URL is what `Hotp.Url` writes for the key it describes. */
  lemma PlainHotpUrlIsWritten(keyLabel: string, counter: int64, secret: string)
    requires |secret| % 8 == 0 && forall i :: 0 <= i < |secret| ==> Base32.IsAlphabet(secret[i])
    ensures Base32.Decode(secret).Decoded?
    ensures var k := KeyValue(Base32.Decode(secret).bytes, keyLabel, "", "", DefaultDigits);
            KnownAlgorithm(k.algorithm) && UrlOf(k, TypeHotp, CounterParams(counter)) == PlainHotpUrl(keyLabel, counter, secret)
  {
    Base32.EncodeDecodeUnpadded(secret);
    var k := KeyValue(Base32.Decode(secret).bytes, keyLabel, "", "", DefaultDigits);
    DefaultKeyUrl(k, counter);
  }

  /**
    Importing such a URL and writing the key out again gives the same URL, whatever the
    order of the map iteration (at the level of the parsed URL).
  */
  lemma PlainHotpUrlReproduced(keyLabel: string, counter: int64, secret: string, order: seq<string>)
    requires |secret| % 8 == 0 && forall i :: 0 <= i < |secret| ==> Base32.IsAlphabet(secret[i])
    requires Enumerates(order, PlainHotpUrl(keyLabel, counter, secret).query.Keys)
    ensures OrderIn(PlainHotpUrl(keyLabel, counter, secret).query, order)
    ensures ImportHotpWithOrder(Parsed(PlainHotpUrl(keyLabel, counter, secret)), order).Ok?
    ensures var h := ImportHotpWithOrder(Parsed(PlainHotpUrl(keyLabel, counter, secret)), order).value;
            h.counter == counter && h.key.keyLabel == keyLabel && KnownAlgorithm(h.key.algorithm)
            && UrlOf(h.key, TypeHotp, CounterParams(h.counter)) == PlainHotpUrl(keyLabel, counter, secret)
  {
    PlainHotpUrlIsWritten(keyLabel, counter, secret);
    var k := KeyValue(Base32.Decode(secret).bytes, keyLabel, "", "", DefaultDigits);
    HotpUrlRoundTrip(HotpValue(k, counter), order);
    assert ExportedAlgorithm("") == "";
  }

  /**
    The sample key `otpauth://hotp/myKey?counter=0&secret=5STMOV5AVXA2IYVU`, imported and
    written out again, gives the same URL whatever the order of the map iteration.
  */
  lemma SampleUrlReproduced(order: seq<string>)
    requires Enumerates(order, SampleUrl.query.Keys)
    ensures OrderIn(SampleUrl.query, order)
    ensures ImportHotpWithOrder(Parsed(SampleUrl), order).Ok?
    ensures var h := ImportHotpWithOrder(Parsed(SampleUrl), order).value;
            h.counter == 0 && KnownAlgorithm(h.key.algorithm)
            && UrlOf(h.key, TypeHotp, CounterParams(h.counter)) == SampleUrl
  {
    SampleSecretIsBase32();
    assert Itoa(0) == "0";
    assert "/" + "myKey" == "/myKey";
    assert SampleUrl == PlainHotpUrl("myKey", 0, SampleSecret);
    PlainHotpUrlReproduced("myKey", 0, SampleSecret, order);
  }
}
