/**
  TOTP keys (RFC 6238): a common key plus the length of a time step in seconds. The
  code for a time is the HOTP code of the number of whole steps since the Unix epoch.
  The current time is a parameter.
*/
module Totp {
  import opened Wrappers
  import opened Bytes
  import opened Strings
  import opened Strconv
  import opened NetUrl
  import opened Otp
  import opened OtpImport

  const DefaultPeriod: int64 := 30

  function Abs(x: int): nat
  {
    if x < 0 then -x else x
  }

  /**
    Go's `/` on 64-bit integers: the quotient rounded toward zero; the one overflowing case,
    the most negative value divided by -1, wraps around to itself.
  */
  function GoDiv(a: int64, b: int64): (q: int64)
    requires b != 0
    ensures a >= 0 && b > 0 ==> q * b <= a < q * b + b
    ensures a < 0 && b > 0 ==> q * b >= a > q * b - b
    ensures a == MinInt64 && b == -1 ==> q == MinInt64
    ensures !(a == MinInt64 && b == -1) ==>
              Abs(a - q * b) < Abs(b) && (a >= 0 ==> a - q * b >= 0) && (a < 0 ==> a - q * b <= 0)
  {
    if a == MinInt64 && b == -1 then MinInt64
    else if (a < 0) == (b < 0) then Quot(Abs(a), Abs(b))
    else
      var m: int := Quot(Abs(a), Abs(b));
      assert -m * b == -(m * b);
      -m
  }

  /** The quotient of naturals, with the bounds that characterise it. */
  function Quot(x: nat, y: nat): (m: nat)
    requires y > 0
    ensures m * y <= x < m * y + y
    ensures m <= x && (y > 1 && x > 0 ==> m < x)
  {
    DivBounds(x, y);
    x / y
  }

  /** The quotient of naturals: `m * y <= x < m * y + y`, `m <= x`, and `m < x` when `y > 1` and `x > 0`. */
  lemma DivBounds(x: nat, y: nat)
    requires y > 0
    ensures (x / y) * y <= x < (x / y) * y + y
    ensures x / y <= x
    ensures y > 1 && x > 0 ==> x / y < x
  {
    var m, r := x / y, x % y;
    assert x == m * y + r;
    ProductAtLeast(m, y);
    if y > 1 {
      ProductAtLeast(m, y - 1);
      assert m * y == m * (y - 1) + m;
    }
  }

  /** Multiplying a natural by a positive natural does not make it smaller. */
  lemma ProductAtLeast(m: nat, y: nat)
    requires y > 0
    ensures m <= m * y
  {
    assert m * y == m * (y - 1) + m;
  }

  /** For a time at or after the epoch and a positive step, Go's division is the floor. */
  lemma GoDivIsFloorFromEpoch(a: int64, b: int64)
    requires a >= 0 && b > 0
    ensures GoDiv(a, b) == a / b
  {
    assert Abs(a) == a && Abs(b) == b;
    DivBounds(a, b);
  }

  /** Before the epoch it is not: one second before the epoch is step 0, not step -1. */
  lemma GoDivIsNotFloorBeforeEpoch()
    ensures GoDiv(-1, DefaultPeriod) == 0
    ensures -1 / DefaultPeriod == -1
  {
  }

  /** A `Totp` key: the embedded common key, as a value, and the step length. */
  datatype Totp = Totp(core: KeyValue, period: int64)
  {
    /** `Url`: the common URL with no extra parameter; the period is not written. */
    function Url(): (u: NetUrl.Url)
      requires KnownAlgorithm(core.algorithm)
      ensures u == UrlOf(core, TypeTotp, map[])
      ensures u.host == TypeTotp && "period" !in u.query
    {
      UrlOf(core, TypeTotp, map[])
    }

    /** `String`: the same as Url. */
    function String(): (u: NetUrl.Url)
      requires KnownAlgorithm(core.algorithm)
      ensures u == Url()
    {
      Url()
    }

    /** `CodePeriod`: the HOTP code of step `p`; it depends on the key, hash, digits and `p` only. */
    function CodePeriod(mac: Mac, p: int64): (code: nat)
      requires KnownAlgorithm(core.algorithm) && 0 <= core.digits <= 18
      ensures code == CodeAt(mac, core, p)
      ensures code < Pow10(core.digits) && code < 0x8000_0000
    {
      CodeAt(mac, core, p)
    }

    /** `CodeTime`: the code of the step that `unixSeconds` falls in, by Go's division. */
    function CodeTime(mac: Mac, unixSeconds: int64): (code: nat)
      requires KnownAlgorithm(core.algorithm) && 0 <= core.digits <= 18
      requires period != 0
      ensures code == CodePeriod(mac, GoDiv(unixSeconds, period))
      ensures code < Pow10(core.digits)
    {
      CodePeriod(mac, GoDiv(unixSeconds, period))
    }

    /** `Code`: the code at the current time, `now` in seconds since the epoch. */
    function Code(mac: Mac, now: int64): (code: nat)
      requires KnownAlgorithm(core.algorithm) && 0 <= core.digits <= 18
      requires period != 0
      ensures code == CodeTime(mac, now)
      ensures code < Pow10(core.digits)
    {
      CodeTime(mac, now)
    }

    /** `Type`. */
    function Type(): (t: string)
      ensures t == TypeTotp
    {
      TypeTotp
    }
  }

  /** From the epoch on, the step is the floor of the time over the period. */
  lemma CodeTimeFromEpoch(t: Totp, mac: Mac, unixSeconds: int64)
    requires KnownAlgorithm(t.core.algorithm) && 0 <= t.core.digits <= 18
    requires t.period > 0 && unixSeconds >= 0
    ensures t.CodeTime(mac, unixSeconds) == t.CodePeriod(mac, unixSeconds / t.period)
  {
    GoDivIsFloorFromEpoch(unixSeconds, t.period);
  }

  /** Two times from the epoch on within the same step give the same code. */
  lemma SameStepSameCode(t: Totp, mac: Mac, s1: int64, s2: int64)
    requires KnownAlgorithm(t.core.algorithm) && 0 <= t.core.digits <= 18
    requires t.period > 0 && 0 <= s1 <= s2
    requires s2 < (s1 / t.period + 1) * t.period
    ensures t.CodeTime(mac, s1) == t.CodeTime(mac, s2)
  {
    GoDivIsFloorFromEpoch(s1, t.period);
    GoDivIsFloorFromEpoch(s2, t.period);
    var q := s1 / t.period;
    assert q * t.period <= s1 <= s2 < q * t.period + t.period;
    assert GoDiv(s2, t.period) * t.period <= s2 < GoDiv(s2, t.period) * t.period + t.period;
    StepOfTime(s2, t.period, q);
  }

  /** A time between `q` steps and `q + 1` steps lies in step `q`. */
  lemma StepOfTime(s: int, p: int, q: int)
    requires p > 0 && q * p <= s < q * p + p
    ensures s / p == q
  {
    var d, r := s / p, s % p;
    assert s == d * p + r && 0 <= r < p;
    assert (d - q - 1) * p == (s - r) - q * p - p;
    NegativeFactor(d - q - 1, p);
    assert (q - d - 1) * p == q * p - (s - r) - p;
    NegativeFactor(q - d - 1, p);
  }

  /** A product with a positive factor is negative only when the other factor is. */
  lemma NegativeFactor(x: int, p: int)
    requires p > 0 && x * p < 0
    ensures x < 0
  {
  }

  /** `NewTotp`: the errors of `newOtpKey`, or a key whose period is `period` if positive, else 30. */
  function NewTotp(keyLen: int64, keyLabel: string, issuer: string, algorithm: string, digits: int64, period: int64,
                   random: RandomRead): (r: Result<Totp>)
    ensures NewOtpKey(keyLen, keyLabel, issuer, algorithm, digits, random).Err? ==>
              r == Err(NewOtpKey(keyLen, keyLabel, issuer, algorithm, digits, random).error)
    ensures NewOtpKey(keyLen, keyLabel, issuer, algorithm, digits, random).Ok? ==>
              r.Ok? && r.value.core == NewOtpKey(keyLen, keyLabel, issuer, algorithm, digits, random).value
    ensures r.Ok? ==> r.value.period > 0
    ensures r.Ok? ==> (period > 0 ==> r.value.period == period) && (period <= 0 ==> r.value.period == DefaultPeriod)
  {
    match NewOtpKey(keyLen, keyLabel, issuer, algorithm, digits, random)
    case Err(e) => Err(e)
    case Ok(k) => Ok(Totp(k, if period > 0 then period else DefaultPeriod))
  }

  /** `NewTotpWithDefaults`: a 10-byte secret, SHA-1 under the empty spelling, 6 digits and 30 seconds. */
  function NewTotpWithDefaults(keyLabel: string, issuer: string, random: RandomRead): (r: Result<Totp>)
    ensures keyLabel == "" ==> r == Err(MissingLabel)
    ensures keyLabel != "" && random.RandomError? ==> r == Err(CantReadRandom)
    ensures keyLabel != "" && random.RandomBytes? && |random.bytes| != DefaultKeyLength ==> r == Err(NotEnoughRandom)
    ensures r.Ok? <==> keyLabel != "" && random.RandomBytes? && |random.bytes| == DefaultKeyLength
    ensures r.Ok? ==> r.value == Totp(KeyValue(random.bytes, keyLabel, issuer, "", DefaultDigits), DefaultPeriod)
  {
    assert KnownAlgorithm("") by { LowerOfLowerCase(""); }
    NewTotp(0, keyLabel, issuer, "", 0, 0, random)
  }

  /** `importTotp`'s reading of the period: absent means 30; any integer is kept, even 0 or negative. */
  function ImportPeriod(params: Values): (r: Result<int64>)
    ensures Get(params, "period") == "" ==> r == Ok(DefaultPeriod)
    ensures Get(params, "period") != "" && Atoi(Get(params, "period")).None? ==> r == Err(InvalidPeriod)
    ensures Get(params, "period") != "" && Atoi(Get(params, "period")).Some? ==> r == Ok(Atoi(Get(params, "period")).value)
  {
    var td := Get(params, "period");
    if td == "" then Ok(DefaultPeriod)
    else match Atoi(td)
      case None => Err(InvalidPeriod)
      case Some(i) => Ok(i)
  }

  /** `importTotp`: the imported key with the period parameter. */
  function ImportTotpKey(k: KeyValue, params: Values): (r: Result<Totp>)
    ensures ImportPeriod(params).Err? ==> r == Err(InvalidPeriod)
    ensures ImportPeriod(params).Ok? ==> r == Ok(Totp(k, ImportPeriod(params).value))
  {
    match ImportPeriod(params)
    case Err(e) => Err(e)
    case Ok(p) => Ok(Totp(k, p))
  }

  /** `ImportTotp` when the query is visited in `order`. */
  function ImportTotpWithOrder(p: ParsedUrl, order: seq<string>): (r: Result<Totp>)
    requires p.Parsed? ==> OrderIn(p.url.query, order)
    ensures ImportWithOrder(p, order).Err? ==> r == Err(ImportWithOrder(p, order).error)
    ensures ImportWithOrder(p, order).Ok? && ImportWithOrder(p, order).value.typ != TypeTotp ==> r == Err(NotTotp)
    ensures r.Ok? ==> ImportWithOrder(p, order).Ok? && r.value.core == ImportWithOrder(p, order).value.key
    ensures var i := ImportWithOrder(p, order);
            i.Ok? && i.value.typ == TypeTotp ==>
              (ImportPeriod(i.value.params).Err? ==> r == Err(InvalidPeriod))
              && (ImportPeriod(i.value.params).Ok? ==> r == Ok(Totp(i.value.key, ImportPeriod(i.value.params).value)))
  {
    match ImportWithOrder(p, order)
    case Err(e) => Err(e)
    case Ok(imported) =>
      if imported.typ != TypeTotp then Err(NotTotp)
      else ImportTotpKey(imported.key, imported.params)
  }

  /** `ImportTotp`: the common import, then a TOTP type check, then the period. */
  method ImportTotp(p: ParsedUrl) returns (r: Result<Totp>, ghost order: seq<string>)
    requires p.Parsed? ==> WellFormedQuery(p.url.query)
    ensures p.Parsed? ==> Enumerates(order, p.url.query.Keys) && OrderIn(p.url.query, order)
    ensures r == ImportTotpWithOrder(p, order)
  {
    var imported;
    imported, order := ImportOtpKey(p);
    match imported
    case Err(e) =>
      return Err(e), order;
    case Ok(x) =>
      if x.typ != TypeTotp {
        return Err(NotTotp), order;
      }
      r := ImportTotpKey(x.key.Value(), x.params);
  }

  /**
    Importing what `Totp.Url` wrote gives back the common key (up to the algorithm spelling,
    as for HOTP) with the default period of 30 seconds, whatever period the key had.
  */
  lemma TotpUrlRoundTrip(t: Totp, order: seq<string>)
    requires KnownAlgorithm(t.core.algorithm)
    requires Enumerates(order, t.Url().query.Keys)
    ensures OrderIn(t.Url().query, order)
    ensures ImportTotpWithOrder(Parsed(t.Url()), order)
            == Ok(Totp(t.core.(algorithm := ExportedAlgorithm(t.core.algorithm)), DefaultPeriod))
  {
    var none: Values := map[];
    ImportUrlRoundTrip(t.core, TypeTotp, none, order);
    assert FirstValues(none) == none;
  }
}
