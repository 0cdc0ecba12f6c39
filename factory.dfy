/**
  The type-independent entry points: `NewKey` builds a HOTP or TOTP key from a type name
  and extra parameters, and `ImportKey` imports either kind from a provisioning URL.
*/
module Factory {
  import opened Wrappers
  import opened Bytes
  import opened Strings
  import opened Strconv
  import opened NetUrl
  import opened Otp
  import opened OtpImport
  import opened HotpKeys = Hotp
  import opened TotpKeys = Totp

  /** The `Key` interface: a HOTP key (a shared object) or a TOTP key. */
  datatype Key = HotpKey(hotp: Hotp) | TotpKey(totp: Totp)
  {
    /** `Type`: the type name of the kind of key. */
    function Type(): (t: string)
      ensures t == TypeHotp <==> HotpKey?
      ensures t == TypeTotp <==> TotpKey?
    {
      match this
      case HotpKey(h) => h.Type()
      case TotpKey(t) => t.Type()
    }

    /** The objects a key's state lives in. */
    function Footprint(): set<object>
    {
      if HotpKey? then {hotp, hotp.core} else {}
    }
  }

  /** A key as a value. */
  datatype KeyState = HotpState(hotpValue: HotpValue) | TotpState(totpValue: Totp)

  function StateOf(k: Key): (s: KeyState)
    reads k.Footprint()
    ensures s.HotpState? <==> k.HotpKey?
  {
    match k
    case HotpKey(h) => HotpState(h.Value())
    case TotpKey(t) => TotpState(t)
  }

  /** The period `NewKey` passes to `NewTotp`: 0 when absent; an error when not an integer. */
  function RequestedPeriod(extra: Values): (r: Result<int64>)
    ensures Get(extra, "period") == "" ==> r == Ok(0)
    ensures Get(extra, "period") != "" ==> (r.Ok? <==> Atoi(Get(extra, "period")).Some?)
    ensures r.Err? ==> r.error == InvalidPeriod
    ensures r.Ok? && Get(extra, "period") != "" ==> Atoi(Get(extra, "period")) == Some(r.value)
  {
    var s := Get(extra, "period");
    if s == "" then Ok(0)
    else match Atoi(s)
      case None => Err(InvalidPeriod)
      case Some(i) => Ok(i)
  }

  /**
    `NewKey` as a value: the type picks the variant; its parameter is read from `extra`
    before the common key is built, and the common key's errors come after.
  */
  function NewKeyState(keyType: string, keyLen: int64, keyLabel: string, issuer: string, algorithm: string,
                       digits: int64, extra: Values, random: RandomRead): (r: Result<KeyState>)
    ensures keyType != TypeTotp && keyType != TypeHotp ==> r == Err(InvalidOtpType)
    ensures keyType == TypeTotp && RequestedPeriod(extra).Err? ==> r == Err(InvalidPeriod)
    ensures keyType == TypeHotp && ImportCounter(extra).Err? ==> r == Err(ImportCounter(extra).error)
    ensures keyType == TypeTotp && RequestedPeriod(extra).Ok? ==>
              r == match NewTotp(keyLen, keyLabel, issuer, algorithm, digits, RequestedPeriod(extra).value, random)
                   case Err(e) => Err(e)
                   case Ok(t) => Ok(TotpState(t))
    ensures keyType == TypeHotp && ImportCounter(extra).Ok? ==>
              r == match NewOtpKey(keyLen, keyLabel, issuer, algorithm, digits, random)
                   case Err(e) => Err(e)
                   case Ok(k) => Ok(HotpState(HotpValue(k, ImportCounter(extra).value)))
  {
    if keyType == TypeTotp then
      match RequestedPeriod(extra)
      case Err(e) => Err(e)
      case Ok(p) =>
        match NewTotp(keyLen, keyLabel, issuer, algorithm, digits, p, random)
        case Err(e) => Err(e)
        case Ok(t) => Ok(TotpState(t))
    else if keyType == TypeHotp then
      match ImportCounter(extra)
      case Err(e) => Err(e)
      case Ok(c) =>
        match NewOtpKey(keyLen, keyLabel, issuer, algorithm, digits, random)
        case Err(e) => Err(e)
        case Ok(k) => Ok(HotpState(HotpValue(k, c)))
    else Err(InvalidOtpType)
  }

  /** A TOTP key from `NewKey` gets 30 seconds when the period is absent, zero or negative. */
  lemma NewKeyDefaultPeriod(keyLen: int64, keyLabel: string, issuer: string, algorithm: string, digits: int64,
                            extra: Values, random: RandomRead)
    requires NewKeyState(TypeTotp, keyLen, keyLabel, issuer, algorithm, digits, extra, random).Ok?
    ensures NewKeyState(TypeTotp, keyLen, keyLabel, issuer, algorithm, digits, extra, random).value.TotpState?
    ensures var t := NewKeyState(TypeTotp, keyLen, keyLabel, issuer, algorithm, digits, extra, random).value.totpValue;
            t.period > 0
            && (Get(extra, "period") == "" ==> t.period == DefaultPeriod)
            && (Get(extra, "period") != "" ==>
                  var i := Atoi(Get(extra, "period")).value;
                  t.period == if i > 0 then i else DefaultPeriod)
  {
  }

  /** `NewKey`. */
  method NewKey(keyType: string, keyLen: int64, keyLabel: string, issuer: string, algorithm: string,
                digits: int64, extra: Values, random: RandomRead) returns (r: Result<Key>)
    ensures r.Err? ==> NewKeyState(keyType, keyLen, keyLabel, issuer, algorithm, digits, extra, random) == Err(r.error)
    ensures r.Ok? ==> NewKeyState(keyType, keyLen, keyLabel, issuer, algorithm, digits, extra, random) == Ok(StateOf(r.value))
    ensures r.Ok? && r.value.HotpKey? ==> fresh(r.value.hotp)
  {
    if keyType == TypeTotp {
      var p := RequestedPeriod(extra);
      if p.Err? {
        return Err(p.error);
      }
      var t := NewTotp(keyLen, keyLabel, issuer, algorithm, digits, p.value, random);
      if t.Err? {
        return Err(t.error);
      }
      return Ok(TotpKey(t.value));
    } else if keyType == TypeHotp {
      var c := ImportCounter(extra);
      if c.Err? {
        return Err(c.error);
      }
      var h := NewHotp(keyLen, keyLabel, issuer, algorithm, digits, c.value, random);
      if h.Err? {
        return Err(h.error);
      }
      return Ok(HotpKey(h.value));
    } else {
      return Err(InvalidOtpType);
    }
  }

  /** `NewKeyWithDefaults`: `NewKey` with a 10-byte secret, SHA-1 and 6 digits. */
  method NewKeyWithDefaults(keyType: string, keyLabel: string, issuer: string, extra: Values, random: RandomRead)
    returns (r: Result<Key>)
    ensures r.Err? ==> NewKeyState(keyType, 0, keyLabel, issuer, "", 0, extra, random) == Err(r.error)
    ensures r.Ok? ==> NewKeyState(keyType, 0, keyLabel, issuer, "", 0, extra, random) == Ok(StateOf(r.value))
    ensures r.Ok? && r.value.HotpKey? ==> fresh(r.value.hotp)
  {
    r := NewKey(keyType, 0, keyLabel, issuer, "", 0, extra, random);
  }

  /**
    `ImportKey` as a value: totp URLs go through `importTotp`, every other accepted URL
    through `importHotp`. It agrees with whichever of `ImportTotp` and `ImportHotp` accepts
    the URL, and fails exactly when both fail.
  */
  function ImportKeyWithOrder(p: ParsedUrl, order: seq<string>): (r: Result<KeyState>)
    requires p.Parsed? ==> OrderIn(p.url.query, order)
    ensures ImportWithOrder(p, order).Err? ==> r == Err(ImportWithOrder(p, order).error)
    ensures ImportTotpWithOrder(p, order).Ok? ==> r == Ok(TotpState(ImportTotpWithOrder(p, order).value))
    ensures ImportHotpWithOrder(p, order).Ok? ==> r == Ok(HotpState(ImportHotpWithOrder(p, order).value))
    ensures r.Ok? <==> ImportTotpWithOrder(p, order).Ok? || ImportHotpWithOrder(p, order).Ok?
    ensures r.Ok? ==> (r.value.TotpState? <==> p.url.host == TypeTotp)
    ensures p.Parsed? && p.url.host == TypeTotp ==>
              r == match ImportTotpWithOrder(p, order)
                   case Err(e) => Err(e)
                   case Ok(t) => Ok(TotpState(t))
    ensures !(p.Parsed? && p.url.host == TypeTotp) ==>
              r == match ImportHotpWithOrder(p, order)
                   case Err(e) => Err(e)
                   case Ok(h) => Ok(HotpState(h))
  {
    match ImportWithOrder(p, order)
    case Err(e) => Err(e)
    case Ok(imported) =>
      if imported.typ == TypeTotp then
        match ImportTotpKey(imported.key, imported.params)
        case Err(e) => Err(e)
        case Ok(t) => Ok(TotpState(t))
      else
        match ImportCounter(imported.params)
        case Err(e) => Err(e)
        case Ok(c) => Ok(HotpState(HotpValue(imported.key, c)))
  }

  /**
    The counter errors of a HOTP URL whose common part imports: no counter is
    `MissingCounter`, and a counter that is not a numeral, such as "asd", is `InvalidCounter`.
  */
  lemma ImportKeyCounterErrors(p: ParsedUrl, order: seq<string>)
    requires p.Parsed? ==> OrderIn(p.url.query, order)
    requires ImportWithOrder(p, order).Ok? && p.url.host == TypeHotp
    ensures var c := Get(ImportWithOrder(p, order).value.params, "counter");
            (c == "" ==> ImportKeyWithOrder(p, order) == Err(MissingCounter))
            && (c != "" && !IsNumeral(c) ==> ImportKeyWithOrder(p, order) == Err(InvalidCounter))
            && (c == "asd" ==> ImportKeyWithOrder(p, order) == Err(InvalidCounter))
  {
    var c := Get(ImportWithOrder(p, order).value.params, "counter");
    if c == "asd" {
      assert !IsDigit(c[0]);
    }
  }

  /** `ImportKey`. */
  method ImportKey(p: ParsedUrl) returns (r: Result<Key>, ghost order: seq<string>)
    requires p.Parsed? ==> WellFormedQuery(p.url.query)
    ensures p.Parsed? ==> Enumerates(order, p.url.query.Keys) && OrderIn(p.url.query, order)
    ensures r.Err? ==> ImportKeyWithOrder(p, order) == Err(r.error)
    ensures r.Ok? ==> ImportKeyWithOrder(p, order) == Ok(StateOf(r.value))
    ensures r.Ok? && r.value.HotpKey? ==> fresh(r.value.hotp)
  {
    var imported;
    imported, order := ImportOtpKey(p);
    match imported
    case Err(e) =>
      return Err(e), order;
    case Ok(x) =>
      if x.typ == TypeTotp {
        var t := ImportTotpKey(x.key.Value(), x.params);
        if t.Err? {
          return Err(t.error), order;
        }
        return Ok(TotpKey(t.value)), order;
      }
      var h := ImportHotpKey(x.key, x.params);
      if h.Err? {
        return Err(h.error), order;
      }
      return Ok(HotpKey(h.value)), order;
  }

  /** Exporting a HOTP key and importing it through `ImportKey` gives back a HOTP key with its counter. */
  lemma ImportKeyOfHotpUrl(h: HotpValue, order: seq<string>)
    requires KnownAlgorithm(h.key.algorithm)
    requires Enumerates(order, UrlOf(h.key, TypeHotp, CounterParams(h.counter)).query.Keys)
    ensures OrderIn(UrlOf(h.key, TypeHotp, CounterParams(h.counter)).query, order)
    ensures ImportKeyWithOrder(Parsed(UrlOf(h.key, TypeHotp, CounterParams(h.counter))), order)
            == Ok(HotpState(HotpValue(h.key.(algorithm := ExportedAlgorithm(h.key.algorithm)), h.counter)))
  {
    HotpUrlRoundTrip(h, order);
  }

  /** Exporting a TOTP key and importing it through `ImportKey` gives back a TOTP key with 30 seconds. */
  lemma ImportKeyOfTotpUrl(t: Totp, order: seq<string>)
    requires KnownAlgorithm(t.core.algorithm)
    requires Enumerates(order, t.Url().query.Keys)
    ensures OrderIn(t.Url().query, order)
    ensures ImportKeyWithOrder(Parsed(t.Url()), order)
            == Ok(TotpState(Totp(t.core.(algorithm := ExportedAlgorithm(t.core.algorithm)), DefaultPeriod)))
  {
    TotpUrlRoundTrip(t, order);
  }

  /**
    The same URL read as a HOTP key and as a TOTP key holds the same common key, so
    `Hotp.Code` at counter `c` and `Totp.CodePeriod(c)` compute the same code.
  */
  lemma HotpAndTotpImportSameKey(u: Url, order: seq<string>, mac: Mac, c: int64)
    requires OrderIn(u.query, order)
    requires ImportHotpWithOrder(Parsed(u.(host := TypeHotp)), order).Ok?
    requires ImportTotpWithOrder(Parsed(u.(host := TypeTotp)), order).Ok?
    ensures var h := ImportHotpWithOrder(Parsed(u.(host := TypeHotp)), order).value;
            var t := ImportTotpWithOrder(Parsed(u.(host := TypeTotp)), order).value;
            h.key == t.core
            && (KnownAlgorithm(t.core.algorithm) && 0 <= t.core.digits <= 18 ==>
                  CodeAt(mac, h.key, c) == t.CodePeriod(mac, c))
  {
  }
}
