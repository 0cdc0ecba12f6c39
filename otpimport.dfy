/**
  `importOtpKey`: reading an `otpauth://` URL into the common key fields.

  The query parameters are visited in Go's map iteration order, which is unspecified.
  The loop picks any unvisited name; the order it happened to use is a ghost result, and the
  outcome is the left fold `Fold` of one loop step per parameter over that order. The lemmas
  say what does not depend on the order (whether the import succeeds, and with unique names
  the key it yields) and what does (which bad parameter is reported: the first one visited).
*/
module OtpImport {
  import opened Wrappers
  import opened Bytes
  import opened Strings
  import opened Strconv
  import opened NetUrl
  import Base32
  import opened Otp

  /** What the parameter loop has gathered so far; `secret` is None while `k.Key` is nil. */
  datatype Draft = Draft(secret: Option<seq<byte>>, issuer: string, algorithm: string, digits: int64, extra: Values)

  /** The key before any parameter is read: no secret, default digits. */
  const Start: Draft := Draft(None, "", "", DefaultDigits, map[])

  /** The four names the import interprets, compared in lower case. */
  predicate IsSpecial(name: string)
  {
    Lower(name) in {"secret", "digits", "algorithm", "issuer"}
  }

  /** One iteration of the loop: parameter `name` whose first value is `v`. */
  function Step(d: Draft, name: string, v: string): Result<Draft>
  {
    var n := Lower(name);
    if n == "secret" then
      match Base32.Decode(v)
      case Decoded(b) => Ok(d.(secret := Some(b)))
      case Corrupt(_) => Err(Base32Decoding)
    else if n == "digits" then
      match Atoi(v)
      case Some(x) => Ok(d.(digits := x))
      case None => Err(InvalidDigits)
    else if n == "algorithm" then
      if Lower(v) in {"sha1", "sha256", "sha512"} then Ok(d.(algorithm := v)) else Err(InvalidAlgorithm)
    else if n == "issuer" then
      Ok(d.(issuer := v))
    else
      Ok(d.(extra := Set(d.extra, name, v)))
  }

  /** The error a parameter is rejected with, whatever the loop gathered before it. */
  function ParamError(name: string, v: string): Option<ErrorCode>
  {
    var n := Lower(name);
    if n == "secret" && Base32.Decode(v).Corrupt? then Some(Base32Decoding)
    else if n == "digits" && Atoi(v).None? then Some(InvalidDigits)
    else if n == "algorithm" && Lower(v) !in {"sha1", "sha256", "sha512"} then Some(InvalidAlgorithm)
    else None
  }

  /** A step fails exactly when its parameter is rejected, and with that parameter's error. */
  lemma StepFailsOnParamError(d: Draft, name: string, v: string)
    ensures Step(d, name, v).Err? <==> ParamError(name, v).Some?
    ensures Step(d, name, v).Err? ==> Step(d, name, v).error == ParamError(name, v).value
  {
  }

  /** The names in `order` are parameters of the well-formed query `q`. */
  predicate OrderIn(q: Values, order: seq<string>)
  {
    WellFormedQuery(q) && forall i :: 0 <= i < |order| ==> order[i] in q
  }

  /** `order` lists every name of `names` exactly once: one run of a map iteration. */
  ghost predicate Enumerates(order: seq<string>, names: set<string>)
  {
    && (forall i, j :: 0 <= i < j < |order| ==> order[i] != order[j])
    && (forall n :: n in names <==> n in order)
  }

  /** Some enumeration of a finite set. */
  ghost function EnumerationOf(names: set<string>): (order: seq<string>)
    ensures Enumerates(order, names)
  {
    if names == {} then []
    else
      var n :| n in names;
      var rest := EnumerationOf(names - {n});
      assert forall m :: m in names <==> m in [n] + rest;
      [n] + rest
  }

  /** The loop run over the parameters in `order`. */
  function Fold(q: Values, order: seq<string>): Result<Draft>
    requires OrderIn(q, order)
  {
    if order == [] then Ok(Start)
    else
      var name := order[|order| - 1];
      match Fold(q, order[..|order| - 1])
      case Err(e) => Err(e)
      case Ok(d) => Step(d, name, q[name][0])
  }

  /** What `importOtpKey` returns on success: the key fields, the type and the other parameters. */
  datatype Imported = Imported(key: KeyValue, typ: string, params: Values)

  /** `importOtpKey` when the query is visited in `order`. */
  function ImportWithOrder(p: ParsedUrl, order: seq<string>): (r: Result<Imported>)
    requires p.Parsed? ==> OrderIn(p.url.query, order)
    ensures p.Unparsable? ==> r == Err(UrlParseError)
    ensures p.Parsed? && p.url.scheme != "otpauth" ==> r == Err(WrongScheme)
    ensures p.Parsed? && p.url.scheme == "otpauth" && p.url.host != TypeHotp && p.url.host != TypeTotp
            ==> r == Err(InvalidOtpType)
    ensures r.Ok? ==> p.Parsed? && r.value.typ == p.url.host && r.value.key.keyLabel == TrimPrefix(p.url.path, "/")
    ensures r.Ok? ==> r.value.typ in {TypeHotp, TypeTotp}
  {
    match p
    case Unparsable => Err(UrlParseError)
    case Parsed(u) =>
      if u.scheme != "otpauth" then Err(WrongScheme)
      else if u.host != TypeHotp && u.host != TypeTotp then Err(InvalidOtpType)
      else match Fold(u.query, order)
        case Err(e) => Err(e)
        case Ok(d) =>
          if d.secret.None? then Err(MissingSecret)
          else Ok(Imported(KeyValue(d.secret.value, TrimPrefix(u.path, "/"), d.issuer, d.algorithm, d.digits),
                           u.host, d.extra))
  }

  /** Scheme and host are the ones the import accepts. */
  predicate ValidHeader(u: Url)
  {
    u.scheme == "otpauth" && (u.host == TypeHotp || u.host == TypeTotp)
  }

  /** The parameter `name` of `q` is rejected. */
  predicate Bad(q: Values, name: string)
    requires name in q && q[name] != []
  {
    ParamError(name, q[name][0]).Some?
  }

  /** No parameter of `q` is rejected. */
  predicate NoBadParam(q: Values)
    requires WellFormedQuery(q)
  {
    forall n :: n in q ==> !Bad(q, n)
  }

  /** Some parameter is named secret, in any case. */
  predicate HasSecret(q: Values)
  {
    exists n :: n in q && Lower(n) == "secret"
  }

  /** The error of the first rejected parameter in `order`, scanning from the front. */
  function FirstError(q: Values, order: seq<string>): Option<ErrorCode>
    requires OrderIn(q, order)
  {
    if order == [] then None
    else match ParamError(order[0], q[order[0]][0])
      case Some(e) => Some(e)
      case None => FirstError(q, order[1..])
  }

  lemma {:induction false} FirstErrorOfAppend(q: Values, order: seq<string>, name: string)
    requires OrderIn(q, order) && name in q
    ensures OrderIn(q, order + [name])
    ensures FirstError(q, order + [name])
            == if FirstError(q, order).Some? then FirstError(q, order) else ParamError(name, q[name][0])
  {
    if order != [] {
      assert (order + [name])[1..] == order[1..] + [name];
      FirstErrorOfAppend(q, order[1..], name);
    }
  }

  /** The loop fails exactly when some visited parameter is rejected, with the first one's error. */
  lemma {:induction false} FoldIsFirstError(q: Values, order: seq<string>)
    requires OrderIn(q, order)
    ensures Fold(q, order).Err? <==> FirstError(q, order).Some?
    ensures Fold(q, order).Err? ==> Fold(q, order).error == FirstError(q, order).value
  {
    if order != [] {
      var pre, last := order[..|order| - 1], order[|order| - 1];
      assert order == pre + [last];
      FoldIsFirstError(q, pre);
      FirstErrorOfAppend(q, pre, last);
      if Fold(q, pre).Ok? {
        StepFailsOnParamError(Fold(q, pre).value, last, q[last][0]);
      }
    }
  }

  /** FirstError finds a rejected parameter if there is one, and none is rejected before it. */
  lemma {:induction false} FirstErrorIsFirstBad(q: Values, order: seq<string>)
    requires OrderIn(q, order)
    ensures FirstError(q, order).Some? <==> exists i :: 0 <= i < |order| && Bad(q, order[i])
    ensures FirstError(q, order).Some? ==>
              exists i :: 0 <= i < |order| && ParamError(order[i], q[order[i]][0]) == FirstError(q, order)
                          && forall j :: 0 <= j < i ==> !Bad(q, order[j])
  {
    if order != [] && !Bad(q, order[0]) {
      var tail := order[1..];
      FirstErrorIsFirstBad(q, tail);
      if FirstError(q, tail).Some? {
        var i :| 0 <= i < |tail| && ParamError(tail[i], q[tail[i]][0]) == FirstError(q, tail)
                 && forall j :: 0 <= j < i ==> !Bad(q, tail[j]);
        assert tail[i] == order[i + 1];
        forall j | 0 <= j < i + 1
          ensures !Bad(q, order[j])
        {
          if j > 0 {
            assert order[j] == tail[j - 1];
          }
        }
        assert Bad(q, order[i + 1]);
      } else {
        forall i | 0 <= i < |order|
          ensures !Bad(q, order[i])
        {
          if i > 0 {
            assert order[i] == tail[i - 1];
          }
        }
      }
    }
  }

  /** An error stays the outcome however many parameters the loop would still visit. */
  lemma {:induction false} FoldErrorPersists(q: Values, order: seq<string>, more: seq<string>)
    requires OrderIn(q, order) && OrderIn(q, more)
    requires Fold(q, order).Err?
    ensures OrderIn(q, order + more)
    ensures Fold(q, order + more) == Fold(q, order)
  {
    if more != [] {
      var all := order + more;
      var shorter := more[..|more| - 1];
      assert OrderIn(q, shorter);
      FoldErrorPersists(q, order, shorter);
      assert all[..|all| - 1] == order + shorter;
    } else {
      assert order + more == order;
    }
  }

  /** The first value of the last visited parameter whose lower-case name is `f`. */
  function Latest(q: Values, order: seq<string>, f: string): Option<string>
    requires OrderIn(q, order)
  {
    if order == [] then None
    else
      var n := order[|order| - 1];
      if Lower(n) == f then Some(q[n][0]) else Latest(q, order[..|order| - 1], f)
  }

  /** The parameters the import hands back: every visited name that is not special, first value only. */
  function ExtraOf(q: Values, order: seq<string>): Values
    requires OrderIn(q, order)
  {
    map n | n in q && n in order && !IsSpecial(n) :: [q[n][0]]
  }

  /** The value of an optional field, or its default. */
  function ValueOr(v: Option<string>, default: string): string
  {
    if v.Some? then v.value else default
  }

  /** Each field of `d` comes from the last visited parameter of its name, or is the default. */
  predicate Gathered(q: Values, order: seq<string>, d: Draft)
    requires OrderIn(q, order)
  {
    && (Latest(q, order, "secret").None? ==> d.secret.None?)
    && (Latest(q, order, "secret").Some? ==>
          d.secret.Some? && Base32.Decode(Latest(q, order, "secret").value) == Base32.Decoded(d.secret.value))
    && (Latest(q, order, "digits").None? ==> d.digits == DefaultDigits)
    && (Latest(q, order, "digits").Some? ==> Atoi(Latest(q, order, "digits").value) == Some(d.digits))
    && d.algorithm == ValueOr(Latest(q, order, "algorithm"), "")
    && d.issuer == ValueOr(Latest(q, order, "issuer"), "")
    && d.extra == ExtraOf(q, order)
  }

  /** Visiting one more parameter changes Latest only for the lower-case form of its name. */
  lemma LatestStep(q: Values, pre: seq<string>, last: string, f: string)
    requires OrderIn(q, pre) && last in q
    ensures OrderIn(q, pre + [last])
    ensures Latest(q, pre + [last], f) == if Lower(last) == f then Some(q[last][0]) else Latest(q, pre, f)
  {
    var order := pre + [last];
    assert order[..|order| - 1] == pre;
  }

  /** Visiting one more parameter adds it to the extra parameters unless its name is special. */
  lemma ExtraStep(q: Values, pre: seq<string>, last: string)
    requires OrderIn(q, pre) && last in q
    ensures OrderIn(q, pre + [last])
    ensures ExtraOf(q, pre + [last])
            == if IsSpecial(last) then ExtraOf(q, pre) else ExtraOf(q, pre)[last := [q[last][0]]]
  {
    var order := pre + [last];
    assert forall m :: m in order <==> m in pre || m == last;
  }

  /** One more successful step keeps the description of what was gathered. */
  lemma GatheredStep(q: Values, pre: seq<string>, last: string, d0: Draft)
    requires OrderIn(q, pre) && last in q
    requires Gathered(q, pre, d0)
    requires Step(d0, last, q[last][0]).Ok?
    ensures OrderIn(q, pre + [last])
    ensures Gathered(q, pre + [last], Step(d0, last, q[last][0]).value)
  {
    LatestStep(q, pre, last, "secret");
    LatestStep(q, pre, last, "digits");
    LatestStep(q, pre, last, "algorithm");
    LatestStep(q, pre, last, "issuer");
    ExtraStep(q, pre, last);
  }

  /** When the loop succeeds, what it gathered is described by the parameters alone. */
  lemma {:induction false} FoldGathers(q: Values, order: seq<string>)
    requires OrderIn(q, order)
    requires Fold(q, order).Ok?
    ensures Gathered(q, order, Fold(q, order).value)
  {
    if order != [] {
      var pre, last := order[..|order| - 1], order[|order| - 1];
      assert order == pre + [last];
      FoldGathers(q, pre);
      GatheredStep(q, pre, last, Fold(q, pre).value);
    }
  }

  /** Latest finds a value exactly when some visited name has that lower-case form. */
  lemma {:induction false} LatestFound(q: Values, order: seq<string>, f: string)
    requires OrderIn(q, order)
    ensures Latest(q, order, f).Some? <==> exists i :: 0 <= i < |order| && Lower(order[i]) == f
  {
    if order != [] {
      var pre := order[..|order| - 1];
      LatestFound(q, pre, f);
      if exists i :: 0 <= i < |pre| && Lower(pre[i]) == f {
        var i :| 0 <= i < |pre| && Lower(pre[i]) == f;
        assert order[i] == pre[i];
      }
      if exists i :: 0 <= i < |order| - 1 && Lower(order[i]) == f {
        var i :| 0 <= i < |order| - 1 && Lower(order[i]) == f;
        assert order[i] == pre[i];
      }
    }
  }

  /** When one visited name has the lower-case form `f`, Latest is its first value. */
  lemma {:induction false} LatestUnique(q: Values, order: seq<string>, f: string, n: string)
    requires OrderIn(q, order)
    requires n in order && Lower(n) == f
    requires forall i :: 0 <= i < |order| && Lower(order[i]) == f ==> order[i] == n
    ensures Latest(q, order, f) == Some(q[n][0])
  {
    var pre, last := order[..|order| - 1], order[|order| - 1];
    if last != n {
      assert order == pre + [last];
      assert n in pre;
      LatestUnique(q, pre, f, n);
    }
  }

  /** Under an enumeration the extra parameters are all the non-special ones. */
  lemma ExtraOfEnumeration(q: Values, order: seq<string>)
    requires OrderIn(q, order) && Enumerates(order, q.Keys)
    ensures ExtraOf(q, order) == map n | n in q && !IsSpecial(n) :: [q[n][0]]
  {
  }

  /**
    With a valid scheme and host, whatever the order: the import succeeds exactly when no
    parameter is rejected and some parameter is named secret; it reports a missing secret
    exactly when none is rejected and none is named secret; and otherwise it reports the
    error of the first rejected parameter of the order it used.
  */
  lemma ImportOutcome(u: Url, order: seq<string>)
    requires ValidHeader(u) && WellFormedQuery(u.query)
    requires Enumerates(order, u.query.Keys)
    ensures OrderIn(u.query, order)
    ensures ImportWithOrder(Parsed(u), order).Ok? <==> NoBadParam(u.query) && HasSecret(u.query)
    ensures ImportWithOrder(Parsed(u), order) == Err(MissingSecret) <==> NoBadParam(u.query) && !HasSecret(u.query)
    ensures !NoBadParam(u.query) ==>
              exists i :: 0 <= i < |order| && Bad(u.query, order[i])
                          && ImportWithOrder(Parsed(u), order) == Err(ParamError(order[i], u.query[order[i]][0]).value)
                          && forall j :: 0 <= j < i ==> !Bad(u.query, order[j])
  {
    ImportSucceeds(u, order);
    ImportReportsFirstBad(u, order);
  }

  /** The success and missing-secret halves of ImportOutcome. */
  lemma ImportSucceeds(u: Url, order: seq<string>)
    requires ValidHeader(u) && WellFormedQuery(u.query)
    requires Enumerates(order, u.query.Keys)
    ensures OrderIn(u.query, order)
    ensures ImportWithOrder(Parsed(u), order).Ok? <==> NoBadParam(u.query) && HasSecret(u.query)
    ensures ImportWithOrder(Parsed(u), order) == Err(MissingSecret) <==> NoBadParam(u.query) && !HasSecret(u.query)
  {
    var q := u.query;
    FoldIsFirstError(q, order);
    FirstErrorIsFirstBad(q, order);
    BadInOrder(q, order);
    StepErrorsAreNotMissingSecret(q, order);
    if Fold(q, order).Ok? {
      FoldGathers(q, order);
      SecretInOrder(q, order);
    }
  }

  /** The loop never fails with MissingSecret: that error comes only after it. */
  lemma StepErrorsAreNotMissingSecret(q: Values, order: seq<string>)
    requires OrderIn(q, order)
    ensures FirstError(q, order) != Some(MissingSecret)
  {
    if order != [] {
      StepErrorsAreNotMissingSecret(q, order[1..]);
    }
  }

  /** The rejected-parameter half of ImportOutcome. */
  lemma ImportReportsFirstBad(u: Url, order: seq<string>)
    requires ValidHeader(u) && WellFormedQuery(u.query)
    requires Enumerates(order, u.query.Keys)
    ensures OrderIn(u.query, order)
    ensures !NoBadParam(u.query) ==>
              exists i :: 0 <= i < |order| && Bad(u.query, order[i])
                          && ImportWithOrder(Parsed(u), order) == Err(ParamError(order[i], u.query[order[i]][0]).value)
                          && forall j :: 0 <= j < i ==> !Bad(u.query, order[j])
  {
    var q := u.query;
    FoldIsFirstError(q, order);
    FirstErrorIsFirstBad(q, order);
    BadInOrder(q, order);
  }

  /** Under an enumeration some parameter is rejected exactly when some visited one is. */
  lemma BadInOrder(q: Values, order: seq<string>)
    requires OrderIn(q, order) && Enumerates(order, q.Keys)
    ensures NoBadParam(q) <==> forall i :: 0 <= i < |order| ==> !Bad(q, order[i])
  {
    if !NoBadParam(q) {
      var n :| n in q && Bad(q, n);
      assert n in order;
    }
  }

  /** Under an enumeration some parameter is named secret exactly when Latest finds one. */
  lemma SecretInOrder(q: Values, order: seq<string>)
    requires OrderIn(q, order) && Enumerates(order, q.Keys)
    ensures HasSecret(q) <==> Latest(q, order, "secret").Some?
  {
    LatestFound(q, order, "secret");
    if HasSecret(q) {
      var n :| n in q && Lower(n) == "secret";
      assert n in order;
    }
  }

  /** No two distinct parameters share the lower-case form of a special name. */
  predicate SpecialNamesUnique(q: Values)
  {
    forall m, n :: m in q && n in q && IsSpecial(m) && Lower(m) == Lower(n) ==> m == n
  }

  /** With unique special names, Latest does not depend on the enumeration. */
  lemma LatestOrderIndependent(q: Values, o1: seq<string>, o2: seq<string>, f: string)
    requires OrderIn(q, o1) && Enumerates(o1, q.Keys)
    requires OrderIn(q, o2) && Enumerates(o2, q.Keys)
    requires SpecialNamesUnique(q) && f in {"secret", "digits", "algorithm", "issuer"}
    ensures Latest(q, o1, f) == Latest(q, o2, f)
  {
    LatestFound(q, o1, f);
    LatestFound(q, o2, f);
    if n :| n in q && Lower(n) == f {
      LatestUnique(q, o1, f, n);
      LatestUnique(q, o2, f, n);
    }
  }

  /**
    With unique special names the order of the map iteration does not matter:
    an import that succeeds in one order succeeds with the same key in every order.
  */
  lemma ImportOrderIndependent(u: Url, o1: seq<string>, o2: seq<string>)
    requires WellFormedQuery(u.query) && SpecialNamesUnique(u.query)
    requires Enumerates(o1, u.query.Keys) && Enumerates(o2, u.query.Keys)
    ensures OrderIn(u.query, o1) && OrderIn(u.query, o2)
    ensures ImportWithOrder(Parsed(u), o1).Ok? ==> ImportWithOrder(Parsed(u), o1) == ImportWithOrder(Parsed(u), o2)
  {
    var q := u.query;
    if ImportWithOrder(Parsed(u), o1).Ok? {
      ImportOutcome(u, o1);
      ImportOutcome(u, o2);
      FoldGathers(q, o1);
      FoldGathers(q, o2);
      LatestOrderIndependent(q, o1, o2, "secret");
      LatestOrderIndependent(q, o1, o2, "digits");
      LatestOrderIndependent(q, o1, o2, "algorithm");
      LatestOrderIndependent(q, o1, o2, "issuer");
      ExtraOfEnumeration(q, o1);
      ExtraOfEnumeration(q, o2);
    }
  }

  /** The draft the key object and the loop variables stand for. */
  function DraftOf(k: OtpKey, hasKey: bool, params: Values): Draft
    reads k
  {
    Draft(if hasKey then Some(k.Key) else None, k.Issuer, k.Algorithm, k.Digits, params)
  }

  /**
    The body of the parameter loop for parameter `name` with first value `v`: updates the key
    in place, or reports why the parameter is rejected.
  */
  method Visit(k: OtpKey, hasKey: bool, params: Values, name: string, v: string)
    returns (err: Option<ErrorCode>, hasKey': bool, params': Values)
    modifies k
    ensures k.Label == old(k.Label)
    ensures Step(old(DraftOf(k, hasKey, params)), name, v)
            == if err.Some? then Err(err.value) else Ok(DraftOf(k, hasKey', params'))
  {
    hasKey', params' := hasKey, params;
    var n := Lower(name);
    if n == "secret" {
      var b := Base32.Decode(v);
      if b.Corrupt? {
        return Some(Base32Decoding), hasKey', params';
      }
      k.Key := b.bytes;
      hasKey' := true;
    } else if n == "digits" {
      var d := Atoi(v);
      if d.None? {
        return Some(InvalidDigits), hasKey', params';
      }
      k.Digits := d.value;
    } else if n == "algorithm" {
      var a := Lower(v);
      if a == "sha1" || a == "sha256" || a == "sha512" {
        k.Algorithm := v;
      } else {
        return Some(InvalidAlgorithm), hasKey', params';
      }
    } else if n == "issuer" {
      k.Issuer := v;
    } else {
      params' := Set(params, name, v);
    }
    err := None;
  }

  /** An `importOtpKey` result holding the new key object. */
  datatype ImportedKey = ImportedKey(key: OtpKey, typ: string, params: Values)

  /**
    `importOtpKey`: checks scheme and host, then visits the query parameters in some order,
    returning at the first rejected one; a secret must have appeared. The ghost `order` is the
    enumeration of the query the run corresponds to.
  */
  method ImportOtpKey(p: ParsedUrl) returns (r: Result<ImportedKey>, ghost order: seq<string>)
    requires p.Parsed? ==> WellFormedQuery(p.url.query)
    ensures p.Parsed? ==> Enumerates(order, p.url.query.Keys) && OrderIn(p.url.query, order)
    ensures r.Err? ==> ImportWithOrder(p, order) == Err(r.error)
    ensures r.Ok? ==> fresh(r.value.key)
                      && ImportWithOrder(p, order) == Ok(Imported(r.value.key.Value(), r.value.typ, r.value.params))
  {
    order := [];
    if p.Unparsable? {
      return Err(UrlParseError), order;
    }
    var u := p.url;
    if u.scheme != "otpauth" {
      order := EnumerationOf(u.query.Keys);
      return Err(WrongScheme), order;
    }
    if u.host != TypeHotp && u.host != TypeTotp {
      order := EnumerationOf(u.query.Keys);
      return Err(InvalidOtpType), order;
    }
    var k := new OtpKey(KeyValue([], TrimPrefix(u.path, "/"), "", "", DefaultDigits));
    var err, hasKey, params;
    err, hasKey, params, order := VisitAll(k, u.query);
    if err.Some? {
      return Err(err.value), order;
    }
    if !hasKey {
      return Err(MissingSecret), order;
    }
    r := Ok(ImportedKey(k, u.host, params));
  }

  /**
    The parameter loop of `importOtpKey`: visits the names of `q` in some order, updating `k`,
    and stops at the first rejected parameter. Its outcome is the fold over the ghost `order`,
    which lists every name once.
  */
  method VisitAll(k: OtpKey, q: Values) returns (err: Option<ErrorCode>, hasKey: bool, params: Values, ghost order: seq<string>)
    requires WellFormedQuery(q)
    requires DraftOf(k, false, map[]) == Start
    modifies k
    ensures k.Label == old(k.Label)
    ensures Enumerates(order, q.Keys) && OrderIn(q, order)
    ensures err.Some? ==> Fold(q, order) == Err(err.value)
    ensures err.None? ==> Fold(q, order) == Ok(DraftOf(k, hasKey, params))
  {
    order := [];
    hasKey := false;
    params := map[];
    var remaining := q.Keys;
    while remaining != {}
      invariant Visiting(q, remaining, order)
      invariant Fold(q, order) == Ok(DraftOf(k, hasKey, params))
      invariant k.Label == old(k.Label)
      decreases remaining
    {
      var name :| name in remaining;
      VisitingStep(q, remaining, order, name);
      remaining := remaining - {name};
      order := order + [name];
      err, hasKey, params := Visit(k, hasKey, params, name, q[name][0]);
      if err.Some? {
        order := Complete(q, order, remaining);
        return err, hasKey, params, order;
      }
    }
    VisitingDone(q, order);
    err := None;
  }

  /** Part way through the loop: `order` lists the visited names once each, `remaining` the others. */
  predicate Visiting(q: Values, remaining: set<string>, order: seq<string>)
  {
    && remaining <= q.Keys
    && (forall n :: n in q ==> (n in remaining <==> n !in order))
    && (forall i, j :: 0 <= i < j < |order| ==> order[i] != order[j])
    && OrderIn(q, order)
  }

  /** Visiting one more remaining name keeps the bookkeeping, and the fold extends by one step. */
  lemma VisitingStep(q: Values, remaining: set<string>, order: seq<string>, name: string)
    requires Visiting(q, remaining, order) && name in remaining
    ensures Visiting(q, remaining - {name}, order + [name])
    ensures (order + [name])[..|order|] == order
  {
    assert name !in order;
  }

  /** When nothing remains, the visited names are an enumeration of the query. */
  lemma VisitingDone(q: Values, order: seq<string>)
    requires Visiting(q, {}, order)
    ensures Enumerates(order, q.Keys)
  {
  }

  /**
    The enumeration a run that stopped early stands for: the names visited, then the rest in
    any order. Its outcome is the error the run stopped with.
  */
  ghost function Complete(q: Values, order: seq<string>, remaining: set<string>): (all: seq<string>)
    requires Visiting(q, remaining, order) && Fold(q, order).Err?
    ensures Enumerates(all, q.Keys) && OrderIn(q, all)
    ensures Fold(q, all) == Fold(q, order)
  {
    var rest := EnumerationOf(remaining);
    FoldErrorPersists(q, order, rest);
    assert forall n :: n in order + rest <==> n in order || n in rest;
    order + rest
  }

  /** The algorithm spelling a key has after `url` and import: kept for SHA-256 and SHA-512, "" otherwise. */
  function ExportedAlgorithm(a: string): (e: string)
    requires KnownAlgorithm(a)
    ensures KnownAlgorithm(e) && HashOf(e) == HashOf(a)
    ensures Lower(a) in {"sha256", "sha512"} ==> e == a
  {
    if IncludesAlgorithm(a) then a else ""
  }

  /** Each parameter with its first value only, as the import hands the other parameters back. */
  function FirstValues(params: Values): (r: Values)
    requires WellFormedQuery(params)
    ensures r.Keys == params.Keys
    ensures forall n :: n in params ==> r[n] == [params[n][0]]
  {
    map n | n in params :: [params[n][0]]
  }

  /** The names `url` adds are special, and written in lower case. */
  lemma WrittenNamesSpecial(k: KeyValue)
    ensures forall n :: n in Written(k) ==> Lower(n) == n && IsSpecial(n)
  {
    forall n | n in Written(k)
      ensures Lower(n) == n && IsSpecial(n)
    {
      LowerOfParameterName(n);
    }
  }

  /** The secret `url` writes is accepted: it is valid base32. */
  lemma SecretAccepted(name: string, key: seq<byte>)
    requires Lower(name) == "secret"
    ensures ParamError(name, Base32.Encode(key)).None?
  {
    Base32.DecodeEncode(key);
  }

  /** The digits `url` writes are accepted: they parse as an integer. */
  lemma DigitsAccepted(name: string, digits: int64)
    requires Lower(name) == "digits"
    ensures ParamError(name, Itoa(digits)).None?
  {
    ItoaRoundTrip(digits);
  }

  /** The algorithm `url` writes is accepted: it is a SHA-256 or SHA-512 spelling. */
  lemma AlgorithmAccepted(name: string, algorithm: string)
    requires Lower(name) == "algorithm" && IncludesAlgorithm(algorithm)
    ensures ParamError(name, algorithm).None?
  {
  }

  /** A name that is not special is never rejected. */
  lemma OrdinaryAccepted(n: string, v: string)
    requires !IsSpecial(n)
    ensures ParamError(n, v).None?
  {
  }

  /** A parameter `url` added for the key is accepted by the import. */
  lemma WrittenParamAccepted(k: KeyValue, typ: string, params: Values, n: string)
    requires typ == TypeTotp || typ == TypeHotp
    requires KnownAlgorithm(k.algorithm)
    requires WellFormedQuery(params) && forall m :: m in params ==> !IsSpecial(m)
    requires n in UrlOf(k, typ, params).query && n !in params
    ensures UrlOf(k, typ, params).query[n] != [] && !Bad(UrlOf(k, typ, params).query, n)
  {
    WrittenValueAccepted(k, UrlOf(k, typ, params).query, n);
  }

  /** The value `url` writes under one of its own names is there and is accepted. */
  lemma WrittenValueAccepted(k: KeyValue, q: Values, n: string)
    requires KnownAlgorithm(k.algorithm) && n in Written(k) && Written(k) <= q.Keys
    requires q["secret"] == [Base32.Encode(k.key)]
    requires k.digits != DefaultDigits ==> q["digits"] == [Itoa(k.digits)]
    requires IncludesAlgorithm(k.algorithm) ==> q["algorithm"] == [k.algorithm]
    requires k.issuer != "" ==> q["issuer"] == [k.issuer]
    ensures q[n] != [] && ParamError(n, q[n][0]).None?
  {
    WrittenCases(k, n);
    LowerOfParameterName(n);
    if n == "secret" {
      assert q[n][0] == Base32.Encode(k.key);
      SecretAccepted(n, k.key);
    } else if n == "digits" {
      assert q[n][0] == Itoa(k.digits);
      DigitsAccepted(n, k.digits);
    } else if n == "algorithm" {
      assert q[n][0] == k.algorithm;
      AlgorithmAccepted(n, k.algorithm);
    } else {
      assert n == "issuer" && k.issuer != "";
      IssuerAccepted(n, k.issuer);
    }
  }

  /** A name `url` writes is one of the four, each under the condition that makes `url` write it. */
  lemma WrittenCases(k: KeyValue, n: string)
    requires n in Written(k)
    ensures n == "secret" || (n == "digits" && k.digits != DefaultDigits)
            || (n == "algorithm" && IncludesAlgorithm(k.algorithm)) || (n == "issuer" && k.issuer != "")
  {
  }

  /** An issuer is never rejected. */
  lemma IssuerAccepted(name: string, v: string)
    requires Lower(name) == "issuer"
    ensures ParamError(name, v).None?
  {
    NamesDistinct();
  }

  /** A caller's parameter passes through `url` unchanged and is accepted by the import. */
  lemma KeptParamAccepted(k: KeyValue, typ: string, params: Values, n: string)
    requires typ == TypeTotp || typ == TypeHotp
    requires KnownAlgorithm(k.algorithm)
    requires WellFormedQuery(params) && forall m :: m in params ==> !IsSpecial(m)
    requires n in params
    ensures n in UrlOf(k, typ, params).query && UrlOf(k, typ, params).query[n] == params[n]
    ensures !Bad(UrlOf(k, typ, params).query, n)
  {
    WrittenNamesSpecial(k);
    OrdinaryAccepted(n, params[n][0]);
  }

  /** `url` writes no rejected parameter. */
  lemma UrlQueryAccepted(k: KeyValue, typ: string, params: Values)
    requires typ == TypeTotp || typ == TypeHotp
    requires KnownAlgorithm(k.algorithm)
    requires WellFormedQuery(params) && forall n :: n in params ==> !IsSpecial(n)
    ensures WellFormedQuery(UrlOf(k, typ, params).query)
    ensures NoBadParam(UrlOf(k, typ, params).query)
  {
    var q := UrlOf(k, typ, params).query;
    forall n | n in q
      ensures q[n] != [] && !Bad(q, n)
    {
      if n in params {
        KeptParamAccepted(k, typ, params, n);
      } else {
        WrittenParamAccepted(k, typ, params, n);
      }
    }
  }

  /** `url` writes a special name only in its lower-case spelling. */
  lemma UrlSpecialNames(k: KeyValue, typ: string, params: Values)
    requires typ == TypeTotp || typ == TypeHotp
    requires KnownAlgorithm(k.algorithm)
    requires forall n :: n in params ==> !IsSpecial(n)
    ensures forall n :: n in UrlOf(k, typ, params).query && IsSpecial(n) ==> n == Lower(n) && n in Written(k)
  {
    WrittenNamesSpecial(k);
    UrlOfKeys(k, typ, params);
  }

  /** When only `f` itself has the lower-case form `f`, Latest is the value of `f` if present. */
  lemma LatestOfLowerName(q: Values, order: seq<string>, f: string)
    requires OrderIn(q, order) && Enumerates(order, q.Keys)
    requires forall n :: n in q && Lower(n) == f ==> n == f
    requires Lower(f) == f
    ensures Latest(q, order, f) == if f in q then Some(q[f][0]) else None
  {
    if f in q {
      LatestUnique(q, order, f, f);
    } else {
      LatestFound(q, order, f);
    }
  }

  /** What the import needs to know of a query `url` wrote for key `k` over `params`. */
  predicate ExportedQuery(q: Values, k: KeyValue, params: Values)
  {
    && WellFormedQuery(q) && WellFormedQuery(params) && NoBadParam(q)
    && q.Keys == params.Keys + Written(k)
    && (forall n :: n in q && IsSpecial(n) ==> n == Lower(n) && n in Written(k))
    && (forall n :: n in params ==> !IsSpecial(n) && q[n] == params[n])
    && q["secret"] == [Base32.Encode(k.key)]
    && (k.digits != DefaultDigits ==> q["digits"] == [Itoa(k.digits)])
    && (IncludesAlgorithm(k.algorithm) ==> q["algorithm"] == [k.algorithm])
    && (k.issuer != "" ==> q["issuer"] == [k.issuer])
  }

  lemma UrlOfExported(k: KeyValue, typ: string, params: Values)
    requires typ == TypeTotp || typ == TypeHotp
    requires KnownAlgorithm(k.algorithm)
    requires WellFormedQuery(params) && forall n :: n in params ==> !IsSpecial(n)
    ensures ExportedQuery(UrlOf(k, typ, params).query, k, params)
  {
    UrlOfKeys(k, typ, params);
    UrlQueryAccepted(k, typ, params);
    UrlSpecialNames(k, typ, params);
    WrittenNamesSpecial(k);
  }

  /** In a query `url` wrote, the last value of a special name is the one `url` set, if it set one. */
  lemma ExportedLatest(q: Values, k: KeyValue, params: Values, order: seq<string>, f: string)
    requires ExportedQuery(q, k, params)
    requires OrderIn(q, order) && Enumerates(order, q.Keys)
    requires Lower(f) == f && IsSpecial(f)
    ensures Latest(q, order, f) == if f in Written(k) then Some(q[f][0]) else None
  {
    forall n | n in q && Lower(n) == f
      ensures n == f
    {
      assert IsSpecial(n);
    }
    LatestOfLowerName(q, order, f);
    if f !in Written(k) {
      assert f !in params;
    }
  }

  /** The parameter loop accepts everything `url` wrote. */
  lemma ExportedFoldOk(q: Values, k: KeyValue, params: Values, order: seq<string>)
    requires ExportedQuery(q, k, params)
    requires Enumerates(order, q.Keys)
    ensures OrderIn(q, order) && Fold(q, order).Ok?
  {
    assert OrderIn(q, order);
    FoldIsFirstError(q, order);
    FirstErrorIsFirstBad(q, order);
  }

  /** What the loop gathers from a query `url` wrote: the key's secret. */
  lemma ExportedSecret(q: Values, k: KeyValue, params: Values, order: seq<string>, d: Draft)
    requires ExportedQuery(q, k, params)
    requires OrderIn(q, order) && Enumerates(order, q.Keys) && Gathered(q, order, d)
    ensures d.secret == Some(k.key)
  {
    LowerOfParameterName("secret");
    ExportedLatest(q, k, params, order, "secret");
    Base32.DecodeEncode(k.key);
  }

  /** What the loop gathers from a query `url` wrote: the key's digits. */
  lemma ExportedDigits(q: Values, k: KeyValue, params: Values, order: seq<string>, d: Draft)
    requires ExportedQuery(q, k, params)
    requires OrderIn(q, order) && Enumerates(order, q.Keys) && Gathered(q, order, d)
    ensures d.digits == k.digits
  {
    LowerOfParameterName("digits");
    ExportedLatest(q, k, params, order, "digits");
    ItoaRoundTrip(k.digits);
  }

  /** What the loop gathers from a query `url` wrote: algorithm and issuer. */
  lemma ExportedNames(q: Values, k: KeyValue, params: Values, order: seq<string>, d: Draft)
    requires ExportedQuery(q, k, params) && KnownAlgorithm(k.algorithm)
    requires OrderIn(q, order) && Enumerates(order, q.Keys) && Gathered(q, order, d)
    ensures d.algorithm == ExportedAlgorithm(k.algorithm)
    ensures d.issuer == k.issuer
  {
    LowerOfParameterName("algorithm");
    ExportedLatest(q, k, params, order, "algorithm");
    LowerOfParameterName("issuer");
    ExportedLatest(q, k, params, order, "issuer");
  }

  /** What the loop gathers from a query `url` wrote: the caller's parameters. */
  lemma ExportedExtra(q: Values, k: KeyValue, params: Values, order: seq<string>)
    requires WellFormedQuery(q) && WellFormedQuery(params)
    requires q.Keys == params.Keys + Written(k)
    requires forall n :: n in params ==> !IsSpecial(n) && q[n] == params[n]
    requires OrderIn(q, order) && Enumerates(order, q.Keys)
    ensures ExtraOf(q, order) == FirstValues(params)
  {
    ExtraOfEnumeration(q, order);
    WrittenNamesSpecial(k);
  }

  /** The parameter loop run over what `url` wrote gathers the key's own fields. */
  lemma ExportedFold(q: Values, k: KeyValue, params: Values, order: seq<string>)
    requires ExportedQuery(q, k, params) && KnownAlgorithm(k.algorithm)
    requires Enumerates(order, q.Keys)
    ensures OrderIn(q, order)
    ensures Fold(q, order) == Ok(Draft(Some(k.key), k.issuer, ExportedAlgorithm(k.algorithm), k.digits, FirstValues(params)))
  {
    ExportedFoldOk(q, k, params, order);
    FoldGathers(q, order);
    var d := Fold(q, order).value;
    ExportedSecret(q, k, params, order, d);
    ExportedDigits(q, k, params, order, d);
    ExportedNames(q, k, params, order, d);
    ExportedExtra(q, k, params, order);
  }

  /**
    Importing what `url` wrote gives the key back, whatever the order of the map iteration:
    label, secret, issuer and digits as they were, the algorithm spelling as ExportedAlgorithm
    says, the type, and the caller's parameters with their first values.
  */
  lemma ImportUrlRoundTrip(k: KeyValue, typ: string, params: Values, order: seq<string>)
    requires typ == TypeTotp || typ == TypeHotp
    requires KnownAlgorithm(k.algorithm)
    requires WellFormedQuery(params) && forall n :: n in params ==> !IsSpecial(n)
    requires Enumerates(order, UrlOf(k, typ, params).query.Keys)
    ensures OrderIn(UrlOf(k, typ, params).query, order)
    ensures ImportWithOrder(Parsed(UrlOf(k, typ, params)), order)
            == Ok(Imported(k.(algorithm := ExportedAlgorithm(k.algorithm)), typ, FirstValues(params)))
  {
    UrlOfExported(k, typ, params);
    ExportedFold(UrlOf(k, typ, params).query, k, params, order);
    TrimAddedPrefix("/", k.keyLabel);
  }
}
