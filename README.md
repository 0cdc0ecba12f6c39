# OTP keys: HOTP (RFC 4226) and TOTP (RFC 6238), in Dafny

This project models the core of the Go package `otp` and proves properties of the model. The package
creates HOTP and TOTP keys, exports them as `otpauth://` provisioning URLs, imports them back, and
derives one-time codes from them.

- **`otp.go`** defines the common key (`otpKey`: secret, label, issuer, algorithm name, digit count).
  - Construction with defaults: `newOtpKey`.
  - The base32 secret codec: `Key32`, `SetKey32`.
  - URL export: `url`.
  - URL import: `importOtpKey`.
  - The HMAC dynamic truncation: `hashTruncateInt`.
  - The type-independent entry points `NewKey` and `ImportKey`.
- **`hotp.go`** adds a counter that the caller advances between codes.
- **`totp.go`** adds a time step length in seconds, `Period`. A time's code is the HOTP code of its step number.

## Modules

- `Wrappers` — `Option`.
- `Bytes`:
  - bytes as the integers 0 to 255, 64-bit integers and their two's-complement reinterpretation;
  - big-endian encoding, `binary.BigEndian.PutUint64` (on an array) and `Uint32`;
  - the wrap-around of Go's `int`.
- `Strings` — `strings.ToLower` for the code points that lower to ASCII, and `strings.TrimPrefix`.
- `Strconv` — `strconv.Itoa` and `strconv.Atoi`, both on 64-bit values.
- `Base32` — section 6 of RFC 4648, standard alphabet with `=` padding, written at the level of bits.
- `NetUrl` — `url.Values` as a map from a name to its list of values, with `Get` and `Set`, and a parsed URL record.
- `Otp`:
  - the error codes;
  - `newOtpKey`;
  - the query that `url` writes;
  - the truncation and the code.
  - The class `OtpKey` carries the fields that `SetKey32` and the import update in place.
- `OtpImport`:
  - `importOtpKey` as a loop over the query map;
  - the loop's specification, a left fold over the order in which the map is visited;
  - lemmas on the outcome, on order independence and on the export/import round trip.
- `Hotp` — the class `Hotp` with its mutable `Counter`, construction, import and export.
- `Totp` — a TOTP key as a value: construction, import, export and the time-based code.
- `Factory` — `Key`, `NewKey`, `NewKeyWithDefaults` and `ImportKey`.

## How effects are modelled

- **HMAC.** HMAC-SHA-1/256/512 is the parameter `mac: Mac`. It is a function from (hash, key, message) to a digest, constrained only to return the hash's digest size (20, 32 or 64 bytes).
- **Randomness.** `crypto/rand.Read` is the parameter `random: RandomRead`: either a read error or the bytes that were read.
- **Clock.** The clock `timeNow` is the parameter `now` of `Totp.Code`.
- **Map iteration order.** Go visits a map's entries in an unspecified order. The parameter loop of `ImportOtpKey` (`VisitAll`) chooses the next name nondeterministically and returns the order it used as a ghost out-parameter. Its result is tied to `ImportWithOrder(p, order)`.
  - `ImportOutcome` proves that success and `MissingSecret` do not depend on the order. On any other failure, the first bad parameter in that order decides the error.
  - `ImportOrderIndependent` proves that the successful result does not depend on the order when no two parameter names differ only in case.
- **URLs.** A URL is the record `Url(scheme, host, path, query)`. The parse failure of `url.Parse` is the case `Unparsable`.

## Model

| member | source | states |
|---|---|---|
| Bytes.ToUint64 | otp.go:265 | `uint64(i)`: non-negative values unchanged, negative ones plus 2^64, always below 2^64 |
| Bytes.BigEndianRoundTrip | otp.go:265 | reading back the n-byte big-endian encoding of u < 256^n gives u |
| Bytes.DistinctCountersDistinctMessages | otp.go:264-265 | distinct counters give distinct 8-byte HMAC messages |
| Bytes.PutUint64 | otp.go:264-265 | the 8-byte buffer becomes the big-endian encoding of the value |
| Bytes.Uint32 | hotp.go:74 | the big-endian value of 4 bytes is below 2^32, and below 2^31 when the top bit of the first byte is clear |
| Bytes.Uint32IsBigEndianValue | hotp.go:74 | `binary.BigEndian.Uint32` agrees with the general big-endian value |
| Bytes.Wrap64 | hotp_test.go:92-93 | Go `int` addition: the result is congruent to the sum modulo 2^64, lies in the int64 range, and is the sum itself when no overflow occurs |
| Strings.Lower | otp.go:163 | lower-casing character by character, same length: ASCII capitals, U+0130 to 'i' and the Kelvin sign U+212A to 'k' |
| Strings.LowerOfLowerCase | otp.go:163-164 | lower-casing a string without ASCII capitals, U+0130 or U+212A leaves it unchanged |
| Strings.LowerOfParameterName | otp.go:163-190 | the parameter names the code compares against are their own lower case |
| Strings.TrimPrefix | otp.go:157 | the prefix is removed exactly when the string starts with it |
| Strings.TrimAddedPrefix | otp.go:157 | trimming "/" from "/" + label gives the label back |
| Strconv.Itoa | otp.go:227 | a non-empty decimal string that starts with a digit exactly for non-negative numbers |
| Strconv.Atoi | otp.go:175 | parses exactly the numerals (an optional sign, then at least one digit) whose value lies in the int64 range, and gives that value |
| Strconv.ItoaRoundTrip | otp.go:175-227 | `Atoi(Itoa(n)) == n` for every 64-bit n, so exported digits and counters import back |
| Base32.Encode | otp.go:205 | the encoding has a length that is a multiple of 8 and uses only the alphabet and `=` |
| Base32.QuantumRoundTrip | otp.go:205-210 | each 8-character quantum decodes back to the 1 to 5 bytes it encodes |
| Base32.DecodeEncode | otp.go:205-210 | decoding `Key32()` gives the secret back, for every secret |
| Base32.EncodeDecodeUnpadded | otp.go:208-210 | an unpadded string of whole quanta decodes, and re-encodes to itself |
| NetUrl.Get | hotp.go:37 | `Values.Get`: the first value of the name, or "" when it is absent |
| NetUrl.Set | otp.go:225-239 | `Values.Set`: the name gets exactly one value; other names are untouched |
| Otp.DigestSize | otp.go:254-260 | every supported digest is at least 20 bytes, so bytes 19 and offset+4 exist |
| Otp.HashOf | otp.go:254-260 | the hash is SHA-256 or SHA-512 exactly for those spellings, in any case, and SHA-1 exactly for "" and "sha1" |
| Otp.KeyLength | otp.go:106-110 | the key length is `keyLen` if positive, else 10 |
| Otp.NewOtpKey | otp.go:96-133 | errors in order: empty label, unknown algorithm, random read error, short read. Succeeds iff none applies. On success: the random bytes of the defaulted length, label/issuer/algorithm unchanged, digits defaulted to 6 when not positive |
| Otp.Written | otp.go:225-240 | `url` always writes `secret`, and writes `digits` iff not 6, `algorithm` iff a SHA-256/512 spelling, `issuer` iff not empty |
| Otp.UrlOf | otp.go:217-249 | scheme `otpauth`, host = type, path = "/" + label; the written values are the base32 secret, decimal digits (when not 6), the algorithm as spelled (for SHA-256/SHA-512) and the issuer (when set); caller values not overwritten are kept |
| Otp.UrlOfKeys | otp.go:222-240 | the query's names are exactly the caller's names plus the names `url` writes for the key |
| Otp.Message | otp.go:264-265 | the HMAC message is 8 bytes |
| Otp.Offset | otp.go:271 | the offset comes from the low nibble of byte 19, so it is at most 15 and the 4 bytes fit in any digest |
| Otp.LastByteOffset | otp.go:271 | RFC 6238's offset from the digest's last byte, as a reference point |
| Otp.TruncateAt | otp.go:272-274 | 4 bytes copied from the offset, with the first byte's top bit cleared |
| Otp.TruncateIsLow31Bits | otp.go:272-274 | the truncated value is the 4 digest bytes' big-endian value modulo 2^31 |
| Otp.Truncate | otp.go:270-275 | dynamic truncation yields 4 bytes with the top bit clear |
| Otp.OffsetIsRfcOffsetForSha1 | otp.go:271 | for a 20-byte SHA-1 digest, byte 19 is the last byte, so the result is RFC 4226's truncation |
| Otp.OffsetDiffersFromRfcForSha256 | otp.go:271 | there is a 32-byte digest for which the byte-19 offset and RFC 6238's last-byte offset truncate differently |
| Otp.HashTruncate | otp.go:252-276 | `hashTruncateInt` as a value: 4 bytes, top bit clear |
| Otp.CodeAt | hotp.go:72-75 | the code is below 10^digits and below 2^31 |
| Otp.CodeDependsOnlyOnHashInput | otp.go:254-266 | two keys with the same secret, digit count and selected hash give the same code at every counter, however the algorithm is spelled |
| Otp.CopyTruncated | otp.go:271-274 | the copy loop into a 4-byte buffer, then the mask, yields exactly the truncation |
| Otp.OtpKey.constructor | otp.go:126-132 | the new key holds the given fields |
| Otp.OtpKey.Key32 | otp.go:205 | the exported secret decodes back to the key |
| Otp.OtpKey.SetKey32 | otp.go:208-214 | the secret becomes the decoded bytes (a partial result on failure, not the old secret); the error is `Base32Decoding` iff decoding fails; the other fields are unchanged |
| Otp.OtpKey.Url | otp.go:217-249 | the method builds exactly `UrlOf` of the key's current fields |
| Otp.OtpKey.HashTruncateInt | otp.go:252-276 | the buffer-based computation equals `HashTruncate`, and its big-endian value is below 2^31 |
| OtpImport.StepFailsOnParamError | otp.go:163-194 | one loop step fails iff its parameter is a bad secret, a non-integer digits value or an unknown algorithm, and then with that error |
| OtpImport.ImportWithOrder | otp.go:136-202 | header errors in priority: parse, then scheme, then type; on success typ = host, label = path without one leading "/", and typ is hotp or totp |
| OtpImport.FirstErrorOfAppend | otp.go:162-195 | the first error of a longer visit is the earlier first error, else the new parameter's error |
| OtpImport.FoldIsFirstError | otp.go:162-195 | the loop fails iff some visited parameter is bad, and it fails with the first such error |
| OtpImport.FirstErrorIsFirstBad | otp.go:162-195 | that error belongs to the first bad parameter in visiting order |
| OtpImport.FoldErrorPersists | otp.go:168-170 | after an error nothing later changes the outcome (the loop returns) |
| OtpImport.GatheredStep | otp.go:164-193 | each loop step keeps the draft equal to the last-visited value for each special name, and the first value for every other name |
| OtpImport.FoldGathers | otp.go:162-195 | after the loop, each field holds the value of the last visited name that lower-cases to it, and other names keep their first value |
| OtpImport.LatestFound | otp.go:163-190 | a field is set iff some visited name lower-cases to it |
| OtpImport.LatestUnique | otp.go:163-190 | when one name spells the field, the field holds that name's first value |
| OtpImport.ExtraOfEnumeration | otp.go:191-193 | the returned parameters are exactly the non-special names, each with its first value |
| OtpImport.ImportOutcome | otp.go:161-200 | for a valid header: success iff no parameter is bad and a secret is present; `MissingSecret` iff none is bad and no secret is present; otherwise the first bad parameter in visiting order gives the error |
| OtpImport.LatestOrderIndependent | otp.go:162-190 | each field's value does not depend on the visiting order when each field has one spelling |
| OtpImport.ImportOrderIndependent | otp.go:162-201 | under the same condition, a successful import does not depend on the visiting order |
| OtpImport.Visit | otp.go:163-194 | one loop iteration on the key object performs exactly the specification's step and leaves the label alone |
| OtpImport.ImportOtpKey | otp.go:136-202 | the order visited enumerates the query; the error, or the new key's fields, type and remaining parameters, are those of `ImportWithOrder` for that order |
| OtpImport.VisitAll | otp.go:161-195 | the parameter loop visits every query name once, in the ghost order it returns; it stops with the error of the fold over that order, or ends with the key fields and extra parameters the fold gathers |
| OtpImport.ExportedAlgorithm | otp.go:181-236 | the algorithm spelling that comes back from a round trip selects the same hash; SHA-256/512 spellings come back unchanged |
| OtpImport.FirstValues | otp.go:193 | the remaining parameters keep every name, with its first value only |
| OtpImport.SecretAccepted | otp.go:164-172 | the secret `url` writes always imports |
| OtpImport.DigitsAccepted | otp.go:173-178 | the digits `url` writes always import |
| OtpImport.AlgorithmAccepted | otp.go:179-187 | the algorithm `url` writes always imports |
| OtpImport.OrdinaryAccepted | otp.go:191-193 | a parameter with no special name never fails the import |
| OtpImport.UrlQueryAccepted | otp.go:161-195 | no parameter of an exported URL is bad |
| OtpImport.ExportedFold | otp.go:161-195 | the import loop over an exported query yields the key's secret, issuer, digits, a same-hash algorithm and the caller's parameters |
| OtpImport.ImportUrlRoundTrip | otp.go:136-249 | importing what `url` wrote succeeds in every visiting order and returns the key (the algorithm only respelled), the type, and the caller's parameters |
| Hotp.CounterParams | hotp.go:65 | the extra parameter is `counter` alone, and it parses back to the counter |
| Hotp.ImportCounter | hotp.go:34-47 | an absent counter gives `MissingCounter`; a non-integer one gives `InvalidCounter`; otherwise the parsed value |
| Hotp.ImportHotpWithOrder | hotp.go:50-61 | import errors pass through; a valid totp URL gives `NotHotp`; after a successful hotp import, `MissingCounter` for no counter, `InvalidCounter` for an unparsable one, else the imported key with the parsed counter |
| Hotp.Hotp.constructor | hotp.go:26 | the new key holds the common key and the counter |
| Hotp.Hotp.Url | hotp.go:64-66 | `url` of the key with the counter as the one extra parameter; the counter parses back |
| Hotp.Hotp.String | hotp.go:69 | the same URL as `Url` |
| Hotp.Hotp.Code | hotp.go:72-75 | the code at the current counter, below 10^digits and 2^31 |
| Hotp.Hotp.CodeCounter | hotp_test.go:88-91 | the code at an explicit counter, whatever the current one |
| Hotp.Hotp.CodeN | hotp_test.go:92-96 | the code at the current counter plus n, with Go's wrap-around |
| Hotp.Hotp.Type | hotp.go:78 | "hotp" |
| Hotp.NewHotp | hotp.go:21-27 | exactly `newOtpKey`'s errors; otherwise fresh objects holding the new key and the counter as given |
| Hotp.NewHotpWithDefaults | hotp.go:30-32 | a 10-byte secret, SHA-1, 6 digits and counter 0; label, read-error (`CantReadRandom`) and short-read (`NotEnoughRandom`) errors as `newOtpKey` |
| Hotp.ImportHotpKey | hotp.go:34-47 | the counter errors, or a fresh `Hotp` sharing the imported key with the parsed counter |
| Hotp.ImportHotp | hotp.go:50-61 | the method's result is `ImportHotpWithOrder` for the order it visited |
| Hotp.HotpUrlRoundTrip | hotp.go:63-66 | importing `Url()` gives back the key and counter, the algorithm only respelled |
| Hotp.HotpRoundTripSameCodes | hotp.go:72-75 | the key that comes back produces the same code at every counter |
| Hotp.SampleSecretIsBase32 | hotp_test.go:63 | the sample secret is unpadded base32 of whole quanta |
| Hotp.DefaultKeyUrl | hotp.go:64-66 | for default digits, algorithm and issuer, the URL holds only the counter and the secret |
| Hotp.PlainHotpUrlIsWritten | hotp.go:64-66 | such a URL is the one `Url` writes for the key it describes |
| Hotp.PlainHotpUrlReproduced | hotp_test.go:63-71 | importing such a URL and writing it again gives the same URL, in every visiting order |
| Hotp.SampleUrlReproduced | hotp_test.go:63-71 | `otpauth://hotp/myKey?counter=0&secret=5STMOV5AVXA2IYVU`, imported and written again, is unchanged |
| Totp.GoDiv | totp.go:85 | Go's `/` on int64, for divisors of either sign: the remainder `a - q*b` is smaller than the divisor in magnitude and has the dividend's sign (rounding toward zero); MinInt64 / -1 wraps |
| Totp.Quot | totp.go:85 | the quotient `m` of naturals is the one with `m * y <= x < m * y + y` |
| Totp.GoDivIsFloorFromEpoch | totp.go:85 | from the epoch on, the step number is the floor of time over period |
| Totp.GoDivIsNotFloorBeforeEpoch | totp.go:85 | before the epoch it is not: second -1 falls in step 0, not -1 |
| Totp.Totp.Url | totp.go:73 | `url` with no extra parameter: host totp, no `period` in the query |
| Totp.Totp.String | totp.go:76 | the same URL as `Url` |
| Totp.Totp.CodePeriod | totp.go:79-82 | the HOTP code of step p (`CodeAt`, as `Hotp.Code` at counter p), below 10^digits and 2^31 |
| Totp.Totp.CodeTime | totp.go:85 | the code of the step computed by Go's division |
| Totp.Totp.Code | totp.go:87-90 | the code at the time given as now |
| Totp.Totp.Type | totp.go:93 | "totp" |
| Totp.CodeTimeFromEpoch | totp.go:85 | from the epoch on, `CodeTime(t)` is `CodePeriod(t / period)` |
| Totp.SameStepSameCode | totp.go:85 | two non-negative times in the same step give the same code |
| Totp.StepOfTime | totp.go:85 | a time in [q·p, q·p + p) lies in step q |
| Totp.NewTotp | totp.go:29-40 | exactly `newOtpKey`'s errors; otherwise the new key with the period if positive, else 30 |
| Totp.NewTotpWithDefaults | totp.go:43-45 | a 10-byte secret, SHA-1, 6 digits and 30 seconds; label, read-error (`CantReadRandom`) and short-read (`NotEnoughRandom`) errors as `newOtpKey` |
| Totp.ImportPeriod | totp.go:49-56 | an absent period gives 30; a non-integer one gives `InvalidPeriod`; any integer, even 0 or negative, is kept |
| Totp.ImportTotpKey | totp.go:47-58 | `InvalidPeriod` for an unparsable period, else exactly the given key with the period `ImportPeriod` reads |
| Totp.ImportTotpWithOrder | totp.go:61-70 | import errors pass through; a valid hotp URL gives `NotTotp`; after a successful totp import, `InvalidPeriod` for an unparsable period, else the imported key with the period read (30 when absent) |
| Totp.ImportTotp | totp.go:61-70 | the method's result is `ImportTotpWithOrder` for the order it visited |
| Totp.TotpUrlRoundTrip | totp.go:73 | importing `Url()` gives back the key, the algorithm only respelled, with period 30 whatever the period was |
| Factory.Key.Type | otp.go:279-287 | "hotp" exactly for HOTP keys and "totp" exactly for TOTP keys |
| Factory.StateOf | otp.go:279-287 | a key's value has the same kind as the key |
| Factory.RequestedPeriod | otp.go:294-328 | an absent `period` gives 0, which `NewTotp` turns into 30; a non-integer one gives `InvalidPeriod` |
| Factory.NewKeyState | otp.go:294-328 | an unknown type gives `InvalidOtpType`. totp: the period error, then `NewTotp`. hotp: the counter errors (`MissingCounter`, `InvalidCounter`), then `newOtpKey` with the parsed counter |
| Factory.NewKeyDefaultPeriod | otp.go:294-328 | a TOTP key from `NewKey` has a positive period: the requested one when positive, else 30 |
| Factory.NewKey | otp.go:294-328 | the method's result is `NewKeyState` |
| Factory.NewKeyWithDefaults | otp.go:331-333 | `NewKey` with key length 0, algorithm "" and digits 0 |
| Factory.ImportKeyWithOrder | otp.go:336-345 | import errors pass through; the result is the TOTP key iff `ImportTotp` accepts, the HOTP key iff `ImportHotp` accepts, and it fails iff both fail; its kind follows the host; for a totp host it is `ImportTotp`'s result and for any other URL `ImportHotp`'s, errors included |
| Factory.ImportKeyCounterErrors | otp.go:336-345 | a HOTP URL whose common part imports fails with `MissingCounter` without a counter and with `InvalidCounter` for a non-numeral counter such as "asd" |
| Factory.ImportKey | otp.go:336-345 | the method's result is `ImportKeyWithOrder` for the order it visited |
| Factory.ImportKeyOfHotpUrl | otp.go:336-345 | an exported HOTP key comes back through `ImportKey` as a HOTP key with its counter |
| Factory.ImportKeyOfTotpUrl | otp.go:336-345 | an exported TOTP key comes back through `ImportKey` as a TOTP key with period 30 |
| Factory.HotpAndTotpImportSameKey | totp.go:79-82 | one URL read as hotp and as totp gives the same common key, so `Hotp.Code` at c equals `CodePeriod(c)` |

## Left out

- HMAC and the SHA hashes are the parameter `mac`, not computed. Only their digest sizes are modelled. Codes are therefore stated relative to `mac`; no concrete code value (such as 453613) is derived.
- `crypto/rand` is the parameter `random`, which gives either a read error or the bytes read. A short read is `NotEnoughRandom`.
- URL string syntax is not modelled: escaping, `url.Parse`, `URL.String`, and the sorting done by `Values.Encode`. A URL is a parsed record, and a parse failure is `Unparsable`.
- `Strings.Lower`: lowers the ASCII capitals, U+0130 and U+212A only. Go's `strings.ToLower` also lowers other non-ASCII letters, but always to non-ASCII code points, so it decides comparisons with the ASCII parameter and algorithm names just as the model does. A lowered string that is not compared (none is kept) may differ from Go's.
- `Base32.Decode`: accepts only canonical input. That is whole 8-character quanta, with `=` only in the last quantum, in a count of 0, 1, 3, 4 or 6, plus stripped newlines. The model rejects every other shape. Whatever Go's decoder does with other shapes is not modelled, nor is its error position.
- `Otp.CodeAt`: `math.Pow10` is a float. The model computes 10^digits exactly and requires 0 <= digits <= 18. Beyond that, Go's `int(math.Pow10(d))` conversion is not modelled.
- Negative digit counts can come from an import. They are not covered by the code functions.
- `Totp.Totp.CodeTime`: requires a non-zero period. Go panics on division by zero, and an imported period of 0 is possible.
- The clock (`timeNow`) is the `now` parameter of `Totp.Totp.Code`. `time.Time` is given as Unix seconds.
- `Error.Error()` message formatting and the wrapped inner errors are left out. Errors are their codes only.
- `Otp.UrlOf`: Go's `url` writes into the caller's `params` map, so the map is modified as a side effect. The model returns the resulting query and leaves the caller's map as a value.
- `Otp.UrlOf` requires a known algorithm and a hotp/totp type. Go panics otherwise, and the model does not represent the panic.
- The `Totp` key is a value, so a `Totp` does not share its common key object the way Go's embedded `*otpKey` does. `SetKey32` on a TOTP key is `OtpKey.SetKey32` followed by building a new value.
- Both importers share the key object created by the import (`Hotp.ImportHotpKey` keeps it). The model does not cover aliasing beyond that.
- `Hotp.ImportCounter`: `hotp.go` names `ECBadCounter`, which the error constants do not declare. The model uses `InvalidCounter`, the declared code for an unparsable counter.
- `Hotp.Hotp.CodeCounter` and `Hotp.Hotp.CodeN` are not defined in `hotp.go`. They are modelled as the tests use them (hotp_test.go:88-96).
- `NewKey`, `NewKeyWithDefaults` and `ImportKey` are modelled from their bodies (otp.go:294-345). `extraParams` is not kept in the key:
  - For a TOTP key, the `period` parameter is read before the common key is built, so its error comes first (otp.go:299-311). A period of 0 becomes 30 there; `NewTotp` then turns any non-positive period into 30 as well.
  - For a HOTP key, the `counter` parameter is read before the common key is built, so its errors come first (otp.go:315-323).
- `Otp.OtpKey.SetKey32` on a failed decode keeps the complete leading quanta decoded so far. Go returns the bytes written before the error. Both differ from the old secret, but they are not claimed byte-equal for every malformed input.

## Behaviour worth knowing

The model follows the code in each case:

- The truncation offset comes from byte 19 of the digest (otp.go:271). Section 5.3 of RFC 4226 takes it from the last byte of the HMAC result, and the two agree only for SHA-1's 20-byte digest (`Otp.OffsetIsRfcOffsetForSha1`, `Otp.OffsetDiffersFromRfcForSha256`).
- The TOTP step is Go's truncating division of the Unix time by the period (totp.go:85). Section 4.2 of RFC 6238 defines the step as the floor; the two agree from the epoch on, but the second before the epoch falls in step 0 (`Totp.GoDivIsNotFloorBeforeEpoch`).
- `url` writes `digits` only when it is not 6, and `algorithm` only for sha256 and sha512 (otp.go:226-236).
- `Totp.Url` never writes `period` (totp.go:73), so a round trip resets it to 30 (`Totp.TotpUrlRoundTrip`).
- `newOtpKey` accepts the empty algorithm as SHA-1 (otp.go:114), but the import accepts `algorithm` only as a spelling of sha1, sha256 or sha512 (otp.go:181-183).
- A random read error (`CantReadRandom`) and a short read (`NotEnoughRandom`) are separate error codes (otp.go:121-124).
