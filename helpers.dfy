/** internal/handlers/helpers.go: token TTLs read from the environment and the
    missing-secret guards of token signing and parsing. The HS256 signer and
    the JWT parser are outside collaborators, passed in as functions.

    `time.Duration` is a signed 64-bit count of nanoseconds; `strconv.Atoi` is
    modelled for a 64-bit `int`. */
module Helpers {
  import opened Wrappers

  const MaxInt64: int := 0x7fff_ffff_ffff_ffff
  const MinInt64: int := -0x8000_0000_0000_0000

  const Minute: int := 60_000_000_000
  const Hour: int := 3_600_000_000_000
  const DefaultAccessTTL: int := 15 * Minute
  const DefaultRefreshTTL: int := 30 * 24 * Hour

  /** The largest minute and day counts whose duration fits in `time.Duration`. */
  const MaxAccessMinutes: int := MaxInt64 / Minute
  const MaxRefreshDays: int := MaxInt64 / (24 * Hour)

  /** Two's-complement wrap-around of a product computed in `int64`. */
  function WrapInt64(x: int): (r: int)
    ensures MinInt64 <= r <= MaxInt64
    ensures (r - x) % 0x1_0000_0000_0000_0000 == 0
    ensures MinInt64 <= x <= MaxInt64 ==> r == x
  {
    var m := x % 0x1_0000_0000_0000_0000;
    if m > MaxInt64 then m - 0x1_0000_0000_0000_0000 else m
  }

  // ---------------------------------------------------------------------------
  // strconv.Atoi and its inverse

  predicate IsDigit(c: char) { '0' <= c <= '9' }

  predicate AllDigits(s: string) { forall i :: 0 <= i < |s| ==> IsDigit(s[i]) }

  function DigitValue(c: char): int requires IsDigit(c) { c as int - '0' as int }

  /** The value of a run of decimal digits, most significant first. */
  function DecimalValue(s: string): (n: nat)
    requires AllDigits(s)
  {
    if s == [] then 0 else DecimalValue(s[..|s| - 1]) * 10 + DigitValue(s[|s| - 1])
  }

  /** `strconv.Atoi`: an optional `+` or `-`, then at least one ASCII digit,
      with a value that fits in 64 bits; anything else is an error. */
  function Atoi(s: string): (r: Option<int>)
    ensures r.Some? ==> MinInt64 <= r.value <= MaxInt64
    ensures r.Some? ==> |s| > 0
  {
    if |s| == 0 then None
    else
      var digits := if s[0] == '+' || s[0] == '-' then s[1..] else s;
      if |digits| == 0 || !AllDigits(digits) then None
      else
        var n: int := if s[0] == '-' then 0 - (DecimalValue(digits) as int) else DecimalValue(digits);
        if MinInt64 <= n <= MaxInt64 then Some(n) else None
  }

  /** The decimal digits of a natural number, without leading zeros. */
  function Digits(n: nat): (s: string)
    ensures |s| > 0 && AllDigits(s)
  {
    var d := ['0' + (n % 10) as char];
    if n < 10 then d else Digits(n / 10) + d
  }

  /** `strconv.Itoa`. */
  function Itoa(n: int): string
  {
    if n < 0 then "-" + Digits(-n) else Digits(n)
  }

  lemma {:induction false} DigitsValue(n: nat)
    ensures DecimalValue(Digits(n)) == n
  {
    var s := Digits(n);
    if n >= 10 {
      DigitsValue(n / 10);
      assert s[..|s| - 1] == Digits(n / 10);
    }
  }

  /** Parsing a formatted 64-bit integer gives it back. */
  lemma AtoiItoa(n: int)
    requires MinInt64 <= n <= MaxInt64
    ensures Atoi(Itoa(n)) == Some(n)
  {
    if n < 0 {
      DigitsValue(-n);
      assert Itoa(n)[1..] == Digits(-n);
    } else {
      DigitsValue(n);
    }
  }

  // ---------------------------------------------------------------------------
  // TTLs as written: the product wraps around in int64

  /** `getAccessTTL` as written: `time.Duration(min) * time.Minute`. */
  function AccessTTLAsWritten(minutes: string): (ttl: int)
    ensures MinInt64 <= ttl <= MaxInt64
  {
    if minutes == "" then DefaultAccessTTL
    else
      match Atoi(minutes)
      case None => DefaultAccessTTL
      case Some(n) => if n <= 0 then DefaultAccessTTL else WrapInt64(n * Minute)
  }

  /** `getRefreshTTL` as written: `time.Duration(days) * 24 * time.Hour`. */
  function RefreshTTLAsWritten(days: string): (ttl: int)
    ensures MinInt64 <= ttl <= MaxInt64
  {
    if days == "" then DefaultRefreshTTL
    else
      match Atoi(days)
      case None => DefaultRefreshTTL
      case Some(n) => if n <= 0 then DefaultRefreshTTL else WrapInt64(WrapInt64(n * 24) * Hour)
  }

  /** ACCESS_TTL_MINUTES=153722868 (one past the largest minute count that
      fits) yields a negative access TTL. */
  lemma AccessTTLOverflows()
    ensures AccessTTLAsWritten("153722868") < 0
  {
    AtoiItoa(153722868);
    AccessCounterexampleSpelled();
    AccessWrapsWhenParsed("153722868", 153722868);
  }

  /** The decimal spelling of the access-TTL counterexample. */
  lemma AccessCounterexampleSpelled()
    ensures Itoa(153722868) == "153722868"
  {
    assert Digits(1) == "1";
    assert Digits(15) == "15";
    assert Digits(153) == "153";
    assert Digits(1537) == "1537";
    assert Digits(15372) == "15372";
    assert Digits(153722) == "153722";
    assert Digits(1537228) == "1537228";
    assert Digits(15372286) == "15372286";
  }

  /** REFRESH_TTL_DAYS=106752 yields a negative refresh TTL. */
  lemma RefreshTTLOverflows()
    ensures RefreshTTLAsWritten("106752") < 0
  {
    AtoiItoa(106752);
    RefreshCounterexampleSpelled();
    RefreshWrapsWhenParsed("106752", 106752);
  }

  /** The decimal spelling of the refresh-TTL counterexample. */
  lemma RefreshCounterexampleSpelled()
    ensures Itoa(106752) == "106752"
  {
    assert Digits(1) == "1";
    assert Digits(10) == "10";
    assert Digits(106) == "106";
    assert Digits(1067) == "1067";
    assert Digits(10675) == "10675";
  }

  /** A minute count whose product with a minute lands just past the largest
      int64 makes the access TTL as written negative. */
  lemma AccessWrapsWhenParsed(minutes: string, n: int)
    requires minutes != "" && Atoi(minutes) == Some(n)
    requires MaxInt64 < n * Minute < 0x1_0000_0000_0000_0000
    ensures AccessTTLAsWritten(minutes) < 0
  {
    WrapPastMax(n * Minute);
  }

  /** A day count whose product with a day (in hours, then nanoseconds) lands
      just past the largest int64 makes the refresh TTL as written negative. */
  lemma RefreshWrapsWhenParsed(days: string, n: int)
    requires days != "" && Atoi(days) == Some(n)
    requires 0 < n * 24 <= MaxInt64
    requires MaxInt64 < n * 24 * Hour < 0x1_0000_0000_0000_0000
    ensures RefreshTTLAsWritten(days) < 0
  {
    WrapPastMax(n * 24 * Hour);
  }

  /** A product just past the largest int64 wraps to a negative value. */
  lemma WrapPastMax(x: int)
    requires MaxInt64 < x < 0x1_0000_0000_0000_0000
    ensures WrapInt64(x) == x - 0x1_0000_0000_0000_0000 < 0
  {
  }

  // ---------------------------------------------------------------------------
  // TTLs as intended: a count whose duration does not fit falls back to the default

  /** The access-token TTL: `minutes` is `ACCESS_TTL_MINUTES`. */
  function AccessTTL(minutes: string): (ttl: int)
    ensures 0 < ttl <= MaxInt64
    ensures forall n :: Atoi(minutes) == Some(n) && 0 < n <= MaxAccessMinutes ==> ttl == n * Minute
    ensures (match Atoi(minutes) case None => true case Some(n) => n <= 0 || n > MaxAccessMinutes) ==>
              ttl == DefaultAccessTTL
  {
    match Atoi(minutes)
    case None => DefaultAccessTTL
    case Some(n) => if n <= 0 || n > MaxAccessMinutes then DefaultAccessTTL else n * Minute
  }

  /** The refresh-token TTL: `days` is `REFRESH_TTL_DAYS`. */
  function RefreshTTL(days: string): (ttl: int)
    ensures 0 < ttl <= MaxInt64
    ensures forall n :: Atoi(days) == Some(n) && 0 < n <= MaxRefreshDays ==> ttl == n * 24 * Hour
    ensures (match Atoi(days) case None => true case Some(n) => n <= 0 || n > MaxRefreshDays) ==>
              ttl == DefaultRefreshTTL
  {
    match Atoi(days)
    case None => DefaultRefreshTTL
    case Some(n) => if n <= 0 || n > MaxRefreshDays then DefaultRefreshTTL else n * 24 * Hour
  }

  /** A positive minute count written in decimal is taken exactly. */
  lemma AccessTTLExact(n: int)
    requires 0 < n <= MaxAccessMinutes
    ensures AccessTTL(Itoa(n)) == n * Minute
  {
    AtoiItoa(n);
  }

  /** A positive day count written in decimal is taken exactly. */
  lemma RefreshTTLExact(n: int)
    requires 0 < n <= MaxRefreshDays
    ensures RefreshTTL(Itoa(n)) == n * 24 * Hour
  {
    AtoiItoa(n);
  }

  /** The correction changes only the overflowing counts: for every setting
      (unset, unparsable, any spelling `Atoi` accepts such as "+15" or "015",
      zero or negative) whose value is at most the largest count that fits,
      the corrected access TTL is the written one. */
  lemma AccessTTLAgreesInRange(minutes: string)
    requires Atoi(minutes).None? || Atoi(minutes).value <= MaxAccessMinutes
    ensures AccessTTL(minutes) == AccessTTLAsWritten(minutes)
  {
    match Atoi(minutes)
    case None =>
    case Some(n) =>
      if 0 < n {
        assert MinInt64 <= n * Minute <= MaxInt64;
      }
  }

  /** The same for the refresh TTL: every setting whose value is at most the
      largest day count that fits keeps the written TTL. */
  lemma RefreshTTLAgreesInRange(days: string)
    requires Atoi(days).None? || Atoi(days).value <= MaxRefreshDays
    ensures RefreshTTL(days) == RefreshTTLAsWritten(days)
  {
    match Atoi(days)
    case None =>
    case Some(n) =>
      if 0 < n {
        assert MinInt64 <= n * 24 <= MaxInt64;
        assert MinInt64 <= n * 24 * Hour <= MaxInt64;
      }
  }

  // ---------------------------------------------------------------------------
  // Signing and parsing guards

  const SecretNotSet: string := "JWT_SECRET not set"

  /** The token claims this service reads: the subject user id. */
  datatype Claims = Claims(userID: string)

  /** What `jwt.ParseWithClaims` returns: an error, or a token whose claims
      may or may not have the expected type and which may or may not be valid. */
  datatype TokenParse = ParseFailed(detail: string) | Parsed(claims: Option<Claims>, valid: bool)

  /** `generateJWT`: `secret` is `JWT_SECRET`; `sign` is the HS256 signer of
      (user id, ttl, secret). */
  function GenerateJWT(secret: string, userID: string, ttl: int,
                       sign: (string, int, string) -> Result<string, string>): (r: Result<string, string>)
    ensures secret == "" ==> r == Failure(SecretNotSet)
    ensures r.Success? ==> secret != "" && sign(userID, ttl, secret) == r
    ensures secret != "" ==> r == sign(userID, ttl, secret)
  {
    if secret == "" then Failure(SecretNotSet) else sign(userID, ttl, secret)
  }

  /** `parseJWT`: `parse` is `jwt.ParseWithClaims` of (token, secret). */
  function ParseJWT(secret: string, token: string, parse: (string, string) -> TokenParse)
    : (r: Result<Claims, string>)
    ensures secret == "" ==> r == Failure(SecretNotSet)
    ensures r.Success? <==> secret != "" && parse(token, secret).Parsed? &&
                            parse(token, secret).valid && parse(token, secret).claims.Some?
    ensures r.Success? ==> parse(token, secret).claims == Some(r.value)
  {
    if secret == "" then Failure(SecretNotSet)
    else
      match parse(token, secret)
      case ParseFailed(e) => Failure(e)
      case Parsed(claims, valid) =>
        if claims.Some? && valid then Success(claims.value) else Failure("invalid token")
  }
}
