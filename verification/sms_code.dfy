/**
 * `SmsCodeService`: an in-memory store of SMS verification codes kept in
 * three phone-keyed maps (code, expiry instant, last send instant).
 *
 * A send checks the phone format and a 60-second resend interval, stores a
 * fresh six-digit code valid for five minutes and returns it; a verification
 * consumes a matching, unexpired code. The clock is the `now` parameter
 * (milliseconds) and the random digits are the `draws` parameter.
 */
module SmsCode {
  import opened Common

  const CodeLength: nat := 6
  /** Validity of a code, in milliseconds (five minutes). */
  const CodeExpireTime: int := 5 * 60 * 1000
  /** Minimum time between two sends to the same phone, in milliseconds. */
  const SendInterval: int := 60 * 1000

  const InvalidPhoneMessage: string := "手机号格式不正确"

  /** The regular expression `^1[3-9]\d{9}$` (`\d` is ASCII 0-9 in `String.matches`). */
  predicate MatchesPhonePattern(s: string)
  {
    |s| == 11 && s[0] == '1' && '3' <= s[1] <= '9' && AllDigits(s[2..])
  }

  /** `isValidPhoneNumber(phone)`: null and "" are rejected before the pattern is tried. */
  function IsValidPhoneNumber(phone: Option<string>): (ok: bool)
    ensures ok <==> phone.Some? && |phone.value| == 11 && AllDigits(phone.value)
                    && phone.value[0] == '1' && phone.value[1] in "3456789"
  {
    if phone.None? || phone.value == [] then false
    else
      var s := phone.value;
      assert |s| == 11 ==> forall i :: 2 <= i < 11 ==> s[i] == s[2..][i - 2];
      MatchesPhonePattern(s)
  }

  /** The `@Pattern(regexp = "^\\d{6}$")` constraint the SMS login form puts on a code. */
  predicate MatchesLoginCodePattern(code: string)
  {
    |code| == 6 && AllDigits(code)
  }

  /** What `random.nextInt(10)` may return: `CodeLength` draws, each in 0..9. */
  predicate ValidDraws(draws: seq<int>)
  {
    |draws| == CodeLength && forall i :: 0 <= i < |draws| ==> 0 <= draws[i] < 10
  }

  /** The character `StringBuilder.append(int)` writes for a single digit. */
  function DigitChar(d: int): (c: char)
    requires 0 <= d < 10
    ensures IsDigit(c) && (c as int) - ('0' as int) == d
  {
    (('0' as int) + d) as char
  }

  /** The code spelled by a sequence of digit draws. */
  function DigitString(draws: seq<int>): (code: string)
    requires forall i :: 0 <= i < |draws| ==> 0 <= draws[i] < 10
    ensures |code| == |draws| && AllDigits(code)
    ensures forall i :: 0 <= i < |draws| ==> (code[i] as int) - ('0' as int) == draws[i]
  {
    seq(|draws|, i requires 0 <= i < |draws| => DigitChar(draws[i]))
  }

  /** The number a string of decimal digits denotes, most significant digit first. */
  function DigitsValue(s: string): int
  {
    if s == [] then 0 else DigitsValue(s[..|s| - 1]) * 10 + ((s[|s| - 1] as int) - ('0' as int))
  }

  /** `String.valueOf(n)` for a non-negative long: the digits of `n`, without leading zeros. */
  function DecimalString(n: nat): (s: string)
    ensures 1 <= |s| && AllDigits(s)
    ensures DigitsValue(s) == n
    ensures |s| == 1 || s[0] != '0'
  {
    if n < 10 then [DigitChar(n)]
    else
      var s := DecimalString(n / 10) + [DigitChar(n % 10)];
      assert s[..|s| - 1] == DecimalString(n / 10);
      s
  }

  function TooFrequentMessage(waitSeconds: nat): string
  {
    "验证码发送过于频繁，请" + DecimalString(waitSeconds) + "秒后重试"
  }

  /** The three maps, as a value. */
  datatype SmsStore = SmsStore(codes: map<string, string>, expires: map<string, int>, sendTimes: map<string, int>)

  const EmptyStore: SmsStore := SmsStore(map[], map[], map[])

  /**
   * What every reachable store satisfies: a code and its expiry are stored and
   * removed together, every stored code is six digits, the expiry is five
   * minutes after the recorded send of the same phone, and only well-formed
   * phones appear as keys.
   */
  ghost predicate StoreInvariant(st: SmsStore)
  {
    && st.codes.Keys == st.expires.Keys
    && st.expires.Keys <= st.sendTimes.Keys
    && (forall p :: p in st.codes ==> MatchesLoginCodePattern(st.codes[p]))
    && (forall p :: p in st.expires ==> st.expires[p] == st.sendTimes[p] + CodeExpireTime)
    && (forall p :: p in st.sendTimes ==> IsValidPhoneNumber(Some(p)))
  }

  /** True when `phone` was sent a code less than `SendInterval` ms before `now`. */
  predicate SentTooRecently(st: SmsStore, phone: string, now: int)
  {
    phone in st.sendTimes && now - st.sendTimes[phone] < SendInterval
  }

  /**
   * `sendSmsCode(phone)` at instant `now`, with `code` the freshly generated
   * code: the new store and the returned code or thrown exception.
   */
  function Send(st: SmsStore, phone: Option<string>, now: int, code: string): (r: (SmsStore, Outcome<string>))
    ensures r.1.Thrown? <==> !IsValidPhoneNumber(phone) || SentTooRecently(st, phone.value, now)
    ensures r.1.Thrown? ==> r.0 == st && r.1.fault.IllegalArgument?
    ensures r.1.Ok? ==> r.1.value == code
    ensures r.1.Ok? ==> var p := phone.value;
                        && r.0.codes.Keys == st.codes.Keys + {p} && r.0.codes[p] == code
                        && r.0.expires.Keys == st.expires.Keys + {p} && r.0.expires[p] == now + CodeExpireTime
                        && r.0.sendTimes.Keys == st.sendTimes.Keys + {p} && r.0.sendTimes[p] == now
                        && (forall q :: q != p && q in st.codes ==> r.0.codes[q] == st.codes[q])
                        && (forall q :: q != p && q in st.expires ==> r.0.expires[q] == st.expires[q])
                        && (forall q :: q != p && q in st.sendTimes ==> r.0.sendTimes[q] == st.sendTimes[q])
  {
    if !IsValidPhoneNumber(phone) then
      (st, Thrown(IllegalArgument(InvalidPhoneMessage)))
    else
      var p := phone.value;
      if SentTooRecently(st, p, now) then
        // in this branch SendInterval - (now - last) > 0, so `/` agrees with Java's truncating division
        var waitSeconds := (SendInterval - (now - st.sendTimes[p])) / 1000;
        (st, Thrown(IllegalArgument(TooFrequentMessage(waitSeconds))))
      else
        (SmsStore(st.codes[p := code], st.expires[p := now + CodeExpireTime], st.sendTimes[p := now]), Ok(code))
  }

  /**
   * `verifySmsCode(phone, code)` at instant `now`: the new store and the answer.
   * An expired code is purged; a matching code is consumed; a wrong code
   * changes nothing. The send instant is never removed.
   */
  function Verify(st: SmsStore, phone: Option<string>, code: Option<string>, now: int): (r: (SmsStore, bool))
    ensures r.1 <==> phone.Some? && code.Some? && phone.value in st.codes && phone.value in st.expires
                     && now <= st.expires[phone.value] && st.codes[phone.value] == code.value
    ensures r.1 ==> r.0 == SmsStore(st.codes - {phone.value}, st.expires - {phone.value}, st.sendTimes)
    ensures && phone.Some? && code.Some? && phone.value in st.codes && phone.value in st.expires
            && now > st.expires[phone.value]
            ==> r == (SmsStore(st.codes - {phone.value}, st.expires - {phone.value}, st.sendTimes), false)
    ensures !r.1 && !(&& phone.Some? && code.Some? && phone.value in st.codes && phone.value in st.expires
                      && now > st.expires[phone.value])
            ==> r.0 == st
  {
    if phone.None? || code.None? then (st, false)
    else
      var p := phone.value;
      if p !in st.codes || p !in st.expires then (st, false)
      else if now > st.expires[p] then
        (SmsStore(st.codes - {p}, st.expires - {p}, st.sendTimes), false)
      else if st.codes[p] == code.value then
        (SmsStore(st.codes - {p}, st.expires - {p}, st.sendTimes), true)
      else (st, false)
  }

  lemma SendPreservesInvariant(st: SmsStore, phone: Option<string>, now: int, code: string)
    requires StoreInvariant(st)
    requires MatchesLoginCodePattern(code)
    ensures StoreInvariant(Send(st, phone, now, code).0)
  {
  }

  lemma VerifyPreservesInvariant(st: SmsStore, phone: Option<string>, code: Option<string>, now: int)
    requires StoreInvariant(st)
    ensures StoreInvariant(Verify(st, phone, code, now).0)
  {
  }

  /** A code is single use: once accepted, no code for that phone is accepted again until the next send. */
  lemma VerifyIsSingleUse(st: SmsStore, phone: string, code: string, now: int, code': Option<string>, later: int)
    requires Verify(st, Some(phone), Some(code), now).1
    ensures !Verify(Verify(st, Some(phone), Some(code), now).0, Some(phone), code', later).1
  {
  }

  /** A wrong code changes nothing, so the right code is still accepted afterwards while unexpired. */
  lemma WrongCodeAllowsRetry(st: SmsStore, phone: string, wrong: string, now: int, later: int)
    requires phone in st.codes && phone in st.expires && wrong != st.codes[phone]
    requires now <= later <= st.expires[phone]
    ensures Verify(st, Some(phone), Some(wrong), now) == (st, false)
    ensures Verify(st, Some(phone), Some(st.codes[phone]), later).1
  {
  }

  /**
   * A code returned by a successful send is accepted at any instant up to and
   * including five minutes later, and refused (and purged) after that.
   */
  lemma SendThenVerify(st: SmsStore, phone: string, now: int, code: string, t: int)
    requires Send(st, Some(phone), now, code).1.Ok?
    ensures var st' := Send(st, Some(phone), now, code).0;
            Verify(st', Some(phone), Some(code), t).1 <==> t <= now + CodeExpireTime
  {
  }

  /**
   * The resend interval: after a successful send at `now`, another send to the
   * same phone fails before `now + 60000` and succeeds from that instant on.
   */
  lemma ResendInterval(st: SmsStore, phone: string, now: int, code: string, later: int, code': string)
    requires Send(st, Some(phone), now, code).1.Ok?
    ensures var st' := Send(st, Some(phone), now, code).0;
            Send(st', Some(phone), later, code').1.Ok? <==> later >= now + SendInterval
  {
  }

  class SmsCodeService {
    var codeCache: map<string, string>
    var expireCache: map<string, int>
    var sendTimeCache: map<string, int>

    function Store(): SmsStore
      reads this
    {
      SmsStore(codeCache, expireCache, sendTimeCache)
    }

    ghost predicate Valid()
      reads this
    {
      StoreInvariant(Store())
    }

    constructor ()
      ensures Valid() && Store() == EmptyStore
    {
      codeCache, expireCache, sendTimeCache := map[], map[], map[];
    }

    /** `generateCode()`: appends one random digit per round, `CodeLength` rounds. */
    static method GenerateCode(draws: seq<int>) returns (code: string)
      requires ValidDraws(draws)
      ensures code == DigitString(draws)
      ensures MatchesLoginCodePattern(code)
    {
      code := "";
      var i := 0;
      while i < CodeLength
        invariant 0 <= i <= CodeLength
        invariant code == DigitString(draws[..i])
      {
        code := code + [DigitChar(draws[i])];
        i := i + 1;
      }
      assert draws[..CodeLength] == draws;
    }

    method SendSmsCode(phone: Option<string>, now: int, draws: seq<int>) returns (r: Outcome<string>)
      requires Valid() && ValidDraws(draws)
      modifies this
      ensures Valid()
      ensures (Store(), r) == Send(old(Store()), phone, now, DigitString(draws))
    {
      ghost var before := Store();
      if !IsValidPhoneNumber(phone) {
        return Thrown(IllegalArgument(InvalidPhoneMessage));
      }
      var p := phone.value;
      if p in sendTimeCache && now - sendTimeCache[p] < SendInterval {
        var waitSeconds := (SendInterval - (now - sendTimeCache[p])) / 1000;
        return Thrown(IllegalArgument(TooFrequentMessage(waitSeconds)));
      }
      var code := GenerateCode(draws);
      codeCache := codeCache[p := code];
      expireCache := expireCache[p := now + CodeExpireTime];
      sendTimeCache := sendTimeCache[p := now];
      SendPreservesInvariant(before, phone, now, code);
      r := Ok(code);
    }

    method VerifySmsCode(phone: Option<string>, code: Option<string>, now: int) returns (ok: bool)
      requires Valid()
      modifies this
      ensures Valid()
      ensures (Store(), ok) == Verify(old(Store()), phone, code, now)
    {
      VerifyPreservesInvariant(Store(), phone, code, now);
      if phone.None? || code.None? {
        return false;
      }
      var p := phone.value;
      if p !in codeCache || p !in expireCache {
        return false;
      }
      var storedCode := codeCache[p];
      var expireTime := expireCache[p];
      if now > expireTime {
        codeCache := codeCache - {p};
        expireCache := expireCache - {p};
        return false;
      }
      ok := storedCode == code.value;
      if ok {
        codeCache := codeCache - {p};
        expireCache := expireCache - {p};
      }
    }
  }
}
