/** The two-factor verification screen: the code input that keeps digits only, the
    two-minute countdown and its m:ss display, when verify and resend are offered, and the
    state its verify and resend handlers leave. */
module TwoFactorAuth {
  import opened Js
  import Api
  import opened Storage

  const CountdownStart: nat := 120
  const CodeLength: nat := 4
  const MissingUserMessage := "User data is missing"
  const VerifyFailedMessage := "Verification failed"
  const ResendFailedMessage := "Failed to resend code"

  /** `value.replace(/[^\d]/g, "")`: every character other than 0-9 removed. */
  function KeepDigits(s: string): (r: string)
    ensures AllDigits(r)
    ensures IsSubsequence(r, s)
    ensures forall c :: IsDigit(c) ==> multiset(r)[c] == multiset(s)[c]
  {
    if s == [] then []
    else
      var rest := KeepDigits(s[1..]);
      assert s == [s[0]] + s[1..];
      if IsDigit(s[0]) then
        assert ([s[0]] + rest)[1..] == rest;
        [s[0]] + rest
      else rest
  }

  /** A string of digits is left as it is. */
  lemma {:induction false} KeepDigitsOfDigits(s: string)
    requires AllDigits(s)
    ensures KeepDigits(s) == s
  {
    if s != [] {
      assert AllDigits(s[1..]) by {
        forall i | 0 <= i < |s[1..]| ensures IsDigit(s[1..][i]) {
          assert s[1..][i] == s[i + 1];
        }
      }
      KeepDigitsOfDigits(s[1..]);
    }
  }

  /** Sanitising twice is sanitising once. */
  lemma KeepDigitsIdempotent(s: string)
    ensures KeepDigits(KeepDigits(s)) == KeepDigits(s)
  {
    KeepDigitsOfDigits(KeepDigits(s));
  }

  /** One interval callback: `prev > 0 ? prev - 1 : 0`. */
  function Tick(c: nat): (r: nat)
    ensures r <= c && c - r <= 1
    ensures r == c <==> c == 0
  {
    if c > 0 then c - 1 else 0
  }

  /** The countdown after `n` callbacks. */
  function Ticks(c: nat, n: nat): nat {
    if n == 0 then c else Ticks(Tick(c), n - 1)
  }

  /** The countdown falls by one per second, reaches 0 after `c` seconds and stays there. */
  lemma {:induction false} TicksClampAtZero(c: nat, n: nat)
    ensures Ticks(c, n) == if n >= c then 0 else c - n
  {
    if n > 0 {
      TicksClampAtZero(Tick(c), n - 1);
    }
  }

  /** `s.padStart(width, "0")`. */
  function PadStart(s: string, width: nat): (r: string)
    ensures |r| == if |s| >= width then |s| else width
    ensures s <= r[|r| - |s|..] && forall i :: 0 <= i < |r| - |s| ==> r[i] == '0'
    decreases width - |s|
  {
    if |s| >= width then s else PadStart(['0'] + s, width)
  }

  /** "Time remaining: m:ss" without its label: whole minutes, then seconds on two digits. */
  function Clock(c: nat): (r: string)
    ensures |r| >= 4 && r[|r| - 3] == ':'
    ensures AllDigits(r[..|r| - 3]) && DigitsValue(r[..|r| - 3]) == c / 60
    ensures AllDigits(r[|r| - 2..]) && DigitsValue(r[|r| - 2..]) == c % 60
    ensures r[..|r| - 3] == NatText(c / 60) && Canonical(r[..|r| - 3])
  {
    var m, d := c / 60, c % 60;
    var ms, ds := NatText(m), PadStart(NatText(d), 2);
    PaddedSeconds(d);
    NatTextRoundTrip(m);
    NatTextCanonical(m);
    ClockLayout(ms, ds, m, d);
    ms + ":" + ds
  }

  /** Where the parts of a "minutes:ss" text sit. */
  lemma ClockLayout(ms: string, ds: string, m: nat, d: nat)
    requires |ms| >= 1 && AllDigits(ms) && DigitsValue(ms) == m
    requires |ds| == 2 && AllDigits(ds) && DigitsValue(ds) == d
    ensures var t := ms + ":" + ds;
            |t| >= 4 && t[|t| - 3] == ':' && t[..|t| - 3] == ms &&
            AllDigits(t[..|t| - 3]) && DigitsValue(t[..|t| - 3]) == m &&
            AllDigits(t[|t| - 2..]) && DigitsValue(t[|t| - 2..]) == d
  {
    var t := ms + ":" + ds;
    assert t[..|t| - 3] == ms;
    assert t[|t| - 2..] == ds;
  }

  /** Reading an m:ss text back as a number of seconds. */
  function ParseClock(t: string): Option<nat> {
    var minutes := SplitHead(t, ':');
    if |minutes| == |t| then None
    else
      var seconds := t[|minutes| + 1..];
      if AllDigits(minutes) && AllDigits(seconds) && |seconds| == 2
      then Some(60 * DigitsValue(minutes) + DigitsValue(seconds))
      else None
  }

  /** Leading zeros do not change the value of a digit string. */
  lemma {:induction false} LeadingZeros(z: string, s: string)
    requires AllDigits(s) && forall i :: 0 <= i < |z| ==> z[i] == '0'
    ensures AllDigits(z + s) && DigitsValue(z + s) == DigitsValue(s)
  {
    if s == [] {
      assert z + s == z;
      AllZeros(z);
    } else {
      var init := s[..|s| - 1];
      assert (z + s)[..|z + s| - 1] == z + init;
      LeadingZeros(z, init);
    }
  }

  lemma {:induction false} AllZeros(z: string)
    requires forall i :: 0 <= i < |z| ==> z[i] == '0'
    ensures AllDigits(z) && DigitsValue(z) == 0
  {
    if z != [] {
      AllZeros(z[..|z| - 1]);
    }
  }

  /** The display shows `floor(c/60)` and `c mod 60` padded to two digits, and the two
      together give back `c`. */
  lemma ClockRoundTrip(c: nat)
    ensures ParseClock(Clock(c)) == Some(c)
  {
    var m, d := c / 60, c % 60;
    var ms, ds := NatText(m), PadStart(NatText(d), 2);
    assert Clock(c) == ms + ":" + ds;
    PaddedSeconds(d);
    NatTextRoundTrip(m);
    ClockOfParts(c, m, d, ms, ds);
  }

  lemma ClockOfParts(c: nat, m: nat, d: nat, ms: string, ds: string)
    requires 60 * m + d == c
    requires |ms| >= 1 && AllDigits(ms) && DigitsValue(ms) == m
    requires |ds| == 2 && AllDigits(ds) && DigitsValue(ds) == d
    ensures ParseClock(ms + ":" + ds) == Some(c)
  {
    ParseClockOf(ms, ds);
  }

  /** An m:ss text whose parts are digits, the seconds on two of them, parses part by part. */
  lemma ParseClockOf(m: string, s: string)
    requires |m| >= 1 && AllDigits(m) && |s| == 2 && AllDigits(s)
    ensures ParseClock(m + ":" + s) == Some(60 * DigitsValue(m) + DigitsValue(s))
  {
    var t := m + ":" + s;
    ClockSplits(m, s);
    var minutes := SplitHead(t, ':');
    assert minutes == m && |minutes| < |t|;
    assert t[|minutes| + 1..] == s;
  }

  /** Minutes (digits, so no ':') and the padded seconds are what the parser splits apart. */
  lemma ClockSplits(m: string, s: string)
    requires |m| >= 1 && AllDigits(m)
    ensures var t := m + ":" + s; SplitHead(t, ':') == m && t[|m| + 1..] == s
  {
    var t := m + ":" + s;
    assert forall i :: 0 <= i < |m| ==> m[i] != ':';
    assert t[|m|] == ':';
    SplitHeadIsFirstSegment(t, ':', m);
    assert t[|m| + 1..] == s;
  }

  /** Seconds below 60, padded to two digits, keep their value. */
  lemma PaddedSeconds(sec: nat)
    requires sec < 60
    ensures var p := PadStart(NatText(sec), 2); |p| == 2 && AllDigits(p) && DigitsValue(p) == sec
  {
    var s := NatText(sec);
    NatTextRoundTrip(sec);
    if sec < 10 {
      assert PadStart(s, 2) == PadStart(['0'] + s, 2) == ['0'] + s;
      LeadingZeros(['0'], s);
    } else {
      assert s == NatText(sec / 10) + [DigitChar(sec % 10)];
      assert |NatText(sec / 10)| == 1;
      assert |s| == 2;
      assert PadStart(s, 2) == s;
    }
  }

  /** The verify button is enabled only when nothing is loading and the code has 4 digits. */
  predicate SubmitEnabled(loading: bool, code: string) {
    !loading && |code| == CodeLength
  }

  /** The resend button exists only once the countdown has reached 0. */
  predicate ResendShown(countdown: nat) {
    countdown == 0
  }

  /** A typed four-digit code enables verify exactly while nothing is loading. */
  lemma FourDigitCodeEnablesSubmit(loading: bool, code: string)
    requires AllDigits(code) && |code| == CodeLength
    ensures SubmitEnabled(loading, KeepDigits(code)) <==> !loading
  {
    KeepDigitsOfDigits(code);
  }

  /** Typing that leaves fewer or more than four digits keeps verify disabled, whatever
      other characters were typed. */
  lemma OtherDigitCountsDisableSubmit(loading: bool, input: string)
    requires |KeepDigits(input)| != CodeLength
    ensures !SubmitEnabled(loading, KeepDigits(input))
  {
  }

  /** From a fresh start, the resend button appears after exactly 120 interval callbacks. */
  lemma ResendShownAfterFullCountdown(n: nat)
    ensures ResendShown(Ticks(CountdownStart, n)) <==> n >= CountdownStart
  {
    TicksClampAtZero(CountdownStart, n);
  }

  /** `{ userId: userData.userId, code: verificationCode }` posted to the verify endpoint. */
  function VerifyRequest(userData: Value, code: string): (r: Api.Request)
    ensures r.verb == Api.POST && r.path == "/verify-2fa" && r.body.Some? && r.body.value.Obj?
    ensures r.body.value.fields.Keys == {"userId", "code"}
    ensures Member(r.body.value, "userId") == Member(userData, "userId") && Member(r.body.value, "code") == Str(code)
  {
    Api.Verify2FA(Obj(map["userId" := Member(userData, "userId"), "code" := Str(code)]))
  }

  /** The resend call as written: `request2FA()` is called with no argument. */
  function ResendRequestAsWritten(userData: Value): (r: Api.Request)
    ensures r.verb == Api.POST && r.params == None
    ensures r.path == ResendRequest(userData).path && r.body.Some?
    ensures Member(r.body.value, "userId") == Undefined
  {
    Api.Request2FA(Undefined)
  }

  /** As written, the resend body never names the user, even when the screen knows one. */
  lemma ResendAsWrittenOmitsUserId(userData: Value)
    requires Truthy(Member(userData, "userId"))
    ensures Member(ResendRequestAsWritten(userData).body.value, "userId") == Undefined
    ensures Member(ResendRequestAsWritten(userData).body.value, "userId") != Member(userData, "userId")
  {
  }

  /** The resend call as intended: the same request the login screen makes for this user. */
  function ResendRequest(userData: Value): (r: Api.Request)
    ensures r.verb == Api.POST && r.params == None
    ensures r.path == Api.Request2FA(Undefined).path && r.body.Some?
    ensures r.body.value.Obj? && r.body.value.fields.Keys == {"userId"}
    ensures Member(r.body.value, "userId") == Member(userData, "userId")
  {
    Api.Request2FA(Member(userData, "userId"))
  }

  /** For the `userData` the login screen passes, the resend repeats the login's 2FA request. */
  lemma ResendRepeatsLoginRequest(userId: Value, email: Value)
    ensures ResendRequest(Obj(map["userId" := userId, "email" := email])) == Api.Request2FA(userId)
  {
  }

  class TwoFactorPage {
    const userData: Value
    /** Whether the mount effect started the one-second interval. */
    const timerRunning: bool
    var verificationCode: string
    var error: Value
    var loading: bool
    var countdown: nat
    var resending: bool
    var navigation: Option<string>

    ghost predicate Valid()
      reads this
    {
      countdown <= CountdownStart && AllDigits(verificationCode) && timerRunning == Truthy(userData)
    }

    /** Mounting: without `userData` the page goes to the login screen and starts no timer. */
    constructor (userData: Value)
      ensures Valid()
      ensures this.userData == userData && countdown == CountdownStart
      ensures verificationCode == "" && error == Str("") && !loading && !resending
      ensures timerRunning == Truthy(userData)
      ensures navigation == if Truthy(userData) then None else Some("/login")
    {
      this.userData := userData;
      timerRunning := Truthy(userData);
      verificationCode, error, loading, countdown, resending := "", Str(""), false, CountdownStart, false;
      navigation := if Truthy(userData) then None else Some("/login");
    }

    /** One second of the interval. */
    method TickSecond()
      requires Valid()
      modifies this
      ensures Valid()
      ensures countdown == if timerRunning then Tick(old(countdown)) else old(countdown)
      ensures verificationCode == old(verificationCode) && error == old(error) && loading == old(loading)
      ensures resending == old(resending) && navigation == old(navigation)
    {
      if timerRunning {
        countdown := if countdown > 0 then countdown - 1 else 0;
      }
    }

    method HandleCodeChange(value: string)
      requires Valid()
      modifies this
      ensures Valid()
      ensures verificationCode == KeepDigits(value)
      ensures countdown == old(countdown) && error == old(error) && loading == old(loading)
      ensures resending == old(resending) && navigation == old(navigation)
    {
      verificationCode := KeepDigits(value);
    }

    /** The error is cleared and loading set; without a user id the submit stops with an
        error, loading off and no call. */
    method BeginSubmit() returns (request: Option<Api.Request>)
      requires Valid()
      modifies this
      ensures Valid()
      ensures request.None? <==> !Truthy(Member(userData, "userId"))
      ensures request.None? ==> error == Str(MissingUserMessage) && !loading
      ensures request.Some? ==> request.value == VerifyRequest(userData, verificationCode) &&
                                error == Str("") && loading
      ensures verificationCode == old(verificationCode) && countdown == old(countdown)
      ensures resending == old(resending) && navigation == old(navigation)
    {
      error := Str("");
      loading := true;
      if !Truthy(Member(userData, "userId")) {
        error := Str(MissingUserMessage);
        loading := false;
        request := None;
        return;
      }
      request := Some(VerifyRequest(userData, verificationCode));
    }

    /** After the verify call: on success the user is stored and the dashboard opened; on
        failure the error text is set; loading ends off. Reading `user` of a null or missing
        `data` throws, which ends like a failed call without a server message. */
    method FinishSubmit(outcome: Api.Response, storage: LocalStorage, stringify: Value -> string)
      requires Valid()
      modifies this, storage
      ensures Valid()
      ensures !loading
      ensures outcome.Ok? && !Nullish(outcome.data) ==>
                storage.items == old(storage.items)["user" := stringify(Member(outcome.data, "user"))]
                && navigation == Some("/dashboard") && error == old(error)
      ensures outcome.Ok? && Nullish(outcome.data) ==>
                storage.items == old(storage.items) && navigation == old(navigation)
                && error == Str(VerifyFailedMessage)
      ensures outcome.Err? ==> storage.items == old(storage.items) && navigation == old(navigation)
                               && error == Api.FailureText(outcome.message, VerifyFailedMessage)
      ensures verificationCode == old(verificationCode) && countdown == old(countdown) && resending == old(resending)
    {
      if outcome.Ok? && !Nullish(outcome.data) {
        storage.SetItem("user", stringify(Member(outcome.data, "user")));
        navigation := Some("/dashboard");
      } else {
        error := Api.FailureText(if outcome.Err? then outcome.message else Undefined, VerifyFailedMessage);
      }
      loading := false;
    }

    method BeginResend() returns (request: Api.Request)
      requires Valid()
      modifies this
      ensures Valid()
      ensures resending && error == Str("") && request == ResendRequest(userData)
      ensures verificationCode == old(verificationCode) && countdown == old(countdown)
      ensures loading == old(loading) && navigation == old(navigation)
    {
      resending := true;
      error := Str("");
      request := ResendRequest(userData);
    }

    /** After the resend call: the countdown restarts only on success. */
    method FinishResend(outcome: Api.Response)
      requires Valid()
      modifies this
      ensures Valid()
      ensures !resending
      ensures countdown == if outcome.Ok? then CountdownStart else old(countdown)
      ensures error == if outcome.Ok? then old(error) else Str(ResendFailedMessage)
      ensures verificationCode == old(verificationCode) && loading == old(loading) && navigation == old(navigation)
    {
      if outcome.Ok? {
        countdown := CountdownStart;
      } else {
        error := Str(ResendFailedMessage);
      }
      resending := false;
    }
  }
}
