/**
 * The one-time-code screen of app/reset-password/otp.tsx: the input
 * sanitiser, the six-digit guard on "Continue", the one-second countdown
 * ticks and the screen state around sending a code.
 */
module ResetOtp {
  import opened JsStrings
  import opened JsValues

  const CodeLength: nat := 6
  const DefaultTtlMs: int := 600000
  const TickMs: int := 1000

  predicate AllDigits(s: string) {
    forall k :: 0 <= k < |s| ==> IsDigit(s[k])
  }

  /** `v.replace(/\D/g, "")`: the ASCII digits of `v`, in order. */
  function Digits(v: string): (r: string)
    ensures AllDigits(r)
    ensures |r| <= |v|
  {
    if v == [] then ""
    else if IsDigit(v[0]) then [v[0]] + Digits(v[1..])
    else Digits(v[1..])
  }

  /** `v.replace(/\D/g, "").slice(0, 6)`: what the code field keeps of typed or pasted text. */
  function Sanitize(v: string): (r: string)
    ensures AllDigits(r)
    ensures |r| <= CodeLength
    ensures StartsWith(Digits(v), r)
    ensures |r| == CodeLength || r == Digits(v)
  {
    Prefix(Digits(v), CodeLength)
  }

  /** What "Continue" does with the current code. */
  datatype ContinueOutcome =
    | InvalidAlert
    /** Navigation to the new-password screen carrying the account id and the code. */
    | GoToNewPassword(userId: string, otp: string)

  /** `continueNext`: only a code of exactly six characters proceeds. */
  function ContinueNext(accountId: string, otp: string): (r: ContinueOutcome)
    ensures r.GoToNewPassword? <==> |otp| == CodeLength
    ensures r.GoToNewPassword? ==> r.userId == accountId && r.otp == otp
  {
    if |otp| != CodeLength then InvalidAlert else GoToNewPassword(accountId, otp)
  }

  /** One interval callback: `ms => Math.max(0, ms - 1000)`. */
  function Tick(ms: int): (r: int)
    ensures r >= 0
    ensures ms >= TickMs ==> r == ms - TickMs
    ensures ms < TickMs ==> r == 0
  {
    if ms - TickMs > 0 then ms - TickMs else 0
  }

  /** `Math.ceil(ms / 1000)`, the seconds shown; Dafny's `/` floors, so ceil(x) = -floor(-x). */
  function DisplaySeconds(ms: int): (s: int)
    ensures 1000 * (s - 1) < ms <= 1000 * s
  {
    -((-ms) / 1000)
  }

  /**
   * The countdown after `n` interval callbacks. The interval is only
   * installed while the value is positive, so a value at 0 stays there.
   */
  function Countdown(ms: int, n: nat): int {
    if n == 0 || ms <= 0 then ms else Countdown(Tick(ms), n - 1)
  }

  // ---------------------------------------------------------------------------
  // Properties
  // ---------------------------------------------------------------------------

  /** `Digits` distributes over concatenation: it keeps each digit where it was. */
  lemma {:induction false} DigitsConcat(a: string, b: string)
    ensures Digits(a + b) == Digits(a) + Digits(b)
  {
    if a != [] {
      assert (a + b)[1..] == a[1..] + b;
      DigitsConcat(a[1..], b);
    } else {
      assert a + b == b;
    }
  }

  /** A string of digits passes through the digit filter unchanged. */
  lemma {:induction false} DigitsOfDigits(s: string)
    requires AllDigits(s)
    ensures Digits(s) == s
  {
    if s != [] {
      DigitsOfDigits(s[1..]);
    }
  }

  /** Sanitising is idempotent. */
  lemma SanitizeIdempotent(v: string)
    ensures Sanitize(Sanitize(v)) == Sanitize(v)
  {
    DigitsOfDigits(Sanitize(v));
  }

  /** Typing a digit onto a code shorter than six characters appends it. */
  lemma TypingDigitAppends(code: string, d: char)
    requires AllDigits(code) && |code| < CodeLength && IsDigit(d)
    ensures Sanitize(code + [d]) == code + [d]
  {
    DigitsOfDigits(code + [d]);
  }

  /** A non-digit keystroke, or a seventh digit, leaves a sanitised code as it was. */
  lemma ExtraKeystrokeIgnored(code: string, c: char)
    requires AllDigits(code) && |code| <= CodeLength
    requires !IsDigit(c) || |code| == CodeLength
    ensures Sanitize(code + [c]) == code
  {
    DigitsConcat(code, [c]);
    DigitsOfDigits(code);
    assert Digits([c]) == if IsDigit(c) then [c] else [] by {
      assert [c][1..] == [];
    }
    if IsDigit(c) {
      assert (code + [c])[..CodeLength] == code;
    }
  }

  /** Text without digits contributes nothing. */
  lemma {:induction false} NoDigitsDropped(s: string)
    requires forall k :: 0 <= k < |s| ==> !IsDigit(s[k])
    ensures Digits(s) == ""
  {
    if s != [] {
      NoDigitsDropped(s[1..]);
    }
  }

  /**
   * Pasted text with separators yields its first six digits: digit groups
   * split by a run of non-digits (as in "12-34 567") join up and are cut at
   * six.
   */
  lemma PasteKeepsFirstSixDigits(first: string, separator: string, second: string)
    requires AllDigits(first) && AllDigits(second)
    requires forall k :: 0 <= k < |separator| ==> !IsDigit(separator[k])
    requires |first| + |second| >= CodeLength
    ensures Sanitize(first + separator + second) == (first + second)[..CodeLength]
  {
    DigitsConcat(first + separator, second);
    DigitsConcat(first, separator);
    DigitsOfDigits(first);
    DigitsOfDigits(second);
    NoDigitsDropped(separator);
    assert first + "" == first;
  }

  /** A sanitised code can always continue once it holds six digits, and never before. */
  lemma SanitizedContinues(accountId: string, v: string)
    ensures ContinueNext(accountId, Sanitize(v)).GoToNewPassword? <==> |Digits(v)| >= CodeLength
  {
  }

  /**
   * The countdown reaches 0 after exactly as many ticks as the seconds
   * first displayed, and shows a positive value before that.
   */
  lemma {:induction false} CountdownMatchesDisplay(ms: int, n: nat)
    requires ms >= 0
    ensures n >= DisplaySeconds(ms) ==> Countdown(ms, n) == 0
    ensures n < DisplaySeconds(ms) ==> Countdown(ms, n) > 0
    ensures n < DisplaySeconds(ms) ==> DisplaySeconds(Countdown(ms, n)) == DisplaySeconds(ms) - n
  {
    if n > 0 && ms > 0 {
      CountdownMatchesDisplay(Tick(ms), n - 1);
    }
  }

  /** A countdown never goes negative. */
  lemma {:induction false} CountdownNonNegative(ms: int, n: nat)
    requires ms >= 0
    ensures Countdown(ms, n) >= 0
  {
    if n > 0 && ms > 0 {
      CountdownNonNegative(Tick(ms), n - 1);
    }
  }

  // ---------------------------------------------------------------------------
  // The screen
  // ---------------------------------------------------------------------------

  /** What `startOtp` resolves to. */
  datatype OtpStart = OtpStart(resendCooldownMs: int, ttlMs: int)

  /** An `Alert.alert(title, message)` shown by the screen. */
  datatype Alert = Alert(title: string, message: string)

  /** The failure message of `sendCode`: a string `message` property, else a fixed text. */
  function SendFailureMessage(e: Thrown): (msg: string)
    ensures e.ErrorWithMessage? ==> msg == e.message
    ensures !e.ErrorWithMessage? ==> msg == "Failed to send code."
  {
    if e.ErrorWithMessage? then e.message else "Failed to send code."
  }

  /** Whether the send button accepts a press: `disabled={sending || cooldownMs > 0}`. */
  predicate SendEnabled(sending: bool, cooldownMs: int) {
    !sending && cooldownMs <= 0
  }

  /** A truthy `userId` route parameter. */
  predicate HasParam(param: Option<string>) {
    param.Some? && param.value != ""
  }

  /**
   * The account id the screen settles on, or the "Not logged in" alert: a
   * truthy `userId` parameter wins; else the current user's truthy
   * `accountId`; a user without one throws "No accountId found", and any
   * thrown error alerts its message or "Please log in again.".
   */
  function ResolveAccountId(param: Option<string>, currentUser: Result<Option<string>, Thrown>): (r: Result<string, Alert>)
    ensures r.Ok? ==> r.value != ""
    ensures HasParam(param) ==> r == Ok(param.value)
    ensures !HasParam(param) && currentUser.Ok? && currentUser.value.Some? && currentUser.value.value != "" ==>
              r == Ok(currentUser.value.value)
    ensures !HasParam(param) && currentUser.Ok? && !(currentUser.value.Some? && currentUser.value.value != "") ==>
              r == Err(Alert("Not logged in", "No accountId found"))
    ensures !HasParam(param) && currentUser.Err? ==>
              r == Err(Alert("Not logged in", MessageOr(currentUser.error, "Please log in again.")))
  {
    if HasParam(param) then Ok(param.value)
    else
      match currentUser
      case Err(e) => Err(Alert("Not logged in", MessageOr(e, "Please log in again.")))
      case Ok(accountId) =>
        if accountId.Some? && accountId.value != "" then Ok(accountId.value)
        else Err(Alert("Not logged in", MessageOr(ErrorWithMessage("No accountId found"), "Please log in again.")))
  }

  /** With a truthy parameter the current-user lookup does not matter, failed or not. */
  lemma ParamSkipsLookup(param: Option<string>, u1: Result<Option<string>, Thrown>, u2: Result<Option<string>, Thrown>)
    requires HasParam(param)
    ensures ResolveAccountId(param, u1) == ResolveAccountId(param, u2)
  {
  }

  /**
   * A lookup that throws something other than an `Error` with a message (a
   * plain string, say) alerts the fixed "Please log in again." text.
   */
  lemma MessagelessLookupFailure(s: string, json: string, currentUser: Result<Option<string>, Thrown>)
    requires currentUser == Err(StringValue(s)) || currentUser == Err(OtherValue(json)) || currentUser == Err(ErrorWithMessage(""))
    ensures ResolveAccountId(None, currentUser) == Err(Alert("Not logged in", "Please log in again."))
  {
  }

  class OtpScreen {
    var accountId: string
    var sending: bool
    var cooldownMs: int
    var ttlMs: int
    var expiresMs: int
    var otp: string

    constructor ()
      ensures accountId == "" && !sending && cooldownMs == 0 && ttlMs == DefaultTtlMs
      ensures expiresMs == 0 && otp == ""
    {
      accountId := "";
      sending := false;
      cooldownMs := 0;
      ttlMs := DefaultTtlMs;
      expiresMs := 0;
      otp := "";
    }

    /**
     * The account-resolving effect: the account id of `ResolveAccountId`, or
     * its alert followed by `router.back()` (`goBack`).
     */
    method ResolveAccount(param: Option<string>, currentUser: Result<Option<string>, Thrown>)
      returns (alert: Option<Alert>, goBack: bool)
      modifies this
      ensures var r := ResolveAccountId(param, currentUser);
              (r.Ok? ==> accountId == r.value && alert == None && !goBack) &&
              (r.Err? ==> accountId == old(accountId) && alert == Some(r.error) && goBack)
      ensures sending == old(sending) && cooldownMs == old(cooldownMs) && ttlMs == old(ttlMs)
      ensures expiresMs == old(expiresMs) && otp == old(otp)
    {
      if HasParam(param) {
        accountId := param.value;
        return None, false;
      }
      var err: Thrown;
      if currentUser.Ok? {
        if currentUser.value.Some? && currentUser.value.value != "" {
          accountId := currentUser.value.value;
          return None, false;
        }
        err := ErrorWithMessage("No accountId found");
      } else {
        err := currentUser.error;
      }
      return Some(Alert("Not logged in", MessageOr(err, "Please log in again."))), true;
    }

    /** `onChangeText`: the field holds the sanitised text. */
    method TypeOtp(v: string)
      modifies this
      ensures otp == Sanitize(v)
      ensures accountId == old(accountId) && sending == old(sending) && cooldownMs == old(cooldownMs)
      ensures ttlMs == old(ttlMs) && expiresMs == old(expiresMs)
    {
      otp := Sanitize(v);
    }

    /** One second passes: each countdown whose interval is running ticks once. */
    method Second()
      modifies this
      ensures expiresMs == if old(expiresMs) > 0 then Tick(old(expiresMs)) else old(expiresMs)
      ensures cooldownMs == if old(cooldownMs) > 0 then Tick(old(cooldownMs)) else old(cooldownMs)
      ensures expiresMs <= old(expiresMs) && cooldownMs <= old(cooldownMs)
      ensures accountId == old(accountId) && sending == old(sending) && ttlMs == old(ttlMs) && otp == old(otp)
    {
      if expiresMs > 0 {
        expiresMs := Tick(expiresMs);
      }
      if cooldownMs > 0 {
        cooldownMs := Tick(cooldownMs);
      }
    }

    /**
     * A press of the send button. A disabled button does nothing; a missing
     * account id alerts without a request; otherwise `sending` is set and the
     * `startOtp` request goes out (`started`).
     */
    method PressSend() returns (started: bool, alert: Option<Alert>)
      modifies this
      ensures started <==> SendEnabled(old(sending), old(cooldownMs)) && old(accountId) != ""
      ensures alert.Some? <==> SendEnabled(old(sending), old(cooldownMs)) && old(accountId) == ""
      ensures alert.Some? ==> alert.value == Alert("Error", "Missing user id.")
      ensures sending == (old(sending) || started)
      ensures accountId == old(accountId) && cooldownMs == old(cooldownMs) && ttlMs == old(ttlMs)
      ensures expiresMs == old(expiresMs) && otp == old(otp)
    {
      if !SendEnabled(sending, cooldownMs) {
        return false, None;
      }
      if accountId == "" {
        return false, Some(Alert("Error", "Missing user id."));
      }
      sending := true;
      return true, None;
    }

    /**
     * `startOtp` settles. Success copies the server's cooldown and lifetime
     * into the timers; failure keeps them. Either way `sending` ends false.
     */
    method CompleteSend(outcome: Result<OtpStart, Thrown>) returns (alert: Alert)
      modifies this
      ensures !sending
      ensures outcome.Ok? ==> cooldownMs == outcome.value.resendCooldownMs && ttlMs == outcome.value.ttlMs &&
                              expiresMs == outcome.value.ttlMs
      ensures outcome.Ok? ==> alert == Alert("Code sent", "Check your email for the 6-digit code.")
      ensures outcome.Err? ==> cooldownMs == old(cooldownMs) && ttlMs == old(ttlMs) && expiresMs == old(expiresMs)
      ensures outcome.Err? ==> alert == Alert("Failed", SendFailureMessage(outcome.error))
      ensures accountId == old(accountId) && otp == old(otp)
    {
      match outcome {
        case Ok(r) =>
          cooldownMs := r.resendCooldownMs;
          ttlMs := r.ttlMs;
          expiresMs := r.ttlMs;
          alert := Alert("Code sent", "Check your email for the 6-digit code.");
        case Err(e) =>
          alert := Alert("Failed", SendFailureMessage(e));
      }
      sending := false;
    }

    /** The send button's caption when not sending. */
    function SendCaption(): (caption: string)
      reads this
      ensures cooldownMs <= 0 ==> caption == "Send code"
      ensures cooldownMs > 0 ==> caption == "Wait " + IntToString(DisplaySeconds(cooldownMs)) + "s" &&
                                 DisplaySeconds(cooldownMs) >= 1
    {
      if cooldownMs > 0 then "Wait " + IntToString(DisplaySeconds(cooldownMs)) + "s" else "Send code"
    }
  }
}
