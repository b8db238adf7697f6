/**
 * The new-password screen of app/reset-password/new.tsx: route parameter
 * normalisation, the ordered guards of `onSubmit`, the message shown when
 * `verifyOtp` fails, and the `loading` flag around the request.
 */
module ResetNew {
  import opened JsValues

  const MinPasswordLength: nat := 8

  /** A route parameter: missing, a single string, or repeated (an array). */
  datatype Param = Absent | One(s: string) | Many(values: seq<string>)

  /** `Array.isArray(p) ? p[0] : p`: an array gives its first element (`undefined` when empty). */
  function Normalize(p: Param): (r: Option<string>)
    ensures p.One? ==> r == Some(p.s)
    ensures p.Many? && |p.values| > 0 ==> r == Some(p.values[0])
    ensures p.Absent? || (p.Many? && p.values == []) ==> r == None
  {
    match p
    case Absent => None
    case One(s) => Some(s)
    case Many(vs) => if |vs| > 0 then Some(vs[0]) else None
  }

  /** The body of `verifyOtp`. */
  datatype VerifyRequest = VerifyRequest(userId: string, otp: string, newPassword: string)

  /** What a press of the submit button leads to, before any request settles. */
  datatype SubmitOutcome =
    | MissingData
    | WeakPassword
    | Mismatch
    | Verify(request: VerifyRequest)

  predicate Truthy(v: Option<string>) {
    v.Some? && v.value != ""
  }

  /**
   * `onSubmit`'s guards in their order: missing parameters, then a short
   * password, then a confirmation mismatch; only then the request.
   */
  function SubmitGuard(userId: Option<string>, otp: Option<string>, pwd: string, confirm: string): (r: SubmitOutcome)
    ensures r == MissingData <==> !Truthy(userId) || !Truthy(otp)
    ensures r == WeakPassword <==> Truthy(userId) && Truthy(otp) && |pwd| < MinPasswordLength
    ensures r == Mismatch <==> Truthy(userId) && Truthy(otp) && |pwd| >= MinPasswordLength && pwd != confirm
    ensures r.Verify? <==> Truthy(userId) && Truthy(otp) && |pwd| >= MinPasswordLength && pwd == confirm
    ensures r.Verify? ==> r.request == VerifyRequest(userId.value, otp.value, pwd)
  {
    if !Truthy(userId) || !Truthy(otp) then MissingData
    else if |pwd| < MinPasswordLength then WeakPassword
    else if pwd != confirm then Mismatch
    else Verify(VerifyRequest(userId.value, otp.value, pwd))
  }

  /** The alert each rejecting guard shows, as (title, message). */
  function GuardAlert(r: SubmitOutcome): (alert: (string, string))
    requires !r.Verify?
  {
    match r
    case MissingData => ("Error", "Missing data. Please start the reset process again.")
    case WeakPassword => ("Weak password", "Use at least 8 characters.")
    case Mismatch => ("Mismatch", "Passwords do not match.")
  }

  /**
   * The failure alert's text: a string `message` property, else the thrown
   * string itself, else the value's `JSON.stringify(e, null, 2)` text.
   */
  function FailureMessage(e: Thrown): (msg: string)
    ensures e.ErrorWithMessage? ==> msg == e.message
    ensures e.StringValue? ==> msg == e.s
    ensures e.OtherValue? ==> msg == e.json
  {
    match e
    case ErrorWithMessage(m) => m
    case StringValue(s) => s
    case OtherValue(j) => j
  }

  // ---------------------------------------------------------------------------
  // Properties
  // ---------------------------------------------------------------------------

  /** The length check comes first: a short password that also mismatches reports "Weak password". */
  lemma ShortMismatchIsWeak(userId: string, otp: string)
    requires userId != "" && otp != ""
    ensures SubmitGuard(Some(userId), Some(otp), "abc", "xyz") == WeakPassword
    ensures GuardAlert(SubmitGuard(Some(userId), Some(otp), "abc", "xyz")).0 == "Weak password"
  {
  }

  /** A repeated parameter behaves like its first occurrence. */
  lemma RepeatedParamUsesFirst(userIds: seq<string>, otp: Param, pwd: string, confirm: string)
    requires |userIds| > 0
    ensures SubmitGuard(Normalize(Many(userIds)), Normalize(otp), pwd, confirm) ==
            SubmitGuard(Normalize(One(userIds[0])), Normalize(otp), pwd, confirm)
  {
  }

  /** An empty array parameter counts as missing, whatever the passwords. */
  lemma EmptyArrayParamIsMissing(otp: Param, pwd: string, confirm: string)
    ensures SubmitGuard(Normalize(Many([])), Normalize(otp), pwd, confirm) == MissingData
  {
  }

  // ---------------------------------------------------------------------------
  // The screen
  // ---------------------------------------------------------------------------

  /** Where a settled request leaves the user. */
  datatype Settled =
    /** `router.replace` to the profile editor with the new password prefilled. */
    | ToEditProfile(newPwd: string)
    | FailedAlert(message: string)

  class NewPasswordScreen {
    const userId: Option<string>
    const otp: Option<string>
    var pwd: string
    var confirm: string
    var loading: bool
    /** The password the in-flight request was sent with (the one `onSubmit`'s closure captured). */
    var submitted: string

    constructor (userIdParam: Param, otpParam: Param)
      ensures userId == Normalize(userIdParam) && otp == Normalize(otpParam)
      ensures pwd == "" && confirm == "" && !loading && submitted == ""
    {
      userId := Normalize(userIdParam);
      otp := Normalize(otpParam);
      pwd := "";
      confirm := "";
      loading := false;
      submitted := "";
    }

    /** The text inputs stay editable while a request is in flight. */
    method SetPasswords(p: string, c: string)
      modifies this
      ensures pwd == p && confirm == c && loading == old(loading) && submitted == old(submitted)
    {
      pwd := p;
      confirm := c;
    }

    /**
     * A press of the submit button. While `loading` the button is disabled and
     * the press does nothing (`None`); otherwise the guard decides, and
     * `loading` is raised and the password captured only when the request goes out.
     */
    method Submit() returns (r: Option<SubmitOutcome>)
      modifies this
      ensures old(loading) ==> r == None && loading && submitted == old(submitted)
      ensures !old(loading) ==> r == Some(SubmitGuard(userId, otp, pwd, confirm))
      ensures !old(loading) ==> loading == r.value.Verify?
      ensures !old(loading) && r.value.Verify? ==> submitted == r.value.request.newPassword == pwd
      ensures !old(loading) && !r.value.Verify? ==> submitted == old(submitted)
      ensures pwd == old(pwd) && confirm == old(confirm)
    {
      if loading {
        return None;
      }
      var g := SubmitGuard(userId, otp, pwd, confirm);
      if g.Verify? {
        loading := true;
        submitted := pwd;
      }
      r := Some(g);
    }

    /**
     * `verifyOtp` settles: navigate with the password the request carried, or
     * alert on failure; `loading` drops either way.
     */
    method Complete(result: Result<Json, Thrown>) returns (s: Settled)
      modifies this
      ensures !loading
      ensures result.Ok? ==> s == ToEditProfile(old(submitted))
      ensures result.Err? ==> s == FailedAlert(FailureMessage(result.error))
      ensures pwd == old(pwd) && confirm == old(confirm) && submitted == old(submitted)
    {
      if result.Ok? {
        s := ToEditProfile(submitted);
      } else {
        s := FailedAlert(FailureMessage(result.error));
      }
      loading := false;
    }
  }

  /**
   * Editing the fields while the request is in flight does not change where
   * success leads: the profile editor receives the password that was sent.
   */
  method EditDuringRequest(screen: NewPasswordScreen, p: string, c: string) returns (s: Settled)
    requires !screen.loading
    requires SubmitGuard(screen.userId, screen.otp, screen.pwd, screen.confirm).Verify?
    modifies screen
    ensures s == ToEditProfile(old(screen.pwd))
  {
    var sent := screen.pwd;
    var r := screen.Submit();
    assert r.value.Verify?;
    screen.SetPasswords(p, c);
    var again := screen.Submit();
    assert again == None;
    s := screen.Complete(Ok(JNull));
  }
}
