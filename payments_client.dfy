/**
 * `payPendingUPI` of lib/payments-client.ts: create a payment link, open it,
 * wait, check the status, and route the outcome to exactly one of `onPaid`
 * or `onStillPending`. Every awaited call is an input: its resolved value
 * (`Ok`) or what it throws (`Err`).
 */
module PaymentsClient {
  import opened JsStrings
  import opened JsValues
  import opened Payments

  /** What the procedure does, in order. */
  datatype Effect =
    | CreateLink(params: LinkParams)
    | OpenAuthSession(url: Json, redirect: string)
    | OpenBrowser(url: Json)
    | Wait(ms: int)
    | FetchStatus(referenceId: string)
    | ShowAlert(title: string, message: string)
    | InvokePaid
    /** `onStillPending?.()`: a call of the callback when one was given. */
    | InvokeStillPending

  predicate IsCallback(e: Effect) {
    e.InvokePaid? || e.InvokeStillPending?
  }

  /** `String(e?.message || '')`: the message a thrown value carries, or "". */
  function MessageText(e: Thrown): string {
    MessageOr(e, "")
  }

  /** The server reports that the order was paid already. */
  predicate AlreadyPaid(e: Thrown) {
    Contains(ToLower(MessageText(e)), "already_paid")
  }

  /** Nothing but alerts and callbacks: no request, no browser, no wait. */
  predicate OnlyReactions(effects: seq<Effect>) {
    forall i :: 0 <= i < |effects| ==> effects[i].ShowAlert? || IsCallback(effects[i])
  }

  /** The outer `catch`: an "already paid" error counts as paid, anything else alerts and stays pending. */
  function CatchOutcome(e: Thrown): (effects: seq<Effect>)
    ensures AlreadyPaid(e) ==> effects == [InvokePaid]
    ensures !AlreadyPaid(e) ==> effects == [ShowAlert("UPI error", MessageOr(e, "Please try again.")), InvokeStillPending]
    ensures |effects| > 0 && IsCallback(effects[|effects| - 1])
    ensures forall i :: 0 <= i < |effects| - 1 ==> !IsCallback(effects[i])
    ensures OnlyReactions(effects)
  {
    if AlreadyPaid(e) then [InvokePaid]
    else [ShowAlert("UPI error", MessageOr(e, "Please try again.")), InvokeStillPending]
  }

  /** The delay before the status check: shorter when the auth session came back through the callback URL. */
  function DelayMs(returnedViaCallback: bool): (ms: int)
    ensures ms == 600 || ms == 1200
    ensures ms == 600 <==> returnedViaCallback
  {
    if returnedViaCallback then 600 else 1200
  }

  /** Exactly one callback is invoked, and it is the last thing done. */
  predicate EndsInOneCallback(effects: seq<Effect>) {
    |effects| > 0 && IsCallback(effects[|effects| - 1]) &&
    forall i :: 0 <= i < |effects| - 1 ==> !IsCallback(effects[i])
  }

  predicate NoCallback(effects: seq<Effect>) {
    forall i :: 0 <= i < |effects| ==> !IsCallback(effects[i])
  }

  lemma PrependKeepsOneCallback(prefix: seq<Effect>, rest: seq<Effect>)
    requires NoCallback(prefix) && EndsInOneCallback(rest)
    ensures EndsInOneCallback(prefix + rest)
  {
    var all := prefix + rest;
    forall i | 0 <= i < |all| - 1
      ensures !IsCallback(all[i])
    {
      if i >= |prefix| {
        assert all[i] == rest[i - |prefix|];
      }
    }
  }

  /** `status?.status === 'paid'`. */
  predicate IsPaid(status: Json) {
    Field(status, "status") == Some(JStr("paid"))
  }

  /** `result?.type === 'success'`: the auth session came back through the callback URL. */
  predicate ReturnedViaCallback(auth: Result<Json, Thrown>) {
    auth.Ok? && Field(auth.value, "type") == Some(JStr("success"))
  }

  /** What the fetched status leads to: `onPaid`, `onStillPending`, or the outer `catch`. */
  function StatusOutcome(status: Result<Json, Thrown>): (effects: seq<Effect>)
    ensures EndsInOneCallback(effects)
    ensures status.Ok? ==> (effects == [InvokePaid] <==> IsPaid(status.value))
    ensures status.Ok? ==> |effects| == 1
    ensures status.Err? ==> effects == CatchOutcome(status.error)
    ensures OnlyReactions(effects)
  {
    if status.Err? then CatchOutcome(status.error)
    else if IsPaid(status.value) then [InvokePaid]
    else [InvokeStillPending]
  }

  /** From opening the link `url` on: the auth session, the browser fallback, the wait and the status check. */
  function AfterLink(url: Json, callbackUrl: string, referenceId: string,
                     auth: Result<Json, Thrown>, browser: Result<Json, Thrown>, status: Result<Json, Thrown>): seq<Effect>
  {
    var launched := if auth.Ok? then [OpenAuthSession(url, callbackUrl)]
                    else [OpenAuthSession(url, callbackUrl), OpenBrowser(url)];
    if auth.Err? && browser.Err? then launched + CatchOutcome(browser.error)
    else launched + ([Wait(DelayMs(ReturnedViaCallback(auth))), FetchStatus(referenceId)] + StatusOutcome(status))
  }

  /** The link parameters `payPendingUPI` sends. */
  function LinkRequest(referenceId: string, amount: int, customerName: Option<string>, callbackUrl: string): LinkParams {
    LinkParams(referenceId, amount, customerName, None, None, Some(callbackUrl))
  }

  /**
   * Everything `payPendingUPI` does, in order, given what each awaited call
   * resolves or throws. `createUrl` is `Linking.createURL`.
   */
  function Procedure(referenceId: string, amount: int, customerName: Option<string>, createUrl: string -> string,
                     link: Result<Json, Thrown>, auth: Result<Json, Thrown>, browser: Result<Json, Thrown>,
                     status: Result<Json, Thrown>): seq<Effect>
  {
    var callbackUrl := createUrl("/orders/" + referenceId);
    [CreateLink(LinkRequest(referenceId, amount, customerName, callbackUrl))] +
    if link.Err? then CatchOutcome(link.error)
    else if !Truthy(Field(link.value, "short_url")) then [ShowAlert("UPI error", "Could not create payment link."), InvokeStillPending]
    else AfterLink(Field(link.value, "short_url").value, callbackUrl, referenceId, auth, browser, status)
  }

  /** `payPendingUPI`: the effects it produces, in order. */
  method PayPendingUPI(referenceId: string, amount: int, customerName: Option<string>, createUrl: string -> string,
                       link: Result<Json, Thrown>, auth: Result<Json, Thrown>, browser: Result<Json, Thrown>,
                       status: Result<Json, Thrown>)
    returns (effects: seq<Effect>)
    ensures effects == Procedure(referenceId, amount, customerName, createUrl, link, auth, browser, status)
  {
    var callbackUrl := createUrl("/orders/" + referenceId);
    var rest: seq<Effect>;
    if link.Err? {
      rest := CatchOutcome(link.error);
    } else {
      var shortUrl := Field(link.value, "short_url");
      if !Truthy(shortUrl) {
        rest := [ShowAlert("UPI error", "Could not create payment link."), InvokeStillPending];
      } else {
        var url := shortUrl.value;
        var returnedViaCallback := false;
        var launched: seq<Effect>;
        if auth.Ok? {
          launched := [OpenAuthSession(url, callbackUrl)];
          returnedViaCallback := Field(auth.value, "type") == Some(JStr("success"));
        } else {
          launched := [OpenAuthSession(url, callbackUrl), OpenBrowser(url)];
        }
        if auth.Err? && browser.Err? {
          rest := launched + CatchOutcome(browser.error);
        } else {
          var outcome: seq<Effect>;
          if status.Err? {
            outcome := CatchOutcome(status.error);
          } else if Field(status.value, "status") == Some(JStr("paid")) {
            outcome := [InvokePaid];
          } else {
            outcome := [InvokeStillPending];
          }
          rest := launched + ([Wait(DelayMs(returnedViaCallback)), FetchStatus(referenceId)] + outcome);
        }
      }
    }
    effects := [CreateLink(LinkRequest(referenceId, amount, customerName, callbackUrl))] + rest;
  }

  // ---------------------------------------------------------------------------
  // Properties
  // ---------------------------------------------------------------------------

  /** The "already paid" test ignores case: the marker in any casing, anywhere in the message, counts as paid. */
  lemma AlreadyPaidAnyCase(m: string, i: nat)
    requires i + 12 <= |m| && forall k :: 0 <= k < 12 ==> LowerChar(m[i + k]) == "already_paid"[k]
    ensures AlreadyPaid(ErrorWithMessage(m))
    ensures CatchOutcome(ErrorWithMessage(m)) == [InvokePaid]
  {
    var lower := ToLower(m);
    assert lower[i..i + 12] == "already_paid";
    ContainsAt(lower, "already_paid", i);
  }

  /** An upper-case marker at the start of the message is recognised. */
  lemma UpperCaseMarkerIsPaid(m: string)
    requires |m| >= 12 && m[..12] == "ALREADY_PAID"
    ensures CatchOutcome(ErrorWithMessage(m)) == [InvokePaid]
  {
    forall k | 0 <= k < 12
      ensures LowerChar(m[k]) == "already_paid"[k]
    {
      assert m[k] == "ALREADY_PAID"[k];
    }
    AlreadyPaidAnyCase(m, 0);
  }

  /** A thrown value without a message is never read as "already paid" and alerts the fallback text. */
  lemma MessagelessErrorAlerts(s: string)
    ensures !AlreadyPaid(StringValue(s))
    ensures CatchOutcome(StringValue(s)) == [ShowAlert("UPI error", "Please try again."), InvokeStillPending]
  {
    assert MessageText(StringValue(s)) == "";
    assert ToLower("") == "";
  }

  /** Every path ends in exactly one of `onPaid` / `onStillPending`, called last. */
  lemma {:induction false} OneCallbackLast(referenceId: string, amount: int, customerName: Option<string>, createUrl: string -> string,
                                           link: Result<Json, Thrown>, auth: Result<Json, Thrown>, browser: Result<Json, Thrown>,
                                           status: Result<Json, Thrown>)
    ensures EndsInOneCallback(Procedure(referenceId, amount, customerName, createUrl, link, auth, browser, status))
  {
    var callbackUrl := createUrl("/orders/" + referenceId);
    var create := [CreateLink(LinkRequest(referenceId, amount, customerName, callbackUrl))];
    assert NoCallback(create);
    if link.Err? {
      PrependKeepsOneCallback(create, CatchOutcome(link.error));
    } else if !Truthy(Field(link.value, "short_url")) {
      PrependKeepsOneCallback(create, [ShowAlert("UPI error", "Could not create payment link."), InvokeStillPending]);
    } else {
      var url := Field(link.value, "short_url").value;
      var launched := if auth.Ok? then [OpenAuthSession(url, callbackUrl)] else [OpenAuthSession(url, callbackUrl), OpenBrowser(url)];
      assert NoCallback(launched);
      if auth.Err? && browser.Err? {
        PrependKeepsOneCallback(launched, CatchOutcome(browser.error));
      } else {
        var check := [Wait(DelayMs(ReturnedViaCallback(auth))), FetchStatus(referenceId)];
        assert NoCallback(check);
        PrependKeepsOneCallback(check, StatusOutcome(status));
        PrependKeepsOneCallback(launched, check + StatusOutcome(status));
      }
      PrependKeepsOneCallback(create, AfterLink(url, callbackUrl, referenceId, auth, browser, status));
    }
  }

  /**
   * A link without `short_url` alerts and calls `onStillPending`: no browser
   * is opened and no status is fetched. A failing `createPaymentLink` goes
   * straight to the `catch`.
   */
  lemma UnusableLink(referenceId: string, amount: int, customerName: Option<string>, createUrl: string -> string,
                     link: Result<Json, Thrown>, auth: Result<Json, Thrown>, browser: Result<Json, Thrown>,
                     status: Result<Json, Thrown>)
    requires link.Err? || !Truthy(Field(link.value, "short_url"))
    ensures var effects := Procedure(referenceId, amount, customerName, createUrl, link, auth, browser, status);
            var create := CreateLink(LinkRequest(referenceId, amount, customerName, createUrl("/orders/" + referenceId)));
            effects == [create] + (if link.Err? then CatchOutcome(link.error)
                                   else [ShowAlert("UPI error", "Could not create payment link."), InvokeStillPending]) &&
            OnlyReactions(effects[1..])
  {
    var effects := Procedure(referenceId, amount, customerName, createUrl, link, auth, browser, status);
    assert effects[1..] == if link.Err? then CatchOutcome(link.error)
                           else [ShowAlert("UPI error", "Could not create payment link."), InvokeStillPending];
  }

  /**
   * The callback URL `createURL("/orders/<referenceId>")` is sent with the
   * link request and is the auth session's redirect; the auth session is
   * the first thing opened.
   */
  lemma CallbackUrlUsedTwice(referenceId: string, amount: int, customerName: Option<string>, createUrl: string -> string,
                             link: Result<Json, Thrown>, auth: Result<Json, Thrown>, browser: Result<Json, Thrown>,
                             status: Result<Json, Thrown>)
    ensures var effects := Procedure(referenceId, amount, customerName, createUrl, link, auth, browser, status);
            var callbackUrl := createUrl("/orders/" + referenceId);
            effects[0] == CreateLink(LinkRequest(referenceId, amount, customerName, callbackUrl)) &&
            effects[0].params.callbackUrl == Some(callbackUrl) &&
            (forall i :: 0 <= i < |effects| && effects[i].OpenAuthSession? ==> i == 1 && effects[i].redirect == callbackUrl)
  {
    var effects := Procedure(referenceId, amount, customerName, createUrl, link, auth, browser, status);
    var callbackUrl := createUrl("/orders/" + referenceId);
    if link.Ok? && Truthy(Field(link.value, "short_url")) {
      var url := Field(link.value, "short_url").value;
      var after := AfterLink(url, callbackUrl, referenceId, auth, browser, status);
      assert effects[1..] == after;
      AfterLinkOpensOnce(url, callbackUrl, referenceId, auth, browser, status);
      forall i | 0 <= i < |effects| && effects[i].OpenAuthSession?
        ensures i == 1 && effects[i].redirect == callbackUrl
      {
        assert i > 0 ==> effects[i] == after[i - 1];
      }
    } else {
      UnusableLink(referenceId, amount, customerName, createUrl, link, auth, browser, status);
      assert forall i :: 0 < i < |effects| ==> effects[i] == effects[1..][i - 1];
    }
  }

  /** No auth session is opened anywhere in `effects`. */
  predicate NoAuthSession(effects: seq<Effect>) {
    forall j :: 0 <= j < |effects| ==> !effects[j].OpenAuthSession?
  }

  lemma ReactionsOpenNothing(effects: seq<Effect>)
    requires OnlyReactions(effects)
    ensures NoAuthSession(effects)
  {
  }

  lemma AppendNoAuthSession(xs: seq<Effect>, ys: seq<Effect>)
    requires NoAuthSession(xs) && NoAuthSession(ys)
    ensures NoAuthSession(xs + ys)
  {
    assert forall j :: |xs| <= j < |xs + ys| ==> (xs + ys)[j] == ys[j - |xs|];
  }

  lemma AfterLinkOpensOnce(url: Json, callbackUrl: string, referenceId: string,
                           auth: Result<Json, Thrown>, browser: Result<Json, Thrown>, status: Result<Json, Thrown>)
    ensures var after := AfterLink(url, callbackUrl, referenceId, auth, browser, status);
            forall i :: 0 <= i < |after| && after[i].OpenAuthSession? ==> i == 0 && after[i].redirect == callbackUrl
  {
    var after := AfterLink(url, callbackUrl, referenceId, auth, browser, status);
    var others: seq<Effect> := if auth.Ok? then [] else [OpenBrowser(url)];
    var rest;
    if auth.Err? && browser.Err? {
      rest := CatchOutcome(browser.error);
      ReactionsOpenNothing(rest);
    } else {
      var check := [Wait(DelayMs(ReturnedViaCallback(auth))), FetchStatus(referenceId)];
      rest := check + StatusOutcome(status);
      ReactionsOpenNothing(StatusOutcome(status));
      AppendNoAuthSession(check, StatusOutcome(status));
    }
    AppendNoAuthSession(others, rest);
    assert after == [OpenAuthSession(url, callbackUrl)] + (others + rest);
    assert forall i :: 1 <= i < |after| ==> after[i] == (others + rest)[i - 1];
  }

  /**
   * Once a usable link is open, the status check comes after the delay: 600
   * ms when the auth session returned through the callback, 1200 ms
   * otherwise; `onPaid` is called exactly when the fetched status is "paid",
   * `onStillPending` for every other status.
   */
  lemma StatusDecidesOutcome(referenceId: string, amount: int, customerName: Option<string>, createUrl: string -> string,
                             link: Json, auth: Result<Json, Thrown>, browser: Result<Json, Thrown>, status: Json)
    requires Truthy(Field(link, "short_url")) && (auth.Ok? || browser.Ok?)
    ensures var effects := Procedure(referenceId, amount, customerName, createUrl, Ok(link), auth, browser, Ok(status));
            var n := if auth.Ok? then 2 else 3;
            |effects| == n + 3 &&
            effects[n] == Wait(if ReturnedViaCallback(auth) then 600 else 1200) &&
            effects[n + 1] == FetchStatus(referenceId) &&
            (effects[n + 2] == InvokePaid <==> IsPaid(status)) &&
            (!IsPaid(status) ==> effects[n + 2] == InvokeStillPending)
  {
    var callbackUrl := createUrl("/orders/" + referenceId);
    var effects := Procedure(referenceId, amount, customerName, createUrl, Ok(link), auth, browser, Ok(status));
    var after := AfterLink(Field(link, "short_url").value, callbackUrl, referenceId, auth, browser, Ok(status));
    assert effects == [CreateLink(LinkRequest(referenceId, amount, customerName, callbackUrl))] + after;
  }

  /**
   * If both the auth session and the browser fail to open, no wait and no
   * status check follow: the browser's error goes to the `catch`.
   */
  lemma NothingOpensNoFetch(referenceId: string, amount: int, customerName: Option<string>, createUrl: string -> string,
                            link: Json, authError: Thrown, browserError: Thrown, status: Result<Json, Thrown>)
    requires Truthy(Field(link, "short_url"))
    ensures var effects := Procedure(referenceId, amount, customerName, createUrl, Ok(link), Err(authError), Err(browserError), status);
            |effects| >= 3 && effects[2].OpenBrowser? && effects[3..] == CatchOutcome(browserError) &&
            forall i :: 0 <= i < |effects| ==> !effects[i].FetchStatus? && !effects[i].Wait?
  {
    var callbackUrl := createUrl("/orders/" + referenceId);
    var url := Field(link, "short_url").value;
    var effects := Procedure(referenceId, amount, customerName, createUrl, Ok(link), Err(authError), Err(browserError), status);
    var head := [CreateLink(LinkRequest(referenceId, amount, customerName, callbackUrl)), OpenAuthSession(url, callbackUrl), OpenBrowser(url)];
    assert effects == head + CatchOutcome(browserError);
    forall i | 0 <= i < |effects|
      ensures !effects[i].FetchStatus? && !effects[i].Wait?
    {
      if i >= 3 {
        assert effects[i] == CatchOutcome(browserError)[i - 3];
      }
    }
  }
}
