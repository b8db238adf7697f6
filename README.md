# Food-delivery app core, modelled in Dafny

This project models the deterministic core of a React Native food-delivery
app with Appwrite and Razorpay back ends. Each core source file becomes one
Dafny module:

- `Cart`: the cart store (`store/cart.tsx`). It is a class whose `lines`
  field each action replaces. Pure functions give the new list.
- `Totals`: the bill calculator (`lib/totals.ts`).
- `AddressForm`: the address form's create-mode validation, edit-mode diff
  and submit payload (`components/checkout/AddressForm.tsx`).
- `Location`: the place label and the reverse-geocode fallbacks
  (`lib/location.ts`).
- `ResetOtp` and `ResetNew`: the two password-reset screens
  (`app/reset-password/otp.tsx`, `app/reset-password/new.tsx`). Each is a
  class over the screen's state, with pure guards and sanitisers.
- `PaymentWait`: the payment-status poller
  (`components/checkout/PaymentWait.tsx`). One `Tick` method is one poll,
  and `Poll` is a loop of ticks proved against the function `Run`.
- `PaymentsClient`: `payPendingUPI` (`lib/payments-client.ts`). It is a
  method that produces the ordered list of effects, proved equal to
  `Procedure`.
- `UpiLink`: the payment-link prefetch hook (`lib/useUPILink.ts`).
- `RatingsAggregate`: the ratings aggregation function
  (`functions/ratings-aggregate/index.js`). Its page loop is a method
  proved equal to a sum over the whole collection.
- `Payments` and `Api`: the HTTP response classification of
  `lib/payments.ts` and `lib/api.ts`.
- `ImageUri` and `ImageFallback`: `buildImageUri` and the single-retry
  image component (`components/home/RestaurantCardLight.tsx`,
  `components/home/ImageWithFallback.tsx`).

Two helper modules hold the JavaScript semantics the core relies on:

- `JsStrings`: `trim`, ASCII case mapping, `split`/`join`, `indexOf`,
  number-to-string conversion.
- `JsValues`: `Option`/`Result`, a JSON value type, thrown values,
  truthiness, optional field access, `String(x)` and `e?.message || fallback`.

The outside world appears only as inputs:

- the HTTP status, the body text and the parse result of a response;
- the parsed parts of a URL;
- the geocoder record;
- the SDK's file-view URL builder;
- the clock reading and the fetch outcome of each poll;
- the outcome of each awaited call in `payPendingUPI`.

The code and the written requirements of the app disagree on one point, and
the model follows the code. The requirements say that lowering a cart
quantity below one removes the line. `updateQty` (store/cart.tsx:71) instead
clamps the quantity to 1 and keeps the line. `Cart.UpdateQtyNeverRemoves`
states the code's behaviour. The requirements also describe coupons,
availability checks and a default-address rule. None of these appear in the
code, so none is modelled.

## Model

| member | source | states |
|---|---|---|
| Cart.FindIndex | store/cart.tsx:49-51 | the position of the first line of the (restaurant, item) pair; -1 exactly when no line matches |
| Cart.AddItem | store/cart.tsx:47-63 | a new pair appends exactly one line at the end, with qty `max(1, qty)`, and keeps the earlier lines; an existing pair keeps the length and changes only the first matching line, adding `qty` unclamped |
| Cart.UpdateQty | store/cart.tsx:67-75 | same length; every matching line gets qty `max(1, qty)`; every other line is unchanged |
| Cart.RemoveItem | store/cart.tsx:77-82 | a line is kept exactly when it was present and does not match the pair |
| Cart.ClearRestaurant | store/cart.tsx:84-87 | a line is kept exactly when it was present and belongs to another restaurant |
| Cart.ItemQty | store/cart.tsx:89-92 | the qty of the first matching line, or 0 when none matches |
| Cart.SumQty | store/cart.tsx:97 | the qty sum; with every line at one unit or more it is at least the number of lines |
| Cart.RestaurantCount | store/cart.tsx:94-97 | with every line at one unit or more, the count is 0 exactly when the restaurant has no line |
| Cart.OfRestaurant | store/cart.tsx:95-96 | exactly the lines of that restaurant |
| Cart.AddItemKeepsPairsUnique | store/cart.tsx:49-62 | if no two lines share a (restaurant, item) pair before `addItem`, none do after |
| Cart.AddItemKeepsQtyFloor | store/cart.tsx:47-63 | with a positive amount, `addItem` keeps every line at one unit or more |
| Cart.AddItemExistingIsUnclamped | store/cart.tsx:52-56 | a negative amount added to an existing line is not clamped: qty 1 plus -3 gives -2 |
| Cart.UpdateQtyNeverRemoves | store/cart.tsx:67-75 | `updateQty` with 0 or a negative amount keeps the line, which then reads qty 1 |
| Cart.UpdateQtyKeepsInvariants | store/cart.tsx:67-75 | `updateQty` preserves pair uniqueness and the one-unit floor |
| Cart.RemoveItemConcat | store/cart.tsx:77-82 | removal distributes over concatenation, so the survivors keep their order |
| Cart.RemoveItemSnoc | store/cart.tsx:77-82 | appending a line appends it to the result exactly when it does not match the pair, which fixes the result's order and multiplicity |
| Cart.RemoveItemClearsQty | store/cart.tsx:77-92 | after `removeItem` the pair's `getItemQty` is 0 |
| Cart.ClearRestaurantConcat | store/cart.tsx:84-87 | clearing distributes over concatenation, so other restaurants' lines keep their order |
| Cart.ClearRestaurantSnoc | store/cart.tsx:84-87 | appending a line appends it to the result exactly when it belongs to another restaurant |
| Cart.SumQtyConcat | store/cart.tsx:94-97 | the qty sum of a concatenation is the sum of the parts |
| Cart.SumQtyOfNone | store/cart.tsx:94-97 | a list without lines of a restaurant filters to nothing |
| Cart.ClearRestaurantZeroesCount | store/cart.tsx:84-97 | right after `clearRestaurant`, `getRestaurantCount` is 0 |
| Cart.CountAround | store/cart.tsx:94-97 | the restaurant count splits around any one position |
| Cart.AddItemRaisesCount | store/cart.tsx:47-97 | after `addItem`, the restaurant count grows by `qty` for an existing line, else by `max(1, qty)` |
| Cart.OfRestaurantConcat | store/cart.tsx:94-96 | the restaurant filter distributes over concatenation |
| Cart.OfRestaurantSnoc | store/cart.tsx:94-96 | appending a line appends it to the result exactly when it belongs to the restaurant |
| Cart.CartStore.constructor | store/cart.tsx:45 | the store starts with no lines |
| Cart.CartStore.AddLine | store/cart.tsx:47-65 | `lines` becomes `AddItem` of the old lines; pair uniqueness is preserved |
| Cart.CartStore.SetQty | store/cart.tsx:67-75 | `lines` becomes `UpdateQty` of the old lines |
| Cart.CartStore.Remove | store/cart.tsx:77-82 | `lines` becomes `RemoveItem` of the old lines |
| Cart.CartStore.ClearFor | store/cart.tsx:84-87 | `lines` becomes `ClearRestaurant` of the old lines, and the restaurant's count is 0 |
| Cart.CartStore.GetItemQty | store/cart.tsx:89-92 | the qty of the first line of the pair in the current lines, else 0 |
| Cart.CartStore.GetRestaurantCount | store/cart.tsx:94-97 | with every line at one unit or more, 0 exactly when the current lines hold none of the restaurant |
| Totals.RoundFivePercent | lib/totals.ts:16 | the result r is n/20 rounded half up: `20r - 10 <= n < 20r + 10` |
| Totals.SubTotal | lib/totals.ts:13 | the left fold of price times qty; its meaning is stated by SubTotalConcat, SubTotalReplace and SubTotalNonNegative |
| Totals.CalculateTotals | lib/totals.ts:12-19 | the platform fee is 5; the delivery fee is 0 exactly when subTotal >= 399, else 29; gst is 5% of subTotal plus both fees, rounded half up; the total is `max(0, subTotal + fees + gst)` |
| Totals.SubTotalNonNegative | lib/totals.ts:13 | with non-negative prices and quantities the subtotal is non-negative |
| Totals.SubTotalConcat | lib/totals.ts:13 | the subtotal of two carts together is the sum of their subtotals |
| Totals.EmptyCartTotals | lib/totals.ts:13-17 | an empty cart gives subtotal 0, fees 5 and 29, gst 2, total 36 |
| Totals.TotalCoversSubTotalAndFee | lib/totals.ts:13-17 | with non-negative lines, total >= subTotal + 5 and gst >= 0 |
| Totals.WorkedExample | lib/totals.ts:13-17 | one line of price 100 and qty 2 gives subtotal 200, delivery 29, gst 12, total 246 |
| Totals.AddItemRaisesSubTotal | lib/totals.ts:13 | `addItem` raises the subtotal by the line's price times the quantity the line gained |
| Totals.SubTotalReplace | lib/totals.ts:13 | replacing one line changes the subtotal by the difference of the two line amounts |
| AddressForm.Baseline | components/checkout/AddressForm.tsx:49-59 | each field's baseline is the initial value, or "" (false for isDefault) when absent |
| AddressForm.CreateValid | components/checkout/AddressForm.tsx:39-45 | the create-mode rules on trimmed values; the landmark is not consulted (LandmarkIgnored) and the rules survive trimming (CreatePayloadStaysValid) |
| AddressForm.EditChanged | components/checkout/AddressForm.tsx:47-61 | some field differs exactly when the raw form differs from its baseline record |
| AddressForm.DiffEntry | components/checkout/AddressForm.tsx:67-74 | an entry is present exactly when the raw value differs from its baseline, and it holds the trimmed value |
| AddressForm.PartialDiff | components/checkout/AddressForm.tsx:64-77 | a key is present exactly for each raw field that differs; strings are stored trimmed and isDefault as is |
| AddressForm.CanSubmit | components/checkout/AddressForm.tsx:79 | in edit mode, exactly when the partial diff has a key; in create mode, exactly when create-mode validation passes |
| AddressForm.Trimmed | components/checkout/AddressForm.tsx:86-96 | every string field is trimmed; isDefault is unchanged |
| AddressForm.SubmitPayload | components/checkout/AddressForm.tsx:82-97 | edit mode sends the partial diff; create mode sends the whole trimmed address |
| AddressForm.CreatePayloadStaysValid | components/checkout/AddressForm.tsx:40-96 | an address that passes create-mode validation still passes it as sent, trimmed: ten-digit phone, name of two or more characters, non-empty city |
| AddressForm.LandmarkIgnored | components/checkout/AddressForm.tsx:40-45 | the landmark never changes create-mode validity |
| AddressForm.EditSubmitIffChanged | components/checkout/AddressForm.tsx:48-79 | edit mode can submit exactly when the raw form differs from its baseline; no validation applies |
| AddressForm.EditChangedIffDiffNonEmpty | components/checkout/AddressForm.tsx:48-77 | `editChanged` holds exactly when `partialDiff` has at least one key |
| AddressForm.WhitespaceEditStillDiffs | components/checkout/AddressForm.tsx:67-74 | a whitespace-only edit still produces a diff entry, holding the unchanged trimmed value |
| AddressForm.UntouchedEditCannotSubmit | components/checkout/AddressForm.tsx:48-79 | an edit form left at its baseline cannot submit, and its diff is empty |
| Location.IfPresent | lib/location.ts:13 | a part is kept exactly when it is truthy |
| Location.KeepPresent | lib/location.ts:13 | exactly the truthy arguments, in city, state, country order: one element per truthy argument, each at its position |
| Location.TrimAll | lib/location.ts:13 | each part is trimmed, with the count and order kept |
| Location.JoinedParts | lib/location.ts:13-14 | the ", "-join of the trimmed truthy parts; JoinedPartsInOrder proves it equal to the part-by-part PartsLabel |
| Location.PartsLabel | lib/location.ts:13-14 | an independent reference: each truthy part is trimmed and appended, after ", " when a part precedes it |
| Location.JoinedPartsInOrder | lib/location.ts:13-14 | for all eight presence patterns, the filter-map-join label equals the part-by-part reference |
| Location.ToPrettyLabel | lib/location.ts:12-15 | the label is the upper-cased part-by-part reference `PartsLabel`, for every input; it has no lower-case letters, and is "" when all three parts are missing or empty |
| Location.FirstPresent | lib/location.ts:21-23 | the first truthy value of the chain, else "" |
| Location.ReverseGeocode | lib/location.ts:17-33 | lat and lng are returned unchanged; without a result every field is ""; otherwise the city is the first truthy of city, district, subregion, the state the first of region, subregion, the country the country or ""; the label is `toPrettyLabel(city, state, country)` |
| Location.FallbackChains | lib/location.ts:20-23 | for every first result: the city falls back from city to district to subregion, the state from region to subregion, the country to ""; later results are never read |
| Location.LabelOfAllThree | lib/location.ts:12-15 | with three parts, the label is the upper-cased ", "-join of the trimmed parts, in city, state, country order |
| Location.MissingPartSkipped | lib/location.ts:13-14 | a missing or empty part leaves no empty segment |
| Location.BlankPartKeptAsEmptySegment | lib/location.ts:13 | filtering comes before trimming, so a blank part leaves an empty segment (", GOA") |
| Location.SubregionFeedsCityAndState | lib/location.ts:21-22 | without city, district and region, the subregion becomes both the city and the state |
| Location.NoResultGivesEmptyPlace | lib/location.ts:18-23 | with no geocoder result every field and the label are "" |
| ResetOtp.Digits | app/reset-password/otp.tsx:94 | only digits are kept, never more than the input |
| ResetOtp.Sanitize | app/reset-password/otp.tsx:94 | the code has only digits and at most six of them, and it is a prefix of the input's digits: all of them, or the first six |
| ResetOtp.ContinueNext | app/reset-password/otp.tsx:66-71 | it proceeds exactly when the code has six characters, passing the account id and the code |
| ResetOtp.SendEnabled | app/reset-password/otp.tsx:80 | the button accepts a press only when not sending and without a cooldown; PressSend states what a press does |
| ResetOtp.Tick | app/reset-password/otp.tsx:38 | one interval step is `max(0, ms - 1000)`, never negative |
| ResetOtp.DisplaySeconds | app/reset-password/otp.tsx:85 | the shown seconds s are `ceil(ms / 1000)`: `1000(s - 1) < ms <= 1000s` |
| ResetOtp.Countdown | app/reset-password/otp.tsx:36-46 | the value after n interval callbacks; CountdownMatchesDisplay and CountdownNonNegative state its meaning |
| ResetOtp.DigitsConcat | app/reset-password/otp.tsx:94 | the digit filter distributes over concatenation |
| ResetOtp.DigitsOfDigits | app/reset-password/otp.tsx:94 | a string of digits passes the filter unchanged |
| ResetOtp.SanitizeIdempotent | app/reset-password/otp.tsx:94 | sanitising twice is sanitising once |
| ResetOtp.TypingDigitAppends | app/reset-password/otp.tsx:94 | a digit typed onto a code shorter than six is appended |
| ResetOtp.ExtraKeystrokeIgnored | app/reset-password/otp.tsx:94 | a non-digit, or a seventh digit, leaves the code unchanged |
| ResetOtp.NoDigitsDropped | app/reset-password/otp.tsx:94 | text without digits contributes nothing |
| ResetOtp.PasteKeepsFirstSixDigits | app/reset-password/otp.tsx:94 | a pasted code split by non-digits keeps its first six digits, in order |
| ResetOtp.SanitizedContinues | app/reset-password/otp.tsx:67 | a sanitised code can continue exactly when the input held at least six digits |
| ResetOtp.CountdownMatchesDisplay | app/reset-password/otp.tsx:36-46 | after n ticks the countdown is 0 exactly when n reaches the shown seconds; before that, the shown seconds drop by n |
| ResetOtp.CountdownNonNegative | app/reset-password/otp.tsx:36-46 | a countdown never goes negative |
| ResetOtp.SendFailureMessage | app/reset-password/otp.tsx:59 | a string `message` is shown; otherwise "Failed to send code." |
| ResetOtp.ResolveAccountId | app/reset-password/otp.tsx:18-33 | a truthy `userId` parameter wins; else the current user's truthy accountId; a user without one alerts "No accountId found"; a failed lookup alerts its message or "Please log in again."; a resolved id is never empty |
| ResetOtp.ParamSkipsLookup | app/reset-password/otp.tsx:21-24 | with a truthy parameter the outcome of the current-user lookup does not matter |
| ResetOtp.MessagelessLookupFailure | app/reset-password/otp.tsx:28-29 | a lookup that throws a string, a non-error value or an empty message alerts "Please log in again." |
| ResetOtp.OtpScreen.constructor | app/reset-password/otp.tsx:10-15 | the initial state: no account, not sending, no cooldown, ttl 600000, no expiry, empty code |
| ResetOtp.OtpScreen.ResolveAccount | app/reset-password/otp.tsx:18-33 | the account id becomes that of `ResolveAccountId`, with no alert and no navigation; on failure the id is unchanged, its alert is shown and `router.back()` follows; no timer or code changes |
| ResetOtp.OtpScreen.TypeOtp | app/reset-password/otp.tsx:94 | the code becomes the sanitised input; nothing else changes |
| ResetOtp.OtpScreen.Second | app/reset-password/otp.tsx:36-46 | each running countdown takes one tick; neither ever grows |
| ResetOtp.OtpScreen.PressSend | app/reset-password/otp.tsx:48-50 | a press while enabled either starts sending (an account is known) or alerts "Missing user id."; a disabled button does nothing |
| ResetOtp.OtpScreen.CompleteSend | app/reset-password/otp.tsx:51-63 | success sets the cooldown to `resendCooldownMs`, and sets both the ttl and the expiry to `ttlMs`; failure keeps them and alerts the message; sending ends either way |
| ResetOtp.OtpScreen.SendCaption | app/reset-password/otp.tsx:83-86 | without a cooldown the button reads "Send code"; with one it reads "Wait Ns", N the shown seconds, at least 1 |
| ResetNew.Normalize | app/reset-password/new.tsx:10-11 | a string parameter is kept; an array gives its first element, and nothing when empty |
| ResetNew.SubmitGuard | app/reset-password/new.tsx:17-30 | the guards in order: missing data, then a password under 8 characters, then a mismatch; verify is called only when all pass, with exactly userId, otp and the new password |
| ResetNew.GuardAlert | app/reset-password/new.tsx:18-26 | the title and text each rejected submit shows |
| ResetNew.FailureMessage | app/reset-password/new.tsx:36-39 | a string `message`, else the thrown string, else its JSON text |
| ResetNew.ShortMismatchIsWeak | app/reset-password/new.tsx:21-26 | a short password that also mismatches reports "Weak password" |
| ResetNew.RepeatedParamUsesFirst | app/reset-password/new.tsx:10-20 | a repeated parameter behaves like its first occurrence |
| ResetNew.EmptyArrayParamIsMissing | app/reset-password/new.tsx:10-19 | an empty array parameter counts as missing |
| ResetNew.NewPasswordScreen.constructor | app/reset-password/new.tsx:9-15 | the parameters are normalised; the passwords are empty, nothing is loading and no password has been sent |
| ResetNew.NewPasswordScreen.SetPasswords | app/reset-password/new.tsx:13-14 | the two password fields take the typed values, also while loading; the sent password is untouched |
| ResetNew.NewPasswordScreen.Submit | app/reset-password/new.tsx:17-68 | while loading the disabled button ignores the press and nothing changes; otherwise the outcome is the guard's verdict, loading starts exactly when verify is called, and the password sent is recorded |
| ResetNew.NewPasswordScreen.Complete | app/reset-password/new.tsx:29-43 | success goes to the profile with the password the request was sent with; failure alerts the failure message; loading ends either way |
| ResetNew.EditDuringRequest | app/reset-password/new.tsx:28-68 | editing the fields and pressing again during the request does not change the password success navigates with |
| PaymentWait.Decide | components/checkout/PaymentWait.tsx:27-43 | paid exactly on status "paid"; failed exactly on failed, canceled or expired; pending only past the deadline; a reschedule only within it; an error reschedule exactly on a thrown fetch or null body, with the thrown message (for a null body, the TypeError text of reading `.status`) or "Network error" |
| PaymentWait.Run | components/checkout/PaymentWait.tsx:26-46 | the actions of a sequence of polls; RunShape and ErrorsNeverStop state its meaning, and Poll is proved equal to it |
| PaymentWait.CountReschedules | components/checkout/PaymentWait.tsx:37-38 | the in-time pending polls among the actions, which RunShape equates with `tries` |
| PaymentWait.RunShape | components/checkout/PaymentWait.tsx:26-46 | a run takes one action per poll up to the first terminal one, which is the last; `tries` counts exactly the in-time pending ticks |
| PaymentWait.ErrorIgnoresDeadline | components/checkout/PaymentWait.tsx:39-42 | a fetch error past the deadline still reschedules |
| PaymentWait.StatusBeatsDeadline | components/checkout/PaymentWait.tsx:30-36 | a paid or failure status ends the wait even past the deadline |
| PaymentWait.UnknownStatusIsPending | components/checkout/PaymentWait.tsx:32-38 | any other status is handled as pending |
| PaymentWait.ErrorsNeverStop | components/checkout/PaymentWait.tsx:39-42 | a run of fetch errors never stops, keeps `tries`, and ends with the last error text |
| PaymentWait.Poller.constructor | components/checkout/PaymentWait.tsx:11-24 | zero tries, no error, armed, with the given timeout and interval (default 30000 and 2000) |
| PaymentWait.Poller.Tick | components/checkout/PaymentWait.tsx:27-43 | the action is `Decide`; `tries` grows by 1 only on an in-time reschedule; `err` is set only on an error; the poller stays armed exactly when no terminal action was taken |
| PaymentWait.Poller.Poll | components/checkout/PaymentWait.tsx:26-46 | the loop of ticks yields the actions, the final `tries` and the final `err` of `Run`; it stays armed exactly when the last action was not terminal |
| PaymentWait.Poller.PressCloseOrRetry | components/checkout/PaymentWait.tsx:59-67 | both buttons call `onPending` |
| Payments.FailureMessage | lib/payments.ts:12 | `detail` if truthy, else `error`, else "HTTP status" |
| Payments.ParseJsonOrThrow | lib/payments.ts:4-16 | an empty OK body gives null; an unparseable non-empty body throws the preview whatever the status; a non-OK status throws the failure message; otherwise the parsed value |
| Payments.NonJsonMessage | lib/payments.ts:9 | the unparseable-body error text; PreviewIsBodyPrefix states its preview |
| Payments.HttpStatusText | lib/payments.ts:12 | the "HTTP status" fallback text |
| Payments.AddIfPresent | lib/payments.ts:28 | a key is added only for a given value |
| Payments.LinkBody | lib/payments.ts:18-28 | the body always has referenceId and amount; name, email, contact and callbackUrl are present exactly when given, with the given text; no other key appears |
| Payments.StatusUrl | lib/payments.ts:34 | the status URL is the API base, "/api/payments/status/" and then exactly the reference id |
| Payments.CreatePaymentLink | lib/payments.ts:18-31 | a JSON POST of the link body to the create-link URL, resolving to exactly what `parseJsonOrThrow` gives |
| Payments.FetchPaymentStatus | lib/payments.ts:33-36 | a plain GET of the status URL, resolving to exactly what `parseJsonOrThrow` gives |
| Payments.EmptyBodySkipsParse | lib/payments.ts:7 | an empty body's outcome does not depend on the parser |
| Payments.ParseFailureBeatsStatus | lib/payments.ts:7-13 | an unparseable body throws the preview for any status, OK or not |
| Payments.PreviewIsBodyPrefix | lib/payments.ts:9 | the preview holds the first `min(180, length)` characters of the body |
| Payments.DetailBeforeError | lib/payments.ts:11-14 | `detail` is preferred to `error`; a body with neither reports the status |
| Payments.StatusUrlInjective | lib/payments.ts:34 | two status URLs are equal only for the same reference id |
| Api.RequestOptions | lib/api.ts:11-15 | the method defaults to GET and the headers to JSON; each key the caller gives replaces its default whole |
| Api.TryParseJson | lib/api.ts:4-6 | the parsed value, or null when parsing fails |
| Api.AsJson | lib/api.ts:18 | an empty body gives null without parsing |
| Api.ErrorValue | lib/api.ts:21-23 | the value the error message is made from; ErrorMessage, ErrorFieldFirst and FalsyJsonUsesRaw state its choices |
| Api.ErrorMessage | lib/api.ts:21-25 | `error`, else `message`, else the raw body if it is not blank, else "HTTP status", always as a string |
| Api.Classify | lib/api.ts:17-28 | a non-OK status throws the error message; an OK status returns the parsed JSON, or `{}` in place of null |
| Api.CallApi | lib/api.ts:8-28 | an unset backend URL throws before any request; otherwise one request to the URL plus the path, classified |
| Api.OkNeverYieldsNull | lib/api.ts:28 | an OK response always yields a value; an empty, unparseable or null body yields `{}` |
| Api.ErrorFieldFirst | lib/api.ts:21-22 | a body carrying both `error` and `message` reports `error` |
| Api.RawBodyUntrimmed | lib/api.ts:23 | a non-JSON error body is reported as sent, surrounding whitespace included |
| Api.BlankBodyGivesStatus | lib/api.ts:23 | a blank error body falls through to "HTTP status" |
| Api.FalsyJsonUsesRaw | lib/api.ts:22 | a falsy JSON body such as `0` is not consulted for fields; its raw text is the message |
| Api.PostKeepsJsonHeader | lib/api.ts:11-15 | a POST keeps the default JSON header; caller headers replace the default headers without merging |
| PaymentsClient.CatchOutcome | lib/payments-client.ts:49-57 | an "already paid" error calls `onPaid` with no alert; any other error alerts its message (or "Please try again.") and calls `onStillPending`; exactly one callback, last |
| PaymentsClient.DelayMs | lib/payments-client.ts:43 | 600 ms exactly after a callback return, else 1200 ms |
| PaymentsClient.ReturnedViaCallback | lib/payments-client.ts:38 | an auth session that resolved with type "success"; DelayMs and StatusDecidesOutcome use it |
| PaymentsClient.AlreadyPaid | lib/payments-client.ts:50-51 | the lower-cased message contains "already_paid"; AlreadyPaidAnyCase and MessagelessErrorAlerts state its meaning |
| PaymentsClient.StatusOutcome | lib/payments-client.ts:45-47 | a fetched status calls `onPaid` exactly when it is "paid", else `onStillPending`; a failed fetch goes to the catch |
| PaymentsClient.AfterLink | lib/payments-client.ts:36-47 | the effects after a usable link; AfterLinkOpensOnce, StatusDecidesOutcome and NothingOpensNoFetch state its meaning |
| PaymentsClient.Procedure | lib/payments-client.ts:19-57 | the ordered effects of one call; OneCallbackLast, UnusableLink and CallbackUrlUsedTwice state its meaning |
| PaymentsClient.PayPendingUPI | lib/payments-client.ts:19-57 | the effects produced, in order, are exactly `Procedure` of the call outcomes |
| PaymentsClient.AlreadyPaidAnyCase | lib/payments-client.ts:50-54 | "already_paid" in any letter case, anywhere in the message, counts as paid |
| PaymentsClient.UpperCaseMarkerIsPaid | lib/payments-client.ts:50-54 | an upper-case "ALREADY_PAID" prefix is recognised |
| PaymentsClient.MessagelessErrorAlerts | lib/payments-client.ts:50-56 | a thrown value without a message is never "already paid" and alerts "Please try again." |
| PaymentsClient.OneCallbackLast | lib/payments-client.ts:19-57 | every path calls exactly one of `onPaid` / `onStillPending`, as its last effect |
| PaymentsClient.UnusableLink | lib/payments-client.ts:22-33 | a failed link request goes to the catch; a link without `short_url` alerts and calls `onStillPending`; after the request neither opens a browser nor fetches a status |
| PaymentsClient.CallbackUrlUsedTwice | lib/payments-client.ts:20-37 | the URL built from "/orders/" and the reference id is the link's callback and the redirect of the only auth session, which opens right after the link request |
| PaymentsClient.AfterLinkOpensOnce | lib/payments-client.ts:36-41 | after the link is created, the auth session is opened once, first, with the callback URL as redirect |
| PaymentsClient.StatusDecidesOutcome | lib/payments-client.ts:35-47 | with a usable link that opened, there is a wait of 600 or 1200 ms, then a status fetch, then `onPaid` exactly when the status is "paid", else `onStillPending` |
| PaymentsClient.NothingOpensNoFetch | lib/payments-client.ts:36-57 | if neither the auth session nor the browser opens, no wait and no fetch happen, and the browser's error goes to the catch |
| UpiLink.EnsureStep | lib/useUPILink.ts:20-44 | remembers the key and caches the awaited request; issues a new request exactly when none is in flight under the same key; leaves `shortUrl` |
| UpiLink.ShortUrlOf | lib/useUPILink.ts:35 | the link's `short_url` when truthy, else null |
| UpiLink.SettleStep | lib/useUPILink.ts:27-41 | loading ends; success publishes the short URL, failure keeps the old one; the cache is kept |
| UpiLink.ResetStep | lib/useUPILink.ts:52-55 | clears `shortUrl` and the cached request, and nothing else |
| UpiLink.RenderCorrected | lib/useUPILink.ts:46-55 | with the reset first, a commit that prefetches leaves that request cached under the new key |
| UpiLink.RenderAsWritten | lib/useUPILink.ts:46-55 | a commit in the source's effect order, auto effect first; AutoMountDuplicatesRequest and ReferenceChangeDuplicatesRequest exhibit its defect |
| UpiLink.SameKeyOneRequest | lib/useUPILink.ts:21-22 | two `ensure` calls with the same key issue at most one request and await the same one |
| UpiLink.NewKeyIssues | lib/useUPILink.ts:24-27 | a different key issues a new request, which becomes the cached one, with loading on |
| UpiLink.FailedRequestReused | lib/useUPILink.ts:22-41 | a settled request, even a failed one, is reused by a same-key `ensure` |
| UpiLink.ResetForcesRequest | lib/useUPILink.ts:20-55 | after a `referenceId` change the next `ensure` always issues a request |
| UpiLink.AutoMountDuplicatesRequest | lib/useUPILink.ts:46-55 | as written, a mount with `auto` and then an `ensure` with the same key issue two identical requests |
| UpiLink.ReferenceChangeDuplicatesRequest | lib/useUPILink.ts:46-55 | as written, a `referenceId` change with `auto` forgets its own prefetch |
| UpiLink.CorrectedPrefetchIsReused | lib/useUPILink.ts:46-55 | with the reset first, the prefetched request is reused and no duplicate is issued |
| UpiLink.OrdersAgreeWithoutAuto | lib/useUPILink.ts:46-55 | without `auto` the two effect orders give the same state |
| UpiLink.UpiLinkHook.constructor | lib/useUPILink.ts:14-19 | the first commit from the initial state |
| UpiLink.UpiLinkHook.SetProps | lib/useUPILink.ts:46-55 | a re-render commits its two effects in the corrected order of `RenderCorrected` and keeps the state consistent |
| UpiLink.UpiLinkHook.Ensure | lib/useUPILink.ts:20-44 | the state and the awaited request are those of `EnsureStep` |
| UpiLink.UpiLinkHook.Settle | lib/useUPILink.ts:27-41 | the state is that of `SettleStep` |
| RatingsAggregate.Matching | functions/ratings-aggregate/index.js:42 | only the item's documents, never more than the collection |
| RatingsAggregate.IdIndex | functions/ratings-aggregate/index.js:45 | the position of the cursor document, or -1 when absent |
| RatingsAggregate.ListPage | functions/ratings-aggregate/index.js:41-47 | a page holds at most 100 documents |
| RatingsAggregate.CountOf | functions/ratings-aggregate/index.js:49-55 | the count of numeric ratings never exceeds the documents read |
| RatingsAggregate.SumOf | functions/ratings-aggregate/index.js:49-55 | the sum of the numeric ratings; SumCountConcat and NaNRatingSkipped state its meaning |
| RatingsAggregate.Average | functions/ratings-aggregate/index.js:61 | 0 without numeric ratings; otherwise the average times the count is the sum |
| RatingsAggregate.Expected | functions/ratings-aggregate/index.js:8-71 | non-GET is 405 first; a missing, non-string or empty itemId is 400; missing env ids are 500; a success never counts more than the collection |
| RatingsAggregate.Scanned | functions/ratings-aggregate/index.js:35-70 | any failure is a 500 "Internal error"; without a failing call the count is that of the item's numeric ratings |
| RatingsAggregate.SumCountConcat | functions/ratings-aggregate/index.js:49-55 | sum and count distribute over concatenation |
| RatingsAggregate.IdIndexOfUnique | functions/ratings-aggregate/index.js:45 | with unique ids a document is found where it is |
| RatingsAggregate.PageAt | functions/ratings-aggregate/index.js:41-47 | the page after the cursor of the first `pos` documents starts at `pos` |
| RatingsAggregate.ScanStep | functions/ratings-aggregate/index.js:45-58 | a page is the next slice of the item's documents; a short page is the last; a full page's last document gives the next cursor |
| RatingsAggregate.ScanFails | functions/ratings-aggregate/index.js:67-70 | a call that throws before the short page is read makes the answer a 500 |
| RatingsAggregate.ScanIter | functions/ratings-aggregate/index.js:40-59 | one loop round: the sums extend; a short page ends with the whole-list answer; a full page advances the prefix and the cursor |
| RatingsAggregate.SumPage | functions/ratings-aggregate/index.js:49-55 | the inner loop sums and counts exactly the page's numeric ratings |
| RatingsAggregate.Handle | functions/ratings-aggregate/index.js:8-71 | the handler's answer equals the whole-collection answer `Expected` |
| RatingsAggregate.Scan | functions/ratings-aggregate/index.js:35-66 | the paginated loop's answer equals `Scanned` over the item's whole document list |
| RatingsAggregate.MethodCheckedFirst | functions/ratings-aggregate/index.js:11-13 | a non-GET request is 405 whatever else is wrong with it |
| RatingsAggregate.NonStringItemIdRejected | functions/ratings-aggregate/index.js:15-18 | an array itemId is 400 |
| RatingsAggregate.NoRatingsAverageZero | functions/ratings-aggregate/index.js:61 | an item without numeric ratings averages 0 over a count of 0 |
| RatingsAggregate.CountNone | functions/ratings-aggregate/index.js:49-55 | documents without numeric ratings count 0 |
| RatingsAggregate.FullPageNeedsOneMoreCall | functions/ratings-aggregate/index.js:57 | 100 documents need two calls (the second page is empty); 99 or 0 need one |
| RatingsAggregate.NaNRatingSkipped | functions/ratings-aggregate/index.js:50-51 | a rating that is not a number changes neither the sum nor the count |
| ImageUri.BuildImageUri | components/home/RestaurantCardLight.tsx:7-17 | a missing or blank value gives the placeholder; a trimmed value that is a web URL is returned trimmed; any other trimmed value gives the SDK's view URL for it, or the placeholder when the SDK throws |
| ImageUri.IsWebUrl | components/home/RestaurantCardLight.tsx:11 | an http or https scheme in any letter case; SchemeAnyCase states it |
| ImageUri.BlankGivesPlaceholder | components/home/RestaurantCardLight.tsx:9 | a whitespace-only value gives the placeholder |
| ImageUri.SchemeAnyCase | components/home/RestaurantCardLight.tsx:11 | the scheme test ignores letter case |
| ImageUri.WebUrlKept | components/home/RestaurantCardLight.tsx:10-11 | a web URL ending in a visible character is returned as given, and the SDK is not consulted |
| ImageUri.SecureUrlKept | components/home/RestaurantCardLight.tsx:10-11 | an `https://` URL ending in a visible character is returned as given |
| ImageUri.PlaceholderStable | components/home/RestaurantCardLight.tsx:8-11 | the placeholder maps to itself |
| ImageUri.BuildIdempotent | components/home/RestaurantCardLight.tsx:7-17 | when the SDK yields trimmed web URLs, building from a built URI returns it unchanged |
| ImageFallback.SegmentAfter | components/home/ImageWithFallback.tsx:11-12 | the segment after the index, or "undefined" past the end |
| ImageFallback.DownloadUrl | components/home/ImageWithFallback.tsx:14 | the download URL text; DownloadUrlPrefix and ViewBecomesDownload state its shape |
| ImageFallback.ToDownloadUrl | components/home/ImageWithFallback.tsx:5-18 | an unparseable input is returned as is; otherwise the result is a download URL on the input's origin |
| ImageFallback.StoragePathSegments | components/home/ImageWithFallback.tsx:8 | a storage path splits back into its seven segments |
| ImageFallback.StorageIndices | components/home/ImageWithFallback.tsx:9-10 | in a storage path the first "buckets" is segment 2 and the first "files" is segment 4 |
| ImageFallback.ViewBecomesDownload | components/home/ImageWithFallback.tsx:5-14 | a storage `/view` URL becomes the `/download` URL of the same bucket, file and project |
| ImageFallback.MissingProjectIsEmpty | components/home/ImageWithFallback.tsx:13-14 | without a `project` parameter the URL ends in "/download?project=" |
| ImageFallback.MissingBucketsUsesFirstSegment | components/home/ImageWithFallback.tsx:9-11 | without a "buckets" segment the bucket id is the path's first segment |
| ImageFallback.DownloadUrlPrefix | components/home/ImageWithFallback.tsx:14 | the download URL begins with the origin, the bucket and "/files/" |
| ImageFallback.RootPathGivesUndefined | components/home/ImageWithFallback.tsx:8-14 | a bare origin gives "undefined" for both ids |
| ImageFallback.Mount | components/home/ImageWithFallback.tsx:33-34 | the first render shows `src` and has not retried |
| ImageFallback.SrcStep | components/home/ImageWithFallback.tsx:36-39 | a changed `src` resets the state to a fresh mount; an unchanged one leaves the state alone |
| ImageFallback.ErrorStep | components/home/ImageWithFallback.tsx:53-58 | the first error switches to the download URL of `src`; later errors change nothing |
| ImageFallback.RetriesOnce | components/home/ImageWithFallback.tsx:53-58 | a second error changes nothing |
| ImageFallback.StepsKeepUri | components/home/ImageWithFallback.tsx:33-58 | the shown URI is always `src` or the download URL built from it |
| ImageFallback.NewSourceRearms | components/home/ImageWithFallback.tsx:36-58 | after a new source, the first error retries with that source's own download URL |
| ImageFallback.FallbackImage.constructor | components/home/ImageWithFallback.tsx:33-34 | the component starts from `Mount` of its source |
| ImageFallback.FallbackImage.SetSrc | components/home/ImageWithFallback.tsx:36-39 | the state is that of `SrcStep` |
| ImageFallback.FallbackImage.OnError | components/home/ImageWithFallback.tsx:53-58 | the state is that of `ErrorStep` for the current source |

## Left out

- Cart persistence to device storage (store/cart.tsx:99-106) is not modelled, because it is storage I/O.
- The Appwrite SDK and `fetch` are inputs, not modelled behaviour. So are `JSON.parse`, `new URL`, `Linking.createURL`, `WebBrowser`, `Alert`, `router` and `Location.reverseGeocodeAsync`. The model takes their results: a status, a body text, a parse result, URL parts, a geocoder record, an alert or navigation effect.
- Timers and React hooks are explicit method calls: each `setInterval` tick, each poll, each render and each request settling. `Date.now()` is the `now` argument of a poll. The unmount cleanup of `PaymentWait` (components/checkout/PaymentWait.tsx:45) and the poll interval's scheduling are left out.
- Prices and quantities are integers. `Math.round(n * 0.05)` is modelled as exact half-up rounding of n/20, without the floating-point error of 0.05.
- The ratings average is a `real` division. `Number(doc.value)` is an input, with `None` for NaN. Latitude and longitude are passed through as `real`.
- `trim` uses the ASCII whitespace characters plus U+00A0 and U+FEFF. The other Unicode space separators are left out.
- Letter case mapping is ASCII only.
- String lengths count `char`s, not UTF-16 code units.
- `encodeURIComponent` in the reset screens' navigation is left out. The outcome carries the raw values.
- `JSON.stringify` of a thrown non-string value (app/reset-password/new.tsx:39) is an input. The thrown value carries its JSON text.
- `getFileView(...).toString()` (components/home/RestaurantCardLight.tsx:13) is the parameter `fileView`. A throw is `None`.
- In useUPILink, the `JSON.stringify` cache key is modelled as the record of the four fields. Two keys are equal exactly when the fields are.
- useUPILink requests are numbered in the order they are issued. Their results arrive through `Settle` in any order.
- The JavaScript promise a caller of `ensure` awaits is modelled as the request number.
- In `payPendingUPI`, `onStillPending` is optional. The model records the call as an effect whether or not the caller passed a callback.
- `PaymentWait`'s null-status access throws a `TypeError`. Its message is the constructor parameter `nullAccessMessage`.
- The ratings handler's logging (`error(...)`) and response headers are left out.
- In the ratings handler, the item id placed inside the query string is modelled as an exact match on `itemId`.
- RatingsAggregate.Handle: requires that document ids are unique, as the database guarantees, so that `cursorAfter` finds the document it was given.
- RatingsAggregate.Scan: requires that document ids are unique, for the same reason.
- The image component's rendering and the image load itself are left out. A load failure is the `OnError` call.
- UpiLink.UpiLinkHook: the class commits the two effects in the corrected order of `RenderCorrected`. The as-written order is modelled as the function `RenderAsWritten`, which the Findings section uses.

## Findings

| source | as written | input that shows it | evidently intended | confidence | as-written member | corrected member |
|---|---|---|---|---|---|---|
| lib/useUPILink.ts:46-55 | the auto-prefetch effect is declared before the `referenceId` reset effect, so on mount (and on every `referenceId` change) with `auto` the prefetch is issued and then its cache entry is cleared | mount with `auto = true`, then `ensure()` with the same parameters: two identical `createPaymentLink` requests | the prefetch started by the same commit stays cached, so the next same-key `ensure` reuses it | not executed | UpiLink.AutoMountDuplicatesRequest | UpiLink.CorrectedPrefetchIsReused |
