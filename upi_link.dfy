/**
 * The payment-link prefetch hook of lib/useUPILink.ts: `ensure` reuses the
 * in-flight request while the link parameters stay the same, a settled
 * request publishes its `short_url`, and a change of `referenceId` forgets
 * both. Requests are numbered in the order they are issued; their outcomes
 * are inputs of `Settle`.
 */
module UpiLink {
  import opened JsValues

  /** The parameters `ensure` serialises into its cache key. */
  datatype LinkKey = LinkKey(referenceId: string, amount: int, name: Option<string>, callbackUrl: Option<string>)

  /** The hook's arguments. */
  datatype Props = Props(key: LinkKey, auto: bool)

  /**
   * The hook's state: `shortUrl` and `loading`, the `inflight` and
   * `lastParams` refs (an unset `lastParams` is the initial ""), and the log
   * of `createPaymentLink` calls made so far.
   */
  datatype LinkState = LinkState(
    shortUrl: Option<Json>, loading: bool, inflight: Option<nat>, lastParams: Option<LinkKey>, issued: seq<LinkKey>)

  const Initial := LinkState(None, false, None, None, [])

  /** `inflight` always names a request that was issued. */
  predicate Consistent(st: LinkState) {
    st.inflight.Some? ==> st.inflight.value < |st.issued|
  }

  /**
   * `ensure()`: the state afterwards and the request whose result the caller
   * awaits. The cached request is reused only while set and under the same key.
   */
  function EnsureStep(st: LinkState, key: LinkKey): (r: (LinkState, nat))
    ensures Consistent(st) ==> Consistent(r.0) && r.1 < |r.0.issued|
    ensures r.0.lastParams == Some(key) && r.0.inflight == Some(r.1)
    ensures r.0.issued == st.issued || r.0.issued == st.issued + [key]
    ensures r.0.shortUrl == st.shortUrl
    ensures r.0.issued == st.issued <==> st.inflight.Some? && st.lastParams == Some(key)
  {
    if st.inflight.Some? && st.lastParams == Some(key) then (st, st.inflight.value)
    else
      var id := |st.issued|;
      (st.(lastParams := Some(key), loading := true, inflight := Some(id), issued := st.issued + [key]), id)
  }

  /** `link?.short_url || null`. */
  function ShortUrlOf(link: Json): (u: Option<Json>)
    ensures u.Some? <==> Truthy(Field(link, "short_url"))
    ensures u.Some? ==> u == Field(link, "short_url")
  {
    var f := Field(link, "short_url");
    if Truthy(f) then f else None
  }

  /**
   * A request settles: success publishes the link (or null); failure leaves
   * `shortUrl`. Either way `loading` drops, and `inflight` is left as it is.
   */
  function SettleStep(st: LinkState, outcome: Result<Json, Thrown>): (r: LinkState)
    ensures !r.loading
    ensures r.inflight == st.inflight && r.lastParams == st.lastParams && r.issued == st.issued
    ensures outcome.Ok? ==> r.shortUrl == ShortUrlOf(outcome.value)
    ensures outcome.Err? ==> r.shortUrl == st.shortUrl
  {
    match outcome
    case Ok(link) => st.(shortUrl := ShortUrlOf(link), loading := false)
    case Err(_) => st.(loading := false)
  }

  /** The reset effect: `setShortUrl(null); inflight.current = null`. */
  function ResetStep(st: LinkState): (r: LinkState)
    ensures r.shortUrl == None && r.inflight == None
    ensures r.loading == st.loading && r.lastParams == st.lastParams && r.issued == st.issued
  {
    st.(shortUrl := None, inflight := None)
  }

  /** The auto-prefetch effect runs on mount and whenever `auto` or any key field changes. */
  predicate AutoEffectRuns(prev: Option<Props>, next: Props) {
    prev.None? || prev.value.auto != next.auto || prev.value.key != next.key
  }

  /** The reset effect runs on mount and whenever `referenceId` changes. */
  predicate ResetEffectRuns(prev: Option<Props>, next: Props) {
    prev.None? || prev.value.key.referenceId != next.key.referenceId
  }

  /**
   * A commit as written: the effects run in declaration order, the
   * auto-prefetch first and the reset second. `prev` is `None` on mount.
   */
  function RenderAsWritten(st: LinkState, prev: Option<Props>, next: Props): LinkState {
    var afterAuto := if AutoEffectRuns(prev, next) && next.auto then EnsureStep(st, next.key).0 else st;
    if ResetEffectRuns(prev, next) then ResetStep(afterAuto) else afterAuto
  }

  /** A commit with the reset effect first, so that a prefetch it triggers is the one remembered. */
  function RenderCorrected(st: LinkState, prev: Option<Props>, next: Props): (r: LinkState)
    ensures Consistent(st) ==> Consistent(r)
    ensures AutoEffectRuns(prev, next) && next.auto ==> r.inflight.Some? && r.lastParams == Some(next.key)
  {
    var afterReset := if ResetEffectRuns(prev, next) then ResetStep(st) else st;
    if AutoEffectRuns(prev, next) && next.auto then EnsureStep(afterReset, next.key).0 else afterReset
  }

  // ---------------------------------------------------------------------------
  // Properties
  // ---------------------------------------------------------------------------

  /** Two `ensure` calls in a row with the same key issue at most one request and await the same one. */
  lemma SameKeyOneRequest(st: LinkState, key: LinkKey)
    ensures var (s1, i1) := EnsureStep(st, key);
            var (s2, i2) := EnsureStep(s1, key);
            i2 == i1 && s2 == s1 && |s2.issued| <= |st.issued| + 1
  {
  }

  /** A different key always issues a new request, which becomes the cached one. */
  lemma NewKeyIssues(st: LinkState, key: LinkKey)
    requires st.lastParams != Some(key)
    ensures var (s1, i1) := EnsureStep(st, key);
            s1.issued == st.issued + [key] && i1 == |st.issued| && s1.loading
  {
  }

  /** Settling never clears the cache: a same-key `ensure` after a failure reuses the failed request. */
  lemma FailedRequestReused(st: LinkState, key: LinkKey, e: Thrown)
    ensures var (s1, i1) := EnsureStep(st, key);
            var s2 := SettleStep(s1, Err(e));
            EnsureStep(s2, key) == (s2, i1) && !s2.loading
  {
  }

  /** After a `referenceId` change the next `ensure` always issues a request. */
  lemma ResetForcesRequest(st: LinkState, key: LinkKey)
    ensures EnsureStep(ResetStep(st), key).0.issued == st.issued + [key]
  {
  }

  /**
   * As written, a mount with `auto` prefetches and then forgets the
   * prefetch, so the next `ensure` with the very same key issues a second
   * identical request.
   */
  lemma AutoMountDuplicatesRequest(props: Props)
    requires props.auto
    ensures var s1 := RenderAsWritten(Initial, None, props);
            var s2 := EnsureStep(s1, props.key).0;
            s2.issued == [props.key, props.key]
  {
  }

  /**
   * The same happens whenever `referenceId` changes while `auto` is on: the
   * prefetch has just run under the new key, yet the next `ensure` with that
   * key issues a request again.
   */
  lemma ReferenceChangeDuplicatesRequest(st: LinkState, prev: Props, next: Props)
    requires next.auto && prev.key.referenceId != next.key.referenceId
    ensures var s1 := RenderAsWritten(st, Some(prev), next);
            s1.lastParams == Some(next.key) && s1.inflight == None &&
            EnsureStep(s1, next.key).0.issued == s1.issued + [next.key]
  {
  }

  /**
   * With the reset first, a commit that prefetches leaves that request
   * cached: the next `ensure` with the same key issues nothing.
   */
  lemma CorrectedPrefetchIsReused(st: LinkState, prev: Option<Props>, next: Props)
    requires next.auto && AutoEffectRuns(prev, next)
    ensures var s1 := RenderCorrected(st, prev, next);
            EnsureStep(s1, next.key).0 == s1 && |s1.issued| <= |st.issued| + 1
  {
  }

  /** Without an `auto` prefetch the two orders agree. */
  lemma OrdersAgreeWithoutAuto(st: LinkState, prev: Option<Props>, next: Props)
    requires !next.auto
    ensures RenderCorrected(st, prev, next) == RenderAsWritten(st, prev, next)
  {
  }

  // ---------------------------------------------------------------------------
  // The hook
  // ---------------------------------------------------------------------------

  /** The hook instance, committing its effects in the corrected order. */
  class UpiLinkHook {
    var props: Props
    var shortUrl: Option<Json>
    var loading: bool
    var inflight: Option<nat>
    var lastParams: Option<LinkKey>
    var issued: seq<LinkKey>

    function State(): LinkState
      reads this
    {
      LinkState(shortUrl, loading, inflight, lastParams, issued)
    }

    method SetState(st: LinkState)
      modifies this
      ensures State() == st && props == old(props)
    {
      shortUrl, loading, inflight, lastParams, issued := st.shortUrl, st.loading, st.inflight, st.lastParams, st.issued;
    }

    /** Mount: the first commit. */
    constructor (p: Props)
      ensures props == p && State() == RenderCorrected(Initial, None, p)
      ensures Consistent(State())
    {
      var st := RenderCorrected(Initial, None, p);
      props := p;
      shortUrl, loading, inflight, lastParams, issued := st.shortUrl, st.loading, st.inflight, st.lastParams, st.issued;
    }

    /** A re-render with new arguments and the effects it commits. */
    method SetProps(next: Props)
      modifies this
      ensures props == next && State() == RenderCorrected(old(State()), Some(old(props)), next)
      ensures old(Consistent(State())) ==> Consistent(State())
    {
      var st := RenderCorrected(State(), Some(props), next);
      SetState(st);
      props := next;
    }

    /** `ensure()`: returns the number of the request the caller awaits. */
    method Ensure() returns (request: nat)
      modifies this
      ensures (State(), request) == EnsureStep(old(State()), props.key)
      ensures props == old(props)
    {
      var r := EnsureStep(State(), props.key);
      SetState(r.0);
      request := r.1;
    }

    /** A request settles with the given outcome. */
    method Settle(outcome: Result<Json, Thrown>)
      modifies this
      ensures State() == SettleStep(old(State()), outcome) && props == old(props)
    {
      SetState(SettleStep(State(), outcome));
    }
  }
}
