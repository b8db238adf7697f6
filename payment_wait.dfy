/**
 * The status poller of components/checkout/PaymentWait.tsx. Each tick
 * fetches the payment status and either settles (paid, failed, timed out)
 * or schedules the next tick; the clock reading and the fetch outcome of
 * each tick are inputs.
 */
module PaymentWait {
  import opened JsValues

  const DefaultTimeoutMs: int := 30000
  const DefaultPollIntervalMs: int := 2000

  /** The one action a tick takes. */
  datatype TickAction =
    | CallPaid
    | CallFailed(status: string)
    /** `onPending` (when given): the deadline passed while still pending. */
    | CallPending
    | Reschedule
    | ErrorReschedule(message: string)

  predicate Terminal(a: TickAction) {
    a.CallPaid? || a.CallFailed? || a.CallPending?
  }

  predicate IsFailureStatus(s: string) {
    s == "failed" || s == "canceled" || s == "expired"
  }

  /** The body's `status` is one of the failure statuses. */
  predicate HasFailureStatus(v: Json) {
    var st := Field(v, "status");
    st.Some? && st.value.JStr? && IsFailureStatus(st.value.s)
  }

  /**
   * One tick, given the fetch outcome and the milliseconds since the poller
   * started. Reading `.status` of a `null` body throws a TypeError, whose
   * engine-specific text is `nullAccessMessage`.
   */
  function Decide(fetched: Result<Json, Thrown>, elapsed: int, timeoutMs: int, nullAccessMessage: string): (a: TickAction)
    ensures a == CallPaid <==> fetched.Ok? && Field(fetched.value, "status") == Some(JStr("paid"))
    ensures a.CallFailed? <==> fetched.Ok? && HasFailureStatus(fetched.value)
    ensures a.CallFailed? ==> IsFailureStatus(a.status) && Field(fetched.value, "status") == Some(JStr(a.status))
    ensures a == CallPending ==> elapsed > timeoutMs
    ensures a == Reschedule ==> elapsed <= timeoutMs
    ensures a.ErrorReschedule? <==> fetched.Err? || fetched.value == JNull
    ensures fetched.Err? ==> a == ErrorReschedule(MessageOr(fetched.error, "Network error"))
    ensures fetched.Ok? && fetched.value == JNull ==>
              a == ErrorReschedule(MessageOr(ErrorWithMessage(nullAccessMessage), "Network error"))
  {
    match fetched
    case Err(e) => ErrorReschedule(MessageOr(e, "Network error"))
    case Ok(v) =>
      if v == JNull then ErrorReschedule(MessageOr(ErrorWithMessage(nullAccessMessage), "Network error"))
      else
        var status := Field(v, "status");
        if status == Some(JStr("paid")) then CallPaid
        else if status.Some? && status.value.JStr? && IsFailureStatus(status.value.s) then CallFailed(status.value.s)
        else if elapsed > timeoutMs then CallPending
        else Reschedule
  }

  /** One tick as the poller sees it: the clock reading and the fetch outcome. */
  datatype Observation = Observation(now: int, fetched: Result<Json, Thrown>)

  /** What a run of ticks produces: the actions taken and the final counter and error text. */
  datatype Trace = Trace(actions: seq<TickAction>, tries: int, err: Option<string>)

  /**
   * The poller over a sequence of observations: it stops at the first
   * terminal action and ignores the observations after it.
   */
  function Run(obs: seq<Observation>, startedAt: int, timeoutMs: int, nullAccessMessage: string, tries: int, err: Option<string>): (t: Trace)
    decreases |obs|
  {
    if obs == [] then Trace([], tries, err)
    else
      var a := Decide(obs[0].fetched, obs[0].now - startedAt, timeoutMs, nullAccessMessage);
      if Terminal(a) then Trace([a], tries, err)
      else
        var rest := Run(obs[1..], startedAt, timeoutMs, nullAccessMessage,
                        if a == Reschedule then tries + 1 else tries,
                        if a.ErrorReschedule? then Some(a.message) else err);
        Trace([a] + rest.actions, rest.tries, rest.err)
  }

  /** The actions of `prefix` followed by the run `t`. */
  function After(prefix: seq<TickAction>, t: Trace): Trace {
    Trace(prefix + t.actions, t.tries, t.err)
  }

  lemma AfterAfter(p: seq<TickAction>, q: seq<TickAction>, t: Trace)
    ensures After(p, After(q, t)) == After(p + q, t)
  {
    assert p + (q + t.actions) == (p + q) + t.actions;
  }

  /** `Run` on a non-empty sequence of observations, one step unfolded. */
  lemma RunFirst(obs: seq<Observation>, startedAt: int, timeoutMs: int, m: string, tries: int, err: Option<string>)
    requires obs != []
    ensures var a := Decide(obs[0].fetched, obs[0].now - startedAt, timeoutMs, m);
            var t := Run(obs, startedAt, timeoutMs, m, tries, err);
            (Terminal(a) ==> t == Trace([a], tries, err)) &&
            (!Terminal(a) ==> t == After([a], Run(obs[1..], startedAt, timeoutMs, m,
                                                  if a == Reschedule then tries + 1 else tries,
                                                  if a.ErrorReschedule? then Some(a.message) else err)))
  {
  }

  /** One more tick appended to a partial run keeps it a prefix of the whole run. */
  lemma RunAdvance(total: Trace, done: seq<TickAction>, obs: seq<Observation>, startedAt: int, timeoutMs: int,
                   m: string, tries: int, err: Option<string>, a: TickAction, tries': int, err': Option<string>)
    requires obs != [] && total == After(done, Run(obs, startedAt, timeoutMs, m, tries, err))
    requires a == Decide(obs[0].fetched, obs[0].now - startedAt, timeoutMs, m)
    requires tries' == tries + (if a == Reschedule then 1 else 0)
    requires err' == if a.ErrorReschedule? then Some(a.message) else err
    ensures Terminal(a) ==> total == Trace(done + [a], tries', err')
    ensures !Terminal(a) ==> total == After(done + [a], Run(obs[1..], startedAt, timeoutMs, m, tries', err'))
  {
    RunFirst(obs, startedAt, timeoutMs, m, tries, err);
    if !Terminal(a) {
      AfterAfter(done, [a], Run(obs[1..], startedAt, timeoutMs, m, tries', err'));
    }
  }

  function CountReschedules(actions: seq<TickAction>): nat {
    if actions == [] then 0
    else (if actions[0] == Reschedule then 1 else 0) + CountReschedules(actions[1..])
  }

  // ---------------------------------------------------------------------------
  // Properties
  // ---------------------------------------------------------------------------

  /**
   * A run takes one action per observation up to and including the first
   * terminal one; only its last action can be terminal; and `tries` grows by
   * exactly the number of in-time pending ticks.
   */
  lemma {:induction false} RunShape(obs: seq<Observation>, startedAt: int, timeoutMs: int, m: string, tries: int, err: Option<string>)
    ensures var t := Run(obs, startedAt, timeoutMs, m, tries, err);
            |t.actions| <= |obs| &&
            (forall i :: 0 <= i < |t.actions| - 1 ==> !Terminal(t.actions[i])) &&
            (|t.actions| < |obs| ==> |t.actions| > 0 && Terminal(t.actions[|t.actions| - 1])) &&
            t.tries == tries + CountReschedules(t.actions)
    decreases |obs|
  {
    if obs != [] {
      var a := Decide(obs[0].fetched, obs[0].now - startedAt, timeoutMs, m);
      if !Terminal(a) {
        var tries' := if a == Reschedule then tries + 1 else tries;
        var err' := if a.ErrorReschedule? then Some(a.message) else err;
        RunShape(obs[1..], startedAt, timeoutMs, m, tries', err');
        var rest := Run(obs[1..], startedAt, timeoutMs, m, tries', err');
        assert ([a] + rest.actions)[1..] == rest.actions;
      }
    }
  }

  /** A fetch error never ends the wait, however late it comes: the deadline is only checked when pending. */
  lemma ErrorIgnoresDeadline(e: Thrown, elapsed: int, timeoutMs: int, m: string)
    requires elapsed > timeoutMs
    ensures !Terminal(Decide(Err(e), elapsed, timeoutMs, m))
    ensures Decide(Err(e), elapsed, timeoutMs, m) == ErrorReschedule(MessageOr(e, "Network error"))
  {
  }

  /** A terminal status wins over the deadline. */
  lemma StatusBeatsDeadline(status: string, elapsed: int, timeoutMs: int, m: string)
    requires status == "paid" || IsFailureStatus(status)
    ensures var a := Decide(Ok(JObj(map["status" := JStr(status)])), elapsed, timeoutMs, m);
            Terminal(a) && a != CallPending
  {
  }

  /** An unknown status (for example "pending" or "created") is treated as pending. */
  lemma UnknownStatusIsPending(status: string, elapsed: int, timeoutMs: int, m: string)
    requires status != "paid" && !IsFailureStatus(status)
    ensures Decide(Ok(JObj(map["status" := JStr(status)])), elapsed, timeoutMs, m) ==
            if elapsed > timeoutMs then CallPending else Reschedule
  {
  }

  /** A run that errors on every tick keeps polling and keeps the latest error text. */
  lemma {:induction false} ErrorsNeverStop(obs: seq<Observation>, startedAt: int, timeoutMs: int, m: string, tries: int, err: Option<string>)
    requires |obs| > 0
    requires forall i :: 0 <= i < |obs| ==> obs[i].fetched.Err?
    ensures var t := Run(obs, startedAt, timeoutMs, m, tries, err);
            |t.actions| == |obs| && t.tries == tries &&
            t.err == Some(MessageOr(obs[|obs| - 1].fetched.error, "Network error"))
    decreases |obs|
  {
    if |obs| > 1 {
      var a := Decide(obs[0].fetched, obs[0].now - startedAt, timeoutMs, m);
      assert forall i :: 0 <= i < |obs[1..]| ==> obs[1..][i] == obs[i + 1];
      ErrorsNeverStop(obs[1..], startedAt, timeoutMs, m, tries, Some(a.message));
    }
  }

  // ---------------------------------------------------------------------------
  // The component
  // ---------------------------------------------------------------------------

  class Poller {
    const startedAt: int
    const timeoutMs: int
    const pollIntervalMs: int
    /** The text the engine gives a property read on `null`. */
    const nullAccessMessage: string
    var tries: int
    var err: Option<string>
    /** Whether a tick is due: the first one on mount, later ones from the timer. */
    var armed: bool

    constructor (startedAt: int, timeoutMs: int := DefaultTimeoutMs, pollIntervalMs: int := DefaultPollIntervalMs,
                 nullAccessMessage: string := "Cannot read property 'status' of null")
      ensures this.startedAt == startedAt && this.timeoutMs == timeoutMs && this.pollIntervalMs == pollIntervalMs
      ensures this.nullAccessMessage == nullAccessMessage
      ensures tries == 0 && err == None && armed
    {
      this.startedAt := startedAt;
      this.timeoutMs := timeoutMs;
      this.pollIntervalMs := pollIntervalMs;
      this.nullAccessMessage := nullAccessMessage;
      tries := 0;
      err := None;
      armed := true;
    }

    /** One `tick`: decide, then count an in-time pending tick, record an error, and re-arm unless settled. */
    method Tick(now: int, fetched: Result<Json, Thrown>) returns (a: TickAction)
      modifies this
      ensures a == Decide(fetched, now - startedAt, timeoutMs, nullAccessMessage)
      ensures tries == old(tries) + (if a == Reschedule then 1 else 0)
      ensures err == (if a.ErrorReschedule? then Some(a.message) else old(err))
      ensures armed == !Terminal(a)
    {
      a := Decide(fetched, now - startedAt, timeoutMs, nullAccessMessage);
      match a {
        case Reschedule =>
          tries := tries + 1;
          armed := true;
        case ErrorReschedule(message) =>
          err := Some(message);
          armed := true;
        case _ =>
          armed := false;
      }
    }

    /**
     * The polling loop: ticks on each observation while a tick is due. It
     * takes the same actions as `Run` and leaves the counter and error where
     * `Run` says.
     */
    method Poll(obs: seq<Observation>) returns (actions: seq<TickAction>)
      requires armed
      modifies this
      ensures var t := Run(obs, startedAt, timeoutMs, nullAccessMessage, old(tries), old(err));
              actions == t.actions && tries == t.tries && err == t.err
      ensures armed <==> actions == [] || !Terminal(actions[|actions| - 1])
    {
      ghost var total := Run(obs, startedAt, timeoutMs, nullAccessMessage, tries, err);
      actions := [];
      var i := 0;
      while i < |obs| && armed
        invariant 0 <= i <= |obs|
        invariant armed ==> total == After(actions, Run(obs[i..], startedAt, timeoutMs, nullAccessMessage, tries, err))
        invariant !armed ==> total == Trace(actions, tries, err)
        invariant armed <==> actions == [] || !Terminal(actions[|actions| - 1])
        decreases |obs| - i
      {
        ghost var (prevTries, prevErr) := (tries, err);
        ghost var rest := obs[i..];
        assert rest[1..] == obs[i + 1..];
        var a := Tick(obs[i].now, obs[i].fetched);
        RunAdvance(total, actions, rest, startedAt, timeoutMs, nullAccessMessage, prevTries, prevErr, a, tries, err);
        actions := actions + [a];
        i := i + 1;
      }
      if armed {
        assert obs[i..] == [];
      }
    }

    /** The Close and Retry buttons both call `onPending`; neither cancels the timer. */
    method PressCloseOrRetry() returns (a: TickAction)
      ensures a == CallPending
    {
      a := CallPending;
    }
  }
}
