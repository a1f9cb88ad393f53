/** The selector wait of the downloader (`_wait_css_selector`): wait for a CSS
    selector, and on failure follow the `on_error` policy, which may re-raise,
    retry, or look for an escape-hatch tag that ends the wait early. */
module SelectorWait {
  import opened Models
  import opened Browser

  /** How the wait ends: it returns normally, or it raises `error`. */
  datatype WaitOutcome = Returned | Raised(error: Error)

  /** The number of attempts: `max_retries` when a policy is given and that
      is positive, and one attempt otherwise. */
  function MaxRetry(s: WaitCSSSelector): (n: nat)
    ensures n >= 1
    ensures s.onError.Some? && s.onError.value.maxRetries > 0 ==> n == s.onError.value.maxRetries
    ensures s.onError.None? || s.onError.value.maxRetries <= 0 ==> n == 1
  {
    if s.onError.Some? && s.onError.value.maxRetries > 0 then s.onError.value.maxRetries else 1
  }

  /** The escape hatch can be used: a positive `wait_time` and a non-empty
      `check_exist_tag`. */
  predicate HatchUsable(o: OnError)
  {
    o.waitTime > 0.0 && o.checkExistTag != ""
  }

  /** The one-off pause before the first attempt, when `pre_wait_time` is positive. */
  function PreWait(s: WaitCSSSelector): seq<Call>
  {
    if s.preWaitTime.Some? && s.preWaitTime.value > 0.0 then [Sleep(s.preWaitTime.value)] else []
  }

  /** The outcome a single `wait_for` decides by itself. */
  function WaitVerdict(failure: Option<Error>): WaitOutcome
  {
    match failure
    case None => Returned
    case Some(e) => Raised(e)
  }

  /** The attempts from attempt `i` on: how they end and the calls they make.
      When the attempts run out without an early exit, the loop ends and the
      wait returns normally (the lemmas below show this never happens). */
  function Attempts(page: Page, s: WaitCSSSelector, i: nat): (WaitOutcome, seq<Call>)
    decreases MaxRetry(s) - i
  {
    var n := MaxRetry(s);
    if i >= n then (Returned, [])
    else
      var wait := WaitFor(s.selector, s.timeout);
      match page.waitFor(i)
      case None => (Returned, [wait])
      case Some(e) =>
        if i >= n - 1 then (Raised(e), [wait])
        else
          var o := s.onError.value;
          if o.actionType == "raise" then (Raised(e), [wait])
          else if o.actionType == "retry" then
            if HatchUsable(o) then
              var check := Select(o.checkExistTag, o.waitTime);
              match page.select(i)
              case NoElement => (Raised(e), [wait, check])
              case SelectFailed(e2) => (Raised(e2), [wait, check])
              case TruthyElement => (Returned, [wait, check])
              case FalsyElement =>
                var rest := Attempts(page, s, i + 1);
                (rest.0, [wait, check] + rest.1)
            else
              var rest := Attempts(page, s, i + 1);
              (rest.0, [wait] + rest.1)
          else (Raised(e), [wait])
  }

  /** The whole wait: the pre-wait pause, then the attempts. */
  function Run(page: Page, s: WaitCSSSelector): (WaitOutcome, seq<Call>)
  {
    var r := Attempts(page, s, 0);
    (r.0, PreWait(s) + r.1)
  }

  /** `_wait_css_selector`, as the loop it is. */
  method WaitCssSelector(page: Page, s: WaitCSSSelector) returns (outcome: WaitOutcome, trace: seq<Call>)
    ensures (outcome, trace) == Run(page, s)
  {
    trace := [];
    if s.preWaitTime.Some? && s.preWaitTime.value > 0.0 {
      trace := trace + [Sleep(s.preWaitTime.value)];
    }
    var maxRetry: nat;
    if s.onError.Some? {
      maxRetry := if s.onError.value.maxRetries > 0 then s.onError.value.maxRetries else 1;
    } else {
      maxRetry := 1;
    }
    assert trace == PreWait(s);
    for retryCount := 0 to maxRetry
      invariant maxRetry == MaxRetry(s)
      invariant Run(page, s) == (Attempts(page, s, retryCount).0, trace + Attempts(page, s, retryCount).1)
    {
      ghost var before := trace;
      var wait := WaitFor(s.selector, s.timeout);
      trace := trace + [wait];
      var failure := page.waitFor(retryCount);
      if failure.None? {
        assert Attempts(page, s, retryCount) == (Returned, [wait]);
        return Returned, trace;
      }
      var e := failure.value;
      if retryCount >= maxRetry - 1 {
        assert Attempts(page, s, retryCount) == (Raised(e), [wait]);
        return Raised(e), trace;
      }
      var onError := s.onError.value;
      if onError.actionType == "raise" {
        assert Attempts(page, s, retryCount) == (Raised(e), [wait]);
        return Raised(e), trace;
      } else if onError.actionType == "retry" {
        var waitTime := if onError.waitTime > 0.0 then onError.waitTime else 0.0;
        ghost var rest := Attempts(page, s, retryCount + 1);
        if waitTime > 0.0 && onError.checkExistTag != "" {
          var check := Select(onError.checkExistTag, waitTime);
          trace := trace + [check];
          assert trace == before + [wait, check];
          var elem := page.select(retryCount);
          match elem
          case NoElement =>
            assert Attempts(page, s, retryCount) == (Raised(e), [wait, check]);
            return Raised(e), trace;
          case SelectFailed(e2) =>
            assert Attempts(page, s, retryCount) == (Raised(e2), [wait, check]);
            return Raised(e2), trace;
          case TruthyElement =>
            assert Attempts(page, s, retryCount) == (Returned, [wait, check]);
            return Returned, trace;
          case FalsyElement =>
            assert Attempts(page, s, retryCount) == (rest.0, [wait, check] + rest.1);
            assert before + ([wait, check] + rest.1) == trace + rest.1;
            continue;
        }
        assert Attempts(page, s, retryCount) == (rest.0, [wait] + rest.1);
        assert before + ([wait] + rest.1) == trace + rest.1;
        continue;
      } else {
        assert Attempts(page, s, retryCount) == (Raised(e), [wait]);
        return Raised(e), trace;
      }
    }
    assert trace + [] == trace;
    outcome := Returned;
  }

  /** The last call of an attempt decides the outcome: a `wait_for` that
      succeeded or raised, or an escape-hatch `select` that found a truthy
      element, found nothing (re-raising the selector's error) or raised. A
      falsy element never ends the wait. */
  predicate DecidedBy(page: Page, k: nat, last: Call, o: WaitOutcome)
  {
    match last
    case WaitFor(_, _) => o == WaitVerdict(page.waitFor(k))
    case Select(_, _) =>
      page.waitFor(k).Some? &&
      (match page.select(k)
       case NoElement => o == Raised(page.waitFor(k).value)
       case TruthyElement => o == Returned
       case SelectFailed(e2) => o == Raised(e2)
       case FalsyElement => false)
    case _ => false
  }

  /** What the wait from attempt `i` on promises of its outcome `o` and its
      calls `t`: between one and the remaining number of attempts, every
      attempt before the last one failed, and the last call of the last
      attempt decides the outcome. */
  predicate Settled(page: Page, s: WaitCSSSelector, i: nat, o: WaitOutcome, t: seq<Call>)
  {
    var k := i + Count(t, IsWaitFor) - 1;
    t != [] &&
    1 <= Count(t, IsWaitFor) <= MaxRetry(s) - i &&
    (forall j :: i <= j < k ==> page.waitFor(j).Some?) &&
    DecidedBy(page, k, t[|t| - 1], o)
  }

  /** A failed attempt `i` whose calls hold one `wait_for`, followed by a
      settled wait from attempt `i + 1`, settles the wait from attempt `i`. */
  lemma SettledAfterFailure(page: Page, s: WaitCSSSelector, i: nat, pre: seq<Call>, o: WaitOutcome, t: seq<Call>)
    requires page.waitFor(i).Some? && Count(pre, IsWaitFor) == 1
    requires Settled(page, s, i + 1, o, t)
    ensures Settled(page, s, i, o, pre + t)
  {
    CountAppend(pre, t, IsWaitFor);
    assert (pre + t)[|pre + t| - 1] == t[|t| - 1];
  }

  /** From attempt `i` on, the wait is settled: the loop never runs out. */
  lemma {:induction false} AttemptsDecided(page: Page, s: WaitCSSSelector, i: nat)
    requires i < MaxRetry(s)
    ensures Settled(page, s, i, Attempts(page, s, i).0, Attempts(page, s, i).1)
    decreases MaxRetry(s) - i
  {
    var n := MaxRetry(s);
    var wait := WaitFor(s.selector, s.timeout);
    CountOne(wait, IsWaitFor);
    if page.waitFor(i).Some? && i < n - 1 {
      var o := s.onError.value;
      if o.actionType == "retry" {
        var rest := Attempts(page, s, i + 1);
        AttemptsDecided(page, s, i + 1);
        if HatchUsable(o) {
          var check := Select(o.checkExistTag, o.waitTime);
          CountOne(check, IsWaitFor);
          CountAppend([wait], [check], IsWaitFor);
          assert [wait] + [check] == [wait, check];
          if page.select(i) == FalsyElement {
            SettledAfterFailure(page, s, i, [wait, check], rest.0, rest.1);
          }
        } else {
          SettledAfterFailure(page, s, i, [wait], rest.0, rest.1);
        }
      }
    }
  }

  /** The whole wait calls `wait_for` at least once and at most `MaxRetry`
      times. It returns normally only when the last attempt's selector
      appeared or its escape-hatch tag was found truthy; when it raises, the
      error is the one the escape-hatch `select` raised if it did, and the
      last attempt's selector error otherwise. */
  lemma RunOutcome(page: Page, s: WaitCSSSelector)
    ensures var (o, t) := Run(page, s);
      var k := Count(t, IsWaitFor) - 1;
      1 <= Count(t, IsWaitFor) <= MaxRetry(s) &&
      (forall j :: 0 <= j < k ==> page.waitFor(j).Some?) &&
      (o == Returned <==> page.waitFor(k).None? || (t[|t| - 1].Select? && page.select(k) == TruthyElement)) &&
      (o.Raised? ==> o.error == (if t[|t| - 1].Select? && page.select(k).SelectFailed? then page.select(k).error else page.waitFor(k).value))
  {
    var r := Attempts(page, s, 0);
    AttemptsDecided(page, s, 0);
    CountAppend(PreWait(s), r.1, IsWaitFor);
    assert Count(PreWait(s), IsWaitFor) == 0;
  }

  /** Without a retry policy (no `on_error`, `"raise"`, or an unknown action)
      the first attempt decides: the wait returns if the selector appeared
      and re-raises its error otherwise, after a single `wait_for`. */
  lemma FirstFailureRaisesWithoutRetry(page: Page, s: WaitCSSSelector)
    requires s.onError.None? || s.onError.value.actionType != "retry"
    ensures Run(page, s) == (WaitVerdict(page.waitFor(0)), PreWait(s) + [WaitFor(s.selector, s.timeout)])
  {
  }

  /** A failure on the last attempt re-raises that attempt's error whatever
      the action type: the last-attempt test comes before the policy. */
  lemma FinalFailureRaises(page: Page, s: WaitCSSSelector, e: Error)
    requires page.waitFor(MaxRetry(s) - 1) == Some(e)
    ensures Attempts(page, s, MaxRetry(s) - 1) == (Raised(e), [WaitFor(s.selector, s.timeout)])
  {
  }

  /** `n` copies of one call. */
  function Repeat(c: Call, n: nat): (r: seq<Call>)
    ensures |r| == n && forall j :: 0 <= j < n ==> r[j] == c
  {
    if n == 0 then [] else [c] + Repeat(c, n - 1)
  }

  lemma {:induction false} RetryWithoutHatchFrom(page: Page, s: WaitCSSSelector, i: nat, k: nat)
    requires s.onError.Some? && s.onError.value.actionType == "retry" && !HatchUsable(s.onError.value)
    requires i <= k < MaxRetry(s)
    requires forall j :: i <= j < k ==> page.waitFor(j).Some?
    requires page.waitFor(k).None? || k == MaxRetry(s) - 1
    ensures Attempts(page, s, i) == (WaitVerdict(page.waitFor(k)), Repeat(WaitFor(s.selector, s.timeout), k - i + 1))
    decreases k - i
  {
    var wait := WaitFor(s.selector, s.timeout);
    if i < k {
      RetryWithoutHatchFrom(page, s, i + 1, k);
      assert Attempts(page, s, i) == (Attempts(page, s, i + 1).0, [wait] + Attempts(page, s, i + 1).1);
      assert Repeat(wait, k - i + 1) == [wait] + Repeat(wait, k - i);
    } else {
      assert Repeat(wait, 1) == [wait];
    }
  }

  /** Under `"retry"` with no usable escape hatch, the wait retries with no
      pause in between: it stops at the first attempt whose selector appears,
      or after exactly `MaxRetry` attempts, re-raising the last one's error. */
  lemma RetryWithoutHatch(page: Page, s: WaitCSSSelector, k: nat)
    requires s.onError.Some? && s.onError.value.actionType == "retry" && !HatchUsable(s.onError.value)
    requires k < MaxRetry(s)
    requires forall j :: 0 <= j < k ==> page.waitFor(j).Some?
    requires page.waitFor(k).None? || k == MaxRetry(s) - 1
    ensures Run(page, s) == (WaitVerdict(page.waitFor(k)), PreWait(s) + Repeat(WaitFor(s.selector, s.timeout), k + 1))
  {
    RetryWithoutHatchFrom(page, s, 0, k);
  }

  /** The escape hatch, on a failed attempt that is not the last one: no
      element re-raises the selector's error, a truthy element ends the wait
      successfully with no further `wait_for`, and a falsy one goes on to the
      next attempt. */
  lemma EscapeHatch(page: Page, s: WaitCSSSelector, i: nat, e: Error)
    requires s.onError.Some? && s.onError.value.actionType == "retry" && HatchUsable(s.onError.value)
    requires i < MaxRetry(s) - 1
    requires page.waitFor(i) == Some(e)
    ensures var calls := [WaitFor(s.selector, s.timeout), Select(s.onError.value.checkExistTag, s.onError.value.waitTime)];
      match page.select(i)
      case NoElement => Attempts(page, s, i) == (Raised(e), calls)
      case TruthyElement => Attempts(page, s, i) == (Returned, calls)
      case SelectFailed(e2) => Attempts(page, s, i) == (Raised(e2), calls)
      case FalsyElement => Attempts(page, s, i) == (Attempts(page, s, i + 1).0, calls + Attempts(page, s, i + 1).1)
  {
  }

  /** A wait with every default (`on_error` is `OnError()`, no pre-wait, a
      ten-second timeout) makes exactly one attempt. */
  lemma DefaultPolicySingleAttempt(page: Page, selector: string)
    ensures MaxRetry(WaitCSSSelector(selector)) == 1
    ensures Run(page, WaitCSSSelector(selector)) == (WaitVerdict(page.waitFor(0)), [WaitFor(selector, Some(10))])
  {
    var s := WaitCSSSelector(selector);
    assert PreWait(s) == [];
    assert PreWait(s) + Attempts(page, s, 0).1 == Attempts(page, s, 0).1;
  }

  /** The attempts only ever wait for the selector and look for the
      escape-hatch tag. */
  lemma {:induction false} AttemptsCallsOnly(page: Page, s: WaitCSSSelector, i: nat)
    ensures forall c :: c in Attempts(page, s, i).1 ==> c.WaitFor? || c.Select?
    decreases MaxRetry(s) - i
  {
    if i < MaxRetry(s) - 1 {
      AttemptsCallsOnly(page, s, i + 1);
    }
  }

  /** The wait touches nothing but the page it waits on: its calls are the
      pre-wait pause, `wait_for` and `select`. */
  lemma RunCallsOnly(page: Page, s: WaitCSSSelector)
    ensures forall c :: c in Run(page, s).1 ==> c.Sleep? || c.WaitFor? || c.Select?
  {
    AttemptsCallsOnly(page, s, 0);
  }
}
