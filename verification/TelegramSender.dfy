// One delivery attempt to Telegram within a fixed time budget
// (backend/src/notifications/telegram-sender.ts). Time is in milliseconds;
// timers are exact and code between two awaits takes no time.
module TelegramSender {
  import opened Prelude
  import Markup

  const SEND_BUDGET_MS := 45_000
  const SEND_TIMEOUT_MS := 10_000
  const MIN_ATTEMPT_MS := 3_000
  const SEND_MAX_ATTEMPTS := 3
  const MAX_RETRY_AFTER_S := 30
  const RETRY_PAUSE_MS := 2_000

  datatype SendError = SendError(message: string, code: string, status: Option<string>, retryAfter: Option<real>)

  // What Telegram would do with one call: answer after `took`, with an error or not.
  datatype Reply = Reply(took: real, error: Option<SendError>)

  // One HTTP call as it happened.
  datatype Call = Call(start: real, timeout: real, plain: bool, body: string, finish: real, error: Option<SendError>)

  datatype SendResult = SendResult(ok: bool, httpAttempts: nat, errorCode: Option<string>)

  function Min(a: real, b: real): real { if a <= b then a else b }
  function Max(a: real, b: real): real { if a >= b then a else b }

  const TIMED_OUT := SendError("timed out after", "", None, None)

  function RetryAfterSeconds(e: SendError): Option<real> {
    if e.retryAfter.Some? && e.retryAfter.value >= 0.0 then e.retryAfter else None
  }

  function ErrorCode(e: SendError): string {
    if "timed out after" <= e.message then "timeout"
    else if RetryAfterSeconds(e).Some? then "rate_limited"
    else if e.code == "EFATAL" then "network"
    else if e.code == "ETELEGRAM" then
      (match e.status case Some(status) => "telegram_" + status case None => "telegram_error")
    else "error"
  }

  // The race of a call against its timeout.
  function CallOutcome(reply: Reply, timeout: real): (real, Option<SendError>) {
    if reply.took < timeout then (reply.took, reply.error) else (timeout, Some(TIMED_OUT))
  }

  function Deadline(start: real): real { start + SEND_BUDGET_MS as real }

  // Wait before the next call after a failed one; None: give up as rate limited.
  function WaitAfter(c: Call): Option<real>
    requires c.error.Some?
  {
    match RetryAfterSeconds(c.error.value)
    case Some(s) => if s > MAX_RETRY_AFTER_S as real then None else Some(s * 1000.0)
    case None => Some(if c.plain then RETRY_PAUSE_MS as real else 0.0)
  }

  // -------- what a send may look like --------

  // A call gets what is left of the budget, at most 10 s and never less than 3 s.
  predicate WellTimed(start: real, c: Call) {
    && c.timeout == Min(SEND_TIMEOUT_MS as real, Deadline(start) - c.start)
    && c.timeout >= MIN_ATTEMPT_MS as real
    && start <= c.start <= c.finish <= c.start + c.timeout
  }

  predicate CarriesText(html: string, c: Call) {
    c.body == if c.plain then Markup.HtmlToPlain(html) else html
  }

  // A further call follows a failed one after its wait; a failure that is not
  // a rate limit switches to plain text, and plain text stays.
  predicate Follows(c: Call, next: Call) {
    && c.error.Some? && WaitAfter(c).Some?
    && next.start == c.finish + WaitAfter(c).value
    && (next.plain <==> c.plain || RetryAfterSeconds(c.error.value).None?)
  }

  predicate ValidCalls(html: string, start: real, calls: seq<Call>) {
    && 1 <= |calls| <= SEND_MAX_ATTEMPTS
    && calls[0].start == start && !calls[0].plain
    && (forall i | 0 <= i < |calls| :: WellTimed(start, calls[i]) && CarriesText(html, calls[i]))
    && (forall i | 0 <= i < |calls| - 1 :: Follows(calls[i], calls[i + 1]))
  }

  // Why no further call was made after the last one.
  function FinalCode(start: real, calls: seq<Call>): Option<string>
    requires |calls| >= 1
  {
    var last := calls[|calls| - 1];
    if last.error.None? then None
    else if |calls| >= SEND_MAX_ATTEMPTS then Some(ErrorCode(last.error.value))
    else if WaitAfter(last).None? then Some("rate_limited")
    else Some("budget_exhausted")
  }

  // Giving up on the budget means that the wait and a useful call no longer fit.
  predicate StoppedForCause(start: real, calls: seq<Call>)
    requires |calls| >= 1
  {
    var last := calls[|calls| - 1];
    last.error.Some? && |calls| < SEND_MAX_ATTEMPTS && WaitAfter(last).Some? ==>
      last.finish + WaitAfter(last).value + MIN_ATTEMPT_MS as real > Deadline(start)
  }

  // The calls got the answers the environment had in store for them.
  predicate Answered(calls: seq<Call>, replies: seq<Reply>)
    requires |calls| <= |replies|
  {
    forall i | 0 <= i < |calls| ::
      (calls[i].finish - calls[i].start, calls[i].error) == CallOutcome(replies[i], calls[i].timeout)
  }

  // The loop is about to make a call at `now`, plain or not.
  predicate Due(html: string, start: real, calls: seq<Call>, now: real, plain: bool) {
    if calls == [] then now == start && !plain
    else
      var last := calls[|calls| - 1];
      && ValidCalls(html, start, calls)
      && last.error.Some? && WaitAfter(last).Some?
      && now == last.finish + WaitAfter(last).value
      && (plain <==> last.plain || RetryAfterSeconds(last.error.value).None?)
  }

  lemma CallAdded(html: string, start: real, calls: seq<Call>, c: Call)
    requires |calls| < SEND_MAX_ATTEMPTS && Due(html, start, calls, c.start, c.plain)
    requires WellTimed(start, c) && CarriesText(html, c)
    ensures ValidCalls(html, start, calls + [c])
  {
    var all := calls + [c];
    forall i | 0 <= i < |all| - 1 ensures Follows(all[i], all[i + 1]) {
      if i < |calls| - 1 {
        assert Follows(calls[i], calls[i + 1]);
      }
    }
  }

  lemma AnswerAdded(calls: seq<Call>, c: Call, replies: seq<Reply>)
    requires |calls| < |replies| && Answered(calls, replies)
    requires (c.finish - c.start, c.error) == CallOutcome(replies[|calls|], c.timeout)
    ensures Answered(calls + [c], replies)
  {
  }

  // The loop ends with a call that succeeded, or with a reason to stop.
  lemma Ends(start: real, calls: seq<Call>, c: Call, stop: Option<string>)
    requires stop.None? ==> c.error.None?
    requires stop.Some? ==>
               && c.error.Some?
               && (|calls| + 1 >= SEND_MAX_ATTEMPTS || WaitAfter(c).None?
                   || c.finish + WaitAfter(c).value + MIN_ATTEMPT_MS as real > Deadline(start))
               && stop.value == if |calls| + 1 >= SEND_MAX_ATTEMPTS then ErrorCode(c.error.value)
                                else if WaitAfter(c).None? then "rate_limited" else "budget_exhausted"
    ensures StoppedForCause(start, calls + [c])
    ensures Reports(start, calls + [c], SendResult(c.error.None?, |calls| + 1, stop))
  {
    assert (calls + [c])[|calls|] == c;
  }

  // The catch block: give up with a code, or call again after `waitMs`.
  method AfterFailure(c: Call, attempt: nat, deadline: real) returns (stop: Option<string>, waitMs: real, plain: bool)
    requires c.error.Some?
    ensures stop.None? <==>
              && attempt < SEND_MAX_ATTEMPTS
              && WaitAfter(c).Some?
              && c.finish + WaitAfter(c).value + MIN_ATTEMPT_MS as real <= deadline
    ensures stop.None? ==>
              && waitMs == WaitAfter(c).value
              && (plain <==> c.plain || RetryAfterSeconds(c.error.value).None?)
    ensures stop.Some? ==>
              stop.value == if attempt >= SEND_MAX_ATTEMPTS then ErrorCode(c.error.value)
                            else if WaitAfter(c).None? then "rate_limited" else "budget_exhausted"
    // in numbers: three calls, a wait of at most 30 s on request, else none
    // before the switch to plain text and 2 s after it, and 3 s for a call
    ensures var asked := c.error.value.retryAfter;
            var limited := asked.Some? && asked.value >= 0.0;
            && (stop.None? ==>
                  && attempt < 3 && (limited ==> asked.value <= 30.0)
                  && waitMs == (if limited then asked.value * 1000.0 else if c.plain then 2_000.0 else 0.0)
                  && plain == (c.plain || !limited)
                  && c.finish + waitMs + 3_000.0 <= deadline)
            && (stop.Some? && attempt < 3 ==>
                  if limited && asked.value > 30.0 then stop.value == "rate_limited"
                  else
                    && stop.value == "budget_exhausted"
                    && c.finish + 3_000.0 + (if limited then asked.value * 1000.0 else if c.plain then 2_000.0 else 0.0)
                       > deadline)
  {
    plain, waitMs := c.plain, 0.0;
    var code := ErrorCode(c.error.value);
    if attempt >= SEND_MAX_ATTEMPTS {
      return Some(code), waitMs, plain;
    }
    var retryAfter := RetryAfterSeconds(c.error.value);
    if retryAfter.Some? {
      if retryAfter.value > MAX_RETRY_AFTER_S as real {
        return Some("rate_limited"), waitMs, plain;
      }
      waitMs := retryAfter.value * 1000.0;
    } else if !plain {
      plain := true;
      waitMs := 0.0;
    } else {
      waitMs := RETRY_PAUSE_MS as real;
    }
    if c.finish + waitMs + MIN_ATTEMPT_MS as real > deadline {
      return Some("budget_exhausted"), waitMs, plain;
    }
    stop := None;
  }

  // One call, raced against its timeout.
  method HttpCall(html: string, start: real, now: real, plain: bool, reply: Reply) returns (call: Call)
    requires reply.took >= 0.0
    requires start <= now && now + MIN_ATTEMPT_MS as real <= Deadline(start)
    ensures call.start == now && call.plain == plain
    ensures WellTimed(start, call) && CarriesText(html, call)
    ensures (call.finish - call.start, call.error) == CallOutcome(reply, call.timeout)
    // an answer counts only if it came before the timeout; a late one is a failure
    ensures call.error.None? <==> reply.took < call.timeout && reply.error.None?
    ensures reply.took < call.timeout ==> call.error == reply.error && call.finish == now + reply.took
    ensures reply.took >= call.timeout ==>
              && call.finish == now + call.timeout
              && call.error.Some? && ErrorCode(call.error.value) == "timeout"
              && call.error.value.retryAfter == None
    ensures 3_000.0 <= call.timeout <= 10_000.0 && now + call.timeout <= start + 45_000.0
    ensures call.timeout == 10_000.0 || now + call.timeout == start + 45_000.0
  {
    var timeout := Max(1.0, Min(SEND_TIMEOUT_MS as real, start + SEND_BUDGET_MS as real - now));
    var (took, error) := CallOutcome(reply, timeout);
    var body := if plain then Markup.HtmlToPlain(html) else html;
    call := Call(now, timeout, plain, body, now + took, error);
  }

  // What the caller learns from a run of calls.
  predicate Reports(start: real, calls: seq<Call>, result: SendResult)
    requires |calls| >= 1
  {
    && result.httpAttempts == |calls|
    && result.errorCode == FinalCode(start, calls)
    && (result.ok <==> calls[|calls| - 1].error.None?)
  }

  // The loop of attempts.
  method Attempts(html: string, start: real, replies: seq<Reply>)
    returns (result: SendResult, calls: seq<Call>, end: real)
    requires |replies| >= SEND_MAX_ATTEMPTS
    requires forall r | r in replies :: r.took >= 0.0
    ensures ValidCalls(html, start, calls) && StoppedForCause(start, calls)
    ensures Answered(calls, replies) && Reports(start, calls, result)
    ensures end == calls[|calls| - 1].finish && start <= end <= Deadline(start)
  {
    calls := [];
    end := start;
    var plain := false;
    var now := start;
    var attempt := 1;
    while true
      invariant 1 <= attempt <= SEND_MAX_ATTEMPTS && |calls| == attempt - 1
      invariant start <= now && now + MIN_ATTEMPT_MS as real <= Deadline(start)
      invariant Due(html, start, calls, now, plain)
      invariant Answered(calls, replies)
      decreases SEND_MAX_ATTEMPTS - attempt
    {
      var call := HttpCall(html, start, now, plain, replies[attempt - 1]);
      CallAdded(html, start, calls, call);
      AnswerAdded(calls, call, replies);
      ghost var earlier := calls;
      calls := calls + [call];
      end := call.finish;
      if call.error.None? {
        Ends(start, earlier, call, None);
        result := SendResult(true, attempt, None);
        return;
      }
      var stop, waitMs;
      stop, waitMs, plain := AfterFailure(call, attempt, Deadline(start));
      if stop.Some? {
        Ends(start, earlier, call, stop);
        result := SendResult(false, attempt, stop);
        return;
      }
      now := call.finish + waitMs;
      attempt := attempt + 1;
    }
  }

  lemma RaceInWords(reply: Reply, timeout: real)
    ensures CallOutcome(reply, timeout).1.None? <==> reply.took < timeout && reply.error.None?
    ensures reply.took < timeout ==> CallOutcome(reply, timeout) == (reply.took, reply.error)
    ensures reply.took >= timeout ==>
              && CallOutcome(reply, timeout).0 == timeout
              && CallOutcome(reply, timeout).1.Some? && ErrorCode(CallOutcome(reply, timeout).1.value) == "timeout"
  {
  }

  // Only the last call of a send can have succeeded.
  lemma FailuresBeforeTheLast(html: string, start: real, calls: seq<Call>, i: nat)
    requires ValidCalls(html, start, calls) && i + 1 < |calls|
    ensures calls[i].error.Some?
  {
    assert Follows(calls[i], calls[i + 1]);
  }

  method Send(configured: bool, html: string, start: real, replies: seq<Reply>)
    returns (result: SendResult, calls: seq<Call>, end: real)
    requires |replies| >= SEND_MAX_ATTEMPTS
    requires forall r | r in replies :: r.took >= 0.0
    ensures !configured ==> calls == [] && end == start
                            && result == SendResult(false, 0, Some("not_configured"))
    ensures configured ==>
              && ValidCalls(html, start, calls)
              && StoppedForCause(start, calls)
              && |calls| <= |replies| && Answered(calls, replies)
              && Reports(start, calls, result)
              && end == calls[|calls| - 1].finish
    ensures start <= end <= start + 45_000.0
    // told from the replies alone: which calls succeeded, and so whether the send did
    ensures |calls| <= 3 <= |replies| && result.httpAttempts == |calls|
    ensures forall i | 0 <= i < |calls| ::
              && (calls[i].error.None? <==> replies[i].took < calls[i].timeout && replies[i].error.None?)
              && (replies[i].took < calls[i].timeout ==>
                    calls[i].error == replies[i].error && calls[i].finish == calls[i].start + replies[i].took)
              && (replies[i].took >= calls[i].timeout ==>
                    && calls[i].finish == calls[i].start + calls[i].timeout
                    && calls[i].error.Some? && ErrorCode(calls[i].error.value) == "timeout")
    ensures result.ok <==>
              exists i | 0 <= i < |calls| :: replies[i].took < calls[i].timeout && replies[i].error.None?
  {
    calls, end := [], start;
    if !configured {
      result := SendResult(false, 0, Some("not_configured"));
      return;
    }
    result, calls, end := Attempts(html, start, replies);
    forall i | 0 <= i < |calls|
      ensures calls[i].error.None? <==> replies[i].took < calls[i].timeout && replies[i].error.None?
      ensures (calls[i].finish - calls[i].start, calls[i].error) == CallOutcome(replies[i], calls[i].timeout)
    {
      RaceInWords(replies[i], calls[i].timeout);
    }
    forall i: nat | i + 1 < |calls|
      ensures calls[i].error.Some?
    {
      FailuresBeforeTheLast(html, start, calls, i);
    }
  }

  // -------- consequences for every sequence of replies --------

  // A valid series of calls in numbers: 3 to 10 s for each call, within 45 s of
  // the start; the first at once and formatted; each wait from the error before it.
  lemma CallsInNumbers(html: string, start: real, calls: seq<Call>, i: nat)
    requires ValidCalls(html, start, calls) && i < |calls|
    ensures |calls| <= 3
    ensures 3_000.0 <= calls[i].timeout <= 10_000.0 && calls[i].finish <= calls[i].start + calls[i].timeout
    ensures calls[i].start + calls[i].timeout <= start + 45_000.0
    ensures calls[i].timeout == 10_000.0 || calls[i].start + calls[i].timeout == start + 45_000.0
    ensures calls[i].body == if calls[i].plain then Markup.HtmlToPlain(html) else html
    ensures i == 0 ==> calls[i].start == start && !calls[i].plain
    ensures i > 0 ==>
              && calls[i - 1].error.Some?
              && var asked := calls[i - 1].error.value.retryAfter;
                 var limited := asked.Some? && asked.value >= 0.0;
              && (limited ==> asked.value <= 30.0)
              && calls[i].plain == (calls[i - 1].plain || !limited)
              && calls[i].start == calls[i - 1].finish
                   + (if limited then asked.value * 1000.0 else if calls[i - 1].plain then 2_000.0 else 0.0)
  {
    assert WellTimed(start, calls[i]) && CarriesText(html, calls[i]);
    if i > 0 {
      assert Follows(calls[i - 1], calls[i]);
    }
  }

  // And why it ended there, as the caller is told.
  lemma EndInNumbers(start: real, calls: seq<Call>, result: SendResult)
    requires calls != [] && StoppedForCause(start, calls) && Reports(start, calls, result)
    ensures var last := calls[|calls| - 1];
            && (result.errorCode.None? <==> result.ok) && (result.ok <==> last.error.None?)
            && (last.error.Some? ==>
                  var asked := last.error.value.retryAfter;
                  var limited := asked.Some? && asked.value >= 0.0;
                  var wait := if limited then asked.value * 1000.0 else if last.plain then 2_000.0 else 0.0;
                  if |calls| >= 3 then result.errorCode == Some(ErrorCode(last.error.value))
                  else if limited && asked.value > 30.0 then result.errorCode == Some("rate_limited")
                  else result.errorCode == Some("budget_exhausted")
                       && last.finish + wait + 3_000.0 > start + 45_000.0)
  {
  }

  // What the reported code tells: a timeout by the message, then a rate limit,
  // then what kind of failure the library names.
  lemma CodesTellApart(e: SendError)
    ensures var limited := e.retryAfter.Some? && e.retryAfter.value >= 0.0;
            var late := "timed out after" <= e.message;
            && (ErrorCode(e) == "timeout" <==> late)
            && (ErrorCode(e) == "rate_limited" <==> !late && limited)
            && (ErrorCode(e) == "network" <==> !late && !limited && e.code == "EFATAL")
            && (ErrorCode(e) == "error" <==> !late && !limited && e.code !in {"EFATAL", "ETELEGRAM"})
            && ("telegram_" <= ErrorCode(e) <==> !late && !limited && e.code == "ETELEGRAM")
            && (!late && !limited && e.code == "ETELEGRAM" && e.status.Some? ==>
                  ErrorCode(e) == "telegram_" + e.status.value)
  {
    assert "telegram_" <= "telegram_error";
    assert forall s: string :: ("telegram_" + s)[..|"telegram_"|] == "telegram_";
    assert "rate_limited"[0] == 'r' && "network"[0] == 'n' && "error"[0] == 'e' && "timeout"[1] == 'i';
    assert "telegram_"[1] == 'e' && "telegram_"[0] == 't';
  }

  // Once plain, always plain.
  lemma {:induction false} PlainStays(html: string, start: real, calls: seq<Call>, i: nat, j: nat)
    requires ValidCalls(html, start, calls) && i <= j < |calls| && calls[i].plain
    ensures calls[j].plain
    decreases j - i
  {
    if i == j {
    } else {
      assert Follows(calls[i], calls[i + 1]);
      PlainStays(html, start, calls, i + 1, j);
    }
  }

  // The max(1, ...) around a call's timeout never decides it.
  lemma ClampIdle(html: string, start: real, calls: seq<Call>, i: nat)
    requires ValidCalls(html, start, calls) && i < |calls|
    ensures Max(1.0, Min(SEND_TIMEOUT_MS as real, Deadline(start) - calls[i].start)) == calls[i].timeout
    ensures MIN_ATTEMPT_MS as real <= calls[i].timeout <= SEND_TIMEOUT_MS as real
    ensures calls[i].finish <= Deadline(start)
  {
    assert WellTimed(start, calls[i]);
  }

  // The bound of 45 s is met: a first answer after 9 s that asks for a wait of
  // 30 s, then a call that times out when the budget is gone.
  lemma BudgetCanBeUsedUp(html: string, start: real) returns (calls: seq<Call>)
    ensures ValidCalls(html, start, calls) && StoppedForCause(start, calls)
    ensures calls[|calls| - 1].finish == Deadline(start)
  {
    var limited := SendError("", "ETELEGRAM", None, Some(30.0));
    var first := Call(start, 10_000.0, false, html, start + 9_000.0, Some(limited));
    var second := Call(start + 39_000.0, 6_000.0, false, html, start + 45_000.0, Some(TIMED_OUT));
    calls := [first, second];
    assert WellTimed(start, first) && WellTimed(start, second) && Follows(first, second);
  }

  // Without a rate limit the budget never cuts a send short: a failed send has
  // used all three calls, the first formatted and the others plain.
  lemma BudgetOnlyBindsUnderRateLimits(html: string, start: real, calls: seq<Call>)
    requires ValidCalls(html, start, calls) && StoppedForCause(start, calls)
    requires forall i | 0 <= i < |calls| :: calls[i].error.Some? && RetryAfterSeconds(calls[i].error.value).None?
    ensures |calls| == SEND_MAX_ATTEMPTS
    ensures forall i | 0 <= i < |calls| :: calls[i].plain <==> i > 0
    ensures calls[|calls| - 1].finish <= start + 32_000.0
  {
    assert WellTimed(start, calls[0]);
    if |calls| > 1 {
      assert Follows(calls[0], calls[1]);
      assert WellTimed(start, calls[1]);
    }
    if |calls| > 2 {
      assert Follows(calls[1], calls[2]);
      assert WellTimed(start, calls[2]);
    }
  }
}
