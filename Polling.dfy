/** The bounded retry primitive `poll(timeout:_:)` shared by element lookup
    and interaction retry. Each attempt sends one request: a success stops
    the loop with its value; an error response whose status the caller marks
    retryable asks for another attempt; any other error stops the loop at
    once. Once the time spent reaches the timeout, the last retryable failure
    is the outcome, so a timeout of zero means exactly one attempt. Wall-clock
    time is the sum of the scripted latencies of the attempts made. */
module Polling {
  import opened Wire
  import opened Requests
  import opened Http

  /** An error the caller turned into `.failure(error)` rather than throwing. */
  predicate Retryable(e: Failure, retryOn: iset<ErrorStatus>) {
    e.ServerError? && e.response.status in retryOn
  }

  datatype PollOutcome = PollOutcome(result: Result<Value, Failure>, attempts: nat)

  /** The time the first `n` exchanges of `script` take. */
  function Elapsed(script: seq<Exchange>, n: nat): real
    decreases n
  {
    if n == 0 || script == [] then 0.0 else script[0].latency + Elapsed(script[1..], n - 1)
  }

  function Drop(script: seq<Exchange>, n: nat): seq<Exchange> {
    if n >= |script| then [] else script[n..]
  }

  /** `o` preceded by `k` further attempts. */
  function Shifted(o: PollOutcome, k: nat): PollOutcome {
    PollOutcome(o.result, o.attempts + k)
  }

  /** `n` copies of the HTTP request `r`. */
  function Repeat(r: UrlRequest, n: nat): (rs: seq<UrlRequest>)
    ensures |rs| == n
    ensures forall i :: 0 <= i < n ==> rs[i] == r
  {
    if n == 0 then [] else Repeat(r, n - 1) + [r]
  }

  /** What `poll` does against `script`, having already spent `spent` seconds:
      its outcome and how many requests it sends. */
  function PollRun(script: seq<Exchange>, shape: Shape, retryOn: iset<ErrorStatus>, timeout: real, spent: real): (o: PollOutcome)
    ensures 1 <= o.attempts
    ensures timeout <= spent || retryOn == iset{} ==> o.attempts == 1
    ensures o.result.Ok? ==> Conforms(o.result.value, shape)
    decreases |script|
  {
    var exchange := Next(script);
    var result := Classify(shape, exchange.reply);
    var now := spent + exchange.latency;
    if result.Ok? || !Retryable(result.error, retryOn) || timeout <= now then
      PollOutcome(result, 1)
    else
      Shifted(PollRun(script[1..], shape, retryOn, timeout, now), 1)
  }

  /** The outcome of `poll` is the outcome of its last attempt: on
      exhaustion, the last retryable failure is what it throws. */
  lemma {:induction false} PollRunLastAttempt(script: seq<Exchange>, shape: Shape, retryOn: iset<ErrorStatus>, timeout: real, spent: real)
    ensures var o := PollRun(script, shape, retryOn, timeout, spent);
            o.attempts <= |script| + 1
    ensures var o := PollRun(script, shape, retryOn, timeout, spent);
            o.result == Classify(shape, Next(Drop(script, o.attempts - 1)).reply)
    decreases |script|
  {
    var exchange := Next(script);
    var result := Classify(shape, exchange.reply);
    var now := spent + exchange.latency;
    if !(result.Ok? || !Retryable(result.error, retryOn) || timeout <= now) {
      PollRunLastAttempt(script[1..], shape, retryOn, timeout, now);
      var later := PollRun(script[1..], shape, retryOn, timeout, now);
      assert Drop(script[1..], later.attempts - 1) == Drop(script, later.attempts);
    }
  }

  /** Attempt `i` (from zero) of a run begun at `spent` failed with a
      retryable error and ended before the timeout. */
  predicate RetriedAttempt(script: seq<Exchange>, shape: Shape, retryOn: iset<ErrorStatus>, timeout: real, spent: real, i: nat) {
    && i < |script|
    && Classify(shape, script[i].reply).Err?
    && Retryable(Classify(shape, script[i].reply).error, retryOn)
    && spent + Elapsed(script, i + 1) < timeout
  }

  /** Every attempt but the last failed with a retryable error, and was
      retried only while time remained. */
  lemma {:induction false} PollRunRetriesOnlyRetryable(script: seq<Exchange>, shape: Shape, retryOn: iset<ErrorStatus>, timeout: real, spent: real)
    ensures var o := PollRun(script, shape, retryOn, timeout, spent);
            forall i: nat :: i < o.attempts - 1 ==> RetriedAttempt(script, shape, retryOn, timeout, spent, i)
    decreases |script|
  {
    var exchange := Next(script);
    var result := Classify(shape, exchange.reply);
    var now := spent + exchange.latency;
    if !(result.Ok? || !Retryable(result.error, retryOn) || timeout <= now) {
      PollRunRetriesOnlyRetryable(script[1..], shape, retryOn, timeout, now);
      var later := PollRun(script[1..], shape, retryOn, timeout, now);
      assert script != [];
      forall i: nat | i < later.attempts
        ensures RetriedAttempt(script, shape, retryOn, timeout, spent, i)
      {
        assert Elapsed(script, i + 1) == script[0].latency + Elapsed(script[1..], i);
        if i > 0 {
          assert RetriedAttempt(script[1..], shape, retryOn, timeout, now, i - 1);
          assert script[1..][i - 1] == script[i];
        }
      }
    }
  }

  /** A retryable failure is the outcome only once the time spent has reached the timeout. */
  lemma {:induction false} PollRunExhausted(script: seq<Exchange>, shape: Shape, retryOn: iset<ErrorStatus>, timeout: real, spent: real)
    ensures var o := PollRun(script, shape, retryOn, timeout, spent);
            o.result.Err? && Retryable(o.result.error, retryOn) ==> timeout <= spent + Elapsed(script, o.attempts)
    decreases |script|
  {
    var exchange := Next(script);
    var result := Classify(shape, exchange.reply);
    var now := spent + exchange.latency;
    if !(result.Ok? || !Retryable(result.error, retryOn) || timeout <= now) {
      PollRunExhausted(script[1..], shape, retryOn, timeout, now);
    }
  }

  /** `k` retryable failures that fit in the budget, then a success: `poll`
      returns that success after exactly `k + 1` requests. */
  lemma {:induction false} PollRunSucceedsAfterRetries(script: seq<Exchange>, shape: Shape, retryOn: iset<ErrorStatus>, timeout: real, spent: real, k: nat)
    requires k < |script|
    requires forall i :: 0 <= i < k ==>
               Classify(shape, script[i].reply).Err? && Retryable(Classify(shape, script[i].reply).error, retryOn)
    requires Classify(shape, script[k].reply).Ok?
    requires spent + Elapsed(script, k) < timeout
    ensures PollRun(script, shape, retryOn, timeout, spent) == PollOutcome(Classify(shape, script[k].reply), k + 1)
    decreases k
  {
    if k > 0 {
      var now := spent + script[0].latency;
      ElapsedGrows(script[1..], k - 1);
      assert now + Elapsed(script[1..], k - 1) == spent + Elapsed(script, k);
      forall i | 0 <= i < k - 1
        ensures script[1..][i] == script[i + 1]
      {
      }
      PollRunSucceedsAfterRetries(script[1..], shape, retryOn, timeout, now, k - 1);
    }
  }

  lemma {:induction false} ElapsedGrows(script: seq<Exchange>, n: nat)
    ensures 0.0 <= Elapsed(script, n)
    decreases n
  {
    if n > 0 && script != [] {
      ElapsedGrows(script[1..], n - 1);
    }
  }

  /** One attempt of `poll`, then either the outcome or the rest of the run. */
  lemma PollRunStep(script: seq<Exchange>, shape: Shape, retryOn: iset<ErrorStatus>, timeout: real, spent: real)
    ensures var result := Classify(shape, Next(script).reply);
            var now := spent + Next(script).latency;
            PollRun(script, shape, retryOn, timeout, spent)
            == if result.Err? && Retryable(result.error, retryOn) && now < timeout
               then Shifted(PollRun(Rest(script), shape, retryOn, timeout, now), 1)
               else PollOutcome(result, 1)
  {
  }

  /** `poll`, each attempt sending `request` through `driver`. */
  method Poll(driver: WebDriver, request: Request, retryOn: iset<ErrorStatus>, timeout: real) returns (r: Result<Value, Failure>)
    modifies driver.server
    ensures var o := PollRun(old(driver.server.script), request.response, retryOn, timeout, 0.0);
      && r == o.result
      && driver.server.log == old(driver.server.log) + Repeat(UrlRequestFor(driver.serverUrl, request), o.attempts)
      && driver.server.script == Drop(old(driver.server.script), o.attempts)
  {
    ghost var script0 := driver.server.script;
    ghost var log0 := driver.server.log;
    ghost var total := PollRun(script0, request.response, retryOn, timeout, 0.0);
    var start := driver.server.now;
    PollRunStep(script0, request.response, retryOn, timeout, 0.0);
    r := driver.Send(request);
    ghost var attempts: nat := 1;
    var more := r.Err? && Retryable(r.error, retryOn) && driver.server.now - start < timeout;
    while more
      invariant 1 <= attempts
      invariant driver.server.script == Drop(script0, attempts)
      invariant driver.server.log == log0 + Repeat(UrlRequestFor(driver.serverUrl, request), attempts)
      invariant more == (r.Err? && Retryable(r.error, retryOn) && driver.server.now - start < timeout)
      invariant more ==> total == Shifted(PollRun(driver.server.script, request.response, retryOn, timeout, driver.server.now - start), attempts)
      invariant !more ==> total == PollOutcome(r, attempts)
      decreases |driver.server.script| + if more then 1 else 0
    {
      ghost var before := driver.server.script;
      ghost var spent := driver.server.now - start;
      ghost var rest := PollRun(before, request.response, retryOn, timeout, spent);
      assert total == Shifted(rest, attempts);
      PollRunStep(before, request.response, retryOn, timeout, spent);
      r := driver.Send(request);
      assert driver.server.now - start == spent + Next(before).latency;
      attempts := attempts + 1;
      more := r.Err? && Retryable(r.error, retryOn) && driver.server.now - start < timeout;
      assert Drop(script0, attempts) == Rest(before);
    }
  }
}
