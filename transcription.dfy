/**
 * The speech-to-text client's retry policy (`STT` in functions.py).
 *
 * The vendor is abstracted into the sequence of outcomes it gives, one per
 * attempt: attempt number `i + 1` gets `vendor[i]`. Reading the audio file,
 * building the request and the HTTP client are not modelled; only the size of
 * the clip is kept, because it decides the size warning. `time.sleep` becomes
 * the list of backoff delays (in seconds) the loop asks for.
 */
module Transcription {
  import opened Wrappers

  /** What one call to the vendor does. */
  datatype Attempt =
    | Timeout                      // httpx.ReadTimeout or httpx.WriteTimeout
    | OtherError(msg: string)      // any other exception, with its message
    | Transcribed(transcript: string)  // the first alternative's transcript

  const TimeoutApology: string :=
    "Sorry, the transcription service timed out. Please try a shorter recording."
  const ErrorPrefix: string := "Error transcribing audio: "
  /** The default of `max_retries`; the application always uses it. */
  const DefaultMaxRetries: int := 3
  /** A clip larger than 10 MiB draws a warning (and nothing else). */
  const SizeWarningBytes: int := 10 * 1024 * 1024

  /** Python's `2 ** n` for a natural `n`. */
  function Pow2(n: nat): (r: nat)
    ensures r >= 1
  {
    if n == 0 then 1 else 2 * Pow2(n - 1)
  }

  /** How a run of STT that makes at least one call ends. */
  datatype Ending =
    | Transcript(text: string)    // the vendor transcribed the clip
    | VendorError(msg: string)    // a non-timeout error, reported at once
    | GaveUp                      // every allowed attempt timed out

  /** The ending a non-timeout answer of the vendor causes. */
  function EndingOf(a: Attempt): Ending
    requires !a.Timeout?
  {
    match a
    case Transcribed(t) => Transcript(t)
    case OtherError(m) => VendorError(m)
  }

  /** The string STT returns for an ending. */
  function Message(e: Ending): string
  {
    match e
    case Transcript(t) => t
    case VendorError(m) => ErrorPrefix + m
    case GaveUp => TimeoutApology
  }

  /** STT's return value: None when no call was made, the ending's message otherwise. */
  function Returned(result: Option<Ending>): Option<string>
  {
    if result.Some? then Some(Message(result.value)) else None
  }

  /**
   * What one run of STT produces: how it ended (None when the loop body
   * never runs), how many vendor calls were made, and the backoff delays
   * asked for, in order.
   */
  datatype Run = Run(result: Option<Ending>, attempts: nat, backoffs: seq<nat>)

  /**
   * The rest of a run once `retries` timeouts have happened (and so `retries`
   * calls have been made).
   */
  function RunFrom(vendor: seq<Attempt>, maxRetries: int, retries: nat): Run
    requires maxRetries <= |vendor|
    decreases |vendor| - retries
  {
    if retries >= maxRetries then Run(None, retries, [])
    else if vendor[retries].Timeout? then
      if retries + 1 >= maxRetries then Run(Some(GaveUp), retries + 1, [])
      else
        var rest := RunFrom(vendor, maxRetries, retries + 1);
        Run(rest.result, rest.attempts, [Pow2(retries + 1)] + rest.backoffs)
    else Run(Some(EndingOf(vendor[retries])), retries + 1, [])
  }

  /** A whole run of STT against the vendor outcomes `vendor`. */
  function SttRun(vendor: seq<Attempt>, maxRetries: int): Run
    requires maxRetries <= |vendor|
  {
    RunFrom(vendor, maxRetries, 0)
  }

  /**
   * STT as the loop it is. `clientError` is the outcome of constructing the
   * vendor client before the loop: `Some(e)` when that raised `e`, which is
   * outside the loop's handlers and so propagates to the caller before any
   * attempt. `audioSize` is the clip's length in bytes; the warnings it
   * causes are counted in `warnings` (one per attempt) and the transcript
   * does not depend on it.
   */
  method Stt(vendor: seq<Attempt>, maxRetries: int, audioSize: nat, clientError: Option<string>)
    returns (transcript: Result<Option<string>, string>, attempts: nat, backoffs: seq<nat>, warnings: nat)
    requires maxRetries <= |vendor|
    ensures clientError.Some? ==>
      transcript == Failure(clientError.value) && attempts == 0 && backoffs == []
    ensures clientError.None? ==> var run := SttRun(vendor, maxRetries);
      transcript == Success(Returned(run.result)) && attempts == run.attempts && backoffs == run.backoffs
    ensures warnings == if audioSize > SizeWarningBytes then attempts else 0
  {
    if clientError.Some? {
      return Failure(clientError.value), 0, [], 0;
    }
    var retries: nat := 0;
    attempts, backoffs, warnings := 0, [], 0;
    ghost var spec := SttRun(vendor, maxRetries);
    while retries < maxRetries
      invariant retries <= |vendor|
      invariant attempts == retries
      invariant warnings == if audioSize > SizeWarningBytes then attempts else 0
      invariant var rest := RunFrom(vendor, maxRetries, retries);
        spec == Run(rest.result, rest.attempts, backoffs + rest.backoffs)
      decreases maxRetries - retries
    {
      ghost var rest := RunFrom(vendor, maxRetries, retries);
      attempts := attempts + 1;
      if audioSize > SizeWarningBytes {
        warnings := warnings + 1;
      }
      if !vendor[retries].Timeout? {
        // A transcript, or any other error, ends the loop on this attempt.
        var ending := EndingOf(vendor[retries]);
        assert rest == Run(Some(ending), attempts, []);
        transcript := Success(Some(Message(ending)));
        return;
      }
      // A timeout: give up after the last attempt, otherwise back off.
      retries := retries + 1;
      if retries >= maxRetries {
        assert rest == Run(Some(GaveUp), attempts, []);
        transcript := Success(Some(Message(GaveUp)));
        return;
      }
      ghost var next := RunFrom(vendor, maxRetries, retries);
      assert rest == Run(next.result, next.attempts, [Pow2(retries)] + next.backoffs);
      assert backoffs + ([Pow2(retries)] + next.backoffs) == (backoffs + [Pow2(retries)]) + next.backoffs;
      backoffs := backoffs + [Pow2(retries)];
    }
    assert RunFrom(vendor, maxRetries, retries) == Run(None, retries, []);
    transcript := Success(None);
  }

  /**
   * The shape of every run that starts at least one attempt: it makes between
   * `retries + 1` and `maxRetries` calls, returns a string, and the backoff
   * after the r-th timeout is 2^r seconds, with none after the last call.
   */
  lemma {:induction false} RunFromShape(vendor: seq<Attempt>, maxRetries: int, retries: nat)
    requires retries < maxRetries <= |vendor|
    ensures var r := RunFrom(vendor, maxRetries, retries);
      && retries < r.attempts <= maxRetries
      && r.result.Some?
      && |r.backoffs| == r.attempts - 1 - retries
      && forall i :: 0 <= i < |r.backoffs| ==> r.backoffs[i] == Pow2(retries + 1 + i)
    decreases maxRetries - retries
  {
    if vendor[retries].Timeout? && retries + 1 < maxRetries {
      RunFromShape(vendor, maxRetries, retries + 1);
      var rest := RunFrom(vendor, maxRetries, retries + 1);
      var bs := [Pow2(retries + 1)] + rest.backoffs;
      forall i | 0 <= i < |bs| ensures bs[i] == Pow2(retries + 1 + i) {
        if i > 0 { assert bs[i] == rest.backoffs[i - 1]; }
      }
    }
  }

  /**
   * STT never makes more than `maxRetries` calls, makes none and returns None
   * exactly when `maxRetries <= 0`, and otherwise asks for the backoffs
   * 2, 4, ..., 2^(attempts - 1): one after every call but the last.
   */
  lemma SttBounds(vendor: seq<Attempt>, maxRetries: int)
    requires maxRetries <= |vendor|
    ensures var r := SttRun(vendor, maxRetries);
      && (r.attempts == 0 <==> maxRetries <= 0)
      && (r.result == None <==> maxRetries <= 0)
      && (maxRetries > 0 ==> r.attempts <= maxRetries)
      && |r.backoffs| == (if r.attempts == 0 then 0 else r.attempts - 1)
      && forall i :: 0 <= i < |r.backoffs| ==> r.backoffs[i] == Pow2(i + 1)
  {
    if maxRetries > 0 {
      RunFromShape(vendor, maxRetries, 0);
    }
  }

  /**
   * After `k - 1` timeouts, a non-timeout answer on attempt `k <= maxRetries`
   * decides the result: the transcript on success, the error text otherwise,
   * and no further call is made.
   */
  lemma {:induction false} SttFirstAnswerDecides(vendor: seq<Attempt>, maxRetries: int, k: nat)
    requires 1 <= k <= maxRetries <= |vendor|
    requires forall i :: 0 <= i < k - 1 ==> vendor[i].Timeout?
    requires !vendor[k - 1].Timeout?
    ensures Returned(SttRun(vendor, maxRetries).result) ==
      Some(if vendor[k - 1].Transcribed? then vendor[k - 1].transcript else ErrorPrefix + vendor[k - 1].msg)
    ensures SttRun(vendor, maxRetries).attempts == k
  {
    AnswerFrom(vendor, maxRetries, 0, k);
  }

  lemma {:induction false} AnswerFrom(vendor: seq<Attempt>, maxRetries: int, retries: nat, k: nat)
    requires retries < k <= maxRetries <= |vendor|
    requires forall i :: retries <= i < k - 1 ==> vendor[i].Timeout?
    requires !vendor[k - 1].Timeout?
    ensures RunFrom(vendor, maxRetries, retries).result == Some(EndingOf(vendor[k - 1]))
    ensures RunFrom(vendor, maxRetries, retries).attempts == k
    decreases k - retries
  {
    if retries < k - 1 {
      assert vendor[retries].Timeout? && retries + 1 < maxRetries;
      AnswerFrom(vendor, maxRetries, retries + 1, k);
      var rest := RunFrom(vendor, maxRetries, retries + 1);
      assert RunFrom(vendor, maxRetries, retries) == Run(rest.result, rest.attempts, [Pow2(retries + 1)] + rest.backoffs);
    }
  }

  /**
   * When every one of the `maxRetries` calls times out, STT returns the
   * apology (it does not raise), after exactly `maxRetries` calls.
   */
  lemma {:induction false} SttAllTimeouts(vendor: seq<Attempt>, maxRetries: int)
    requires 1 <= maxRetries <= |vendor|
    requires forall i :: 0 <= i < maxRetries ==> vendor[i].Timeout?
    ensures Returned(SttRun(vendor, maxRetries).result) == Some(TimeoutApology)
    ensures SttRun(vendor, maxRetries).attempts == maxRetries
  {
    TimeoutsFrom(vendor, maxRetries, 0);
  }

  lemma {:induction false} TimeoutsFrom(vendor: seq<Attempt>, maxRetries: int, retries: nat)
    requires retries < maxRetries <= |vendor|
    requires forall i :: retries <= i < maxRetries ==> vendor[i].Timeout?
    ensures RunFrom(vendor, maxRetries, retries).result == Some(GaveUp)
    ensures RunFrom(vendor, maxRetries, retries).attempts == maxRetries
    decreases maxRetries - retries
  {
    assert vendor[retries].Timeout?;
    if retries + 1 < maxRetries {
      TimeoutsFrom(vendor, maxRetries, retries + 1);
      var rest := RunFrom(vendor, maxRetries, retries + 1);
      assert RunFrom(vendor, maxRetries, retries) == Run(rest.result, rest.attempts, [Pow2(retries + 1)] + rest.backoffs);
    }
  }

  /**
   * A call of the method as the application makes it (three attempts):
   * timeouts on attempts 1 and 2 and a success on attempt 3 give the
   * transcript, after backoffs of 2 and 4 seconds and no fourth call.
   */
  method SttDefaultThirdTimeLucky(t: string, rest: seq<Attempt>, audioSize: nat)
    returns (transcript: Result<Option<string>, string>, attempts: nat, backoffs: seq<nat>)
    ensures transcript == Success(Some(t)) && attempts == 3 && backoffs == [2, 4]
  {
    var vendor := [Timeout, Timeout, Transcribed(t)] + rest;
    var warnings;
    transcript, attempts, backoffs, warnings := Stt(vendor, DefaultMaxRetries, audioSize, None);
    SttFirstAnswerDecides(vendor, DefaultMaxRetries, 3);
    SttBounds(vendor, DefaultMaxRetries);
  }
}
