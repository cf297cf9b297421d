/** The background worker of the full application: a simulated progress phase
    that honours a cancel flag, then the fallback loop that queries each
    candidate in turn and stops at the first usable answer. */
module Worker {
  import opened Wrappers

  /** One fallback attempt: the `sheng` and `place` query parameters. */
  datatype Candidate = Candidate(sheng: string, place: string)

  /** What the HTTP exchange for one candidate gave the worker. The request, its
      10-second timeout, the status check and the JSON decoding are not modelled;
      their combined effect is this value.
      `Failed(reason)`: any exception they raised, carrying its text.
      `Payload(body, receivedAt)`: the decoded JSON object (its values by their
      text) and the clock reading, in whole seconds, when it arrived. */
  datatype Response =
    | Failed(reason: string)
    | Payload(body: map<string, string>, receivedAt: int)

  /** The dictionary the worker emits on success: the payload together with the
      `timestamp` and `query_level` entries it adds. */
  datatype WeatherData = WeatherData(body: map<string, string>, timestamp: int, queryLevel: string)

  /** The worker's signals, in the order it emits them. */
  datatype Event =
    | Progress(percent: int)
    | Finished(data: WeatherData)
    | Error(message: string)

  /** The text of the exception raised for a payload without `place` or `temperature`. */
  const InvalidData: string := "API返回无效数据"

  /** The per-candidate error message. */
  function FailureMessage(place: string, detail: string): (r: string)
  {
    "查询 " + place + " 失败: " + detail
  }

  /** The `query_level` stamp: the province and place that answered. */
  function QueryLevel(c: Candidate): (r: string)
  {
    c.sheng + "/" + c.place
  }

  /** A payload is usable when it has both a `place` and a `temperature` entry. */
  predicate Usable(body: map<string, string>)
  {
    "place" in body && "temperature" in body
  }

  /** One candidate's attempt: the stamped data, or the message recorded for it. */
  function Attempt(c: Candidate, r: Response): (res: Result<WeatherData, string>)
  {
    match r
    case Failed(reason) => Failure(FailureMessage(c.place, reason))
    case Payload(body, receivedAt) =>
      if Usable(body) then Success(WeatherData(body, receivedAt, QueryLevel(c)))
      else Failure(FailureMessage(c.place, InvalidData))
  }

  /** How the fallback loop ended: the data and how many candidates were fetched,
      or the last recorded error (none when there was no candidate). */
  datatype FetchOutcome =
    | Found(data: WeatherData, tried: nat)
    | Exhausted(lastError: Option<string>)

  /** The fallback loop resumed at candidate `i` with `lastError` recorded so far. */
  function OutcomeFrom(qs: seq<Candidate>, rs: seq<Response>, i: nat, lastError: Option<string>): (r: FetchOutcome)
    requires |qs| == |rs| && i <= |qs|
    ensures r.Found? ==> i < r.tried <= |qs|
    ensures r.Exhausted? && i < |qs| ==> r.lastError.Some?
    decreases |qs| - i
  {
    if i == |qs| then Exhausted(lastError)
    else match Attempt(qs[i], rs[i])
      case Success(d) => Found(d, i + 1)
      case Failure(e) => OutcomeFrom(qs, rs, i + 1, Some(e))
  }

  /** The fallback loop over the whole candidate list. */
  function Outcome(qs: seq<Candidate>, rs: seq<Response>): (r: FetchOutcome)
    requires |qs| == |rs|
  {
    OutcomeFrom(qs, rs, 0, None)
  }

  /** How many candidates the fallback loop fetched. */
  function Tried(qs: seq<Candidate>, rs: seq<Response>): (n: nat)
    requires |qs| == |rs|
    ensures n <= |qs|
  {
    match Outcome(qs, rs)
    case Found(_, t) => t
    case Exhausted(_) => |qs|
  }

  /** Number of steps of the simulated progress phase (`range(1, 101, 10)`). */
  const RampSteps: nat := 10

  /** The first `n` progress values of the simulated phase: 1, 11, 21, ... */
  function Ramp(n: nat): (r: seq<Event>)
  {
    seq(n, j => Progress(1 + 10 * j))
  }

  /** The result signal the fallback loop emits, if any (`if last_error:`). */
  function OutcomeEvents(o: FetchOutcome): (r: seq<Event>)
  {
    match o
    case Found(d, _) => [Finished(d)]
    case Exhausted(None) => []
    case Exhausted(Some(e)) => if e != "" then [Error(e)] else []
  }

  /** The step of the simulated phase at which the worker finds its flag set,
      or `RampSteps` when it never does. A cancel that arrives after the phase
      (`cancelArrivesAt >= RampSteps`) is never looked at. */
  function StopStep(initiallyCanceled: bool, cancelArrivesAt: nat): (s: nat)
    ensures s <= RampSteps
  {
    if initiallyCanceled then 0
    else if cancelArrivesAt < RampSteps then cancelArrivesAt
    else RampSteps
  }

  /** Every signal of one run, given the step at which it stops. */
  function RunEvents(qs: seq<Candidate>, rs: seq<Response>, stop: nat): (r: seq<Event>)
    requires |qs| == |rs| && stop <= RampSteps
  {
    if stop < RampSteps then Ramp(stop) + [Progress(100)]
    else Ramp(RampSteps) + OutcomeEvents(Outcome(qs, rs)) + [Progress(100)]
  }

  /** The candidates one run fetches, in order. */
  function RunRequests(qs: seq<Candidate>, rs: seq<Response>, stop: nat): (r: seq<Candidate>)
    requires |qs| == |rs| && stop <= RampSteps
  {
    if stop < RampSteps then [] else qs[..Tried(qs, rs)]
  }

  // ---------------------------------------------------------------------------
  // Properties of the fallback loop
  // ---------------------------------------------------------------------------

  /** When the loop finds data, it came from the candidate fetched last, and
      every candidate before it failed. */
  lemma {:induction false} OutcomeFromFound(qs: seq<Candidate>, rs: seq<Response>, i: nat, lastError: Option<string>)
    requires |qs| == |rs| && i <= |qs|
    requires OutcomeFrom(qs, rs, i, lastError).Found?
    ensures var o := OutcomeFrom(qs, rs, i, lastError);
      Attempt(qs[o.tried - 1], rs[o.tried - 1]) == Success(o.data) &&
      forall m :: i <= m < o.tried - 1 ==> Attempt(qs[m], rs[m]).Failure?
    decreases |qs| - i
  {
    if Attempt(qs[i], rs[i]).Failure? {
      OutcomeFromFound(qs, rs, i + 1, Some(Attempt(qs[i], rs[i]).error));
    }
  }

  /** The first candidate that succeeds ends the loop with its data. */
  lemma {:induction false} OutcomeFromFirstSuccess(qs: seq<Candidate>, rs: seq<Response>, i: nat, lastError: Option<string>, k: nat)
    requires |qs| == |rs| && i <= k < |qs|
    requires Attempt(qs[k], rs[k]).Success?
    requires forall m :: i <= m < k ==> Attempt(qs[m], rs[m]).Failure?
    ensures OutcomeFrom(qs, rs, i, lastError) == Found(Attempt(qs[k], rs[k]).value, k + 1)
    decreases k - i
  {
    if i < k {
      OutcomeFromFirstSuccess(qs, rs, i + 1, Some(Attempt(qs[i], rs[i]).error), k);
    }
  }

  /** When every remaining candidate fails, the loop ends with the last one's message. */
  lemma {:induction false} OutcomeFromAllFail(qs: seq<Candidate>, rs: seq<Response>, i: nat, lastError: Option<string>)
    requires |qs| == |rs| && i <= |qs|
    requires forall m :: i <= m < |qs| ==> Attempt(qs[m], rs[m]).Failure?
    ensures OutcomeFrom(qs, rs, i, lastError) ==
      Exhausted(if i == |qs| then lastError else Some(Attempt(qs[|qs| - 1], rs[|qs| - 1]).error))
    decreases |qs| - i
  {
    if i < |qs| {
      OutcomeFromAllFail(qs, rs, i + 1, Some(Attempt(qs[i], rs[i]).error));
    }
  }

  /** First success stops the iteration: with candidate `k` the first to answer
      usably, the run emits exactly its data stamped with `sheng/place`, and
      fetches nothing after it. */
  lemma FirstSuccessStops(qs: seq<Candidate>, rs: seq<Response>, k: nat)
    requires |qs| == |rs| && k < |qs|
    requires Attempt(qs[k], rs[k]).Success?
    requires forall m :: 0 <= m < k ==> Attempt(qs[m], rs[m]).Failure?
    ensures rs[k].Payload? && Usable(rs[k].body)
    ensures RunEvents(qs, rs, RampSteps) ==
      Ramp(RampSteps) + [Finished(WeatherData(rs[k].body, rs[k].receivedAt, QueryLevel(qs[k]))), Progress(100)]
    ensures RunRequests(qs, rs, RampSteps) == qs[..k + 1]
  {
    OutcomeFromFirstSuccess(qs, rs, 0, None, k);
  }

  /** Conversely, whatever data a run emits is the first usable answer. */
  lemma FoundIsFirstSuccess(qs: seq<Candidate>, rs: seq<Response>)
    requires |qs| == |rs|
    requires Outcome(qs, rs).Found?
    ensures var t := Outcome(qs, rs).tried;
      1 <= t <= |qs| &&
      Attempt(qs[t - 1], rs[t - 1]) == Success(Outcome(qs, rs).data) &&
      Outcome(qs, rs).data.queryLevel == QueryLevel(qs[t - 1]) &&
      forall m :: 0 <= m < t - 1 ==> Attempt(qs[m], rs[m]).Failure?
  {
    OutcomeFromFound(qs, rs, 0, None);
  }

  /** Last error wins: when every candidate fails, all are fetched and exactly one
      error is emitted, the message recorded for the last candidate. */
  lemma LastErrorWins(qs: seq<Candidate>, rs: seq<Response>)
    requires |qs| == |rs| && |qs| > 0
    requires forall m :: 0 <= m < |qs| ==> Attempt(qs[m], rs[m]).Failure?
    ensures var last := |qs| - 1;
      RunEvents(qs, rs, RampSteps) ==
        Ramp(RampSteps) +
        [Error(FailureMessage(qs[last].place, if rs[last].Failed? then rs[last].reason else InvalidData)),
         Progress(100)]
    ensures RunRequests(qs, rs, RampSteps) == qs
  {
    OutcomeFromAllFail(qs, rs, 0, None);
    var last := |qs| - 1;
    var e := Attempt(qs[last], rs[last]).error;
    assert e[..3] == "查询 ";
    assert OutcomeEvents(Outcome(qs, rs)) == [Error(e)];
    assert qs[..|qs|] == qs;
  }

  /** An empty candidate list emits no result signal at all. */
  lemma EmptyListEmitsNothing(rs: seq<Response>)
    requires rs == []
    ensures RunEvents([], rs, RampSteps) == Ramp(RampSteps) + [Progress(100)]
    ensures RunRequests([], rs, RampSteps) == []
  {
  }

  /** The signal sequence of every run: progress strictly increases and ends at 100,
      at most one result signal is emitted (right before the final 100), and a run
      stopped during the simulated phase fetches nothing and emits no result. */
  lemma RunEventsShape(qs: seq<Candidate>, rs: seq<Response>, stop: nat)
    requires |qs| == |rs| && stop <= RampSteps
    ensures var ev := RunEvents(qs, rs, stop);
      |ev| >= 1 && ev[|ev| - 1] == Progress(100) &&
      (forall a, b :: 0 <= a < b < |ev| && ev[a].Progress? && ev[b].Progress? ==> ev[a].percent < ev[b].percent) &&
      (forall a :: 0 <= a < |ev| && !ev[a].Progress? ==> a == |ev| - 2) &&
      (stop < RampSteps ==> (forall a :: 0 <= a < |ev| ==> ev[a].Progress?) && RunRequests(qs, rs, stop) == [])
  {
    var ev := RunEvents(qs, rs, stop);
    var n := if stop < RampSteps then stop else RampSteps;
    var tail := ev[n..];
    assert ev[..n] == Ramp(n);
    assert forall a :: 0 <= a < n ==> ev[a] == Progress(1 + 10 * a);
    assert |tail| <= 2;
  }

  // ---------------------------------------------------------------------------
  // The worker object
  // ---------------------------------------------------------------------------

  /** The background worker. Its signals are recorded in `emitted` and the
      outbound requests in `requested`, both in order. */
  class WeatherWorker {
    const queryList: seq<Candidate>
    var canceled: bool
    var emitted: seq<Event>
    var requested: seq<Candidate>

    constructor(queryList: seq<Candidate>)
      ensures this.queryList == queryList
      ensures !canceled && emitted == [] && requested == []
    {
      this.queryList := queryList;
      canceled := false;
      emitted := [];
      requested := [];
    }

    /** Asks the worker to stop; only the simulated progress phase looks at the flag. */
    method Cancel()
      modifies this`canceled
      ensures canceled
    {
      canceled := true;
    }

    /** One run of the worker thread. `responses[k]` is what fetching candidate
        `k` gives, and `cancelArrivesAt` is the step of the simulated phase before
        whose check the user's cancel lands (at or past `RampSteps`: after it). */
    method Run(responses: seq<Response>, cancelArrivesAt: nat)
      requires |responses| == |queryList|
      modifies this`canceled, this`emitted, this`requested
      ensures canceled == (old(canceled) || cancelArrivesAt < RampSteps)
      ensures emitted == old(emitted) + RunEvents(queryList, responses, StopStep(old(canceled), cancelArrivesAt))
      ensures requested == old(requested) + RunRequests(queryList, responses, StopStep(old(canceled), cancelArrivesAt))
    {
      // simulated progress: 1, 11, ..., 91
      var i := 1;
      while i < 101
        invariant 1 <= i <= 101 && (i - 1) % 10 == 0
        invariant i > 1 ==> !old(canceled) && cancelArrivesAt >= (i - 1) / 10
        invariant canceled == old(canceled)
        invariant emitted == old(emitted) + Ramp((i - 1) / 10)
        invariant requested == old(requested)
      {
        if (i - 1) / 10 == cancelArrivesAt {
          Cancel();
        }
        if canceled {
          emitted := emitted + [Progress(100)];
          return;
        }
        emitted := emitted + [Progress(i)];
        i := i + 10;
      }

      // the fallback loop
      var lastError: Option<string> := None;
      var k := 0;
      while k < |queryList|
        invariant k <= |queryList|
        invariant OutcomeFrom(queryList, responses, k, lastError) == Outcome(queryList, responses)
        invariant requested == old(requested) + queryList[..k]
        invariant emitted == old(emitted) + Ramp(RampSteps)
        invariant !canceled && !old(canceled) && cancelArrivesAt >= RampSteps
      {
        var sheng, place := queryList[k].sheng, queryList[k].place;
        requested := requested + [queryList[k]];
        match responses[k] {
          case Failed(reason) =>
            lastError := Some(FailureMessage(place, reason));
          case Payload(body, receivedAt) =>
            if "place" !in body || "temperature" !in body {
              lastError := Some(FailureMessage(place, InvalidData));
            } else {
              var data := WeatherData(body, receivedAt, sheng + "/" + place);
              emitted := emitted + [Finished(data), Progress(100)];
              return;
            }
        }
        k := k + 1;
      }
      assert queryList[..k] == queryList;
      if lastError.Some? && lastError.value != "" {
        emitted := emitted + [Error(lastError.value)];
      }
      emitted := emitted + [Progress(100)];
    }
  }
}
