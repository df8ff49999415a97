/** The `get_trips` loop shared by the 0.2.0 and 0.4.0 clients: shape the
    parameters, then request pages through `_request`, following `links.next`
    and accumulating trips, until paging is off or a page has no next link.

    The provider is a finite list of page requests, each with the script of
    its attempts. The source puts no bound on the number of pages; the model
    asks that some request in the list ends the loop (`FiniteFrom`). */
module Pagination {
  import opened Results
  import opened Configuration
  import opened Payloads
  import opened Transport
  import opened Retry
  import opened ClientBase
  import opened Shaping

  /** One page request: where it went, its query parameters (`None` on
      follow-up pages), and its headers. */
  datatype HttpRequest = HttpRequest(endpoint: string, params: Option<Params>, headers: Headers)

  /** The value `get_trips` returns: `{"version": ..., "data": {"trips": ...}}`. */
  datatype Envelope = Envelope(version: Option<string>, trips: seq<Trip>)

  /** The loop ends after a request whose retry run is `run`: the request
      raised, paging is exactly `False`, or the page has no next link. */
  predicate Stops(paging: Value, run: Run) {
    !run.succeeded || paging == Bool(false) || !HasNextLink(run.record.payload)
  }

  /** What `_request` makes of each request of the provider's list. */
  function Runs(server: seq<Script>, maxAttempts: int): (runs: seq<Run>)
    ensures |runs| == |server|
    ensures forall i :: 0 <= i < |server| ==> runs[i] == RetryRun(server[i], maxAttempts)
  {
    seq(|server|, i requires 0 <= i < |server| => RetryRun(server[i], maxAttempts))
  }

  /** Some run from index `from` on ends the loop. */
  predicate FiniteFrom(runs: seq<Run>, paging: Value, from: nat) {
    exists n :: from <= n < |runs| && Stops(paging, runs[n])
  }

  /** The index of the request after which the loop ends. */
  function StopIndex(runs: seq<Run>, paging: Value, from: nat): (k: nat)
    requires FiniteFrom(runs, paging, from)
    decreases |runs| - from
    ensures from <= k < |runs| && Stops(paging, runs[k])
  {
    if Stops(paging, runs[from]) then from
    else StopIndex(runs, paging, from + 1)
  }

  /** No request before the stop index ends the loop. */
  lemma {:induction false} StopIndexIsFirst(runs: seq<Run>, paging: Value, from: nat)
    requires FiniteFrom(runs, paging, from)
    decreases |runs| - from
    ensures forall j :: from <= j < StopIndex(runs, paging, from) ==> !Stops(paging, runs[j])
  {
    if !Stops(paging, runs[from]) {
      StopIndexIsFirst(runs, paging, from + 1);
    }
  }

  /** The loop ends after request `k` exactly when no request from `from`
      up to `k` ends it and request `k` does. */
  lemma {:induction false} StopIndexAt(runs: seq<Run>, paging: Value, from: nat, k: nat)
    requires from <= k < |runs|
    requires forall j :: from <= j < k ==> !Stops(paging, runs[j])
    requires Stops(paging, runs[k])
    decreases k - from
    ensures FiniteFrom(runs, paging, from)
    ensures StopIndex(runs, paging, from) == k
  {
    if from < k {
      StopIndexAt(runs, paging, from + 1, k);
    }
  }

  /** The trips of the pages of `runs`, page after page, duplicates kept. */
  function Collected(runs: seq<Run>): seq<Trip>
    decreases |runs|
  {
    if runs == [] then []
    else Collected(runs[..|runs| - 1]) + TripsOf(runs[|runs| - 1].record.payload)
  }

  /** One more page adds its trips at the end. */
  lemma CollectedStep(runs: seq<Run>, i: nat)
    requires i < |runs|
    ensures Collected(runs[..i + 1]) == Collected(runs[..i]) + TripsOf(runs[i].record.payload)
  {
    assert runs[..i + 1][..i] == runs[..i];
  }

  /** The link page `i` points to (it has one whenever the loop went on). */
  function LinkAfter(runs: seq<Run>, i: nat): string
    requires i < |runs|
  {
    NextLink(runs[i].record.payload).GetOr("")
  }

  /** The requests the loop sends for the first `count` pages: the first
      to `first` with the parameters, each later one to the previous page's
      next link without parameters. */
  function Requests(first: string, params: Params, headers: Headers, runs: seq<Run>, count: nat): (rs: seq<HttpRequest>)
    requires count <= |runs| + 1
    ensures |rs| == count
    ensures count > 0 ==> rs[0] == HttpRequest(first, Some(params), headers)
  {
    if count == 0 then []
    else Requests(first, params, headers, runs, count - 1) + [RequestTo(first, params, headers, runs, count - 1)]
  }

  /** Every request after the first goes to the previous page's next link,
      without parameters. */
  lemma {:induction false} RequestsAt(first: string, params: Params, headers: Headers, runs: seq<Run>, count: nat)
    requires count <= |runs| + 1
    ensures forall i :: 1 <= i < count ==>
              Requests(first, params, headers, runs, count)[i] == HttpRequest(LinkAfter(runs, i - 1), None, headers)
  {
    if count > 0 {
      RequestsAt(first, params, headers, runs, count - 1);
    }
  }

  /** Request `i` of the loop. */
  function RequestTo(first: string, params: Params, headers: Headers, runs: seq<Run>, i: nat): HttpRequest
    requires i <= |runs|
  {
    if i == 0 then HttpRequest(first, Some(params), headers)
    else HttpRequest(LinkAfter(runs, i - 1), None, headers)
  }

  lemma RequestsStep(first: string, params: Params, headers: Headers, runs: seq<Run>, i: nat)
    requires i < |runs|
    ensures Requests(first, params, headers, runs, i + 1)
            == Requests(first, params, headers, runs, i) + [RequestTo(first, params, headers, runs, i)]
  {
  }

  /** What `get_trips` returns or raises when the loop ends after request
      `k`, sent to `endpoint`: the trips of pages `0..k` in order and the
      version page `k` reports, or the exhausted-retries error. */
  function Outcome(runs: seq<Run>, maxAttempts: int, fallback: string, k: nat, endpoint: string): Result<Envelope>
    requires k < |runs|
  {
    if runs[k].succeeded then Ok(Envelope(ResponseVersion(runs[k].record.payload, fallback), Collected(runs[..k + 1])))
    else Err(MaxAttemptsReached(maxAttempts, endpoint))
  }

  /** Step 1 of the loop: one `_request` call for the page, with a delay
      `time.sleep` accepts; only its outcome matters to the loop. */
  method FetchPage(script: Script, maxAttempts: int, delay: Value, endpoint: string)
    returns (data: Result<Record>)
    requires SleepAccepts(delay)
    ensures data.Ok? <==> RetryRun(script, maxAttempts).succeeded
    ensures data.Ok? ==> data.value == RetryRun(script, maxAttempts).record
    ensures data.Err? ==> data.error == MaxAttemptsReached(maxAttempts, endpoint)
  {
    var attempts, sleeps;
    data, attempts, sleeps := Request(script, maxAttempts, delay, endpoint);
  }

  /** The loop's state before request `i`: the flag says whether a next
      link was followed, `endpoint` is where request `i` goes, the trips of
      the pages before it are collected, and the requests before it are sent. */
  predicate Visited(first: string, params: Params, headers: Headers, runs: seq<Run>, i: nat,
                    endpoint: string, hasNextLink: bool, accumulator: seq<Trip>, sent: seq<HttpRequest>)
  {
    && i <= |runs|
    && (hasNextLink <==> i > 0)
    && (i == 0 ==> endpoint == first)
    && (i > 0 ==> endpoint == LinkAfter(runs, i - 1))
    && accumulator == Collected(runs[..i])
    && sent == Requests(first, params, headers, runs, i)
  }

  /** Steps 1 to 3 of one pass of the loop for request `i`: fetch the page,
      add its trips, and decide whether to go on; when the loop ends, `done`
      is what `get_trips` returns or raises, else `next` is the link to follow. */
  method Step(script: Script, ghost runs: seq<Run>, paging: Value, maxAttempts: int, delay: Value,
              fallback: string, i: nat, endpoint: string, accumulator: seq<Trip>)
    returns (stop: bool, done: Result<Envelope>, next: string, collected: seq<Trip>)
    requires SleepAccepts(delay)
    requires i < |runs| && runs[i] == RetryRun(script, maxAttempts)
    requires accumulator == Collected(runs[..i])
    ensures stop <==> Stops(paging, runs[i])
    ensures stop ==> done == Outcome(runs, maxAttempts, fallback, i, endpoint)
    ensures !stop ==> next == LinkAfter(runs, i) && collected == Collected(runs[..i + 1])
  {
    next, collected := "", accumulator;
    var data := FetchPage(script, maxAttempts, delay, endpoint);
    if data.Err? {
      stop, done := true, Err(data.error);
      return;
    }
    var payload := data.value.payload;
    assert runs[i].succeeded && runs[i].record.payload == payload;
    CollectedStep(runs, i);
    if HasTrips(payload) {
      collected := accumulator + TripsOf(payload);
    }
    assert collected == Collected(runs[..i + 1]);
    done := Ok(Envelope(ResponseVersion(payload, fallback), collected));
    var link := NextLink(payload);
    stop := paging == Bool(false) || link.None? || link.value == "";
    if !stop {
      next := link.value;
    }
  }

  /** The loop's invariant before request `i`: the loop is still to end at
      the stop index, and the state is the one `Visited` describes. */
  predicate Before(first: string, params: Params, headers: Headers, paging: Value, runs: seq<Run>, i: nat,
                   endpoint: string, hasNextLink: bool, accumulator: seq<Trip>, sent: seq<HttpRequest>)
  {
    && FiniteFrom(runs, paging, 0)
    && FiniteFrom(runs, paging, i)
    && StopIndex(runs, paging, i) == StopIndex(runs, paging, 0)
    && Visited(first, params, headers, runs, i, endpoint, hasNextLink, accumulator, sent)
  }

  /** One pass of the loop for request `i`: send it, then run `Step`. When
      the loop ends the requests sent and the result are the loop's final
      ones; otherwise the invariant holds before request `i + 1`. */
  method Pass(script: Script, ghost runs: seq<Run>, first: string, params: Params, headers: Headers,
              paging: Value, maxAttempts: int, delay: Value, fallback: string, i: nat,
              endpoint: string, hasNextLink: bool, accumulator: seq<Trip>, sent: seq<HttpRequest>)
    returns (stop: bool, done: Result<Envelope>, next: string, collected: seq<Trip>, sent': seq<HttpRequest>)
    requires SleepAccepts(delay)
    requires Before(first, params, headers, paging, runs, i, endpoint, hasNextLink, accumulator, sent)
    requires i < |runs| && runs[i] == RetryRun(script, maxAttempts)
    ensures stop ==> && |sent'| == StopIndex(runs, paging, 0) + 1
                     && sent' == Requests(first, params, headers, runs, |sent'|)
                     && done == Outcome(runs, maxAttempts, fallback, |sent'| - 1, sent'[|sent'| - 1].endpoint)
    ensures !stop ==> && i + 1 < |runs|
                      && Before(first, params, headers, paging, runs, i + 1, next, true, collected, sent')
  {
    RequestsStep(first, params, headers, runs, i);
    sent' := sent + [HttpRequest(endpoint, if hasNextLink then None else Some(params), headers)];
    stop, done, next, collected := Step(script, runs, paging, maxAttempts, delay, fallback, i, endpoint, accumulator);
    if stop {
      StopsHere(runs, paging, i);
    } else {
      StopsLater(runs, paging, i);
    }
  }

  /** What the `while True` loop of `get_trips` does, from the first
      request on. With a delay `time.sleep` refuses, the first request
      raises before anything is sent. Otherwise one request goes out per
      page up to the first that ends the loop, the parameters only on the
      first, and the result is that page's outcome. */
  predicate LoopResult(first: string, params: Params, headers: Headers, paging: Value, maxAttempts: int,
                       delay: Value, fallback: string, server: seq<Script>,
                       r: Result<Envelope>, sent: seq<HttpRequest>)
    requires SleepAccepts(delay) ==> FiniteFrom(Runs(server, maxAttempts), paging, 0)
  {
    if !SleepAccepts(delay) then sent == [] && r == Err(SleepError(delay))
    else
      var runs := Runs(server, maxAttempts);
      && |sent| == StopIndex(runs, paging, 0) + 1
      && sent == Requests(first, params, headers, runs, |sent|)
      && r == Outcome(runs, maxAttempts, fallback, |sent| - 1, sent[|sent| - 1].endpoint)
  }

  /** The `while True` loop of `get_trips`. A delay `time.sleep` refuses
      raises before the first request is sent. */
  method Paginate(first: string, params: Params, headers: Headers, paging: Value, maxAttempts: int,
                  delay: Value, fallback: string, server: seq<Script>)
    returns (r: Result<Envelope>, sent: seq<HttpRequest>)
    requires SleepAccepts(delay) ==> FiniteFrom(Runs(server, maxAttempts), paging, 0)
    ensures LoopResult(first, params, headers, paging, maxAttempts, delay, fallback, server, r, sent)
  {
    if !SleepAccepts(delay) {
      r, sent := Err(SleepError(delay)), [];
    } else {
      r, sent := Loop(first, params, headers, paging, maxAttempts, delay, fallback, server);
    }
  }

  /** The loop with a delay `time.sleep` accepts: it stops at the first
      stopping request, having sent exactly the requests up to it. */
  method Loop(first: string, params: Params, headers: Headers, paging: Value, maxAttempts: int,
              delay: Value, fallback: string, server: seq<Script>)
    returns (r: Result<Envelope>, sent: seq<HttpRequest>)
    requires SleepAccepts(delay)
    requires FiniteFrom(Runs(server, maxAttempts), paging, 0)
    ensures |sent| == StopIndex(Runs(server, maxAttempts), paging, 0) + 1
    ensures sent == Requests(first, params, headers, Runs(server, maxAttempts), |sent|)
    ensures r == Outcome(Runs(server, maxAttempts), maxAttempts, fallback, |sent| - 1, sent[|sent| - 1].endpoint)
  {
    ghost var runs := Runs(server, maxAttempts);
    var accumulator: seq<Trip> := [];
    var endpoint := first;
    var hasNextLink := false;
    sent := [];
    var i := 0;
    while true
      invariant i < |runs|
      invariant Before(first, params, headers, paging, runs, i, endpoint, hasNextLink, accumulator, sent)
      decreases |runs| - i
    {
      var stop, done, next, collected;
      stop, done, next, collected, sent :=
        Pass(server[i], runs, first, params, headers, paging, maxAttempts, delay, fallback, i,
             endpoint, hasNextLink, accumulator, sent);
      if stop {
        r := done;
        return;
      }
      endpoint, accumulator, hasNextLink := next, collected, true;
      i := i + 1;
    }
  }

  /** A request that ends the loop is where the search for the stop index ends. */
  lemma StopsHere(runs: seq<Run>, paging: Value, i: nat)
    requires FiniteFrom(runs, paging, i) && Stops(paging, runs[i])
    ensures StopIndex(runs, paging, i) == i
  {
  }

  /** Past a request that does not end the loop, the search goes on from the
      next one and finds the same index. */
  lemma StopsLater(runs: seq<Run>, paging: Value, i: nat)
    requires FiniteFrom(runs, paging, i) && !Stops(paging, runs[i])
    ensures FiniteFrom(runs, paging, i + 1)
    ensures StopIndex(runs, paging, i + 1) == StopIndex(runs, paging, i)
  {
    var n :| i <= n < |runs| && Stops(paging, runs[n]);
    assert n != i;
  }

  /** With paging switched off the loop stops after the first request,
      whatever that page says. */
  lemma PagingOffOneRequest(runs: seq<Run>)
    requires |runs| > 0
    ensures FiniteFrom(runs, Bool(false), 0)
    ensures StopIndex(runs, Bool(false), 0) == 0
  {
    assert Stops(Bool(false), runs[0]);
  }

  /** With paging on and a provider whose first `count - 1` pages succeed
      with a next link and whose page `count - 1` succeeds without one, the
      loop makes exactly `count` requests and returns the trips of all of them. */
  lemma PagesUntilLastLink(runs: seq<Run>, paging: Value, count: nat)
    requires paging != Bool(false)
    requires 1 <= count <= |runs|
    requires forall i :: 0 <= i < count ==> runs[i].succeeded
    requires forall i :: 0 <= i < count - 1 ==> HasNextLink(runs[i].record.payload)
    requires !HasNextLink(runs[count - 1].record.payload)
    ensures FiniteFrom(runs, paging, 0)
    ensures StopIndex(runs, paging, 0) == count - 1
  {
    StopIndexAt(runs, paging, 0, count - 1);
  }

  /** The loop is known to end for this client and provider: the delay is
      refused at once, or some request in the list ends the loop. */
  predicate EndsWithin(client: Base, server: seq<Script>) {
    SleepAccepts(client.delay) ==> FiniteFrom(Runs(server, client.maxAttempts), client.paging, 0)
  }

  /** What `get_trips` does once its parameter entries are fixed: the copy
      through `param_schema` first, where an unknown name raises before any
      request and keeps the writes made before it; then the loop, whose first
      request carries the updated parameters. */
  predicate TripsResult(client: Base, entries: seq<Entry>, fallback: string, server: seq<Script>,
                        r: Result<Envelope>, updated: Base, sent: seq<HttpRequest>)
    requires EndsWithin(client, server)
  {
    var shaped := Shape(client.params, client.schema, entries);
    && updated == client.(params := shaped.params)
    && (shaped.failedAt.Some? ==> sent == [] && r == Err(UnknownParam(entries[shaped.failedAt.value].0)))
    && (shaped.failedAt.None? ==>
          LoopResult(client.endpoint + "/trips", shaped.params, client.headers, client.paging,
                     client.maxAttempts, client.delay, fallback, server, r, sent))
  }

  /** Shape the parameters, then run the loop. */
  method GetTripsWith(client: Base, entries: seq<Entry>, fallback: string, server: seq<Script>)
    returns (r: Result<Envelope>, updated: Base, sent: seq<HttpRequest>)
    requires EndsWithin(client, server)
    ensures TripsResult(client, entries, fallback, server, r, updated, sent)
    ensures updated.params == Shape(client.params, client.schema, entries).params
    ensures Shape(client.params, client.schema, entries).failedAt.Some? ==>
              sent == [] && r == Err(UnknownParam(entries[Shape(client.params, client.schema, entries).failedAt.value].0))
  {
    var shaped := Shape(client.params, client.schema, entries);
    updated := client.(params := shaped.params);
    if shaped.failedAt.Some? {
      r := Err(UnknownParam(entries[shaped.failedAt.value].0));
      sent := [];
      return;
    }
    r, sent := Paginate(client.endpoint + "/trips", updated.params, client.headers, client.paging,
                        client.maxAttempts, client.delay, fallback, server);
  }

  /** `MDSClient020.get_trips`: `_load_params` with the window in seconds
      (extra keyword arguments of `get_trips` are not passed on), then the
      loop, falling back to version "0.2.0". */
  method GetTrips020(client: Base, start: int, end: int, server: seq<Script>)
    returns (r: Result<Envelope>, updated: Base, sent: seq<HttpRequest>)
    requires EndsWithin(client, server)
    ensures TripsResult(client, Entries020(start, end, []), Version020, server, r, updated, sent)
    ensures Window020Landed(client.schema, start, end, updated.params)
    ensures "start_time" in client.schema && "end_time" !in client.schema ==>
              && r == Err(UnknownParam("end_time")) && sent == []
              && updated.params == client.params[client.schema["start_time"] := Int(start)]
    ensures "start_time" !in client.schema ==> r == Err(UnknownParam("start_time")) && sent == [] && updated == client
  {
    var entries := Entries020(start, end, []);
    Shape020Facts(client.params, client.schema, start, end);
    r, updated, sent := GetTripsWith(client, entries, Version020, server);
  }

  /** With both window names known, the window lands in seconds under the
      schema's window names. */
  predicate Window020Landed(schema: Schema, start: int, end: int, p: Params) {
    "start_time" in schema && "end_time" in schema ==>
      && schema["end_time"] in p && p[schema["end_time"]] == Int(end)
      && (schema["start_time"] != schema["end_time"] ==>
            schema["start_time"] in p && p[schema["start_time"]] == Int(start))
  }

  /** The 0.2.0 copy: the window lands when both names are known, and a
      missing name stops it at its own entry. */
  lemma Shape020Facts(params: Params, schema: Schema, start: int, end: int)
    ensures Window020Landed(schema, start, end, Shape(params, schema, Entries020(start, end, [])).params)
    ensures var sh := Shape(params, schema, Entries020(start, end, []));
            "start_time" in schema && "end_time" !in schema ==>
              sh.failedAt == Some(1) && sh.params == params[schema["start_time"] := Int(start)]
    ensures var sh := Shape(params, schema, Entries020(start, end, []));
            "start_time" !in schema ==> sh.failedAt == Some(0) && sh.params == params
    ensures Entries020(start, end, [])[0].0 == "start_time" && Entries020(start, end, [])[1].0 == "end_time"
  {
    var entries := Entries020(start, end, []);
    assert entries[0].0 == "start_time" && entries[1].0 == "end_time";
    if "start_time" in schema && "end_time" in schema {
      ShapeWrites(params, schema, entries);
      assert LastWriter(schema, entries, 1);
      if schema["start_time"] != schema["end_time"] {
        assert LastWriter(schema, entries, 0);
      }
    }
  }

  /** `MDSClient040.get_trips`: the window in milliseconds followed by the
      extra keyword arguments, all through `param_schema`, then the loop,
      falling back to version "0.4.0". */
  method GetTrips040(client: Base, start: int, end: int, extras: seq<Entry>, server: seq<Script>)
    returns (r: Result<Envelope>, updated: Base, sent: seq<HttpRequest>)
    requires ValidExtras(extras)
    requires EndsWithin(client, server)
    ensures TripsResult(client, Entries040(start, end, extras), Version040, server, r, updated, sent)
    ensures WindowLanded(client.schema, extras, start, end, updated.params)
    ensures DefaultsLanded(client.schema, extras, start, end, updated.params)
    ensures forall k :: && 0 <= k < |extras|
                        && "start_time" in client.schema && "end_time" in client.schema
                        && extras[k].0 !in client.schema
                        && (forall j :: 0 <= j < k ==> extras[j].0 in client.schema)
                        ==> r == Err(UnknownParam(extras[k].0)) && sent == []
  {
    var entries := Entries040(start, end, extras);
    Shape040Facts(client.params, client.schema, start, end, extras);
    UnknownExtraFails(client.params, client.schema, start, end, extras);
    r, updated, sent := GetTripsWith(client, entries, Version040, server);
  }

  /** When no extra argument overwrites a window name, the window lands in
      milliseconds under the schema's window names. */
  predicate WindowLanded(schema: Schema, extras: seq<Entry>, start: int, end: int, p: Params) {
    WindowClear(schema, extras) ==>
      && schema["end_time"] in p && p[schema["end_time"]] == Int(end * 1000)
      && (schema["start_time"] != schema["end_time"] ==>
            schema["start_time"] in p && p[schema["start_time"]] == Int(start * 1000))
  }

  /** With the built-in 0.4.0 schema and only its extra names, the window
      lands on `min_end_time`/`max_end_time` and every extra under its own name. */
  predicate DefaultsLanded(schema: Schema, extras: seq<Entry>, start: int, end: int, p: Params) {
    schema == Schema040 && (forall i :: 0 <= i < |extras| ==> extras[i].0 in {"bbox", "device_id", "vehicle_id"}) ==>
      && "min_end_time" in p && "max_end_time" in p
      && p["min_end_time"] == Int(start * 1000)
      && p["max_end_time"] == Int(end * 1000)
      && (forall i :: 0 <= i < |extras| ==> extras[i].0 in p && p[extras[i].0] == extras[i].1)
  }

  /** The window facts of the 0.4.0 copy. */
  lemma Shape040Facts(params: Params, schema: Schema, start: int, end: int, extras: seq<Entry>)
    requires ValidExtras(extras)
    ensures WindowLanded(schema, extras, start, end, Shape(params, schema, Entries040(start, end, extras)).params)
    ensures DefaultsLanded(schema, extras, start, end, Shape(params, schema, Entries040(start, end, extras)).params)
  {
    if WindowClear(schema, extras) {
      WindowSurvives(params, schema, start, end, extras);
    }
    if schema == Schema040 && (forall i :: 0 <= i < |extras| ==> extras[i].0 in {"bbox", "device_id", "vehicle_id"}) {
      Shape040Default(params, start, end, extras);
    }
  }

  /** Both window names are known, and every extra argument is known and
      written under neither window name. */
  predicate WindowClear(schema: Schema, extras: seq<Entry>) {
    && "start_time" in schema && "end_time" in schema
    && forall i :: 0 <= i < |extras| ==>
         && extras[i].0 in schema
         && schema[extras[i].0] != schema["start_time"]
         && schema[extras[i].0] != schema["end_time"]
  }

  /** With both window names known, the first unknown extra argument stops
      the copy at its own entry. */
  lemma UnknownExtraFails(params: Params, schema: Schema, start: int, end: int, extras: seq<Entry>)
    ensures forall k :: && 0 <= k < |extras|
                        && "start_time" in schema && "end_time" in schema
                        && extras[k].0 !in schema
                        && (forall j :: 0 <= j < k ==> extras[j].0 in schema)
                        ==> && Shape(params, schema, Entries040(start, end, extras)).failedAt == Some(k + 2)
                            && Entries040(start, end, extras)[k + 2].0 == extras[k].0
  {
    var entries := Entries040(start, end, extras);
    assert entries[0].0 == "start_time" && entries[1].0 == "end_time";
    assert forall i :: 2 <= i < |entries| ==> entries[i] == extras[i - 2];
    forall k | && 0 <= k < |extras|
               && "start_time" in schema && "end_time" in schema
               && extras[k].0 !in schema
               && (forall j :: 0 <= j < k ==> extras[j].0 in schema)
      ensures Shape(params, schema, entries).failedAt == Some(k + 2)
    {
      UnknownNameFails(params, schema, entries, k + 2);
    }
  }

  /** When no extra argument is written under a window name, the window
      survives the copy in milliseconds. */
  lemma WindowSurvives(params: Params, schema: Schema, start: int, end: int, extras: seq<Entry>)
    requires WindowClear(schema, extras)
    ensures var r := Shape(params, schema, Entries040(start, end, extras));
            && r.failedAt.None?
            && schema["end_time"] in r.params && r.params[schema["end_time"]] == Int(end * 1000)
            && (schema["start_time"] != schema["end_time"] ==>
                  schema["start_time"] in r.params && r.params[schema["start_time"]] == Int(start * 1000))
  {
    var entries := Entries040(start, end, extras);
    assert entries[0].0 == "start_time" && entries[1].0 == "end_time";
    forall i | 2 <= i < |entries|
      ensures entries[i] == extras[i - 2]
    {
    }
    ShapeWrites(params, schema, entries);
    assert LastWriter(schema, entries, 1);
    if schema["start_time"] != schema["end_time"] {
      assert LastWriter(schema, entries, 0);
    }
  }
}
