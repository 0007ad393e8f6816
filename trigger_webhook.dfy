/** The edge function of supabase/functions/trigger-webhook/index.ts: it
    checks the request, looks the service up and calls the webhook with up
    to three attempts, backing off between them, and writes a log record
    for every step. The database lookup and every webhook answer are
    inputs; a log record is kept without its id and timestamp, and a
    back-off is kept as its length in milliseconds. */
module TriggerWebhook {
  import opened Basics
  import opened Types

  const MaxRetries := 3

  /** A JSON value as `req.json()` yields it. A number keeps its value and
      the text JavaScript renders it as; an array keeps its rendering. */
  datatype JsonValue =
    | JNull
    | JBool(b: bool)
    | JNumber(n: real, text: string)
    | JString(s: string)
    | JArray(text: string)
    | JObject

  /** The two fields destructured from the parsed body, None when absent.
      A body that parses to a number, string, boolean or array has neither
      field. `Unparsable` is a body whose reading throws: `req.json()`
      rejects it, or it parses to `null` and destructuring throws; it
      carries the error's message if it is an `Error`. */
  datatype Body = Fields(serviceId: Option<JsonValue>, webhookUrl: Option<JsonValue>) | Unparsable(error: Option<string>)

  datatype Request = Request(verb: string, body: Body)

  /** One attempt as the webhook answered it: a response with its status
      and text, or a thrown value (an abort, a network error, a URL `fetch`
      cannot parse), with its message if it is an `Error`. */
  datatype Attempt = Responded(status: int, text: string) | Threw(message: Option<string>)

  datatype ResponseBody =
    | NoBody
    | ErrorBody(error: string)
    | Executed(attempt: nat, webhookStatus: int, response: string)
    | Exhausted(details: string)

  datatype Response = Response(status: int, body: ResponseBody)

  datatype Outcome = Outcome(response: Response, logs: seq<LogRecord>, delays: seq<int>)

  /** JavaScript truthiness of a field; an absent field is `undefined`. */
  predicate Truthy(o: Option<JsonValue>)
  {
    o.Some? &&
    match o.value
    case JNull => false
    case JBool(b) => b
    case JNumber(n, _) => n != 0.0
    case JString(s) => s != ""
    case JArray(_) => true
    case JObject => true
  }

  /** What a template literal makes of a value: `${webhookUrl}`. */
  function Text(v: JsonValue): (t: string)
    ensures v.JString? ==> t == v.s
  {
    match v
    case JNull => "null"
    case JBool(b) => if b then "true" else "false"
    case JNumber(_, text) => text
    case JString(s) => s
    case JArray(text) => text
    case JObject => "[object Object]"
  }

  /** `webhookResponse.ok` */
  predicate Ok(a: Attempt)
  {
    a.Responded? && 200 <= a.status <= 299
  }

  /** The message the catch block reads off a failed attempt. */
  function ErrorMessage(a: Attempt): string
  {
    match a
    case Responded(status, text) => "HTTP " + IntToString(status) + ": " + text
    case Threw(message) => if message.Some? then message.value else "Unknown error"
  }

  /** The records written to `service_logs`, by kind; `LevelOf` and
      `MessageOf` give the level and text each is written with. */
  datatype LogRecord =
    | TriggerStarted(displayName: string, url: string)
    | AttemptRequested(attempt: nat, url: string)
    | AttemptAnswered(attempt: nat, status: int, text: string)
    | AttemptSucceeded(attempt: nat)
    | AttemptFailed(attempt: nat, error: string)
    | RetriesExhausted(finalError: string)

  function LevelOf(r: LogRecord): (l: Level)
    ensures l == Warning <==> IsWarning(r)
    ensures l == Error <==> r.RetriesExhausted?
  {
    match r
    case AttemptFailed(_, _) => Warning
    case RetriesExhausted(_) => Error
    case _ => Info
  }

  /** The message of each log record; a response's text is cut to its first
      200 characters. */
  function MessageOf(r: LogRecord): (m: string)
    ensures r.AttemptAnswered? ==>
      var cut := MinI(|r.text|, 200);
      |m| >= cut && m[|m| - cut..] == r.text[..cut]
  {
    var tries := (n: nat) => NatToString(n) + "/" + NatToString(MaxRetries);
    match r
    case TriggerStarted(displayName, url) => "Server-side webhook trigger started for " + displayName + " to " + url
    case AttemptRequested(n, url) => "Webhook GET request attempt " + tries(n) + " to " + url
    case AttemptAnswered(n, status, text) =>
      "Webhook response (attempt " + NatToString(n) + "): Status " + IntToString(status) + " - " + Take(text, 200)
    case AttemptSucceeded(n) => "Webhook successfully executed on attempt " + NatToString(n) + " - Print Spooler stop command sent"
    case AttemptFailed(n, error) => "Webhook attempt " + tries(n) + " failed: " + error
    case RetriesExhausted(finalError) => "Webhook failed after " + NatToString(MaxRetries) + " attempts: " + finalError
  }

  /** The records written at level WARNING. */
  predicate IsWarning(r: LogRecord)
  {
    r.AttemptFailed?
  }

  /** The records attempt `n` writes: the request, the response if there
      was one, then the success record or the WARNING of the catch block. */
  function AttemptLogs(n: nat, a: Attempt, url: string): (r: seq<LogRecord>)
    ensures |r| >= 2 && r[0] == AttemptRequested(n, url)
    ensures Ok(a) ==> r[|r| - 1] == AttemptSucceeded(n)
    ensures !Ok(a) ==> r[|r| - 1] == AttemptFailed(n, ErrorMessage(a))
    ensures a.Responded? ==> |r| == 3 && r[1] == AttemptAnswered(n, a.status, a.text)
    ensures a.Threw? ==> |r| == 2
    ensures |Filter(r, IsWarning)| == (if Ok(a) then 0 else 1)
  {
    var response := if a.Responded? then [AttemptAnswered(n, a.status, a.text)] else [];
    var last := if Ok(a) then AttemptSucceeded(n) else AttemptFailed(n, ErrorMessage(a));
    FilterConcat([AttemptRequested(n, url)], response + [last], IsWarning);
    FilterConcat(response, [last], IsWarning);
    [AttemptRequested(n, url)] + response + [last]
  }

  /** The records of the first `n` attempts, in order. */
  function LogsUpTo(attempts: seq<Attempt>, url: string, n: nat): seq<LogRecord>
    requires n <= |attempts|
  {
    if n == 0 then [] else LogsUpTo(attempts, url, n - 1) + AttemptLogs(n, attempts[n - 1], url)
  }

  /** The index of the first answer that is OK among the first `n`. */
  function FirstOk(attempts: seq<Attempt>, n: nat): (r: Option<nat>)
    requires n <= |attempts|
    ensures r.Some? ==> r.value < n && Ok(attempts[r.value]) && forall j :: 0 <= j < r.value ==> !Ok(attempts[j])
    ensures r.None? ==> forall j :: 0 <= j < n ==> !Ok(attempts[j])
  {
    if n == 0 then None
    else
      var earlier := FirstOk(attempts, n - 1);
      if earlier.Some? then earlier
      else if Ok(attempts[n - 1]) then Some(n - 1) else None
  }

  /** The waits after `failed` failed attempts: 2000 ms times the attempt
      number, after every failed attempt but the last. */
  function Backoff(failed: nat): (r: seq<int>)
    ensures |r| == MinI(failed, MaxRetries - 1)
    ensures forall j :: 0 <= j < |r| ==> r[j] == 2000 * (j + 1)
  {
    seq(MinI(failed, MaxRetries - 1), j => 2000 * (j + 1))
  }

  /** What the function does with a request, given the display name of the
      service the lookup found (None when it found nothing) and the answers
      to the attempts. */
  function Handle(req: Request, found: Option<string>, attempts: seq<Attempt>): Outcome
    requires |attempts| >= MaxRetries
  {
    if req.verb == "OPTIONS" then Outcome(Response(200, NoBody), [], [])
    else match req.body
      case Unparsable(error) =>
        Outcome(Response(500, ErrorBody(if error.Some? then error.value else "Internal server error")), [], [])
      case Fields(serviceId, webhookUrl) =>
        if !Truthy(serviceId) || !Truthy(webhookUrl) then
          Outcome(Response(400, ErrorBody("serviceId and webhookUrl are required")), [], [])
        else if found.None? then
          Outcome(Response(404, ErrorBody("Service not found")), [], [])
        else Forward(found.value, Text(webhookUrl.value), attempts)
  }

  /** A request that passed the checks: the start record, then the
      attempts until the first OK answer, or the failure after three. */
  function Forward(displayName: string, url: string, attempts: seq<Attempt>): Outcome
    requires |attempts| >= MaxRetries
  {
    var start := [TriggerStarted(displayName, url)];
    var first := FirstOk(attempts, MaxRetries);
    if first.Some? then
      var i := first.value;
      Outcome(Response(200, Executed(i + 1, attempts[i].status, attempts[i].text)),
              start + LogsUpTo(attempts, url, i + 1), Backoff(i))
    else
      var finalError := ErrorMessage(attempts[MaxRetries - 1]);
      Outcome(Response(500, Exhausted(finalError)),
              start + LogsUpTo(attempts, url, MaxRetries) + [RetriesExhausted(finalError)], Backoff(MaxRetries))
  }

  /** The handler passed to `Deno.serve`, with its attempt loop. */
  method HandleRequest(req: Request, found: Option<string>, attempts: seq<Attempt>)
    returns (response: Response, logs: seq<LogRecord>, delays: seq<int>)
    requires |attempts| >= MaxRetries
    ensures Outcome(response, logs, delays) == Handle(req, found, attempts)
  {
    logs, delays := [], [];
    if req.verb == "OPTIONS" {
      return Response(200, NoBody), logs, delays;
    }
    if req.body.Unparsable? {
      var error := req.body.error;
      return Response(500, ErrorBody(if error.Some? then error.value else "Internal server error")), logs, delays;
    }
    var serviceId, webhookUrl := req.body.serviceId, req.body.webhookUrl;
    if !Truthy(serviceId) || !Truthy(webhookUrl) {
      return Response(400, ErrorBody("serviceId and webhookUrl are required")), logs, delays;
    }
    if found.None? {
      return Response(404, ErrorBody("Service not found")), logs, delays;
    }
    response, logs, delays := Attempts(found.value, Text(webhookUrl.value), attempts);
  }

  /** The `for` loop over the attempts, after the start record. */
  method Attempts(displayName: string, url: string, attempts: seq<Attempt>)
    returns (response: Response, logs: seq<LogRecord>, delays: seq<int>)
    requires |attempts| >= MaxRetries
    ensures Outcome(response, logs, delays) == Forward(displayName, url, attempts)
  {
    logs, delays := [TriggerStarted(displayName, url)], [];
    var lastError: Option<string> := None;
    var attempt := 1;
    while attempt <= MaxRetries
      invariant 1 <= attempt <= MaxRetries + 1
      invariant FirstOk(attempts, attempt - 1) == None
      invariant logs == [TriggerStarted(displayName, url)] + LogsUpTo(attempts, url, attempt - 1)
      invariant delays == Backoff(attempt - 1)
      invariant attempt > 1 ==> lastError == Some(ErrorMessage(attempts[attempt - 2]))
    {
      var a := attempts[attempt - 1];
      logs := LogAttempt(displayName, url, attempts, attempt, logs);
      if Ok(a) {
        FirstOkStops(attempts, attempt - 1, MaxRetries);
        return Response(200, Executed(attempt, a.status, a.text)), logs, delays;
      }
      lastError := Some(ErrorMessage(a));
      BackoffStep(attempt - 1);
      if attempt < MaxRetries {
        delays := delays + [2000 * attempt];
      }
      attempt := attempt + 1;
    }
    var finalError := if lastError.Some? then lastError.value else "Unknown error";
    logs := logs + [RetriesExhausted(finalError)];
    response := Response(500, Exhausted(finalError));
  }

  /** One more failed attempt adds its wait, except after the last one. */
  lemma BackoffStep(failed: nat)
    requires failed < MaxRetries
    ensures Backoff(failed + 1) == if failed + 1 < MaxRetries then Backoff(failed) + [2000 * (failed + 1)] else Backoff(failed)
  {
    var next := Backoff(failed + 1);
    if failed + 1 < MaxRetries {
      assert |next| == failed + 1;
      assert next[..failed] == Backoff(failed);
    }
  }

  /** The records of attempt `n` appended to those of the attempts before it. */
  method LogAttempt(displayName: string, url: string, attempts: seq<Attempt>, n: nat, logs: seq<LogRecord>)
    returns (next: seq<LogRecord>)
    requires 1 <= n <= |attempts|
    requires logs == [TriggerStarted(displayName, url)] + LogsUpTo(attempts, url, n - 1)
    ensures next == [TriggerStarted(displayName, url)] + LogsUpTo(attempts, url, n)
  {
    next := logs + AttemptLogs(n, attempts[n - 1], url);
  }

  /** Once attempt `i` is the first OK one, it stays the first. */
  lemma {:induction false} FirstOkStops(attempts: seq<Attempt>, i: nat, n: nat)
    requires i < n <= |attempts|
    requires FirstOk(attempts, i) == None && Ok(attempts[i])
    ensures FirstOk(attempts, n) == Some(i)
  {
    if n > i + 1 {
      FirstOkStops(attempts, i, n - 1);
    }
  }

  /** The first `n` attempts write one WARNING per failed attempt. */
  lemma {:induction false} WarningsUpTo(attempts: seq<Attempt>, url: string, n: nat)
    requires n <= |attempts|
    requires FirstOk(attempts, n) == None
    ensures |Filter(LogsUpTo(attempts, url, n), IsWarning)| == n
  {
    if n > 0 {
      assert FirstOk(attempts, n - 1) == None && !Ok(attempts[n - 1]);
      WarningsUpTo(attempts, url, n - 1);
      var before, current := LogsUpTo(attempts, url, n - 1), AttemptLogs(n, attempts[n - 1], url);
      assert LogsUpTo(attempts, url, n) == before + current;
      FilterConcat(before, current, IsWarning);
    }
  }

  /** The response codes: OPTIONS is always answered 200; a request the
      function forwards is answered 200 exactly when one of the three
      attempts got an OK answer, reporting the first such attempt, and
      500 otherwise; the lookup decides 404 and the body decides 400. */
  lemma StatusCodes(req: Request, found: Option<string>, attempts: seq<Attempt>)
    requires |attempts| >= MaxRetries
    ensures var o := Handle(req, found, attempts);
      && o.response.status in {200, 400, 404, 500}
      && (req.verb == "OPTIONS" ==> o.response == Response(200, NoBody))
      && (req.verb != "OPTIONS" && req.body.Fields? && !(Truthy(req.body.serviceId) && Truthy(req.body.webhookUrl)) ==>
            o.response.status == 400)
      && (req.verb != "OPTIONS" && req.body.Fields? && Truthy(req.body.serviceId) && Truthy(req.body.webhookUrl) ==>
            (o.response.status == 404 <==> found.None?))
  {
  }

  /** The field check is JavaScript's: a non-string value passes it when it
      is truthy (the number 42 goes on to the lookup, the number 7 as a URL
      is forwarded as "7"), and fails it when it is falsy (0, false, null). */
  lemma FieldCheckExamples(name: string, attempts: seq<Attempt>)
    requires |attempts| >= MaxRetries
    ensures Handle(Request("POST", Fields(Some(JNumber(42.0, "42")), Some(JString("https://h")))), None, attempts).response
            == Response(404, ErrorBody("Service not found"))
    ensures Handle(Request("POST", Fields(Some(JString("s")), Some(JNumber(7.0, "7")))), Some(name), attempts)
            == Forward(name, "7", attempts)
    ensures Handle(Request("POST", Fields(Some(JBool(false)), Some(JString("https://h")))), Some(name), attempts).response.status == 400
    ensures Handle(Request("POST", Fields(Some(JString("s")), Some(JNull))), Some(name), attempts).response.status == 400
  {
  }

  /** A forwarded request: success exactly when one of the three attempts
      answered OK, reporting the first such attempt and waiting only after
      the failed ones before it; otherwise 500 with the last attempt's
      error, both waits taken, and an ERROR record last. */
  lemma RetryPolicy(req: Request, found: Option<string>, attempts: seq<Attempt>)
    requires |attempts| >= MaxRetries
    requires req.verb != "OPTIONS" && req.body.Fields?
    requires Truthy(req.body.serviceId) && Truthy(req.body.webhookUrl) && found.Some?
    ensures var o := Handle(req, found, attempts);
      && (o.response.status == 200 <==> exists j :: 0 <= j < MaxRetries && Ok(attempts[j]))
      && (o.response.status == 200 ==>
            && o.response.body.Executed?
            && 1 <= o.response.body.attempt <= MaxRetries
            && Ok(attempts[o.response.body.attempt - 1])
            && (forall j :: 0 <= j < o.response.body.attempt - 1 ==> !Ok(attempts[j]))
            && o.delays == Backoff(o.response.body.attempt - 1)
            && |Filter(o.logs, IsWarning)| == o.response.body.attempt - 1)
      && (o.response.status != 200 ==>
            && o.response == Response(500, Exhausted(ErrorMessage(attempts[MaxRetries - 1])))
            && o.delays == [2000, 4000]
            && LevelOf(o.logs[|o.logs| - 1]) == Error
            && |Filter(o.logs, IsWarning)| == MaxRetries)
  {
    var name, url := found.value, Text(req.body.webhookUrl.value);
    assert Handle(req, found, attempts) == Forward(name, url, attempts);
    if FirstOk(attempts, MaxRetries).Some? {
      ForwardSucceeds(name, url, attempts);
    } else {
      ForwardExhausted(name, url, attempts);
    }
  }

  /** With an OK answer among the three: 200 for the first one, one WARNING
      and one wait per failed attempt before it. */
  lemma ForwardSucceeds(name: string, url: string, attempts: seq<Attempt>)
    requires |attempts| >= MaxRetries && FirstOk(attempts, MaxRetries).Some?
    ensures var o, i := Forward(name, url, attempts), FirstOk(attempts, MaxRetries).value;
      && o.response == Response(200, Executed(i + 1, attempts[i].status, attempts[i].text))
      && o.delays == Backoff(i)
      && |Filter(o.logs, IsWarning)| == i
  {
    var i := FirstOk(attempts, MaxRetries).value;
    var start := [TriggerStarted(name, url)];
    assert FirstOk(attempts, i) == None by {
      FirstOkPrefix(attempts, i);
    }
    WarningsUpTo(attempts, url, i);
    assert LogsUpTo(attempts, url, i + 1) == LogsUpTo(attempts, url, i) + AttemptLogs(i + 1, attempts[i], url);
    FilterConcat(LogsUpTo(attempts, url, i), AttemptLogs(i + 1, attempts[i], url), IsWarning);
    FilterConcat(start, LogsUpTo(attempts, url, i + 1), IsWarning);
  }

  /** Without an OK answer: 500 with the last error, both waits, one
      WARNING per attempt and the ERROR record last. */
  lemma ForwardExhausted(name: string, url: string, attempts: seq<Attempt>)
    requires |attempts| >= MaxRetries && FirstOk(attempts, MaxRetries).None?
    ensures var o := Forward(name, url, attempts);
      && o.response == Response(500, Exhausted(ErrorMessage(attempts[MaxRetries - 1])))
      && o.delays == [2000, 4000]
      && |o.logs| > 0 && o.logs[|o.logs| - 1] == RetriesExhausted(ErrorMessage(attempts[MaxRetries - 1]))
      && |Filter(o.logs, IsWarning)| == MaxRetries
  {
    var start := [TriggerStarted(name, url)];
    var finalError := ErrorMessage(attempts[MaxRetries - 1]);
    WarningsUpTo(attempts, url, MaxRetries);
    FilterConcat(start, LogsUpTo(attempts, url, MaxRetries), IsWarning);
    FilterConcat(start + LogsUpTo(attempts, url, MaxRetries), [RetriesExhausted(finalError)], IsWarning);
    assert Backoff(MaxRetries) == [2000, 4000];
  }

  /** No OK answer comes before the first one. */
  lemma {:induction false} FirstOkPrefix(attempts: seq<Attempt>, i: nat)
    requires i < |attempts| && forall j :: 0 <= j < i ==> !Ok(attempts[j])
    ensures FirstOk(attempts, i) == None
  {
    if i > 0 {
      FirstOkPrefix(attempts, i - 1);
    }
  }
}
