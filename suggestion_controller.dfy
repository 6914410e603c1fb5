/**
 * The store endpoint (app/Http/Controllers/SuggestionController.php): ask the
 * service for suggestions for the validated prompt, answer 400 when the result
 * carries an `error`, otherwise add one row to the suggestions table and answer
 * 200; any exception becomes a 500.  The table is an append-only sequence of
 * records held by the controller.
 */
module Controllers {
  import opened Wrappers
  import opened Json
  import opened Services
  import Requests

  /** A row of the suggestions table: the topic and the JSON text of the result. */
  datatype Record = Record(topic: string, suggestions: string)

  /** A JSON response: its HTTP status and its body. */
  datatype Response = Response(status: int, body: Json)

  /** What one call of `store` decides: the response, and the rows it adds. */
  datatype Decision = Decision(response: Response, created: seq<Record>)

  const UnexpectedErrorText: string := "An unexpected error occurred."

  /** The response of the `catch (\Throwable $e)` block. */
  function ServerError(message: string): (r: Response)
    ensures r.status == 500
  {
    Response(500, Object(map["error" := String(UnexpectedErrorText), "message" := String(message)]))
  }

  /**
   * The outcome of `store` for the service's outcome `data`; `insertError` is
   * the message of the exception `Suggestion::create` throws, if it does.
   */
  function Decide(topic: string, data: Outcome, encode: Json -> string, insertError: Option<string>): (d: Decision)
    ensures d.response.status == 200 || d.response.status == 400 || d.response.status == 500
    ensures |d.created| <= 1
    ensures d.created != [] <==> d.response.status == 200
    ensures d.response.status == 400 <==> data.Returned? && Get(data.data, ErrorPath).Some?
    ensures d.response.status == 400 ==>
      d.response.body == Object(map["error" := Get(data.data, ErrorPath).value, "prompt" := String(topic)])
    ensures d.response.status == 200 <==>
      data.Returned? && Get(data.data, ErrorPath).None? && insertError.None?
    ensures d.response.status == 200 ==>
      d.created == [Record(topic, encode(data.data))]
      && d.response.body == Object(map["suggestions" := data.data, "prompt" := String(topic)])
    ensures data.Failed? ==> d.response == ServerError(data.message)
    ensures data.Returned? && d.response.status == 500 ==> d.response == ServerError(insertError.value)
  {
    match data
    case Failed(m) => Decision(ServerError(m), [])
    case Returned(v) =>
      if Get(v, ErrorPath).Some? then
        Decision(Response(400, Object(map["error" := Get(v, ErrorPath).value, "prompt" := String(topic)])), [])
      else if insertError.Some? then
        Decision(ServerError(insertError.value), [])
      else
        Decision(Response(200, Object(map["suggestions" := v, "prompt" := String(topic)])),
                 [Record(topic, encode(v))])
  }

  /** One call of `store` as the log keeps it: the topic and the response. */
  datatype Exchange = Exchange(topic: string, response: Response)

  /** Every 200 response in the log carries its suggestions. */
  predicate WellFormed(log: seq<Exchange>) {
    forall i :: 0 <= i < |log| ==> log[i].response.status == 200 ==>
      log[i].response.body.Object? && "suggestions" in log[i].response.body.fields
  }

  /** The row a logged call left in the table: one for a 200, none otherwise. */
  function RecordOf(e: Exchange, encode: Json -> string): seq<Record> {
    if e.response.status == 200 && e.response.body.Object? && "suggestions" in e.response.body.fields
    then [Record(e.topic, encode(e.response.body.fields["suggestions"]))]
    else []
  }

  /** The rows a sequence of calls left in the table, in order. */
  function Persisted(log: seq<Exchange>, encode: Json -> string): seq<Record> {
    if log == [] then [] else Persisted(log[..|log| - 1], encode) + RecordOf(log[|log| - 1], encode)
  }

  /** The topics of the calls answered 200, in order. */
  function OkTopics(log: seq<Exchange>): seq<string> {
    if log == [] then []
    else OkTopics(log[..|log| - 1]) + (if log[|log| - 1].response.status == 200 then [log[|log| - 1].topic] else [])
  }

  function Topics(records: seq<Record>): (topics: seq<string>)
    ensures |topics| == |records|
    ensures forall i :: 0 <= i < |records| ==> topics[i] == records[i].topic
  {
    seq(|records|, i requires 0 <= i < |records| => records[i].topic)
  }

  /**
   * The table grows by exactly one row per 200 response, in order, each with
   * that call's topic: there is no row without a 200 and no 200 without a row.
   */
  lemma {:induction false} RowsMatchSuccesses(log: seq<Exchange>, encode: Json -> string)
    requires WellFormed(log)
    ensures Topics(Persisted(log, encode)) == OkTopics(log)
  {
    if log != [] {
      var init := log[..|log| - 1];
      assert WellFormed(init) by {
        forall i | 0 <= i < |init|
          ensures init[i].response.status == 200 ==>
            init[i].response.body.Object? && "suggestions" in init[i].response.body.fields
        {
          assert init[i] == log[i];
        }
      }
      RowsMatchSuccesses(init, encode);
      var last := log[|log| - 1];
      assert |RecordOf(last, encode)| == (if last.response.status == 200 then 1 else 0);
      var p := Persisted(init, encode);
      var r := RecordOf(last, encode);
      assert Topics(p + r) == Topics(p) + Topics(r);
    }
  }

  class SuggestionController {
    const service: ContentSuggestionService
    const decode: string -> Decoded
    const encode: Json -> string
    /** The suggestions table. */
    var records: seq<Record>
    /** The table as the controller found it. */
    ghost var baseline: seq<Record>
    /** Every call of `store` so far. */
    ghost var log: seq<Exchange>

    /**
     * The service passed its key check, and the table is what it was plus one
     * row per 200 response in the log.
     */
    ghost predicate Valid()
      reads this
    {
      !IsEmpty(service.geminiApiKey)
      && WellFormed(log) && records == baseline + Persisted(log, encode)
    }

    constructor(service: ContentSuggestionService, decode: string -> Decoded, encode: Json -> string,
                table: seq<Record>)
      requires !IsEmpty(service.geminiApiKey)
      ensures Valid()
      ensures this.service == service && this.decode == decode && this.encode == encode
      ensures records == table && log == []
    {
      this.service := service;
      this.decode := decode;
      this.encode := encode;
      records := table;
      baseline := table;
      log := [];
    }

    /**
     * `store`: `transport` is how the service's request to Gemini ended;
     * `insertError` is the message `Suggestion::create` throws, if it does.
     */
    method Store(request: map<string, Json>, transport: Transport, insertError: Option<string>)
      returns (response: Response)
      requires Valid()
      requires Requests.Valid(request)
      modifies this
      ensures Valid()
      ensures baseline == old(baseline)
      ensures var d := Decide(Requests.Prompt(request), GetSuggestions(transport, decode, encode), encode, insertError);
        response == d.response && records == old(records) + d.created
      ensures log == old(log) + [Exchange(Requests.Prompt(request), response)]
    {
      var topic := Requests.Prompt(request);
      var data := GetSuggestions(transport, decode, encode);
      match data {
        case Failed(m) =>
          response := ServerError(m);
        case Returned(v) =>
          var error := Get(v, ErrorPath);
          if error.Some? {
            response := Response(400, Object(map["error" := error.value, "prompt" := String(topic)]));
          } else if insertError.Some? {
            response := ServerError(insertError.value);
          } else {
            records := records + [Record(topic, encode(v))];
            response := Response(200, Object(map["suggestions" := v, "prompt" := String(topic)]));
          }
      }
      ghost var e := Exchange(topic, response);
      assert RecordOf(e, encode) == Decide(topic, data, encode, insertError).created;
      assert (log + [e])[..|log|] == log;
      log := log + [e];
    }
  }

  /**
   * A vendor error (a top-level `error` and no generated text) that the service
   * passes through ends on the 400 path, with the vendor's `error` in the body
   * and no row.
   */
  lemma VendorErrorIs400(topic: string, body: string, d: Json, decode: string -> Decoded,
                         encode: Json -> string, insertError: Option<string>)
    requires decode(body) == Decoded(d)
    requires Get(d, TextPath).None? && Get(d, ErrorPath).Some?
    ensures var r := Decide(topic, GetSuggestions(Received(body), decode, encode), encode, insertError);
      r.response == Response(400, Object(map["error" := Get(d, ErrorPath).value, "prompt" := String(topic)]))
      && r.created == []
  {
    VendorErrorReturned(d, decode, encode);
  }

  /**
   * `isset` treats a null `error` as absent: a result object whose `error` is
   * null, whatever else it holds, is stored and answered with 200.
   */
  lemma NullErrorIsStored(topic: string, v: Json, encode: Json -> string)
    requires v.Object? && "error" in v.fields && v.fields["error"] == Null
    ensures Decide(topic, Returned(v), encode, None).response.status == 200
    ensures Decide(topic, Returned(v), encode, None).created == [Record(topic, encode(v))]
  {
    assert Walk(v, ErrorPath) == Some(Null);
  }
}
