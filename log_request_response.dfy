/** `KRFLogRequestResponseMiddleware`: outside the swagger pages, captures the
    request text (or a fixed sentinel), puts a memory tee in place of the
    response stream, runs the next stage, copies the tee back to the real
    response stream, and logs one record with the request and response text. */
module Middleware {
  import opened Wrappers
  import opened Text
  import opened Http

  // ---------------------------------------------------------------------------
  // Constants
  // ---------------------------------------------------------------------------

  const SwaggerSegment: string := "/swagger"
  const JsonContentType: string := "application/json"
  const GetMethod: string := "GET"
  const DeleteMethod: string := "DELETE"

  /** The request text logged when the body is not read. */
  const RequestSentinel: string :=
    "Could not read request body: Get method or not type application/json or Request reading disabled or content too long"

  /** The response text logged when the response is not JSON. */
  const ResponseSentinel: string := "No response logged - no application/json content fount"

  // ---------------------------------------------------------------------------
  // Decisions
  // ---------------------------------------------------------------------------

  /** `PathString.StartsWithSegments(segment)`: the path is the segment, or
      starts with the segment followed by a '/', ignoring case. */
  predicate StartsWithSegments(path: string, segment: string): (r: bool)
    ensures r <==> EqualsIgnoreCase(path, segment) || StartsWithIgnoreCase(path, segment + "/")
  {
    assert forall c :: Fold(c) == '/' ==> c == '/';
    assert forall j :: 0 <= j < |segment| ==> (segment + "/")[j] == segment[j];
    assert (segment + "/")[|segment|] == '/';
    StartsWithIgnoreCase(path, segment) && (|path| == |segment| || path[|segment|] == '/')
  }

  /** The swagger pages go straight to the next stage. */
  predicate IsSwaggerPath(path: string)
  {
    StartsWithSegments(path, SwaggerSegment)
  }

  /** The swagger test matches whole path segments and ignores case. */
  lemma SwaggerPathExamples()
    ensures IsSwaggerPath("/swagger")
    ensures IsSwaggerPath("/Swagger/index.html")
    ensures !IsSwaggerPath("/swaggerui")
    ensures !IsSwaggerPath("/api/swagger")
  {
  }

  /** A content type, if present, that mentions JSON (ignoring case). */
  predicate IsJson(contentType: Option<string>)
  {
    contentType.Some? && ContainsIgnoreCase(contentType.value, JsonContentType)
  }

  /** Whether the request body is read for the log: exactly when the content
      type contains "application/json" ignoring case, the method is neither
      GET nor DELETE in any letter case, and the length is declared and
      within the buffer size when one is set. */
  predicate CaptureRequest(contentType: Option<string>, httpMethod: string,
                           contentLength: Option<int>, buffer: Option<int>): (r: bool)
    ensures r <==> contentType.Some?
                   && (exists i: nat :: i + |JsonContentType| <= |contentType.value|
                                        && MatchesAt(contentType.value, JsonContentType, i))
                   && !EqualsIgnoreCase(httpMethod, "get") && !EqualsIgnoreCase(httpMethod, "delete")
                   && contentLength.Some? && (buffer.Some? ==> contentLength.value <= buffer.value)
  {
    SameMethodIgnoringCase(httpMethod, GetMethod, "get");
    SameMethodIgnoringCase(httpMethod, DeleteMethod, "delete");
    IsJson(contentType)
    && !EqualsIgnoreCase(httpMethod, GetMethod)
    && !EqualsIgnoreCase(httpMethod, DeleteMethod)
    && contentLength.Some?
    && (buffer.None? || contentLength.value <= buffer.value)
  }

  /** Two spellings of one method name match the same methods. */
  lemma SameMethodIgnoringCase(httpMethod: string, a: string, b: string)
    requires EqualsIgnoreCase(a, b)
    ensures EqualsIgnoreCase(httpMethod, a) <==> EqualsIgnoreCase(httpMethod, b)
  {
    assert EqualsIgnoreCase(b, a);
    if EqualsIgnoreCase(httpMethod, a) {
      EqualsIgnoreCaseTransitive(httpMethod, a, b);
    }
    if EqualsIgnoreCase(httpMethod, b) {
      EqualsIgnoreCaseTransitive(httpMethod, b, a);
    }
  }

  /** The request text that goes into the log: the sentinel when the body is
      not captured, and otherwise the body's text, which for an ASCII body is
      the body character for byte. */
  function RequestText(contentType: Option<string>, httpMethod: string, contentLength: Option<int>,
                       buffer: Option<int>, body: seq<byte>): (text: string)
    ensures !CaptureRequest(contentType, httpMethod, contentLength, buffer) ==> text == RequestSentinel
    ensures CaptureRequest(contentType, httpMethod, contentLength, buffer) && IsAscii(body)
            ==> |text| == |body| && forall i :: 0 <= i < |body| ==> text[i] as int == body[i] as int
  {
    if CaptureRequest(contentType, httpMethod, contentLength, buffer) then Decode(body) else RequestSentinel
  }

  /** The response text that goes into the log: the sentinel unless the
      response content type contains "application/json" ignoring case, and
      otherwise the text of the tee, character for byte when it is ASCII. */
  function ResponseText(contentType: Option<string>, tee: seq<byte>): (text: string)
    ensures (contentType.None?
             || !exists i: nat :: i + |JsonContentType| <= |contentType.value|
                                 && MatchesAt(contentType.value, JsonContentType, i))
            ==> text == ResponseSentinel
    ensures IsJson(contentType) && IsAscii(tee)
            ==> |text| == |tee| && forall i :: 0 <= i < |tee| ==> text[i] as int == tee[i] as int
  {
    if IsJson(contentType) then Decode(tee) else ResponseSentinel
  }

  /** GET and DELETE requests, in any letter case, are never captured. */
  lemma GetAndDeleteNeverCaptured(contentType: Option<string>, httpMethod: string,
                                  contentLength: Option<int>, buffer: Option<int>)
    requires EqualsIgnoreCase(httpMethod, "get") || EqualsIgnoreCase(httpMethod, "delete")
    ensures !CaptureRequest(contentType, httpMethod, contentLength, buffer)
  {
  }

  /** A POST of "text/plain", or of JSON without a declared length, is not
      captured; a JSON POST whose declared length is within the size is. */
  lemma PostCaptureExamples(n: int, buffer: Option<int>)
    ensures !CaptureRequest(Some("text/plain"), "POST", Some(n), buffer)
    ensures !CaptureRequest(Some("application/json"), "POST", None, buffer)
    ensures (buffer.None? || n <= buffer.value)
            ==> CaptureRequest(Some("application/json; charset=utf-8"), "POST", Some(n), buffer)
  {
    assert !EqualsIgnoreCase("POST", GetMethod) && !EqualsIgnoreCase("POST", DeleteMethod);
    assert |"text/plain"| < |JsonContentType|;
    assert MatchesAt("application/json; charset=utf-8", JsonContentType, 0);
  }

  // ---------------------------------------------------------------------------
  // The log record
  // ---------------------------------------------------------------------------

  /** The values that go into one log entry. */
  datatype LogRecord = LogRecord(requestTime: string, requestUrl: string, httpMethod: string,
                                 token: string, requestBody: string, responseTime: string,
                                 statusCode: int, responseBody: string)

  const Rule: string := "\n------------------------------------------------------"
  const SectionBreak: string := "\n\n------------------------------------------------------"
  const RequestHeading: string := "\n                     Request Log:"
  const ResponseHeading: string := "\n                     Response Log:"
  const TimeStampLabel: string := "\nTimeStamp:"
  const RequestLabel: string := "\nRequest: "
  const MethodLabel: string := "\nRequest Method: "
  const TokenLabel: string := "\nRequest Token: "
  const RequestBodyLabel: string := "\nRequest Body:\n"
  const StatusLabel: string := "\nStatusCode:"
  const ResponseBodyLabel: string := "\nResponse Body:\n"

  /** The record's fields as text, in the order they are logged. */
  function Fields(r: LogRecord): seq<string>
  {
    [r.requestTime, r.requestUrl, r.httpMethod, r.token, r.requestBody,
     r.responseTime, IntToString(r.statusCode), r.responseBody]
  }

  /** The pieces appended to the log builder, one per `Append`. */
  function Parts(r: LogRecord): seq<string>
  {
    [Rule, RequestHeading, Rule,
     TimeStampLabel, r.requestTime,
     RequestLabel, r.requestUrl,
     MethodLabel, r.httpMethod,
     TokenLabel, r.token,
     RequestBodyLabel, r.requestBody,
     SectionBreak, ResponseHeading, Rule,
     TimeStampLabel, r.responseTime,
     StatusLabel, IntToString(r.statusCode),
     ResponseBodyLabel, r.responseBody]
  }

  /** Which piece holds each field. */
  const FieldSlots: seq<nat> := [4, 6, 8, 10, 12, 17, 19, 21]

  /** The logged text. */
  function Render(r: LogRecord): string
  {
    Concat(Parts(r))
  }

  /** Where the `k`-th field starts in the logged text. */
  function FieldOffset(r: LogRecord, k: nat): nat
    requires k < |FieldSlots|
  {
    Offset(Parts(r), FieldSlots[k])
  }

  /** Each field can be read back from the logged text at its offset, every
      field lies strictly after the one logged before it (a non-empty label
      separates them), and the status code reads back as a number. */
  lemma {:induction false} FieldsInOrder(r: LogRecord)
    ensures forall k :: 0 <= k < |FieldSlots| ==>
              FieldOffset(r, k) + |Fields(r)[k]| <= |Render(r)|
              && Render(r)[FieldOffset(r, k)..FieldOffset(r, k) + |Fields(r)[k]|] == Fields(r)[k]
    ensures forall k :: 0 <= k < |FieldSlots| - 1 ==>
              FieldOffset(r, k) + |Fields(r)[k]| < FieldOffset(r, k + 1)
    ensures IsInteger(Fields(r)[6]) && ParseInt(Fields(r)[6]) == r.statusCode
  {
    var parts := Parts(r);
    forall k | 0 <= k < |FieldSlots|
      ensures FieldOffset(r, k) + |Fields(r)[k]| <= |Render(r)|
      ensures Render(r)[FieldOffset(r, k)..FieldOffset(r, k) + |Fields(r)[k]|] == Fields(r)[k]
    {
      assert parts[FieldSlots[k]] == Fields(r)[k];
      ConcatSlice(parts, FieldSlots[k]);
    }
    forall k | 0 <= k < |FieldSlots| - 1
      ensures FieldOffset(r, k) + |Fields(r)[k]| < FieldOffset(r, k + 1)
    {
      var s := FieldSlots[k];
      assert parts[s] == Fields(r)[k] && |parts[s + 1]| > 0 && s + 2 <= FieldSlots[k + 1];
      OffsetStep(parts, s);
      OffsetStep(parts, s + 1);
      OffsetMonotone(parts, s + 2, FieldSlots[k + 1]);
    }
    IntToStringRoundTrip(r.statusCode);
  }

  // ---------------------------------------------------------------------------
  // The stage
  // ---------------------------------------------------------------------------

  class LogRequestResponseMiddleware {
    /** `AppConfiguration.RequestBufferSize`. */
    const buffer: Option<int>
    /** `AppConfiguration.TokenIdentifier`: the header logged as the token. */
    const tokenIdentifier: string
    /** The entries handed to the logger, oldest first. */
    var logs: seq<string>

    constructor (requestBufferSize: Option<int>, tokenIdentifier: string)
      ensures buffer == requestBufferSize && this.tokenIdentifier == tokenIdentifier
      ensures logs == []
    {
      buffer, this.tokenIdentifier := requestBufferSize, tokenIdentifier;
      logs := [];
    }

    /** One exchange. `requestTime` and `responseTime` are the clock readings
        taken before and after the next stage. */
    method Invoke(context: HttpContext, next: NextStage, requestTime: string, responseTime: string)
      returns (completed: bool)
      requires context.Valid()
      modifies this`logs, context, context.requestBody, context.responseBody
      ensures context.Valid()
      ensures completed == !next.fails
      ensures context.statusCode == next.statusCode && context.responseContentType == next.contentType
      // the next stage runs exactly once, and finds the request body as left below
      ensures context.downstreamViews == old(context.downstreamViews)
              + [RequestView(context.requestBody.canSeek, context.requestBody.data, context.requestBody.position)]
      // swagger pages: nothing buffered, no tee, no log
      ensures IsSwaggerPath(context.path) ==>
                context.requestBody == old(context.requestBody) && unchanged(context.requestBody)
                && context.responseBody == old(context.responseBody)
                && context.responseBody.data == old(context.responseBody.data) + next.writes
                && logs == old(logs)
      // other paths: the request body is seekable and holds the bytes still unread at entry
      ensures !IsSwaggerPath(context.path) ==>
                context.requestBody.canSeek
                && (old(context.requestBody.canSeek) ==> context.requestBody == old(context.requestBody)
                                                          && context.requestBody.data == old(context.requestBody.data))
                && (!old(context.requestBody.canSeek) ==> fresh(context.requestBody)
                                                           && context.requestBody.kind == Buffered(buffer)
                                                           && context.requestBody.data
                                                              == old(context.requestBody.data[context.requestBody.position..]))
                && context.requestBody.position
                   == if !old(context.requestBody.canSeek)
                         || CaptureRequest(context.contentType, context.httpMethod, context.contentLength, buffer)
                      then 0 else old(context.requestBody.position)
      // next stage returned: the original response stream is back in place and
      // received exactly the bytes written to the tee; one entry is logged
      ensures !IsSwaggerPath(context.path) && completed ==>
                context.responseBody == old(context.responseBody)
                && context.responseBody.data == old(context.responseBody.data) + next.writes
                && logs == old(logs) + [Render(LogRecord(
                     requestTime, context.path + context.queryString, context.httpMethod,
                     HeaderText(context.headers, tokenIdentifier),
                     RequestText(context.contentType, context.httpMethod, context.contentLength, buffer,
                                 context.requestBody.data),
                     responseTime, next.statusCode, ResponseText(next.contentType, next.writes)))]
      // next stage threw: the tee stays installed, nothing is copied back or logged
      ensures !IsSwaggerPath(context.path) && !completed ==>
                fresh(context.responseBody) && context.responseBody.kind == StreamKind.Memory
                && context.responseBody.data == next.writes
                && old(context.responseBody).data == old(context.responseBody.data)
                && logs == old(logs)
    {
      if !IsSwaggerPath(context.path) {
        MakeRequestSeekable(context);
        var requestToken := HeaderText(context.headers, tokenIdentifier);
        var requestUrl := context.path + context.queryString;
        var request := ReadRequest(context);
        var response;
        completed, response := ForwardThroughTee(context, next);
        if completed {
          var entry := LogRecord(requestTime, requestUrl, context.httpMethod, requestToken, request,
                                 responseTime, context.statusCode, response);
          logs := logs + [Render(entry)];
        }
      } else {
        completed := context.InvokeNext(next);
      }
    }

    /** The request body is made seekable, with the configured buffer size
        when there is one. */
    method MakeRequestSeekable(context: HttpContext)
      requires context.Valid()
      modifies context`requestBody
      ensures context.Valid() && context.requestBody.canSeek
      ensures old(context.requestBody.canSeek) ==> context.requestBody == old(context.requestBody)
      ensures !old(context.requestBody.canSeek) ==>
                fresh(context.requestBody) && context.requestBody.kind == Buffered(buffer)
                && context.requestBody.data == old(context.requestBody.data[context.requestBody.position..])
                && context.requestBody.position == 0
    {
      if !context.requestBody.canSeek {
        if buffer.Some? {
          context.EnableBuffering(Some(buffer.value));
        } else {
          context.EnableBuffering(None);
        }
      }
    }

    /** The request text for the log: the whole body when it is captured, with
        the body rewound to its start for the next stage; the sentinel
        otherwise, with the body untouched. */
    method ReadRequest(context: HttpContext) returns (request: string)
      requires context.Valid() && context.requestBody.canSeek
      modifies context.requestBody
      ensures context.Valid()
      ensures context.requestBody.data == old(context.requestBody.data)
      ensures request == RequestText(context.contentType, context.httpMethod, context.contentLength, buffer,
                                     context.requestBody.data)
      ensures context.requestBody.position
              == if CaptureRequest(context.contentType, context.httpMethod, context.contentLength, buffer)
                 then 0 else old(context.requestBody.position)
    {
      if CaptureRequest(context.contentType, context.httpMethod, context.contentLength, buffer) {
        var reqBody := new Stream.Memory();
        context.requestBody.SeekToStart();
        context.requestBody.CopyTo(reqBody);
        context.requestBody.SeekToStart();
        reqBody.SeekToStart();
        request := reqBody.ReadToEnd();
      } else {
        request := RequestSentinel;
      }
    }

    /** The next stage runs with a memory tee as the response body. When it
        returns, the tee is copied to the original response stream, which is
        put back, and the response text for the log is chosen. When it throws,
        the tee stays in place and nothing is copied. */
    method ForwardThroughTee(context: HttpContext, next: NextStage) returns (completed: bool, response: string)
      requires context.Valid()
      modifies context, context.responseBody
      ensures context.Valid()
      ensures completed == !next.fails
      ensures context.requestBody == old(context.requestBody)
      ensures context.statusCode == next.statusCode && context.responseContentType == next.contentType
      ensures context.downstreamViews == old(context.downstreamViews)
              + [RequestView(context.requestBody.canSeek, context.requestBody.data, context.requestBody.position)]
      ensures completed ==>
                context.responseBody == old(context.responseBody)
                && context.responseBody.data == old(context.responseBody.data) + next.writes
                && response == ResponseText(next.contentType, next.writes)
      ensures !completed ==>
                fresh(context.responseBody) && context.responseBody.kind == StreamKind.Memory
                && context.responseBody.data == next.writes
                && old(context.responseBody).data == old(context.responseBody.data)
    {
      response := "";
      var originalBody := context.responseBody;
      var respBody := new Stream.Memory();
      context.responseBody := respBody;

      completed := context.InvokeNext(next);
      if !completed {
        return;
      }

      respBody.SeekToStart();
      respBody.CopyTo(originalBody);
      respBody.SeekToStart();

      if !IsJson(context.responseContentType) {
        response := ResponseSentinel;
        context.responseBody := originalBody;
      } else {
        response := respBody.ReadToEnd();
        context.responseBody := originalBody;
      }
    }
  }

  /** The texts logged for the exchange of `JsonPostExample`. */
  lemma JsonPostTexts(requestBytes: seq<byte>, responseBytes: seq<byte>)
    requires requestBytes == [123, 34, 97, 34, 58, 49, 125]
    requires responseBytes == [123, 34, 111, 107, 34, 58, 116, 114, 117, 101, 125]
    ensures RequestText(Some(JsonContentType), "POST", Some(7), None, requestBytes) == "{\"a\":1}"
    ensures ResponseText(Some(JsonContentType), responseBytes) == "{\"ok\":true}"
  {
    assert CaptureRequest(Some(JsonContentType), "POST", Some(7), None) by {
      assert MatchesAt(JsonContentType, JsonContentType, 0);
      assert |"POST"| != |GetMethod| && |"POST"| != |DeleteMethod|;
    }
    assert IsJson(Some(JsonContentType)) by { assert MatchesAt(JsonContentType, JsonContentType, 0); }
    assert Decode(requestBytes) == "{\"a\":1}";
    assert Decode(responseBytes) == "{\"ok\":true}";
  }

  /** A JSON POST of {"a":1} whose next stage answers 200 with the JSON
      {"ok":true}: both bodies are logged as sent, and the client receives
      exactly the response bytes. */
  method JsonPostExample()
  {
    var requestBytes: seq<byte> := [123, 34, 97, 34, 58, 49, 125];
    var responseBytes: seq<byte> := [123, 34, 111, 107, 34, 58, 116, 114, 117, 101, 125];
    var body := new Stream(requestBytes, false);
    var sink := new Stream([], false);
    var context := new HttpContext("/api/items", "", "POST", Some(JsonContentType), Some(7), [], body, sink);
    var stage := new LogRequestResponseMiddleware(None, "Authorization");
    assert !IsSwaggerPath("/api/items") by { assert "/api/items"[1] == 'a'; }
    assert MatchesAt(JsonContentType, JsonContentType, 0);
    assert CaptureRequest(Some(JsonContentType), "POST", Some(7), None) by {
      assert !EqualsIgnoreCase("POST", GetMethod) by { assert |"POST"| != |GetMethod|; }
      assert !EqualsIgnoreCase("POST", DeleteMethod) by { assert |"POST"| != |DeleteMethod|; }
    }
    var completed := stage.Invoke(context, NextStage(responseBytes, 200, Some(JsonContentType), false), "t0", "t1");
    assert completed && context.responseBody == sink && sink.data == responseBytes;
    assert context.requestBody.data == requestBytes[0..] == requestBytes;
    assert HeaderText([], "Authorization") == "";
    assert context.path + context.queryString == "/api/items";
    JsonPostTexts(requestBytes, responseBytes);
    assert stage.logs == [Render(LogRecord("t0", "/api/items", "POST", "", "{\"a\":1}", "t1", 200, "{\"ok\":true}"))];
  }
}
