/** The per-request exchange the pipeline stages work on: request metadata,
    replaceable request and response body streams, the response metadata the
    downstream stage sets, and the downstream stage itself. */
module Http {
  import opened Wrappers
  import opened Text

  // ---------------------------------------------------------------------------
  // Headers
  // ---------------------------------------------------------------------------

  /** One request header field as received. */
  datatype Header = Header(name: string, value: string)

  /** The values of every field named `name` (names compare ignoring case),
      in the order received: `Request.Headers[name]`. */
  function HeaderValues(headers: seq<Header>, name: string): (values: seq<string>)
    ensures |values| <= |headers|
    ensures forall v :: v in values ==> exists h :: h in headers && EqualsIgnoreCase(h.name, name) && h.value == v
    ensures forall h :: h in headers && EqualsIgnoreCase(h.name, name) ==> h.value in values
  {
    if headers == [] then []
    else
      var rest := HeaderValues(headers[1..], name);
      assert forall h :: h in headers ==> h == headers[0] || h in headers[1..];
      if EqualsIgnoreCase(headers[0].name, name) then [headers[0].value] + rest else rest
  }

  /** The values that are not empty, in order. */
  function NonEmpty(values: seq<string>): seq<string>
  {
    if values == [] then []
    else if values[0] == "" then NonEmpty(values[1..])
    else [values[0]] + NonEmpty(values[1..])
  }

  /** `StringValues.ToString()` (.NET Core 3.0 and later): the non-empty
      values joined with commas, so no value, or only empty ones, give the
      empty string and a single value is itself. */
  function JoinValues(values: seq<string>): (text: string)
    ensures text == "" <==> forall v :: v in values ==> v == ""
    ensures |values| == 1 ==> text == values[0]
  {
    if values == [] then ""
    else
      var rest := JoinValues(values[1..]);
      assert values[0] in values;
      assert forall v :: v in values ==> v == values[0] || v in values[1..];
      assert forall v :: v in values[1..] ==> v in values;
      if values[0] == "" then rest
      else if rest == "" then values[0]
      else values[0] + "," + rest
  }

  /** Where the first comma of `s` is. */
  function FirstComma(s: string): (i: nat)
    requires ',' in s
    ensures i < |s| && s[i] == ',' && ',' !in s[..i]
  {
    if s[0] == ',' then 0
    else
      assert ',' in s[1..] by { var k :| 0 <= k < |s| && s[k] == ','; assert s[1..][k - 1] == ','; }
      var i := 1 + FirstComma(s[1..]);
      assert s[..i] == [s[0]] + s[1..][..i - 1];
      i
  }

  /** The pieces of `s` between commas, reading a text without commas as one
      piece and the empty text as none. */
  function SplitCommas(s: string): seq<string>
    decreases |s|
  {
    if s == "" then []
    else if ',' !in s then [s]
    else var i := FirstComma(s); [s[..i]] + SplitCommas(s[i + 1..])
  }

  /** Splitting the joined text at its commas gives back the non-empty values
      when none of them contains a comma. */
  lemma {:induction false} JoinSplitRoundTrip(values: seq<string>)
    requires forall v :: v in values ==> ',' !in v
    ensures SplitCommas(JoinValues(values)) == NonEmpty(values)
  {
    if values != [] {
      assert forall v :: v in values[1..] ==> v in values;
      JoinSplitRoundTrip(values[1..]);
      var first, rest := values[0], JoinValues(values[1..]);
      assert first in values;
      if first != "" && rest != "" {
        var s := first + "," + rest;
        var i := FirstComma(s);
        assert forall k :: 0 <= k < |first| ==> s[k] == first[k];
        assert i >= |first|;
        assert s[|first|] == ',';
        assert forall k :: 0 <= k < i ==> s[..i][k] == s[k];
        assert i == |first|;
        assert s[..i] == first;
        assert s[i + 1..] == rest;
      }
    }
  }

  /** The text a `StringBuilder` receives for `Request.Headers[name]`. */
  function HeaderText(headers: seq<Header>, name: string): string
  {
    JoinValues(HeaderValues(headers, name))
  }

  /** A header that was not sent contributes the empty string. */
  lemma {:induction false} AbsentHeaderIsEmpty(headers: seq<Header>, name: string)
    requires forall h :: h in headers ==> !EqualsIgnoreCase(h.name, name)
    ensures HeaderValues(headers, name) == []
    ensures HeaderText(headers, name) == ""
  {
    if headers != [] {
      assert headers[0] in headers;
      assert forall h :: h in headers[1..] ==> h in headers;
      AbsentHeaderIsEmpty(headers[1..], name);
    }
  }

  // ---------------------------------------------------------------------------
  // Streams
  // ---------------------------------------------------------------------------

  /** What a stream object is: one handed over by the server, the seekable
      wrapper `EnableBuffering` installs (with the threshold it was given, if
      any), or a `MemoryStream`. */
  datatype StreamKind = Incoming | Buffered(threshold: Option<int>) | Memory

  /** A byte stream: its content, the read/write position and whether it can
      seek. Streams written in this model are only written at their end (the
      tee starts empty, the server's response stream is forward-only). */
  class Stream {
    var data: seq<byte>
    var position: nat
    const canSeek: bool
    const kind: StreamKind

    ghost predicate Valid()
      reads this
    {
      position <= |data|
    }

    /** A stream supplied by the server. */
    constructor (content: seq<byte>, canSeek: bool)
      ensures Valid() && data == content && position == 0
      ensures this.canSeek == canSeek && kind == Incoming
    {
      data, position := content, 0;
      this.canSeek, kind := canSeek, Incoming;
    }

    /** The seekable stream `EnableBuffering` puts in place of a request body. */
    constructor Buffering(content: seq<byte>, threshold: Option<int>)
      ensures Valid() && data == content && position == 0
      ensures canSeek && kind == Buffered(threshold)
    {
      data, position := content, 0;
      canSeek, kind := true, Buffered(threshold);
    }

    /** `new MemoryStream()`. */
    constructor Memory()
      ensures Valid() && data == [] && position == 0
      ensures canSeek && kind == StreamKind.Memory
    {
      data, position := [], 0;
      canSeek, kind := true, StreamKind.Memory;
    }

    /** `Seek(0, SeekOrigin.Begin)`. */
    method SeekToStart()
      requires canSeek
      modifies this`position
      ensures position == 0
    {
      position := 0;
    }

    /** `CopyTo(dest)`: everything from the position on is appended to `dest`,
        and this stream is left at its end. */
    method CopyTo(dest: Stream)
      requires Valid() && dest != this && dest.position == |dest.data|
      modifies this`position, dest`data, dest`position
      ensures Valid() && position == |data|
      ensures dest.data == old(dest.data) + old(data[position..])
      ensures dest.position == |dest.data|
    {
      dest.data := dest.data + data[position..];
      dest.position := |dest.data|;
      position := |data|;
    }

    /** `new StreamReader(this).ReadToEnd()`: the text of everything from the
        position on. */
    method ReadToEnd() returns (text: string)
      requires Valid()
      modifies this`position
      ensures Valid() && position == |data|
      ensures text == Decode(old(data[position..]))
    {
      text := Decode(data[position..]);
      position := |data|;
    }

    /** A write at the end of the stream. */
    method Write(bytes: seq<byte>)
      requires position == |data|
      modifies this`data, this`position
      ensures data == old(data) + bytes && position == |data|
    {
      data := data + bytes;
      position := |data|;
    }
  }

  // ---------------------------------------------------------------------------
  // The exchange and the downstream stage
  // ---------------------------------------------------------------------------

  /** What the downstream stage does to the exchange: it writes `writes` to the
      response body installed at the time, sets the status code and the
      response content type, and then returns normally or throws. */
  datatype NextStage = NextStage(writes: seq<byte>, statusCode: int, contentType: Option<string>, fails: bool)

  /** The request body as the downstream stage finds it. */
  datatype RequestView = RequestView(canSeek: bool, content: seq<byte>, position: nat)

  /** `HttpContext`: one request/response exchange. */
  class HttpContext {
    const path: string
    const queryString: string
    const httpMethod: string
    const contentType: Option<string>
    const contentLength: Option<int>
    const headers: seq<Header>
    var requestBody: Stream
    var responseBody: Stream
    var statusCode: int
    var responseContentType: Option<string>
    /** One entry per call of the downstream stage: the request body it saw. */
    var downstreamViews: seq<RequestView>

    ghost predicate Valid()
      reads this, requestBody, responseBody
    {
      requestBody != responseBody && requestBody.Valid() && responseBody.position == |responseBody.data|
    }

    constructor (path: string, queryString: string, httpMethod: string,
                 contentType: Option<string>, contentLength: Option<int>, headers: seq<Header>,
                 requestBody: Stream, responseBody: Stream)
      requires requestBody != responseBody && requestBody.Valid()
      requires responseBody.position == |responseBody.data|
      ensures Valid()
      ensures this.path == path && this.queryString == queryString && this.httpMethod == httpMethod
      ensures this.contentType == contentType && this.contentLength == contentLength
      ensures this.headers == headers
      ensures this.requestBody == requestBody && this.responseBody == responseBody
      ensures statusCode == 200 && responseContentType == None && downstreamViews == []
    {
      this.path, this.queryString, this.httpMethod := path, queryString, httpMethod;
      this.contentType, this.contentLength, this.headers := contentType, contentLength, headers;
      this.requestBody, this.responseBody := requestBody, responseBody;
      statusCode, responseContentType, downstreamViews := 200, None, [];
    }

    /** `Request.EnableBuffering(threshold)` on a body that cannot seek: the
        request body is replaced by a seekable stream over the bytes still to
        be read from it. */
    method EnableBuffering(threshold: Option<int>)
      requires Valid() && !requestBody.canSeek
      modifies this`requestBody
      ensures Valid() && fresh(requestBody)
      ensures requestBody.canSeek && requestBody.kind == Buffered(threshold)
      ensures requestBody.data == old(requestBody.data[requestBody.position..])
      ensures requestBody.position == 0
    {
      requestBody := new Stream.Buffering(requestBody.data[requestBody.position..], threshold);
    }

    /** `await next(context)`: the downstream stage runs once. */
    method InvokeNext(next: NextStage) returns (completed: bool)
      requires Valid()
      modifies this`statusCode, this`responseContentType, this`downstreamViews, responseBody
      ensures Valid() && completed == !next.fails
      ensures responseBody.data == old(responseBody.data) + next.writes
      ensures statusCode == next.statusCode && responseContentType == next.contentType
      ensures downstreamViews == old(downstreamViews)
                                 + [RequestView(requestBody.canSeek, requestBody.data, requestBody.position)]
    {
      downstreamViews := downstreamViews + [RequestView(requestBody.canSeek, requestBody.data, requestBody.position)];
      responseBody.Write(next.writes);
      statusCode, responseContentType := next.statusCode, next.contentType;
      completed := !next.fails;
    }
  }
}
