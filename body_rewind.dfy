/** `KRFBodyRewindMiddleware`: makes a non-seekable request body seekable when
    its declared length is within the configured buffer size (or no size is
    configured), then always calls the next stage. */
module Handler {
  import opened Wrappers
  import opened Text
  import opened Http

  /** C#'s lifted `long? <= int`: false whenever the left side is null. */
  predicate LiftedAtMost(length: Option<int>, limit: int)
  {
    match length
    case None => false
    case Some(n) => n <= limit
  }

  /** What the stage does to the request body. */
  datatype RewindAction = Unchanged | Buffer(threshold: Option<int>)

  /** The guard of `Invoke`: buffer a non-seekable body when no size is set or
      the declared length is (lifted) at most the size, passing the size on.
      Buffering happens exactly when the body cannot seek and, with a size
      set, a length is declared and within it. */
  function Rewind(buffer: Option<int>, contentLength: Option<int>, canSeek: bool): (r: RewindAction)
    ensures r == Unchanged || r == Buffer(buffer)
    ensures r.Buffer? <==> !canSeek && (buffer.Some? ==> contentLength.Some? && contentLength.value <= buffer.value)
  {
    if (buffer.None? || LiftedAtMost(contentLength, buffer.value)) && !canSeek
    then Buffer(buffer)
    else Unchanged
  }

  /** With no size configured, a non-seekable body is always buffered without
      a size, whatever its declared length. */
  lemma NoLimitAlwaysBuffers(contentLength: Option<int>, canSeek: bool)
    ensures Rewind(None, contentLength, canSeek) == if canSeek then Unchanged else Buffer(None)
  {
  }

  /** With a size configured, a non-seekable body is buffered with that size
      exactly when its length is declared and at most the size. */
  lemma LimitBuffersExactlyWithinLimit(limit: int, contentLength: Option<int>)
    ensures Rewind(Some(limit), contentLength, false) == Buffer(Some(limit))
            <==> contentLength.Some? && contentLength.value <= limit
    ensures Rewind(Some(limit), contentLength, false) != Buffer(Some(limit))
            ==> Rewind(Some(limit), contentLength, false) == Unchanged
  {
  }

  /** With a size configured and no declared length the lifted comparison is
      false, so the body is left as it is. */
  lemma MissingLengthWithLimitUnchanged(limit: int, canSeek: bool)
    ensures Rewind(Some(limit), None, canSeek) == Unchanged
  {
  }

  /** A seekable body is never replaced; since buffering yields a seekable
      body, running the stage a second time changes nothing more. */
  lemma RewindIdempotent(buffer: Option<int>, contentLength: Option<int>, canSeek: bool)
    ensures Rewind(buffer, contentLength, true) == Unchanged
    ensures Rewind(buffer, contentLength, canSeek).Buffer? ==> !canSeek
  {
  }

  class BodyRewindMiddleware {
    const buffer: Option<int>

    /** The one-argument constructor: no buffer size. */
    constructor ()
      ensures buffer == None
    {
      buffer := None;
    }

    /** The constructor taking an optional buffer size. */
    constructor WithBuffer(buffer: Option<int>)
      ensures this.buffer == buffer
    {
      this.buffer := buffer;
    }

    method Invoke(context: HttpContext, next: NextStage) returns (completed: bool)
      requires context.Valid()
      modifies context
      modifies context.responseBody
      ensures context.Valid()
      ensures completed == !next.fails
      // the request body: replaced by a buffered copy or left as it was
      ensures Rewind(buffer, context.contentLength, old(context.requestBody.canSeek)) == Unchanged
              ==> context.requestBody == old(context.requestBody)
      ensures Rewind(buffer, context.contentLength, old(context.requestBody.canSeek)) == Buffer(buffer)
              ==> fresh(context.requestBody) && context.requestBody.canSeek
                  && context.requestBody.kind == Buffered(buffer)
                  && context.requestBody.data == old(context.requestBody.data[context.requestBody.position..])
                  && context.requestBody.position == 0
      // the next stage runs exactly once, on the request body chosen above
      ensures context.downstreamViews == old(context.downstreamViews)
              + [RequestView(context.requestBody.canSeek, context.requestBody.data, context.requestBody.position)]
      // the response passes straight through
      ensures context.responseBody == old(context.responseBody)
      ensures context.responseBody.data == old(context.responseBody.data) + next.writes
      ensures context.statusCode == next.statusCode && context.responseContentType == next.contentType
    {
      if buffer.None? || LiftedAtMost(context.contentLength, buffer.value) {
        if !context.requestBody.canSeek {
          if buffer.Some? {
            context.EnableBuffering(Some(buffer.value));
          } else {
            context.EnableBuffering(None);
          }
        }
      }
      completed := context.InvokeNext(next);
    }
  }
}
