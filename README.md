# KRFCommon request pipeline stages, modelled in Dafny

This project models three pieces of the KRFCommon library for ASP.NET Core
servers:

- **`KRFLogRequestResponseMiddleware`** (module `Middleware`). Outside the
  `/swagger` pages, this stage:
  - makes the request body seekable;
  - reads the request text when the request is a JSON request other than GET or
    DELETE with a declared length within the buffer size, and otherwise uses a
    fixed sentinel;
  - puts a `MemoryStream` tee in place of the response stream and runs the next
    stage;
  - copies the tee back to the real response stream and restores that stream;
  - logs one entry made of fixed labels and the exchange's fields, in a fixed
    order.
- **`KRFBodyRewindMiddleware`** (module `Handler`). When no buffer size is
  configured, or the declared content length is at most that size, it makes a
  non-seekable request body seekable. Then it always calls the next stage.
- **`KRFMemoryCacheServiceHelper.AddKRFMemoryCache`**, both overloads (module
  `MemoryCache`). It rejects a null service collection, picks the settings
  (falling back to defaults), and registers the action that configures
  `KRFMemoryCacheOptions`. That action is modelled as the pure function
  `Configure`. It applies the field assignments in source order, so
  `CompactionPercentage` overwrites the `SizeLimit` set from `MaxSize`.

Supporting modules:

- `Http` holds the exchange: the `HttpContext` class with replaceable
  `requestBody`/`responseBody` streams, the `Stream` class, and the downstream
  stage. `NextStage` describes what the downstream stage does: it writes bytes
  to the response body installed at the time, sets the status code and the
  response content type, and then returns or throws. `downstreamViews` records
  the request body as each call of the next stage found it.
- `Text` holds case-insensitive comparison and search, byte-to-text decoding,
  concatenation of `StringBuilder` pieces, and `int.ToString()` with its inverse.
- `Wrappers` holds `Option` (C# null) and `Result` (a thrown exception).

Points where the code is easy to misread; the model follows the code:

- The token header is logged through `StringValues`' conversion to a string.
  Several values are joined with commas, and empty values are skipped.
- Content types are tested with a case-insensitive *contains*, not equality
  (`application/json; charset=utf-8` is JSON).
- The logging stage buffers a non-seekable request body whatever its declared
  length. Only the rewind stage checks the length first.
- With a buffer size set and no declared length, the rewind stage does not
  buffer. C#'s lifted `null <= n` is false.
- `EnableBuffering(n)` receives the buffer size as its in-memory threshold.
  Nothing caps the body, so no oversize failure is modelled.
- There is no `try`/`finally` around the next stage. When it throws, the tee
  stays installed as the response body. Nothing is copied to the real
  response stream, and nothing is logged.
- `SizeLimit` is assigned from `MaxSize` and then from `CompactionPercentage`.
  The second assignment wins, as written.

## Model

| member | source | states |
|---|---|---|
| Text.ContainsIgnoreCase | KRFCommon/Middleware/KRFLogRequestResponseMiddleware.cs:50 | `string.Contains(..., IgnoreCase)` holds exactly when the needle matches, ignoring case, at some offset of the content type |
| Text.Decode | KRFCommon/Middleware/KRFLogRequestResponseMiddleware.cs:61-64 | a body of ASCII bytes reads as one character per byte, each with the byte's code, as UTF-8 decoding gives |
| Text.ConcatSlice | KRFCommon/Middleware/KRFLogRequestResponseMiddleware.cs:99-121 | each appended piece can be read back from the built log at the offset given by the pieces before it |
| Text.IntToStringRoundTrip | KRFCommon/Middleware/KRFLogRequestResponseMiddleware.cs:119 | the logged status code is a decimal integer that parses back to the status code |
| Http.AbsentHeaderIsEmpty | KRFCommon/Middleware/KRFLogRequestResponseMiddleware.cs:43 | a token header that was not sent is logged as the empty string |
| Http.HeaderValues | KRFCommon/Middleware/KRFLogRequestResponseMiddleware.cs:43 | the values found for the token header are exactly the values of the fields whose name matches ignoring case: each comes from such a field, and every such field contributes |
| Http.JoinValues | KRFCommon/Middleware/KRFLogRequestResponseMiddleware.cs:110 | the joined text is empty exactly when every value is empty, and a single value is logged as itself |
| Http.JoinSplitRoundTrip | KRFCommon/Middleware/KRFLogRequestResponseMiddleware.cs:110 | when no value contains a comma, splitting the logged token at its commas gives back the non-empty values in order |
| Http.Stream.CopyTo | KRFCommon/Middleware/KRFLogRequestResponseMiddleware.cs:57 | the destination receives exactly the bytes from the position on, and the source is left at its end |
| Http.Stream.ReadToEnd | KRFCommon/Middleware/KRFLogRequestResponseMiddleware.cs:61-64 | the text read is the decoding of every byte from the position on |
| Http.HttpContext.EnableBuffering | KRFCommon/Handler/KRFBodyRewindMiddleware.cs:27-30 | the request body becomes a fresh seekable stream at position 0 over the unread bytes, carrying the threshold given |
| Http.HttpContext.InvokeNext | KRFCommon/Handler/KRFBodyRewindMiddleware.cs:34 | the next stage runs once: its bytes are appended to the installed response body, and status and content type are set |
| Handler.BodyRewindMiddleware.constructor | KRFCommon/Handler/KRFBodyRewindMiddleware.cs:11-14 | the one-argument constructor leaves the buffer size absent |
| Handler.BodyRewindMiddleware.WithBuffer | KRFCommon/Handler/KRFBodyRewindMiddleware.cs:15-19 | the second constructor keeps the given optional buffer size |
| Handler.BodyRewindMiddleware.Invoke | KRFCommon/Handler/KRFBodyRewindMiddleware.cs:21-35 | the body is buffered with the configured size exactly when `Rewind` says so and is otherwise the same object; the next stage runs exactly once on the resulting body; the response passes through |
| Handler.Rewind | KRFCommon/Handler/KRFBodyRewindMiddleware.cs:23-30 | the body is either left alone or buffered with the configured size, and it is buffered exactly when it cannot seek and, with a size set, a length is declared and within it |
| Handler.NoLimitAlwaysBuffers | KRFCommon/Handler/KRFBodyRewindMiddleware.cs:23-30 | with no size, a non-seekable body is buffered without a size whatever its declared length |
| Handler.LimitBuffersExactlyWithinLimit | KRFCommon/Handler/KRFBodyRewindMiddleware.cs:23-28 | with a size, a non-seekable body is buffered with that size if and only if its length is declared and at most the size; otherwise it is unchanged |
| Handler.MissingLengthWithLimitUnchanged | KRFCommon/Handler/KRFBodyRewindMiddleware.cs:23 | with a size and no declared length the body is left unchanged (lifted `<=` is false) |
| Handler.RewindIdempotent | KRFCommon/Handler/KRFBodyRewindMiddleware.cs:25 | a seekable body is never replaced, and only a non-seekable one is buffered, so a second pass changes nothing |
| Middleware.StartsWithSegments | KRFCommon/Middleware/KRFLogRequestResponseMiddleware.cs:32 | a path starts with the segment exactly when it is the segment, or starts with the segment followed by '/', ignoring case |
| Middleware.SwaggerPathExamples | KRFCommon/Middleware/KRFLogRequestResponseMiddleware.cs:32 | `/swagger` and `/Swagger/...` are swagger paths; `/swaggerui` and `/api/swagger` are not (whole segments, case ignored) |
| Middleware.CaptureRequest | KRFCommon/Middleware/KRFLogRequestResponseMiddleware.cs:49-53 | a request is captured if and only if its content type contains "application/json" ignoring case, its method is neither GET nor DELETE in any letter case, and its length is declared and within the size when one is set |
| Middleware.GetAndDeleteNeverCaptured | KRFCommon/Middleware/KRFLogRequestResponseMiddleware.cs:51-52 | a method equal to "get" or "delete" ignoring case (GET, get, Delete, DELETE, ...) is never captured, whatever the content type, length and size |
| Middleware.PostCaptureExamples | KRFCommon/Middleware/KRFLogRequestResponseMiddleware.cs:49-53 | a POST of text/plain or of JSON without a length is not captured; a JSON POST with a length within the size is |
| Middleware.RequestText | KRFCommon/Middleware/KRFLogRequestResponseMiddleware.cs:49-69 | the logged request text is the sentinel when the body is not captured; when it is captured, an ASCII body is logged character for byte |
| Middleware.ResponseText | KRFCommon/Middleware/KRFLogRequestResponseMiddleware.cs:84-97 | the logged response text is the sentinel when the response content type is absent or does not contain "application/json" ignoring case; otherwise an ASCII response is logged character for byte |
| Middleware.FieldsInOrder | KRFCommon/Middleware/KRFLogRequestResponseMiddleware.cs:99-121 | the log holds request time, URL, method, token, request text, response time, status code and response text, each readable at its offset and each strictly after the one before |
| Middleware.LogRequestResponseMiddleware.constructor | KRFCommon/Middleware/KRFLogRequestResponseMiddleware.cs:21-28 | the stage keeps the configured buffer size and token header name, and starts with no log entries |
| Middleware.LogRequestResponseMiddleware.MakeRequestSeekable | KRFCommon/Middleware/KRFLogRequestResponseMiddleware.cs:34-40 | a non-seekable body is replaced by a buffered one with the configured size (or none), whatever the length; a seekable body is kept |
| Middleware.LogRequestResponseMiddleware.ReadRequest | KRFCommon/Middleware/KRFLogRequestResponseMiddleware.cs:49-69 | the request text is the whole body when captured, and the sentinel otherwise; the body's bytes are unchanged and it is left at position 0 when captured |
| Middleware.LogRequestResponseMiddleware.ForwardThroughTee | KRFCommon/Middleware/KRFLogRequestResponseMiddleware.cs:71-97 | if the next stage returns, the original response stream is back in place and received exactly the bytes written to the tee, and the response text is the tee's text if JSON, else the sentinel; if it throws, the tee stays installed and nothing is copied |
| Middleware.LogRequestResponseMiddleware.Invoke | KRFCommon/Middleware/KRFLogRequestResponseMiddleware.cs:30-129 | swagger paths only run the next stage; other exchanges buffer and capture as above, run the next stage once, copy back, and append exactly one entry, `Render` of the exchange's record, when the next stage returns, and none when it throws |
| MemoryCache.ScanFrequency | KRFCommon/MemoryCache/KRFMemoryCacheServiceHelper.cs:25-28 | a representable interval is at most a `TimeSpan`'s range; one with non-negative hours and minutes and seconds under 60 reads back as its hours, minutes and seconds; otherwise the constructor throws |
| MemoryCache.Configure | KRFCommon/MemoryCache/KRFMemoryCacheServiceHelper.cs:24-43 | configuration fails exactly when the interval is not representable, with that exception; otherwise the scan frequency is the interval and `CachedKeySettings` is copied unchanged |
| MemoryCache.ScanFrequencyIsTotalSeconds | KRFCommon/MemoryCache/KRFMemoryCacheServiceHelper.cs:25-28 | `ExpirationScanFrequency` is hours·3600 + minutes·60 + seconds; configuration throws exactly when that is beyond a `TimeSpan` |
| MemoryCache.SmallIntervalsConfigure | KRFCommon/MemoryCache/KRFMemoryCacheServiceHelper.cs:25-28 | non-negative intervals of up to 256204777 hours never throw |
| MemoryCache.SizeLimitUnassignedWithoutSize | KRFCommon/MemoryCache/KRFMemoryCacheServiceHelper.cs:30 | without a `MemoryCacheSize`, `SizeLimit` keeps its previous value |
| MemoryCache.CompactionOverwritesSizeLimit | KRFCommon/MemoryCache/KRFMemoryCacheServiceHelper.cs:32-40 | a `CompactionPercentage` is the final `SizeLimit`, whatever `MaxSize` is |
| MemoryCache.MaxSizeAloneSetsSizeLimit | KRFCommon/MemoryCache/KRFMemoryCacheServiceHelper.cs:32-35 | `MaxSize` alone becomes `SizeLimit`; with neither part `SizeLimit` is unchanged |
| MemoryCache.MaxSizeIgnoredWithCompaction | KRFCommon/MemoryCache/KRFMemoryCacheServiceHelper.cs:30-40 | once `CompactionPercentage` is present, changing `MaxSize` does not change the configured options |
| MemoryCache.SettingsFromConfiguration | KRFCommon/MemoryCache/KRFMemoryCacheServiceHelper.cs:57-64 | the configuration overload picks the bound settings as the settings overload would, and the defaults for a null configuration or null binding |
| MemoryCache.AddMemoryCache | KRFCommon/MemoryCache/KRFMemoryCacheServiceHelper.cs:11-47 | a null collection throws `ArgumentNullException("services")`; otherwise the configuration for `settings ?? defaults` is registered and the same collection is returned |
| MemoryCache.AddMemoryCacheFromConfiguration | KRFCommon/MemoryCache/KRFMemoryCacheServiceHelper.cs:49-93 | a null collection throws `ArgumentNullException("services")`; otherwise the configuration for the bound settings (or the defaults) is registered and the same collection is returned |

## Left out

- Asynchronous execution, cancellation, disposal of streams, and real stream
  I/O are left out. Streams are byte sequences with a position and a seekable
  flag, and they are written only at their end.
- `EnableBuffering` internals are left out: the spill to a file, and the lazy
  reading of the original body. The buffered stream is a snapshot of the bytes
  not yet read.
- Text.Decode: `StreamReader` decoding (UTF-8, byte-order marks, replacement
  of invalid sequences) is left out. Each byte stands for the character with
  the same code. The contract promises only what UTF-8 decoding also gives:
  ASCII bytes read as one character each. `RequestText` and `ResponseText`
  state their decoded case for ASCII bodies for the same reason.
- Case-insensitive comparison folds ASCII letters only. Culture-aware folding of
  other characters (`InvariantCultureIgnoreCase`, `OrdinalIgnoreCase`) is left
  out.
- `PathString.ToString()` escaping is left out. The logged URL is the path
  followed by the query string.
- `DateTime.Now` and its formatting are left out. The two timestamps are
  parameters of `Invoke`.
- The logger is left out: `ILogger`, `EventId`, and the category name built
  from `ApiName`. Entries are appended to `logs`.
- The downstream stage is reduced to `NextStage`. It cannot read or replace the
  request body, and it cannot replace the response body itself. It cannot
  change the request method either, although the source reads
  `Request.Method` again for the log after the next stage returns.
- `KRFConstants` is not part of this model. Its `JsonContentType`, `GetMethod`
  and `DeleteMethod` are taken as "application/json", "GET" and "DELETE".
  Timestamp format and event id are not needed.
- `KRFMemoryCacheSettings` and `KRFMemoryCacheOptions` are not part of this
  model, so three things are simplified:
  - The default settings and the options before configuration are parameters.
  - `CacheCleanupInterval` is taken to be non-null.
  - Any validation in the options' setters is not modelled.
- Dependency-injection plumbing is left out: `AddOptions`, `TryAdd` of the
  cache singleton, and when the registered options action runs. A registration
  is recorded as the settings its `Configure` action captures.
- `KRFMemoryCache` itself is not part of this model: entries, size-weighted
  eviction and expiration sweeping.
- `KRFController` and `KRFApiSettings` are left out. They are a thin wrapper
  and configuration key names.
- Middleware.LogRequestResponseMiddleware.MakeRequestSeekable: two
  configurations that make the source throw are not modelled. A negative
  `RequestBufferSize` makes `EnableBuffering(n)` fail when it rents its
  `n`-byte buffer, so every non-seekable request outside `/swagger` throws; the
  model buffers the body with that size instead. A null `TokenIdentifier` makes
  the header lookup throw; the model's token header name is never null.
- Middleware.LogRequestResponseMiddleware.ForwardThroughTee: when the next
  stage throws, the returned response text is unspecified. The source leaves
  it unassigned.
- Http.HeaderValues: states which values occur, in both directions, but not
  their order or how often each occurs.
