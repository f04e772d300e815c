/**
 * The non-network part of `fetch_data` in src/main.rs, together with the
 * way `spawn_fetch_data` turns its result into the flower's terminal
 * outcome.  The HTTP exchange is an input: the Content-Type header (or the
 * error that prevented reading it), the body as the chunks
 * `response.chunk()` yields, and the text of the body for the non-CSV
 * message.  UTF-8 decoding and CSV tokenising are an input function from
 * the received bytes to their decoded view.
 */
module Fetch {

  import opened Wrappers
  import opened SocrataData

  newtype byte = b: int | 0 <= b < 256

  /** How the chunk stream stops: cleanly, or with the error of the next
      `response.chunk()` call. */
  datatype StreamEnd = EndOfStream | ChunkError(message: string)

  datatype Body = Body(chunks: seq<seq<byte>>, end: StreamEnd)

  /** What `fetch_data` sees of the HTTP exchange.  `contentType` is the
      Content-Type header, or the message of the error (client build,
      send, missing or non-ASCII header) that prevented reading it;
      `bodyText` is the `{:?}` rendering of `response.text()`. */
  datatype Response = Response(contentType: Result<string, string>, body: Body, bodyText: string)

  /** One record of `reader.records()`: its cells, or the reader's error. */
  datatype CsvRecord = Record(cells: seq<string>) | Malformed(error: string)

  /** The received bytes as UTF-8 text read by `csv::Reader`: either the
      decoding error, or the header row (`None` when `headers()` fails)
      and the data records in document order. */
  datatype Decoded = InvalidUtf8(error: string) | Csv(headers: Option<seq<string>>, records: seq<CsvRecord>)

  /** What the UI's `finalize` receives: `Ok(container)`,
      `Err(Compact::Suppose(cause))` or `Err(Compact::Panicked(message))`. */
  datatype Outcome = Success(container: Container) | Suppose(cause: ErrCause) | Panicked(message: string)

  const CancelationMessage := "Fetching image canceled."
  const CsvContentType := "text/csv"
  const NonCsvPrefix := "Expected  CSV; found "
  /** Number of data records kept in the preview. */
  const PreviewRows: nat := 10

  // ---------------------------------------------------------------------
  // Content-type gate

  /** `str::contains` */
  function Contains(s: string, sub: string): bool {
    if |s| < |sub| then false
    else s[..|sub|] == sub || Contains(s[1..], sub)
  }

  /** `sub` occurs in `s` at offset `i`. */
  predicate OccursAt(s: string, sub: string, i: int) {
    0 <= i <= |s| - |sub| && s[i..i + |sub|] == sub
  }

  /** `Contains` holds exactly when the pattern occurs somewhere. */
  lemma {:induction false} ContainsIff(s: string, sub: string)
    ensures Contains(s, sub) <==> exists i :: OccursAt(s, sub, i)
  {
    if |s| >= |sub| {
      if s[..|sub|] == sub {
        assert OccursAt(s, sub, 0);
      } else {
        ContainsIff(s[1..], sub);
        if exists i :: OccursAt(s, sub, i) {
          var i :| OccursAt(s, sub, i);
          assert i != 0;
          assert s[1..][i - 1..i - 1 + |sub|] == s[i..i + |sub|];
          assert OccursAt(s[1..], sub, i - 1);
        }
        if Contains(s[1..], sub) {
          var j :| OccursAt(s[1..], sub, j);
          assert s[1..][j..j + |sub|] == s[j + 1..j + 1 + |sub|];
          assert OccursAt(s, sub, j + 1);
        }
      }
    }
  }

  // ---------------------------------------------------------------------
  // The chunk loop

  /** The bytes of the chunks, in order. */
  function Concat(chunks: seq<seq<byte>>): seq<byte> {
    if chunks == [] then [] else Concat(chunks[..|chunks| - 1]) + chunks[|chunks| - 1]
  }

  /** One `Channel::Data(len)` per chunk, in order. */
  function ProgressOf(chunks: seq<seq<byte>>): seq<Channel> {
    seq(|chunks|, i requires 0 <= i < |chunks| => Channel.Data(|chunks[i]|))
  }

  /** The progress reported for some chunks adds up to their byte count. */
  lemma {:induction false} ProgressCountsBytes(chunks: seq<seq<byte>>)
    ensures DataSum(ProgressOf(chunks)) == |Concat(chunks)|
  {
    if chunks != [] {
      var init := chunks[..|chunks| - 1];
      ProgressCountsBytes(init);
      assert ProgressOf(chunks)[..|chunks| - 1] == ProgressOf(init);
    }
  }

  datatype StreamOutcome = Received(bytes: seq<byte>) | Canceled | StreamFailed(message: string)

  /** What the chunk loop ends with, and the messages it sent. */
  datatype StreamRun = StreamRun(outcome: StreamOutcome, sent: seq<Channel>)

  /** The chunk loop of `fetch_data`.  `firstCancel` is the first poll of
      `should_cancel()` that sees the flag set: poll k follows chunk k, and
      poll `|chunks|` follows the end of the stream (there is no poll after
      a chunk error). */
  function ReadBodySpec(body: Body, firstCancel: Option<nat>): StreamRun {
    var n := |body.chunks|;
    if firstCancel.Some? && firstCancel.value < n then
      StreamRun(Canceled, ProgressOf(body.chunks[..firstCancel.value]))
    else if body.end.ChunkError? then
      StreamRun(StreamFailed(body.end.message), ProgressOf(body.chunks))
    else if firstCancel == Some(n) then
      StreamRun(Canceled, ProgressOf(body.chunks))
    else
      StreamRun(Received(Concat(body.chunks)), ProgressOf(body.chunks))
  }

  method ReadBody(body: Body, firstCancel: Option<nat>) returns (outcome: StreamOutcome, sent: seq<Channel>)
    ensures StreamRun(outcome, sent) == ReadBodySpec(body, firstCancel)
    ensures outcome.Received? ==> DataSum(sent) == |outcome.bytes|
  {
    var imageBytes: seq<byte> := [];
    sent := [];
    var i := 0;
    while i < |body.chunks|
      invariant 0 <= i <= |body.chunks|
      invariant firstCancel.None? || firstCancel.value >= i
      invariant imageBytes == Concat(body.chunks[..i])
      invariant sent == ProgressOf(body.chunks[..i])
      invariant DataSum(sent) == |imageBytes|
    {
      var chunk := body.chunks[i];
      if firstCancel == Some(i) {
        return Canceled, sent;
      }
      sent := sent + [Channel.Data(|chunk|)];
      imageBytes := imageBytes + chunk;
      assert body.chunks[..i + 1][..i] == body.chunks[..i];
      i := i + 1;
    }
    assert body.chunks[..i] == body.chunks;
    if body.end.ChunkError? {
      return StreamFailed(body.end.message), sent;
    }
    if firstCancel == Some(|body.chunks|) {
      return Canceled, sent;
    }
    outcome := Received(imageBytes);
  }

  // ---------------------------------------------------------------------
  // The preview

  /** The header row: the header cells, or the single cell "Error" when
      reading the headers failed. */
  function HeaderRow(headers: Option<seq<string>>): seq<string> {
    match headers
    case Some(cells) => cells
    case None => ["Error"]
  }

  /** The panic message of `row.unwrap()` on a malformed record. */
  function UnwrapPanic(error: string): string {
    "called `Result::unwrap()` on an `Err` value: " + error
  }

  /** The cells of the first `n` records, or the panic of the first
      malformed one among them. */
  function TakeRows(records: seq<CsvRecord>, n: nat): Result<Table, string> {
    if n == 0 || records == [] then Ok([])
    else match records[0]
      case Malformed(e) => Err(UnwrapPanic(e))
      case Record(cells) => Prepend([cells], TakeRows(records[1..], n - 1))
  }

  function Prepend(rows: Table, r: Result<Table, string>): Result<Table, string> {
    match r
    case Ok(rest) => Ok(rows + rest)
    case Err(e) => Err(e)
  }

  /** The first `n` records come out in order when none of them is
      malformed; otherwise the first malformed one decides the panic. */
  lemma {:induction false} TakeRowsShape(records: seq<CsvRecord>, n: nat)
    ensures var m := if n < |records| then n else |records|;
            var r := TakeRows(records, n);
            && (r.Ok? <==> forall i :: 0 <= i < m ==> records[i].Record?)
            && (r.Ok? ==> |r.value| == m && forall i :: 0 <= i < m ==> r.value[i] == records[i].cells)
            && (r.Err? ==> exists i :: 0 <= i < m && records[i].Malformed?
                                       && r.error == UnwrapPanic(records[i].error)
                                       && forall j :: 0 <= j < i ==> records[j].Record?)
  {
    if n != 0 && records != [] {
      TakeRowsShape(records[1..], n - 1);
      var r := TakeRows(records[1..], n - 1);
      if records[0].Record? && r.Err? {
        var i :| 0 <= i < (if n - 1 < |records| - 1 then n - 1 else |records| - 1)
                 && records[1..][i].Malformed?
                 && r.error == UnwrapPanic(records[1..][i].error)
                 && forall j :: 0 <= j < i ==> records[1..][j].Record?;
        assert records[i + 1] == records[1..][i];
        assert forall j :: 0 <= j < i + 1 ==> records[j].Record? by {
          forall j | 0 <= j < i + 1 ensures records[j].Record? {
            if j > 0 { assert records[j] == records[1..][j - 1]; }
          }
        }
      }
    }
  }

  /** The preview `fetch_data` builds: the header row followed by at most
      ten data records, or the panic of an unreadable one among them. */
  function PreviewSpec(headers: Option<seq<string>>, records: seq<CsvRecord>): Result<Table, string> {
    Prepend([HeaderRow(headers)], TakeRows(records, PreviewRows))
  }

  /** Given `n` readable records the preview has `1 + min(n, 10)` rows: the
      header row (or `["Error"]`), then record `i` at row `i + 1`. */
  lemma PreviewShape(headers: Option<seq<string>>, records: seq<CsvRecord>)
    requires forall i :: 0 <= i < |records| && i < PreviewRows ==> records[i].Record?
    ensures var p := PreviewSpec(headers, records);
            var m := if |records| < PreviewRows then |records| else PreviewRows;
            && p.Ok?
            && |p.value| == 1 + m
            && p.value[0] == HeaderRow(headers)
            && (headers.None? ==> p.value[0] == ["Error"])
            && forall i :: 0 <= i < m ==> p.value[i + 1] == records[i].cells
  {
    TakeRowsShape(records, PreviewRows);
  }

  /** The record loop of `fetch_data`.  `pulled` counts the records taken
      from the reader: the loop stops at the eleventh without using it. */
  method BuildPreview(headers: Option<seq<string>>, records: seq<CsvRecord>) returns (preview: Result<Table, string>, pulled: nat)
    ensures preview == PreviewSpec(headers, records)
    ensures pulled <= |records| && pulled <= PreviewRows + 1
    ensures preview.Ok? ==> pulled == if |records| < PreviewRows + 1 then |records| else PreviewRows + 1
  {
    var firstTenRecords := [HeaderRow(headers)];
    pulled := 0;
    var i := 0;
    while i < |records|
      invariant 0 <= i <= |records| && i <= PreviewRows
      invariant pulled == i
      invariant |firstTenRecords| == i + 1 && firstTenRecords[0] == HeaderRow(headers)
      invariant PreviewSpec(headers, records) == Prepend(firstTenRecords, TakeRows(records[i..], PreviewRows - i))
    {
      var row := records[i];
      pulled := pulled + 1;
      if i < PreviewRows {
        assert records[i..][0] == row && records[i..][1..] == records[i + 1..];
        match row
        case Malformed(e) =>
          assert TakeRows(records[i..], PreviewRows - i) == Err(UnwrapPanic(e));
          preview := Err(UnwrapPanic(e));
          return;
        case Record(cells) =>
          var rest := TakeRows(records[i + 1..], PreviewRows - (i + 1));
          assert TakeRows(records[i..], PreviewRows - i) == Prepend([cells], rest);
          assert Prepend(firstTenRecords, Prepend([cells], rest)) == Prepend(firstTenRecords + [cells], rest) by {
            if rest.Ok? { assert firstTenRecords + ([cells] + rest.value) == (firstTenRecords + [cells]) + rest.value; }
          }
          firstTenRecords := firstTenRecords + [cells];
      } else {
        break;
      }
      i := i + 1;
    }
    assert TakeRows(records[i..], PreviewRows - i) == Ok([]);
    assert firstTenRecords + [] == firstTenRecords;
    preview := Ok(firstTenRecords);
  }

  // ---------------------------------------------------------------------
  // The whole task

  /** The terminal outcome and the messages sent. */
  datatype FetchRun = FetchRun(outcome: Outcome, sent: seq<Channel>)

  /** `fetch_data` followed by the `match` in `spawn_fetch_data`: every
      `Err` becomes `ErrCause::Data`, a panic becomes `Panicked`. */
  function FetchSpec(response: Response, firstCancel: Option<nat>, elapsed: Duration,
                     decode: seq<byte> -> Decoded): FetchRun
  {
    match response.contentType
    case Err(e) => FetchRun(Suppose(ErrCause.Data(e)), [])
    case Ok(contentType) =>
      if !Contains(contentType, CsvContentType) then
        FetchRun(Suppose(ErrCause.Data(NonCsvPrefix + contentType + ": " + response.bodyText)), [])
      else
        var run := ReadBodySpec(response.body, firstCancel);
        match run.outcome
        case Canceled => FetchRun(Suppose(ErrCause.Data(CancelationMessage)), run.sent)
        case StreamFailed(e) => FetchRun(Suppose(ErrCause.Data(e)), run.sent)
        case Received(bytes) =>
          var sent := run.sent + [Channel.Elapsed(elapsed)];
          match decode(bytes)
          case InvalidUtf8(e) => FetchRun(Panicked("Invalid UTF-8 sequence: " + e), sent)
          case Csv(headers, records) =>
            match PreviewSpec(headers, records)
            case Ok(rows) => FetchRun(Success(Container.Data(rows)), sent)
            case Err(p) => FetchRun(Panicked(p), sent)
  }

  method FetchData(response: Response, firstCancel: Option<nat>, elapsed: Duration,
                   decode: seq<byte> -> Decoded) returns (outcome: Outcome, sent: seq<Channel>)
    ensures FetchRun(outcome, sent) == FetchSpec(response, firstCancel, elapsed, decode)
  {
    sent := [];
    if response.contentType.Err? {
      return Suppose(ErrCause.Data(response.contentType.error)), sent;
    }
    var contentType := response.contentType.value;
    if !Contains(contentType, CsvContentType) {
      var t := NonCsvPrefix + contentType + ": " + response.bodyText;
      return Suppose(ErrCause.Data(t)), sent;
    }
    var streamed;
    streamed, sent := ReadBody(response.body, firstCancel);
    match streamed
    case Canceled =>
      return Suppose(ErrCause.Data(CancelationMessage)), sent;
    case StreamFailed(e) =>
      return Suppose(ErrCause.Data(e)), sent;
    case Received(imageBytes) =>
      sent := sent + [Channel.Elapsed(elapsed)];
      match decode(imageBytes)
      case InvalidUtf8(e) =>
        return Panicked("Invalid UTF-8 sequence: " + e), sent;
      case Csv(headers, records) =>
        var preview, _ := BuildPreview(headers, records);
        match preview
        case Ok(rows) =>
          outcome := Success(Container.Data(rows));
        case Err(p) =>
          outcome := Panicked(p);
  }

  // ---------------------------------------------------------------------
  // Properties of the task

  /** A successful fetch saw a CSV content type, read the whole stream
      without observing the cancel flag, and sent one progress message
      per chunk, adding up to the bytes received, then the elapsed time
      last. */
  lemma FetchSuccess(response: Response, firstCancel: Option<nat>, elapsed: Duration, decode: seq<byte> -> Decoded)
    requires FetchSpec(response, firstCancel, elapsed, decode).outcome.Success?
    ensures var run := FetchSpec(response, firstCancel, elapsed, decode);
            var chunks := response.body.chunks;
            && response.contentType.Ok? && Contains(response.contentType.value, CsvContentType)
            && response.body.end == EndOfStream
            && (firstCancel.None? || firstCancel.value > |chunks|)
            && run.sent == ProgressOf(chunks) + [Channel.Elapsed(elapsed)]
            && DataSum(run.sent) == |Concat(chunks)|
  {
    var chunks := response.body.chunks;
    ProgressCountsBytes(chunks);
    assert (ProgressOf(chunks) + [Channel.Elapsed(elapsed)])[..|chunks|] == ProgressOf(chunks);
  }

  /** The cancel flag seen after chunk `k` (or after the end of the stream)
      ends the fetch with the cancellation error: no container, and only the
      progress of the chunks before it was sent. */
  lemma FetchCanceled(response: Response, k: nat, elapsed: Duration, decode: seq<byte> -> Decoded)
    requires response.contentType.Ok? && Contains(response.contentType.value, CsvContentType)
    requires k < |response.body.chunks| || (k == |response.body.chunks| && response.body.end == EndOfStream)
    ensures var run := FetchSpec(response, Some(k), elapsed, decode);
            && run.outcome == Suppose(ErrCause.Data(CancelationMessage))
            && DataSum(run.sent) == |Concat(response.body.chunks[..k])|
  {
    ProgressCountsBytes(response.body.chunks[..k]);
    assert response.body.chunks[..|response.body.chunks|] == response.body.chunks;
  }

  /** A content type without "text/csv" ends the fetch before the body is
      streamed, with an error naming that content type. */
  lemma FetchRejectsNonCsv(response: Response, firstCancel: Option<nat>, elapsed: Duration, decode: seq<byte> -> Decoded)
    requires response.contentType.Ok? && !Contains(response.contentType.value, CsvContentType)
    ensures var run := FetchSpec(response, firstCancel, elapsed, decode);
            var prefix := "Expected  CSV; found " + response.contentType.value;
            && run.outcome.Suppose? && run.outcome.cause.Data?
            && |prefix| <= |run.outcome.cause.message|
            && run.outcome.cause.message[..|prefix|] == prefix
            && run.sent == []
  {
    var prefix := NonCsvPrefix + response.contentType.value;
    var m := prefix + ": " + response.bodyText;
    assert m[..|prefix|] == prefix;
  }

  /** The rows of a successful fetch are the preview of the decoded body:
      the header row, then at most ten records in document order. */
  lemma FetchRows(response: Response, firstCancel: Option<nat>, elapsed: Duration, decode: seq<byte> -> Decoded)
    requires FetchSpec(response, firstCancel, elapsed, decode).outcome.Success?
    ensures var c := FetchSpec(response, firstCancel, elapsed, decode).outcome.container;
            var d := decode(Concat(response.body.chunks));
            var m := if |d.records| < PreviewRows then |d.records| else PreviewRows;
            && c.Data? && d.Csv?
            && |c.rows| == 1 + m
            && c.rows[0] == HeaderRow(d.headers)
            && forall i :: 0 <= i < m ==> d.records[i].Record? && c.rows[i + 1] == d.records[i].cells
  {
    var d := decode(Concat(response.body.chunks));
    TakeRowsShape(d.records, PreviewRows);
  }
}
