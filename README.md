# SoQL Studio: a Dafny model of its query and fetch core

SoQL Studio is a desktop editor for SoQL queries against a Socrata open-data portal.
The user types a query and presses **Run Query**. The application then:

- sanitises the query text;
- builds a `/resource/<dataset>.csv?$query=` URL;
- streams the CSV response on a background task, reporting the bytes received and the elapsed time as progress messages;
- shows the header row and the first ten records.

A second button, **Run Query Analysis**, sends the same query to the `query_info?analyze=true` endpoint.

This project models that core and proves properties of it:

- `query.dfy` (module `Query`) covers the query sanitiser and the two URL builders of `src/socrata/mod.rs`. They are pure functions, and the lemmas about them are proved by induction.
- `response_data.dfy` (module `SocrataData`) covers the result slot of `src/socrata/data.rs`.
  - The message types are `Channel`, `ErrCause` and `Container`.
  - `ResponseData` is a class whose methods update its fields in place.
  - Each method is proved against a specification function on a snapshot of the fields: `WithData`, `WithError` or `Repaired`.
- `utils.dfy` (module `Utils`) covers `NetworkImage` from `src/utils.rs`. It is a field-for-field duplicate of `ResponseData` and shares its specification functions.
- `analysis.dfy` (module `Analysis`) covers the analysis result slot of `src/socrata/analysis.rs`.
- `fetch.dfy` (module `Fetch`) covers the background download `fetch_data` of `src/main.rs`.
  - It models the content-type gate, the chunk loop with its two cancellation polls, the elapsed-time message, the UTF-8 panic and the ten-record preview loop.
  - The two loops are methods with loop invariants, proved against `ReadBodySpec`, `PreviewSpec` and `FetchSpec`.
- `studio.dfy` (module `Studio`) covers the application state of `src/main.rs`. `SoqlStudio` is a class holding the two result slots and the driver's fields.
  - Its methods model `new`, `reset_fetch`, `spawn_fetch_data` and `spawn_analyze_query`.
  - They also model the per-frame `extract`/`finalize` handlers of the two background tasks, and the two button handlers.
  - Each method is proved against a specification function on a `StudioState` snapshot.
  - An event-trace model (`Step`, `Run`) proves that `get_data` is always true, so the `!get_data` branches are dead.
- `wrappers.dfy` (module `Wrappers`) holds `Option` and `Result`.

Parts of the core depend on the outside world, so the model takes them as inputs:

- The HTTP response is a value. It carries the `Content-Type` header (or the error reading it), the body as a list of chunks ending in end-of-stream or a chunk error, and the text of the body used in the non-CSV error message.
- The moment the task first sees the cancel flag is a parameter, `firstCancel`. It is the index of the `should_cancel` poll that first answers yes. Poll `k < n` follows chunk `k`, and poll `n` follows the end of the stream.
- The elapsed time is a parameter.
- UTF-8 validation and CSV parsing are one function parameter `decode`. It maps the received bytes to either a UTF-8 error or the header row (if readable) and the list of records. Each record is either readable cells or a parse error.
- The flower's `is_active` and `is_canceled` answers are parameters of the handlers. The call to `cancel()` is a returned boolean.
- A panic inside the task becomes an `Outcome.Panicked` carrying the panic text. This is how flowync forwards it to `finalize`.

Behaviour of the code that the model keeps, exactly as written:

- The cancellation message is "Fetching image canceled.".
- The non-CSV message starts "Expected  CSV; found ", with two spaces.
- `set_error` keeps the previous rows.
- A ready `Ok(Container::Elapsed(_))` result does not finalise the fetch.
- `spawn_analyze_query` clears the error of the main CSV slot and marks that slot running, not the analysis slot.
- A finished analysis calls `reset_fetch` on the main slot.

## Model

| member | source | states |
|---|---|---|
| Query.TrimStart | src/socrata/mod.rs:19 | `trim` (start side) never lengthens the text |
| Query.TrimEnd | src/socrata/mod.rs:19 | `trim` (end side) never lengthens the text |
| Query.TrimStartShape | src/socrata/mod.rs:19 | `trim` drops exactly the leading whitespace run: the result is a suffix, everything dropped is whitespace, and the result does not start with whitespace |
| Query.TrimEndShape | src/socrata/mod.rs:19 | the same for the trailing whitespace run |
| Query.RemoveWhitespaceAppend | src/socrata/mod.rs:15-22 | deleting all whitespace distributes over concatenation; this is the text-preservation measure used below |
| Query.ReplaceNewlinesKeepsText | src/socrata/mod.rs:17 | replacing `\n` by a space keeps the non-whitespace text |
| Query.ReplaceNewlinesFixes | src/socrata/mod.rs:17 | text without `\n` is unchanged by the newline replacement |
| Query.ReplaceNewlinesAppend | src/socrata/mod.rs:17 | the newline replacement works character by character, so it distributes over concatenation |
| Query.DeleteTabsKeepsText | src/socrata/mod.rs:18 | deleting tabs keeps the non-whitespace text |
| Query.DeleteTabsFixes | src/socrata/mod.rs:18 | text without tabs is unchanged by tab deletion |
| Query.DeleteTabsAppend | src/socrata/mod.rs:18 | tab deletion distributes over concatenation |
| Query.TrimStartKeepsText | src/socrata/mod.rs:19 | trimming the start keeps the non-whitespace text |
| Query.TrimEndKeepsText | src/socrata/mod.rs:19 | trimming the end keeps the non-whitespace text |
| Query.CollapseSingleSpaced | src/socrata/mod.rs:16-20 | after `[\s]+` is replaced by one space, every whitespace character is a single space with no whitespace next to it; the result is empty iff the input is; the first character is whitespace iff the input's is |
| Query.CollapseLast | src/socrata/mod.rs:16-20 | the collapsed text ends in whitespace iff the input does |
| Query.CollapseKeepsText | src/socrata/mod.rs:16-20 | collapsing whitespace runs keeps the non-whitespace text |
| Query.CollapseFixesSingleSpaced | src/socrata/mod.rs:16-20 | collapsing text that is already single-spaced changes nothing |
| Query.TrimStartAppend | src/socrata/mod.rs:19 | trimming the start of `x + y`, where `x` ends in a non-whitespace character, trims only `x` |
| Query.TrimStartRun | src/socrata/mod.rs:19 | a whitespace run in front of a word is trimmed away entirely |
| Query.CollapseJoinRunStep | src/socrata/mod.rs:16-20 | a leading whitespace run of the left part is collapsed independently of the join |
| Query.CollapseJoinWordStep | src/socrata/mod.rs:16-20 | a leading word character of the left part is copied independently of the join |
| Query.CollapseJoin | src/socrata/mod.rs:16-20 | a non-empty whitespace run between two non-whitespace characters becomes exactly one space, and each side is collapsed independently |
| Query.CleanRun | src/socrata/mod.rs:17-18 | the newline and tab steps turn a whitespace run into a whitespace run, which is empty exactly when the run was all tabs |
| Query.NormalizedIsFixed | src/socrata/mod.rs:15-22 | every stage of `sanitize` leaves a text in normal form (trimmed, single-spaced) unchanged |
| Query.SanitizeNormalized | src/socrata/mod.rs:15-22 | `sanitize` yields a trimmed, single-spaced text with no newline or tab |
| Query.SanitizeKeepsText | src/socrata/mod.rs:15-22 | `sanitize` keeps every non-whitespace character of the query, in order |
| Query.SanitizeIdempotent | src/socrata/mod.rs:15-22 | sanitising twice equals sanitising once |
| Query.SanitizeDeletesTab | src/socrata/mod.rs:18 | a tab between two words is deleted, joining them |
| Query.SanitizeJoin | src/socrata/mod.rs:15-22 | any whitespace run between two words that is not only tabs becomes exactly one space |
| Query.SanitizeNewlineToSpace | src/socrata/mod.rs:17 | a newline between two non-empty words becomes one space |
| Query.QueryPart | src/socrata/mod.rs:23-26 | the query part it extracts is exactly what follows the fixed URL prefix |
| Query.MakeQueryRoundTrip | src/socrata/mod.rs:23-26 | the query URL is the prefix for the domain and dataset followed by the sanitised query, which can be read back |
| Query.MakeQueryDeterminedBySanitize | src/socrata/mod.rs:23-26 | two queries give the same URL iff they sanitise to the same text |
| Query.MakeQueryOfSanitized | src/socrata/mod.rs:23-31 | building either URL from an already sanitised query gives the same URL |
| Query.MakeAnalyzeUrlShape | src/socrata/mod.rs:28-31 | the analysis URL is its prefix followed by a normal-form text with the query's non-whitespace text |
| SocrataData.Repaired | src/socrata/data.rs:42-50 | `repair` stores the size in whole kilobytes when at least 1000 bytes were accumulated, keeps the old size otherwise, and stops running with the accumulator cleared; data, error and seed are kept |
| SocrataData.SetDataClearsError | src/socrata/data.rs:33-36 | `set_data` stores the rows, clears the error and changes nothing else |
| SocrataData.SetErrorKeepsData | src/socrata/data.rs:38-40 | `set_error` stores the message and changes nothing else (the rows stay) |
| SocrataData.RepairIdempotent | src/socrata/data.rs:42-50 | repairing twice is repairing once |
| SocrataData.RepairExamples | src/socrata/data.rs:44-47 | 2300 accumulated bytes show as 2 KB; 450 bytes leave the displayed size unchanged |
| SocrataData.ResponseData.constructor | src/socrata/data.rs:22-30 | the derived default: no data, sizes 0, not running, no error, seed 0 |
| SocrataData.ResponseData.SetData | src/socrata/data.rs:33-36 | in place: data set, error cleared, other fields unchanged |
| SocrataData.ResponseData.SetError | src/socrata/data.rs:38-40 | in place: error set, other fields unchanged |
| SocrataData.ResponseData.Repair | src/socrata/data.rs:42-50 | in place: the kilobyte conversion and reset of `Repaired` |
| Utils.NetworkImage.constructor | src/utils.rs:22-30 | the derived default, as for `ResponseData` |
| Utils.NetworkImage.SetImage | src/utils.rs:33-36 | in place: image set, error cleared, other fields unchanged |
| Utils.NetworkImage.SetError | src/utils.rs:38-40 | in place: error set, other fields unchanged |
| Utils.NetworkImage.Repair | src/utils.rs:42-50 | in place: the kilobyte conversion, progress hidden, accumulator cleared |
| Analysis.ErrorThenData | src/socrata/analysis.rs:22-29 | an error followed by data leaves the data and no error |
| Analysis.DataThenError | src/socrata/analysis.rs:22-29 | data followed by an error leaves both |
| Analysis.UpdatesKeepRunning | src/socrata/analysis.rs:22-29 | neither update touches the running flag |
| Analysis.AnalysisResponseData.constructor | src/socrata/analysis.rs:14-19 | the derived default |
| Analysis.AnalysisResponseData.SetData | src/socrata/analysis.rs:22-25 | in place: data set, error cleared, running flag unchanged |
| Analysis.AnalysisResponseData.SetError | src/socrata/analysis.rs:27-29 | in place: error set, data and running flag unchanged |
| Fetch.ContainsIff | src/main.rs:100 | the content-type test holds iff "text/csv" occurs at some position of the header value |
| Fetch.ProgressCountsBytes | src/main.rs:110-115 | the `Channel::Data` progress messages add up to the number of bytes collected |
| Fetch.ReadBody | src/main.rs:101-122 | the chunk loop: bytes collected in order, one progress message per chunk, cancellation polled after each chunk and after the end of the stream, a chunk error ends the loop; the progress sent adds up to the bytes received |
| Fetch.TakeRowsShape | src/main.rs:141-151 | the records taken are the first `min(n, count)` ones, in order, iff all of them parse; otherwise the result is the unwrap panic of the first unreadable one |
| Fetch.PreviewShape | src/main.rs:129-153 | with readable records the preview is the header row (or `["Error"]`) and then record `i` at row `i + 1`, at most ten |
| Fetch.BuildPreview | src/main.rs:129-153 | the record loop builds exactly that preview, and pulls at most eleven records from the reader |
| Fetch.FetchData | src/main.rs:79-159 | the whole task: content-type gate, chunk loop, elapsed message, UTF-8 panic, preview, non-CSV error |
| Fetch.FetchSuccess | src/main.rs:100-153 | a successful fetch had a CSV content type, read the whole stream without seeing the cancel flag, and sent one progress message per chunk and then the elapsed time; the progress adds up to the body's size |
| Fetch.FetchCanceled | src/main.rs:101-122 | a cancel seen after chunk `k` ends with the cancellation error, having reported exactly the bytes of the first `k` chunks |
| Fetch.FetchRejectsNonCsv | src/main.rs:154-157 | a content type without "text/csv" ends with an error naming that type, before any progress is sent |
| Fetch.FetchRows | src/main.rs:129-153 | the rows of a successful fetch are the header row and the first `min(10, count)` records of the decoded body |
| Studio.SoqlStudio.constructor | src/main.rs:55-77 | the initial state: get_data true, "Run Query", default slots, empty URL, zero duration |
| Studio.SoqlStudio.ResetFetch | src/main.rs:197-210 | in place: the slot is repaired, then the seed and label are updated by the cancel and get_data branches |
| Studio.SoqlStudio.SpawnFetchData | src/main.rs:174-179 | in place: the query URL is rebuilt, the error cleared and the slot marked running |
| Studio.SoqlStudio.SpawnAnalyzeQuery | src/main.rs:221-226 | in place: the analysis URL is built, and the main slot's error is cleared and it is marked running |
| Studio.SoqlStudio.DrainDataFlower | src/main.rs:310-354 | in place: progress messages accumulate bytes and set the duration; a terminal result is stored and `reset_fetch` runs, except for `Ok(Container::Elapsed)` |
| Studio.SoqlStudio.DrainAnalysisFlower | src/main.rs:355-391 | in place: the analysis result is stored in the analysis slot and `reset_fetch` of the main slot runs |
| Studio.SoqlStudio.ClickRun | src/main.rs:409-424 | in place: while active, cancel (or the wait label when get_data is false); while idle, raise the seed, spawn the fetch, and offer "Cancel?" |
| Studio.SoqlStudio.ClickRunAnalysis | src/main.rs:428-442 | in place: the same as Run, spawning the analysis |
| Studio.ApplyMessagesEffect | src/main.rs:313-322 | draining messages adds every byte count to the accumulator, keeps the last elapsed time and changes nothing else |
| Studio.ApplyMessagesAppend | src/main.rs:313-322 | messages drained over two frames have the same effect as draining them in one |
| Studio.ResetFetchEffect | src/main.rs:197-210 | with get_data set: the slot is repaired; a canceled fetch lowers the seed (never below 1) and offers "Retry?"; otherwise the seed is kept and "Run Query" is restored; nothing else changes |
| Studio.ClickRunWhenIdle | src/main.rs:417-423 | pressing Run while idle raises the seed, clears the error, marks the slot running, rebuilds the URL from the current query and offers "Cancel?", changing nothing else |
| Studio.CanceledAttemptSeed | src/main.rs:200-204 | an attempt started and then canceled leaves the seed at `max(seed, 1)`, offers "Retry?" and stops the slot |
| Studio.DrainElapsedResultDoesNotFinalize | src/main.rs:325 | a ready `Ok(Container::Elapsed)` only drains messages: nothing is stored and `reset_fetch` does not run |
| Studio.DrainFinalizes | src/main.rs:323-353 | every other ready result stops the slot: rows are stored with the error cleared; data and panic errors are stored with the rows kept; a timing error resets only the duration |
| Studio.FetchThenDrain | src/main.rs:79-159 | end to end: a successful fetch, drained over any two frames, shows its rows with no error, the bytes accumulated (any left over plus the body) in KB when at least 1000, the reported elapsed time and an idle slot; the button then offers "Run Query" with the seed kept, or, when the flower reports a cancel that came after the task's last poll, "Retry?" with the seed lowered (never below 1) |
| Studio.StepKeepsGetData | src/main.rs:65 | no handler clears get_data |
| Studio.GetDataStaysTrue | src/main.rs:65 | get_data stays true over any sequence of presses, frames and edits |
| Studio.NotGetDataUnreachable | src/main.rs:412-413 | in every reachable state, a press while active cancels (the wait label is never shown) and `reset_fetch` never raises the seed |

## Left out

- The network: the HTTP client, basic authentication and the request itself. The response is an input.
- `fetch_analysis` (src/main.rs:243-255). Its result is an input of the analysis drain.
- The tokio runtime and flowync's threads, channels and scheduling. Each frame's messages, its ready result and the flower's flags are inputs.
- UTF-8 validation and CSV parsing. They are the `decode` parameter.
- `Instant` and `Duration` arithmetic. The elapsed time is a number given as input.
- The egui interface: layout, the syntax highlighter, the style files, the text-edit widgets and the "Downloaded" size label. Edits of the domain, dataset, query and URL boxes are an event that sets those fields.
- The username and password fields and their text boxes. They only travel to the network layer, which is not modelled.
- `src/config.rs`: `get_config` and `set_config`. The configured domain, dataset and query are constructor parameters.
- The `println!` calls in `spawn_fetch_data` and `spawn_analyze_query` (src/main.rs:175, src/main.rs:222). They write the URL to standard output and change no state.
- `app.py` and the `ExplainQuery` struct are not part of this model.
- Fetch.FetchData: the `{:?}` rendering of an `IOError`, which `spawn_fetch_data` applies to every error `fetch_data` returns (src/main.rs:192), is not modelled. The cancellation error, the non-CSV error, a chunk error and the header-read error each carry `fetch_data`'s own message text as given.
- Fetch.FetchData: the text the runtime attaches to a panic is not modelled. `Panicked` carries the panic's own message.
- Fetch.FetchData: the body text in the non-CSV message is an input. It stands for the debug rendering of `response.text()`.
- Studio.SoqlStudio.DrainDataFlower: the byte accumulator is an unbounded natural, so `usize` overflow of `tmp_file_size += b` is not modelled.
- Studio.SoqlStudio.ClickRun: the seed is an unbounded natural, so `usize` overflow of `seed += 1` is not modelled.
- Studio.SoqlStudio.ClickRunAnalysis: the seed is an unbounded natural, so `usize` overflow of `seed += 1` is not modelled.
