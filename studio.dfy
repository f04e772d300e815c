/**
 * The UI driver state of `SoqlStudio` in src/main.rs: the Run buttons,
 * `spawn_fetch_data`, `spawn_analyze_query`, `reset_fetch` and the
 * per-frame `extract`/`finalize` drain of both flowers.  The flowers are
 * outside the model: whether a flower is active or canceled is an input,
 * the messages it buffered are a sequence, its terminal result an option,
 * and `flower.cancel()` is reported back as a boolean.
 */
module Studio {

  import opened Wrappers
  import opened SocrataData
  import Query
  import Fetch
  import Analysis

  /** The analysis flower's terminal result. */
  datatype AnalysisOutcome =
    | Success(container: Analysis.AnalysisContainer)
    | Suppose(cause: Analysis.AnalysisErrCause)
    | Panicked(message: string)

  const RunLabel := "Run Query"
  const CancelLabel := "Cancel?"
  const RetryLabel := "Retry?"
  const WaitLabel := "Wait we are still fetching..."

  /** The fields of `SoqlStudio` that the driver reads or writes. */
  datatype StudioState = StudioState(
    csv: ResponseFields,
    analysis: Analysis.AnalysisFields,
    getData: bool,
    btnLabelNext: string,
    domain: string,
    dataset: string,
    currentQuery: string,
    url: string,
    queryDuration: Duration)

  /** `SoqlStudio::new`, given the domain, dataset and query of the config. */
  function InitialState(domain: string, dataset: string, query: string): StudioState {
    StudioState(DefaultFields, Analysis.DefaultAnalysisFields, true, RunLabel, domain, dataset, query, "", 0)
  }

  // ---------------------------------------------------------------------
  // Specification of each handler

  /** `reset_fetch` */
  function ResetFetchSpec(st: StudioState, canceled: bool): StudioState {
    var repaired := st.(csv := Repaired(st.csv));
    var seed := repaired.csv.seed;
    if st.getData && canceled then
      repaired.(csv := repaired.csv.(seed := if seed > 1 then seed - 1 else seed), btnLabelNext := RetryLabel)
    else if !st.getData && canceled then
      repaired.(csv := repaired.csv.(seed := seed + 1))
    else
      repaired.(btnLabelNext := RunLabel)
  }

  /** The state updates of `spawn_fetch_data`. */
  function SpawnFetchSpec(st: StudioState): StudioState {
    st.(url := Query.MakeQuery(st.domain, st.dataset, st.currentQuery),
        csv := st.csv.(error := None, isRunning := true))
  }

  /** The state updates of `spawn_analyze_query` (which, like
      `spawn_fetch_data`, marks the main slot as running). */
  function SpawnAnalyzeSpec(st: StudioState): StudioState {
    st.(url := Query.MakeAnalyzeUrl(st.domain, st.dataset, st.currentQuery),
        csv := st.csv.(error := None, isRunning := true))
  }

  /** The `extract` closure of the data flower, for one message. */
  function ApplyMessage(st: StudioState, m: Channel): StudioState {
    match m
    case Data(b) => st.(csv := st.csv.(tmpFileSize := st.csv.tmpFileSize + b))
    case Elapsed(e) => st.(queryDuration := e)
  }

  /** The `extract` closure applied to the buffered messages in order. */
  function ApplyMessages(st: StudioState, messages: seq<Channel>): StudioState {
    if messages == [] then st
    else ApplyMessage(ApplyMessages(st, messages[..|messages| - 1]), messages[|messages| - 1])
  }

  /** The duration of the last `Channel::Elapsed` message, or `d`. */
  function LastElapsed(d: Duration, messages: seq<Channel>): Duration {
    if messages == [] then d
    else if messages[|messages| - 1].Elapsed? then messages[|messages| - 1].duration
    else LastElapsed(d, messages[..|messages| - 1])
  }

  datatype Finalized = Finalized(state: StudioState, finalized: bool)

  /** The `finalize` closure of the data flower. */
  function FinalizeSpec(st: StudioState, result: Fetch.Outcome): Finalized {
    match result
    case Success(Elapsed(_)) => Finalized(st, false)
    case Success(Data(rows)) => Finalized(st.(csv := WithData(st.csv, rows)), true)
    case Suppose(Elapsed(_)) => Finalized(st.(queryDuration := 0), true)
    case Suppose(Data(e)) => Finalized(st.(csv := WithError(st.csv, e)), true)
    case Panicked(e) => Finalized(st.(csv := WithError(st.csv, e)), true)
  }

  /** One frame's drain of the data flower: nothing unless it is active;
      then every buffered message, then the terminal result if one is
      ready, then `reset_fetch` if that result finalised the fetch. */
  function DrainDataSpec(st: StudioState, active: bool, messages: seq<Channel>,
                         result: Option<Fetch.Outcome>, canceled: bool): StudioState
  {
    if !active then st
    else
      var drained := ApplyMessages(st, messages);
      match result
      case None => drained
      case Some(r) =>
        var f := FinalizeSpec(drained, r);
        if f.finalized then ResetFetchSpec(f.state, canceled) else f.state
  }

  /** The `finalize` closure of the analysis flower. */
  function FinalizeAnalysisSpec(st: StudioState, result: AnalysisOutcome): StudioState {
    match result
    case Success(Data(d)) => st.(analysis := Analysis.WithData(st.analysis, d))
    case Suppose(Data(e)) => st.(analysis := Analysis.WithError(st.analysis, e))
    case Panicked(e) => st.(analysis := Analysis.WithError(st.analysis, e))
  }

  /** One frame's drain of the analysis flower.  Its messages are ignored;
      every terminal result finalises and runs `reset_fetch` (of the main
      slot, with the data flower's canceled flag). */
  function DrainAnalysisSpec(st: StudioState, active: bool, result: Option<AnalysisOutcome>,
                             canceled: bool): StudioState
  {
    if !active || result.None? then st
    else ResetFetchSpec(FinalizeAnalysisSpec(st, result.value), canceled)
  }

  /** A button press: the new state, and whether `flower.cancel()` is called. */
  datatype Clicked = Clicked(state: StudioState, cancel: bool)

  /** The Run button handler; `active` is `flower.is_active()`. */
  function ClickRunSpec(st: StudioState, active: bool): Clicked {
    if active then
      if !st.getData then Clicked(st.(btnLabelNext := WaitLabel), false) else Clicked(st, true)
    else
      var bumped := st.(csv := st.csv.(seed := st.csv.seed + 1));
      Clicked(SpawnFetchSpec(bumped).(getData := true, btnLabelNext := CancelLabel), false)
  }

  /** The "Run Query Analysis" button handler; it too asks the data flower
      whether it is active. */
  function ClickAnalysisSpec(st: StudioState, active: bool): Clicked {
    if active then
      if !st.getData then Clicked(st.(btnLabelNext := WaitLabel), false) else Clicked(st, true)
    else
      var bumped := st.(csv := st.csv.(seed := st.csv.seed + 1));
      Clicked(SpawnAnalyzeSpec(bumped).(getData := true, btnLabelNext := CancelLabel), false)
  }

  // ---------------------------------------------------------------------
  // The driver, as the object the source mutates

  class SoqlStudio {
    const csvData: ResponseData
    const analysisData: Analysis.AnalysisResponseData
    var getData: bool
    var btnLabelNext: string
    var domain: string
    var dataset: string
    var currentQuery: string
    var url: string
    var queryDuration: Duration

    function State(): StudioState
      reads this, csvData, analysisData
    {
      StudioState(csvData.Fields(), analysisData.Fields(), getData, btnLabelNext,
                  domain, dataset, currentQuery, url, queryDuration)
    }

    /** `SoqlStudio::new` with the domain, dataset and query of the config. */
    constructor (domain: string, dataset: string, query: string)
      ensures fresh(csvData) && fresh(analysisData)
      ensures State() == InitialState(domain, dataset, query)
    {
      csvData := new ResponseData();
      analysisData := new Analysis.AnalysisResponseData();
      getData := true;
      btnLabelNext := RunLabel;
      this.domain := domain;
      this.dataset := dataset;
      currentQuery := query;
      url := "";
      queryDuration := 0;
    }

    method ResetFetch(canceled: bool)
      modifies this, csvData
      ensures State() == ResetFetchSpec(old(State()), canceled)
    {
      csvData.Repair();
      if getData && canceled {
        if csvData.seed > 1 {
          csvData.seed := csvData.seed - 1;
        }
        btnLabelNext := RetryLabel;
      } else if !getData && canceled {
        csvData.seed := csvData.seed + 1;
      } else {
        btnLabelNext := RunLabel;
      }
    }

    method SpawnFetchData()
      modifies this, csvData
      ensures State() == SpawnFetchSpec(old(State()))
    {
      url := Query.MakeQuery(domain, dataset, currentQuery);
      csvData.error := None;
      csvData.isRunning := true;
    }

    method SpawnAnalyzeQuery()
      modifies this, csvData
      ensures State() == SpawnAnalyzeSpec(old(State()))
    {
      url := Query.MakeAnalyzeUrl(domain, dataset, currentQuery);
      csvData.error := None;
      csvData.isRunning := true;
    }

    method DrainDataFlower(active: bool, messages: seq<Channel>, result: Option<Fetch.Outcome>, canceled: bool)
      modifies this, csvData
      ensures State() == DrainDataSpec(old(State()), active, messages, result, canceled)
    {
      if !active {
        return;
      }
      var fetchDataFinalized := false;
      var i := 0;
      while i < |messages|
        invariant 0 <= i <= |messages|
        invariant State() == ApplyMessages(old(State()), messages[..i])
      {
        match messages[i] {
          case Data(b) =>
            csvData.tmpFileSize := csvData.tmpFileSize + b;
          case Elapsed(e) =>
            queryDuration := e;
        }
        assert messages[..i + 1][..i] == messages[..i];
        i := i + 1;
      }
      assert messages[..i] == messages;
      if result.Some? {
        match result.value
        case Success(Elapsed(_)) =>
        case Success(Data(data)) =>
          csvData.SetData(data);
          fetchDataFinalized := true;
        case Suppose(err) =>
          match err {
            case Elapsed(_) =>
              queryDuration := 0;
            case Data(e) =>
              csvData.SetError(e);
          }
          fetchDataFinalized := true;
        case Panicked(err) =>
          csvData.SetError(err);
          fetchDataFinalized := true;
      }
      if fetchDataFinalized {
        ResetFetch(canceled);
      }
    }

    method DrainAnalysisFlower(active: bool, result: Option<AnalysisOutcome>, canceled: bool)
      modifies this, csvData, analysisData
      ensures State() == DrainAnalysisSpec(old(State()), active, result, canceled)
    {
      if !active {
        return;
      }
      var fetchAnalysisFinalized := false;
      if result.Some? {
        match result.value
        case Success(Data(data)) =>
          analysisData.SetData(data);
          fetchAnalysisFinalized := true;
        case Suppose(Data(e)) =>
          analysisData.SetError(e);
          fetchAnalysisFinalized := true;
        case Panicked(err) =>
          analysisData.SetError(err);
          fetchAnalysisFinalized := true;
      }
      if fetchAnalysisFinalized {
        ResetFetch(canceled);
      }
    }

    method ClickRun(active: bool) returns (cancel: bool)
      modifies this, csvData
      ensures Clicked(State(), cancel) == ClickRunSpec(old(State()), active)
    {
      cancel := false;
      if active {
        if !getData {
          btnLabelNext := WaitLabel;
        } else {
          cancel := true;
        }
      } else {
        ghost var before := State();
        csvData.seed := csvData.seed + 1;
        assert State() == before.(csv := before.csv.(seed := before.csv.seed + 1));
        SpawnFetchData();
        getData := true;
        btnLabelNext := CancelLabel;
      }
    }

    method ClickRunAnalysis(active: bool) returns (cancel: bool)
      modifies this, csvData
      ensures Clicked(State(), cancel) == ClickAnalysisSpec(old(State()), active)
    {
      cancel := false;
      if active {
        if !getData {
          btnLabelNext := WaitLabel;
        } else {
          cancel := true;
        }
      } else {
        ghost var before := State();
        csvData.seed := csvData.seed + 1;
        assert State() == before.(csv := before.csv.(seed := before.csv.seed + 1));
        SpawnAnalyzeQuery();
        getData := true;
        btnLabelNext := CancelLabel;
      }
    }
  }

  // ---------------------------------------------------------------------
  // Properties of the driver

  /** Draining messages adds every `Channel::Data` count to the byte
      accumulator, keeps the last elapsed time, and changes nothing else. */
  lemma {:induction false} ApplyMessagesEffect(st: StudioState, messages: seq<Channel>)
    ensures ApplyMessages(st, messages)
         == st.(csv := st.csv.(tmpFileSize := st.csv.tmpFileSize + DataSum(messages)),
                queryDuration := LastElapsed(st.queryDuration, messages))
  {
    if messages != [] {
      ApplyMessagesEffect(st, messages[..|messages| - 1]);
    }
  }

  /** Messages may be drained over several frames: draining `a` and then
      `b` is draining `a + b`. */
  lemma {:induction false} ApplyMessagesAppend(st: StudioState, a: seq<Channel>, b: seq<Channel>)
    ensures ApplyMessages(ApplyMessages(st, a), b) == ApplyMessages(st, a + b)
  {
    if b == [] {
      assert a + b == a;
    } else {
      var b' := b[..|b| - 1];
      ApplyMessagesAppend(st, a, b');
      assert (a + b)[..|a + b| - 1] == a + b';
      assert (a + b)[|a + b| - 1] == b[|b| - 1];
    }
  }

  /** `reset_fetch` repairs the main slot; with `get_data` set, a canceled
      fetch lowers the seed (never below 1) and offers a retry, any other
      fetch restores the Run label. */
  lemma ResetFetchEffect(st: StudioState, canceled: bool)
    requires st.getData
    ensures var r := ResetFetchSpec(st, canceled);
            && r.csv.(seed := st.csv.seed) == Repaired(st.csv)
            && (canceled ==> r.csv.seed == (if st.csv.seed > 1 then st.csv.seed - 1 else st.csv.seed))
            && (canceled ==> r.btnLabelNext == RetryLabel)
            && (!canceled ==> r.csv.seed == st.csv.seed && r.btnLabelNext == RunLabel)
            && r.(csv := st.csv, btnLabelNext := st.btnLabelNext) == st
  {
  }

  /** Run pressed while the data flower is idle starts a new fetch: the
      seed goes up, the error is cleared and the slot runs (its data and
      sizes kept), the URL is rebuilt and the button offers to cancel. */
  lemma ClickRunWhenIdle(st: StudioState)
    ensures var c := ClickRunSpec(st, false);
            && !c.cancel
            && c.state.csv == st.csv.(seed := st.csv.seed + 1, error := None, isRunning := true)
            && c.state.getData && c.state.btnLabelNext == CancelLabel
            && c.state.url == Query.MakeQuery(st.domain, st.dataset, st.currentQuery)
            && c.state.(csv := st.csv, getData := st.getData, btnLabelNext := st.btnLabelNext, url := st.url) == st
  {
  }

  /** An attempt that is started and then canceled leaves the seed at
      `max(seed, 1)` and the button offering a retry. */
  lemma CanceledAttemptSeed(st: StudioState)
    ensures var after := ResetFetchSpec(ClickRunSpec(st, false).state, true);
            && after.csv.seed == (if st.csv.seed >= 1 then st.csv.seed else 1)
            && after.btnLabelNext == RetryLabel
            && !after.csv.isRunning && after.csv.tmpFileSize == 0
  {
  }

  /** A ready `Ok(Container::Elapsed(_))` result does not finalise: no
      `reset_fetch` runs, so the slot keeps running. */
  lemma DrainElapsedResultDoesNotFinalize(st: StudioState, messages: seq<Channel>, d: Duration, canceled: bool)
    ensures DrainDataSpec(st, true, messages, Some(Fetch.Success(Container.Elapsed(d))), canceled)
         == ApplyMessages(st, messages)
  {
  }

  /** Every other terminal result finalises: the slot is repaired, so it
      stops running and its accumulator is cleared; rows are stored with
      the error cleared, data and panic errors are stored, and a timing
      error only resets the duration. */
  lemma DrainFinalizes(st: StudioState, messages: seq<Channel>, result: Fetch.Outcome, canceled: bool)
    requires !(result.Success? && result.container.Elapsed?)
    ensures var r := DrainDataSpec(st, true, messages, Some(result), canceled);
            && !r.csv.isRunning && r.csv.tmpFileSize == 0
            && (result.Success? ==> r.csv.data == Some(result.container.rows) && r.csv.error == None)
            && (result.Suppose? && result.cause.Data? ==> r.csv.error == Some(result.cause.message) && r.csv.data == st.csv.data)
            && (result.Panicked? ==> r.csv.error == Some(result.message) && r.csv.data == st.csv.data)
            && (result.Suppose? && result.cause.Elapsed? ==> r.queryDuration == 0 && r.csv.error == st.csv.error && r.csv.data == st.csv.data)
  {
    ApplyMessagesEffect(st, messages);
  }

  /** A successful fetch drained over two frames (any split of its
      messages): the rows are shown, the displayed size is the bytes
      accumulated (those left over plus those received) in whole
      kilobytes when at least 1000, the elapsed time is the one reported,
      and the slot is idle again.  A cancel pressed after the task's last
      poll does not stop the success, but `reset_fetch` still sees it:
      the button then offers a retry and the seed drops. */
  lemma FetchThenDrain(st: StudioState, response: Fetch.Response, firstCancel: Option<nat>, elapsed: Duration,
                       decode: seq<Fetch.byte> -> Fetch.Decoded, split: nat, canceled: bool)
    requires st.getData
    requires Fetch.FetchSpec(response, firstCancel, elapsed, decode).outcome.Success?
    requires split <= |Fetch.FetchSpec(response, firstCancel, elapsed, decode).sent|
    ensures var run := Fetch.FetchSpec(response, firstCancel, elapsed, decode);
            var acc := st.csv.tmpFileSize + |Fetch.Concat(response.body.chunks)|;
            var mid := DrainDataSpec(st, true, run.sent[..split], None, false);
            var r := DrainDataSpec(mid, true, run.sent[split..], Some(run.outcome), canceled);
            && run.outcome.container.Data?
            && r.csv.data == Some(run.outcome.container.rows) && r.csv.error == None
            && (acc >= 1000 ==> r.csv.fileSize == acc / 1000)
            && (acc < 1000 ==> r.csv.fileSize == st.csv.fileSize)
            && !r.csv.isRunning && r.csv.tmpFileSize == 0
            && r.queryDuration == elapsed
            && r.btnLabelNext == (if canceled then RetryLabel else RunLabel)
            && (canceled ==> r.csv.seed == (if st.csv.seed > 1 then st.csv.seed - 1 else st.csv.seed))
            && (!canceled ==> r.csv.seed == st.csv.seed)
  {
    var run := Fetch.FetchSpec(response, firstCancel, elapsed, decode);
    Fetch.FetchSuccess(response, firstCancel, elapsed, decode);
    Fetch.FetchRows(response, firstCancel, elapsed, decode);
    assert run.sent[..split] + run.sent[split..] == run.sent;
    ApplyMessagesAppend(st, run.sent[..split], run.sent[split..]);
    ApplyMessagesEffect(st, run.sent);
    assert run.sent[|run.sent| - 1] == Channel.Elapsed(elapsed);
  }

  // ---------------------------------------------------------------------
  // `get_data` is always true

  /** Everything that can happen to the driver: button presses, the two
      per-frame drains, and edits of the text fields. */
  datatype Event =
    | PressRun(active: bool)
    | PressRunAnalysis(active: bool)
    | DataFrame(active: bool, messages: seq<Channel>, result: Option<Fetch.Outcome>, canceled: bool)
    | AnalysisFrame(active: bool, analysisResult: Option<AnalysisOutcome>, canceled: bool)
    | Edit(domain: string, dataset: string, query: string, url: string)

  function Step(st: StudioState, e: Event): StudioState {
    match e
    case PressRun(active) => ClickRunSpec(st, active).state
    case PressRunAnalysis(active) => ClickAnalysisSpec(st, active).state
    case DataFrame(active, messages, result, canceled) => DrainDataSpec(st, active, messages, result, canceled)
    case AnalysisFrame(active, result, canceled) => DrainAnalysisSpec(st, active, result, canceled)
    case Edit(domain, dataset, query, url) => st.(domain := domain, dataset := dataset, currentQuery := query, url := url)
  }

  function Run(st: StudioState, events: seq<Event>): StudioState
    decreases |events|
  {
    if events == [] then st else Run(Step(st, events[0]), events[1..])
  }

  lemma StepKeepsGetData(st: StudioState, e: Event)
    requires st.getData
    ensures Step(st, e).getData
  {
    if e.DataFrame? {
      ApplyMessagesEffect(st, e.messages);
    }
  }

  /** `get_data` starts true and every handler leaves it true. */
  lemma {:induction false} GetDataStaysTrue(st: StudioState, events: seq<Event>)
    requires st.getData
    ensures Run(st, events).getData
    decreases |events|
  {
    if events != [] {
      StepKeepsGetData(st, events[0]);
      GetDataStaysTrue(Step(st, events[0]), events[1..]);
    }
  }

  /** Hence the `!get_data` branches are dead: in every reachable state a
      press of either button while the data flower is active cancels it
      (never "Wait we are still fetching..."), and `reset_fetch` never
      raises the seed. */
  lemma NotGetDataUnreachable(domain: string, dataset: string, query: string, events: seq<Event>, canceled: bool)
    ensures var st := Run(InitialState(domain, dataset, query), events);
            && ClickRunSpec(st, true) == Clicked(st, true)
            && ClickAnalysisSpec(st, true) == Clicked(st, true)
            && ResetFetchSpec(st, canceled).csv.seed <= st.csv.seed
  {
    GetDataStaysTrue(InitialState(domain, dataset, query), events);
  }
}
