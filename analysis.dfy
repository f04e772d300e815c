/**
 * The message types and the result record of the query-analysis slot,
 * src/socrata/analysis.rs.
 */
module Analysis {

  import opened Wrappers

  datatype AnalysisChannel = Data(bytes: nat)

  datatype AnalysisErrCause = Data(message: string)

  datatype AnalysisContainer = Data(text: string)

  /** The value of every field of an `AnalysisResponseData`. */
  datatype AnalysisFields = AnalysisFields(data: Option<string>, isRunning: bool, error: Option<string>)

  const DefaultAnalysisFields := AnalysisFields(None, false, None)

  /** The effect of `set_data`. */
  function WithData(f: AnalysisFields, d: string): AnalysisFields {
    f.(error := None, data := Some(d))
  }

  /** The effect of `set_error`. */
  function WithError(f: AnalysisFields, e: string): AnalysisFields {
    f.(error := Some(e))
  }

  /** A result that arrives after an error replaces it. */
  lemma ErrorThenData(f: AnalysisFields, e: string, d: string)
    ensures WithData(WithError(f, e), d) == f.(data := Some(d), error := None)
  {
  }

  /** An error that arrives after a result leaves that result in place. */
  lemma DataThenError(f: AnalysisFields, d: string, e: string)
    ensures WithError(WithData(f, d), e) == f.(data := Some(d), error := Some(e))
  {
  }

  /** Neither update writes `is_running`. */
  lemma UpdatesKeepRunning(f: AnalysisFields, s: string)
    ensures WithData(f, s).isRunning == f.isRunning
    ensures WithError(f, s).isRunning == f.isRunning
  {
  }

  /** `AnalysisResponseData`: the state of the analysis slot. */
  class AnalysisResponseData {
    var data: Option<string>
    var isRunning: bool
    var error: Option<string>

    function Fields(): AnalysisFields
      reads this
    {
      AnalysisFields(data, isRunning, error)
    }

    /** `#[derive(Default)]` */
    constructor ()
      ensures Fields() == DefaultAnalysisFields
    {
      data, isRunning, error := None, false, None;
    }

    method SetData(d: string)
      modifies this
      ensures data == Some(d) && error == None && isRunning == old(isRunning)
      ensures Fields() == WithData(old(Fields()), d)
    {
      error := None;
      data := Some(d);
    }

    method SetError(e: string)
      modifies this
      ensures error == Some(e) && data == old(data) && isRunning == old(isRunning)
      ensures Fields() == WithError(old(Fields()), e)
    {
      error := Some(e);
    }
  }
}
