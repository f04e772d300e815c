/**
 * The message types and the query result record of src/socrata/data.rs.
 */
module SocrataData {

  import opened Wrappers

  /** A CSV preview: a header row followed by data rows. */
  type Table = seq<seq<string>>

  /** `std::time::Duration`, as a whole number of nanoseconds. */
  type Duration = nat

  /** Interim messages from the fetch task to the UI. */
  datatype Channel = Data(bytes: nat) | Elapsed(duration: Duration)

  /** Expected error causes a fetch task reports. */
  datatype ErrCause = Data(message: string) | Elapsed(message: string)

  /** Successful results a fetch task reports. */
  datatype Container = Data(rows: Table) | Elapsed(duration: Duration)

  /** Total of the byte counts carried by the `Channel::Data` messages. */
  function DataSum(messages: seq<Channel>): nat {
    if messages == [] then 0
    else
      var last := messages[|messages| - 1];
      DataSum(messages[..|messages| - 1]) + (if last.Data? then last.bytes else 0)
  }

  /** The value of every field of a `ResponseData`. */
  datatype ResponseFields = ResponseFields(
    data: Option<Table>,
    fileSize: nat,
    tmpFileSize: nat,
    isRunning: bool,
    error: Option<string>,
    seed: nat)

  /** `ResponseData::default()`. */
  const DefaultFields := ResponseFields(None, 0, 0, false, None, 0)

  /** The effect of `set_data`. */
  function WithData(f: ResponseFields, d: Table): ResponseFields {
    f.(error := None, data := Some(d))
  }

  /** The effect of `set_error`. */
  function WithError(f: ResponseFields, e: string): ResponseFields {
    f.(error := Some(e))
  }

  /** The effect of `repair`: a byte count of at least 1000 becomes the
      displayed size in (truncated) kilobytes; the run is over and the
      accumulator is cleared. */
  function Repaired(f: ResponseFields): (r: ResponseFields)
    ensures f.tmpFileSize >= 1000 ==> r.fileSize * 1000 <= f.tmpFileSize < r.fileSize * 1000 + 1000
    ensures f.tmpFileSize < 1000 ==> r.fileSize == f.fileSize
    ensures !r.isRunning && r.tmpFileSize == 0
    ensures r.data == f.data && r.error == f.error && r.seed == f.seed
  {
    var kb := if f.tmpFileSize >= 1000 then f.tmpFileSize / 1000 else f.fileSize;
    f.(fileSize := kb, isRunning := false, tmpFileSize := 0)
  }

  /** `set_data` clears a stale error and touches nothing else. */
  lemma SetDataClearsError(f: ResponseFields, d: Table)
    ensures WithData(f, d).data == Some(d) && WithData(f, d).error == None
    ensures WithData(f, d).(data := f.data, error := f.error) == f
  {
  }

  /** `set_error` keeps the data of an earlier run. */
  lemma SetErrorKeepsData(f: ResponseFields, e: string)
    ensures WithError(f, e).error == Some(e)
    ensures WithError(f, e).(error := f.error) == f
  {
  }

  /** A second `repair` changes nothing. */
  lemma RepairIdempotent(f: ResponseFields)
    ensures Repaired(Repaired(f)) == Repaired(f)
  {
  }

  /** The two worked cases: 2300 bytes show as 2 KB, 450 bytes leave the
      displayed size alone. */
  lemma RepairExamples(f: ResponseFields)
    ensures Repaired(f.(tmpFileSize := 2300)).fileSize == 2
    ensures Repaired(f.(tmpFileSize := 450)).fileSize == f.fileSize
  {
  }

  /** `ResponseData`: the state of the main query slot. */
  class ResponseData {
    var data: Option<Table>
    var fileSize: nat
    var tmpFileSize: nat
    var isRunning: bool
    var error: Option<string>
    var seed: nat

    function Fields(): ResponseFields
      reads this
    {
      ResponseFields(data, fileSize, tmpFileSize, isRunning, error, seed)
    }

    /** `#[derive(Default)]` */
    constructor ()
      ensures Fields() == DefaultFields
    {
      data, fileSize, tmpFileSize, isRunning, error, seed := None, 0, 0, false, None, 0;
    }

    method SetData(d: Table)
      modifies this
      ensures data == Some(d) && error == None
      ensures fileSize == old(fileSize) && tmpFileSize == old(tmpFileSize)
      ensures isRunning == old(isRunning) && seed == old(seed)
      ensures Fields() == WithData(old(Fields()), d)
    {
      error := None;
      data := Some(d);
    }

    method SetError(e: string)
      modifies this
      ensures error == Some(e) && data == old(data)
      ensures fileSize == old(fileSize) && tmpFileSize == old(tmpFileSize)
      ensures isRunning == old(isRunning) && seed == old(seed)
      ensures Fields() == WithError(old(Fields()), e)
    {
      error := Some(e);
    }

    method Repair()
      modifies this
      ensures old(tmpFileSize) >= 1000 ==> fileSize == old(tmpFileSize) / 1000
      ensures old(tmpFileSize) < 1000 ==> fileSize == old(fileSize)
      ensures !isRunning && tmpFileSize == 0
      ensures data == old(data) && error == old(error) && seed == old(seed)
      ensures Fields() == Repaired(old(Fields()))
    {
      if tmpFileSize >= 1000 {
        tmpFileSize := tmpFileSize / 1000;
        fileSize := tmpFileSize;
      }
      isRunning := false;
      tmpFileSize := 0;
    }
  }
}
