/**
 Pipeline job rows and the worker's copies of them (backend/pipeline/db/repository.py).

 A worker edits an in-memory `Job` and saves named columns of it, so a save with
 `update_fields` overwrites those columns of the row from a copy that may be stale and leaves
 every other column as it is in the database.
 */
module Repository {
  import opened Prelude

  datatype JobStatus = PENDING | STARTED | COMPLETED | FAILED | QUARANTINED | SKIPPED

  datatype Stage = PREPROCESS | OCR | NORMALIZE | EXTRACT | LINK

  /** `sha256(document | version | features | config)`, the hash taken as injective. */
  datatype IdempotencyKey = Digest(document: string, version: string, features: string, config: string)

  datatype JobRow = JobRow(
    status: JobStatus, attempt: int, errorDetail: string, idempotencyKey: Option<IdempotencyKey>,
    externalJobId: Option<nat>)

  datatype Column = StatusColumn | AttemptColumn | ErrorColumn | KeyColumn | ExternalIdColumn

  /** `save(update_fields=columns)` of `copy` over the stored `row`. */
  function Save(row: JobRow, copy: JobRow, columns: set<Column>): JobRow {
    JobRow(
      if StatusColumn in columns then copy.status else row.status,
      if AttemptColumn in columns then copy.attempt else row.attempt,
      if ErrorColumn in columns then copy.errorDetail else row.errorDetail,
      if KeyColumn in columns then copy.idempotencyKey else row.idempotencyKey,
      if ExternalIdColumn in columns then copy.externalJobId else row.externalJobId)
  }

  function NewRow(key: Option<IdempotencyKey>): JobRow {
    JobRow(PENDING, 0, "", key, None)
  }

  /** The copy a worker holds after `get_or_create_job`. */
  function Fetched(stored: Option<JobRow>, key: Option<IdempotencyKey>): JobRow {
    match stored
    case None => NewRow(key)
    case Some(row) => if key.Some? && row.idempotencyKey.None? then row.(idempotencyKey := key) else row
  }

  const START_COLUMNS := {StatusColumn, AttemptColumn, ErrorColumn}
  const COMPLETE_COLUMNS := {StatusColumn}
  const FAIL_COLUMNS := {StatusColumn, ErrorColumn}

  function Started(copy: JobRow): JobRow {
    copy.(status := STARTED, attempt := copy.attempt + 1, errorDetail := "")
  }

  function Failed(copy: JobRow, error: string, quarantine: bool): JobRow {
    copy.(status := if quarantine then QUARANTINED else FAILED,
          errorDetail := if |error| <= 8000 then error else error[..8000])
  }

  /** The job table, one row per document and stage. */
  class JobTable {
    var rows: map<(string, Stage), JobRow>

    constructor ()
      ensures rows == map[]
    {
      rows := map[];
    }
  }

  /** A worker's copy of one job row. */
  class Job {
    const document: string
    const stage: Stage
    var copy: JobRow

    /** `get_or_create_job`: read the row, or create it; fill in a missing key. */
    constructor GetOrCreate(table: JobTable, document: string, stage: Stage, key: Option<IdempotencyKey>)
      modifies table
      ensures this.document == document && this.stage == stage
      ensures copy == Fetched(Lookup(old(table.rows), document, stage), key)
      ensures table.rows == old(table.rows)[(document, stage) := copy]
      ensures (document, stage) !in old(table.rows) ==> copy == JobRow(PENDING, 0, "", key, None)
      ensures (document, stage) in old(table.rows) ==>
        var row := old(table.rows)[(document, stage)];
        copy == row.(idempotencyKey := if row.idempotencyKey.Some? then row.idempotencyKey else key)
    {
      this.document, this.stage := document, stage;
      var stored := Lookup(table.rows, document, stage);
      copy := Fetched(stored, key);
      new;
      match stored {
        case None =>
          table.rows := table.rows[(document, stage) := copy];
        case Some(row) =>
          if key.Some? && row.idempotencyKey.None? {
            SaveColumns(table, {KeyColumn});
          }
      }
    }

    /** Overwrite the named columns of the stored row with this copy's. */
    method SaveColumns(table: JobTable, columns: set<Column>)
      requires (document, stage) in table.rows
      modifies table
      ensures table.rows
        == old(table.rows)[(document, stage) := Save(old(table.rows)[(document, stage)], copy, columns)]
    {
      var row := table.rows[(document, stage)];
      table.rows := table.rows[(document, stage) := Save(row, copy, columns)];
    }

    method Start(table: JobTable)
      requires (document, stage) in table.rows
      modifies this, table
      ensures copy == Started(old(copy))
      ensures table.rows
        == old(table.rows)[(document, stage) := Save(old(table.rows)[(document, stage)], copy, START_COLUMNS)]
      ensures table.rows[(document, stage)]
        == old(table.rows)[(document, stage)].(status := STARTED, attempt := old(copy.attempt) + 1, errorDetail := "")
    {
      copy := copy.(status := STARTED);
      copy := copy.(attempt := copy.attempt + 1);
      copy := copy.(errorDetail := "");
      SaveColumns(table, START_COLUMNS);
    }

    method Complete(table: JobTable)
      requires (document, stage) in table.rows
      modifies this, table
      ensures copy == old(copy).(status := COMPLETED)
      ensures table.rows
        == old(table.rows)[(document, stage) := Save(old(table.rows)[(document, stage)], copy, COMPLETE_COLUMNS)]
      ensures table.rows[(document, stage)] == old(table.rows)[(document, stage)].(status := COMPLETED)
    {
      copy := copy.(status := COMPLETED);
      SaveColumns(table, COMPLETE_COLUMNS);
    }

    method Fail(table: JobTable, error: string, quarantine: bool)
      requires (document, stage) in table.rows
      modifies this, table
      ensures copy == Failed(old(copy), error, quarantine)
      ensures table.rows
        == old(table.rows)[(document, stage) := Save(old(table.rows)[(document, stage)], copy, FAIL_COLUMNS)]
      ensures var row := table.rows[(document, stage)];
        && row == old(table.rows)[(document, stage)].(status := row.status, errorDetail := row.errorDetail)
        && row.status == (if quarantine then QUARANTINED else FAILED)
        && row.errorDetail <= error && (|error| <= 8000 ==> row.errorDetail == error)
        && (|error| > 8000 ==> |row.errorDetail| == 8000)
    {
      copy := copy.(status := if quarantine then QUARANTINED else FAILED);
      copy := copy.(errorDetail := if |error| <= 8000 then error else error[..8000]);
      SaveColumns(table, FAIL_COLUMNS);
    }

    method RecordExternalJobId(table: JobTable, externalJobId: nat)
      requires (document, stage) in table.rows
      modifies this, table
      ensures copy == old(copy).(externalJobId := Some(externalJobId))
      ensures table.rows
        == old(table.rows)[(document, stage) := Save(old(table.rows)[(document, stage)], copy, {ExternalIdColumn})]
      ensures table.rows[(document, stage)] == old(table.rows)[(document, stage)].(externalJobId := Some(externalJobId))
    {
      copy := copy.(externalJobId := Some(externalJobId));
      SaveColumns(table, {ExternalIdColumn});
    }
  }

  function Lookup(rows: map<(string, Stage), JobRow>, document: string, stage: Stage): Option<JobRow> {
    if (document, stage) in rows then Some(rows[(document, stage)]) else None
  }
}
