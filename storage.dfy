/**
 * The job status store. `write_status` records keyword fields for a job; the
 * store itself lives outside the modelled code, so it is kept as the sequence
 * of writes, in order.
 */
module Storage {
  import opened Py

  datatype StatusRecord = StatusRecord(jobId: string, fields: map<string, Value>)

  class StatusLog {
    var records: seq<StatusRecord>

    constructor ()
      ensures records == []
    {
      records := [];
    }

    /** `write_status(job_id, **fields)`. */
    method WriteStatus(jobId: string, fields: map<string, Value>)
      modifies this
      ensures records == old(records) + [StatusRecord(jobId, fields)]
    {
      records := records + [StatusRecord(jobId, fields)];
    }
  }
}
