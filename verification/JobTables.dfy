/**
 The two mutable rows of the media protocol. Snapshot is the row as a value: what a
 transaction reads when it has the row lock, and what it commits.
 */
module JobTables {
  import opened Common
  import opened BackgroundJobs

  class JobRow {
    const id: JobId
    const moveJob: MoveJobId
    const objectKey: string
    const generation: string
    const contentType: Option<string>
    const sizeBytes: Option<nat>
    const trace: string
    var status: JobStatus
    var scheduledAt: Time
    var attempt: nat
    var token: Option<Token>
    var lockedUntil: Option<Time>
    var taskId: Option<TaskId>
    var errorCode: Option<ErrorCode>
    var lastAttemptAt: Option<Time>
    var deadline: Option<Time>
    var completedAt: Option<Time>

    /** A new row: pending, never attempted, every other column at its default. */
    constructor (id: JobId, moveJob: MoveJobId, objectKey: string, generation: string,
                 contentType: Option<string>, sizeBytes: Option<nat>, trace: string, scheduledAt: Time)
      ensures Snapshot() == NewJob(id, moveJob, objectKey, generation, contentType, sizeBytes, trace, scheduledAt)
    {
      this.id, this.moveJob, this.objectKey, this.generation := id, moveJob, objectKey, generation;
      this.contentType, this.sizeBytes, this.trace := contentType, sizeBytes, trace;
      this.scheduledAt := scheduledAt;
      status, attempt := Pending, 0;
      token, lockedUntil, taskId, errorCode := None, None, None, None;
      lastAttemptAt, deadline, completedAt := None, None, None;
    }

    function Snapshot(): Job
      reads this
    {
      Job(id, moveJob, status, objectKey, generation, contentType, sizeBytes, trace, scheduledAt, attempt,
          token, lockedUntil, taskId, errorCode, lastAttemptAt, deadline, completedAt)
    }
  }

  class AssetRow {
    const id: AssetId
    const moveJob: MoveJobId
    const purpose: Purpose
    const objectKey: string
    const contentType: string
    const expectedSize: nat
    var status: AssetStatus
    var actualSize: Option<nat>
    var generation: Option<string>
    var sha256: Option<Digest>

    constructor (id: AssetId, moveJob: MoveJobId, purpose: Purpose, objectKey: string, contentType: string,
                 expectedSize: nat)
      ensures Snapshot() == Asset(id, moveJob, purpose, PendingUpload, objectKey, contentType, expectedSize,
                                  None, None, None)
    {
      this.id, this.moveJob, this.purpose := id, moveJob, purpose;
      this.objectKey, this.contentType, this.expectedSize := objectKey, contentType, expectedSize;
      status, actualSize, generation, sha256 := PendingUpload, None, None, None;
    }

    function Snapshot(): Asset
      reads this
    {
      Asset(id, moveJob, purpose, status, objectKey, contentType, expectedSize, actualSize, generation, sha256)
    }
  }
}
