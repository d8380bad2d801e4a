/**
 The in-memory object store and task queue as values: what each port call
 answers and how it changes the port's own dictionaries.
 */
module Ports {
  import opened Common
  import opened BackgroundJobs

  type Bytes = seq<bv8>

  datatype Metadata = Metadata(objectKey: string, contentType: string, sizeBytes: nat, generation: string)

  datatype ObjectStore = ObjectStore(
    metadata: map<string, Metadata>,
    contents: map<string, Bytes>,
    deletedKeys: set<string>,
    deleteRequests: map<IdempotencyKey, (string, string)>)

  /** The two formats of key the services derive: one per attempt, one per deletion job. */
  datatype IdempotencyKey = AttemptKey(job: JobId, attempt: nat) | DeleteKey(job: JobId)

  function GetMetadata(store: ObjectStore, objectKey: string): Result<Metadata, ErrorCode> {
    if objectKey in store.metadata then Ok(store.metadata[objectKey]) else Err(NotFound)
  }

  /** Hashes an object only while the requested generation is the stored one. */
  function CalculateSha256(store: ObjectStore, sha: Bytes -> Digest, objectKey: string, generation: string)
    : Result<Digest, ErrorCode>
  {
    if objectKey !in store.metadata || store.metadata[objectKey].generation != generation
       || objectKey !in store.contents then
      Err(NotFound)
    else
      Ok(sha(store.contents[objectKey]))
  }

  /** Deletes one generation; a used idempotency key has no further effect. */
  function DeleteObject(store: ObjectStore, objectKey: string, generation: string, key: IdempotencyKey)
    : Result<ObjectStore, ErrorCode>
  {
    if key in store.deleteRequests then
      if store.deleteRequests[key] == (objectKey, generation) then Ok(store) else Err(Conflict)
    else
      var recorded := store.(deleteRequests := store.deleteRequests[key := (objectKey, generation)]);
      if objectKey !in store.metadata || store.metadata[objectKey].generation != generation then
        Ok(recorded)
      else
        Ok(recorded.(metadata := recorded.metadata - {objectKey},
                     contents := recorded.contents - {objectKey},
                     deletedKeys := recorded.deletedKeys + {objectKey}))
  }

  /** A finished upload: the object becomes the given generation of its key. */
  function PutObject(store: ObjectStore, upload: Metadata, bytes: Bytes): ObjectStore {
    store.(metadata := store.metadata[upload.objectKey := upload],
           contents := store.contents[upload.objectKey := bytes])
  }

  datatype QueueRequest<P> = QueueRequest(queueName: string, handler: string, payload: P, scheduleAt: Option<Time>)

  datatype TaskQueue<K, P> = TaskQueue(enqueued: map<K, TaskId>, requests: map<K, QueueRequest<P>>)

  /** Deduplicates by key; the same key for another request is a conflict. */
  function Enqueue<K(==), P(==)>(queue: TaskQueue<K, P>, key: K, request: QueueRequest<P>)
    : Result<(TaskQueue<K, P>, TaskId), ErrorCode>
  {
    if key in queue.requests && queue.requests[key] != request then
      Err(Conflict)
    else if key in queue.enqueued then
      Ok((queue, queue.enqueued[key]))
    else
      var taskId := |queue.enqueued| + 1;
      Ok((TaskQueue(queue.enqueued[key := taskId], queue.requests[key := request]), taskId))
  }

  type MediaQueue = TaskQueue<IdempotencyKey, Task>
}
