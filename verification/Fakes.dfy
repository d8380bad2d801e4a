/**
 The in-memory task queue and object store the services are specified against:
 dictionaries held in fields and changed by the port calls.
 */
module Fakes {
  import opened Common
  import opened BackgroundJobs
  import opened Ports

  class FakeTaskQueue<K(==), P(==)> {
    var enqueued: map<K, TaskId>
    var requests: map<K, QueueRequest<P>>

    constructor ()
      ensures Contents() == TaskQueue(map[], map[])
    {
      enqueued, requests := map[], map[];
    }

    function Contents(): TaskQueue<K, P>
      reads this
    {
      TaskQueue(enqueued, requests)
    }

    /** Deduplicates by key and rejects a key reused for another request. */
    method Add(key: K, request: QueueRequest<P>) returns (answer: Result<TaskId, ErrorCode>)
      modifies this
      ensures match Enqueue(old(Contents()), key, request)
              case Err(code) => answer == Err(code) && Contents() == old(Contents())
              case Ok((queue, taskId)) => answer == Ok(taskId) && Contents() == queue
    {
      if key in requests && requests[key] != request {
        return Err(Conflict);
      }
      if key !in enqueued {
        var taskId := |enqueued| + 1;
        enqueued := enqueued[key := taskId];
        requests := requests[key := request];
      }
      answer := Ok(enqueued[key]);
    }
  }

  class FakeObjectStorage {
    const sha: Bytes -> Digest
    var metadata: map<string, Metadata>
    var contents: map<string, Bytes>
    var deletedKeys: set<string>
    var deleteRequests: map<IdempotencyKey, (string, string)>

    constructor (sha: Bytes -> Digest)
      ensures this.sha == sha && Stored() == ObjectStore(map[], map[], {}, map[])
    {
      this.sha := sha;
      metadata, contents, deletedKeys, deleteRequests := map[], map[], {}, map[];
    }

    function Stored(): ObjectStore
      reads this
    {
      ObjectStore(metadata, contents, deletedKeys, deleteRequests)
    }

    method ReadMetadata(objectKey: string) returns (answer: Result<Metadata, ErrorCode>)
      ensures answer == GetMetadata(Stored(), objectKey)
    {
      answer := if objectKey in metadata then Ok(metadata[objectKey]) else Err(NotFound);
    }

    /** Hashes the stored bytes, but only of the requested generation. */
    method Hash(objectKey: string, generation: string) returns (answer: Result<Digest, ErrorCode>)
      ensures answer == CalculateSha256(Stored(), sha, objectKey, generation)
    {
      var found := ReadMetadata(objectKey);
      if found.Err? {
        return Err(found.error);
      }
      if found.value.generation != generation || objectKey !in contents {
        return Err(NotFound);
      }
      answer := Ok(sha(contents[objectKey]));
    }

    /** Removes one generation at most once per key; a reused key for another target is a conflict. */
    method Delete(objectKey: string, generation: string, key: IdempotencyKey) returns (failure: Option<ErrorCode>)
      modifies this
      ensures match DeleteObject(old(Stored()), objectKey, generation, key)
              case Err(code) => failure == Some(code) && Stored() == old(Stored())
              case Ok(store) => failure == None && Stored() == store
    {
      if key in deleteRequests {
        return if deleteRequests[key] != (objectKey, generation) then Some(Conflict) else None;
      }
      deleteRequests := deleteRequests[key := (objectKey, generation)];
      if objectKey !in metadata || metadata[objectKey].generation != generation {
        return None;
      }
      metadata := metadata - {objectKey};
      contents := contents - {objectKey};
      deletedKeys := deletedKeys + {objectKey};
      failure := None;
    }
  }
}
