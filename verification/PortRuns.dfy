/** What the in-memory ports promise over any sequence of calls by their idempotency keys. */
module PortRuns {
  import opened Common
  import opened BackgroundJobs
  import opened Ports

  // ------------------------------------------------------------- object store

  datatype StoreCall =
    | Put(upload: Metadata, bytes: Bytes)
    | Erase(objectKey: string, generation: string, key: IdempotencyKey)

  function StoreStep(store: ObjectStore, call: StoreCall): ObjectStore {
    match call
    case Put(upload, bytes) => PutObject(store, upload, bytes)
    case Erase(objectKey, generation, key) =>
      match DeleteObject(store, objectKey, generation, key)
      case Err(_) => store
      case Ok(store') => store'
  }

  function StoreRun(store: ObjectStore, calls: seq<StoreCall>): ObjectStore
    decreases |calls|
  {
    if calls == [] then store else StoreRun(StoreStep(store, calls[0]), calls[1..])
  }

  lemma {:induction false} RequestsStand(store: ObjectStore, calls: seq<StoreCall>, key: IdempotencyKey)
    requires key in store.deleteRequests
    ensures var later := StoreRun(store, calls);
            key in later.deleteRequests && later.deleteRequests[key] == store.deleteRequests[key]
    decreases |calls|
  {
    if calls != [] {
      RequestsStand(StoreStep(store, calls[0]), calls[1..], key);
    }
  }

  /** A key deletes once: whatever is written or deleted in between, repeating it has no effect and any other use is a conflict. */
  lemma KeyDeletesOnce(store: ObjectStore, objectKey: string, generation: string, key: IdempotencyKey,
                       calls: seq<StoreCall>, objectKey': string, generation': string)
    requires DeleteObject(store, objectKey, generation, key).Ok?
    ensures var later := StoreRun(DeleteObject(store, objectKey, generation, key).value, calls);
            DeleteObject(later, objectKey', generation', key) ==
              if objectKey' == objectKey && generation' == generation then Ok(later) else Err(Conflict)
  {
    RequestsStand(DeleteObject(store, objectKey, generation, key).value, calls, key);
  }

  /** An object is there with its bytes. */
  predicate Holds(store: ObjectStore, objectKey: string, upload: Metadata, bytes: Bytes) {
    && objectKey in store.metadata && store.metadata[objectKey] == upload
    && objectKey in store.contents && store.contents[objectKey] == bytes
  }

  /** The first use of a key removes exactly the generation it names; a write replaces exactly the object of its key. */
  lemma StoreChangesIff(store: ObjectStore, objectKey: string, generation: string, key: IdempotencyKey, other: string,
                        upload: Metadata, bytes: Bytes, written: Metadata, content: Bytes)
    requires key !in store.deleteRequests
    ensures var r := DeleteObject(store, objectKey, generation, key);
            && r.Ok?
            && (Holds(r.value, other, upload, bytes) <==>
                  Holds(store, other, upload, bytes) && !(other == objectKey && upload.generation == generation))
    ensures Holds(PutObject(store, written, content), other, upload, bytes) <==>
              if other == written.objectKey then upload == written && bytes == content else Holds(store, other, upload, bytes)
  {
  }

  // --------------------------------------------------------------- task queue

  datatype QueueCall<K, P> = QueueCall(key: K, request: QueueRequest<P>)

  function QueueStep<K(==), P(==)>(queue: TaskQueue<K, P>, call: QueueCall<K, P>): TaskQueue<K, P> {
    match Enqueue(queue, call.key, call.request)
    case Err(_) => queue
    case Ok((queue', _)) => queue'
  }

  function QueueRun<K(==), P(==)>(queue: TaskQueue<K, P>, calls: seq<QueueCall<K, P>>): TaskQueue<K, P>
    decreases |calls|
  {
    if calls == [] then queue else QueueRun(QueueStep(queue, calls[0]), calls[1..])
  }

  /** The tasks are numbered from one, each with the request it was enqueued with. */
  ghost predicate Numbered<K(!new), P>(queue: TaskQueue<K, P>) {
    && queue.enqueued.Keys == queue.requests.Keys
    && (forall k :: k in queue.enqueued ==> 1 <= queue.enqueued[k] <= |queue.enqueued|)
    && (forall k, l :: k in queue.enqueued && l in queue.enqueued && queue.enqueued[k] == queue.enqueued[l] ==> k == l)
  }

  lemma StepKeepsNumbers<K(!new), P>(queue: TaskQueue<K, P>, call: QueueCall<K, P>)
    requires Numbered(queue)
    ensures Numbered(QueueStep(queue, call))
    ensures forall k :: k in queue.enqueued ==>
              var after := QueueStep(queue, call);
              k in after.enqueued && after.enqueued[k] == queue.enqueued[k] && after.requests[k] == queue.requests[k]
  {
    if Enqueue(queue, call.key, call.request).Ok? && call.key !in queue.enqueued {
      assert |queue.enqueued[call.key := 0]| == |queue.enqueued| + 1;
    }
  }

  /** Over every sequence of calls, the tasks get the numbers from one on, and a number once given stays. */
  lemma {:induction false} TasksAreNumbered<K(!new), P>(queue: TaskQueue<K, P>, calls: seq<QueueCall<K, P>>)
    requires Numbered(queue)
    ensures Numbered(QueueRun(queue, calls))
    ensures forall k :: k in queue.enqueued ==>
              var later := QueueRun(queue, calls);
              k in later.enqueued && later.enqueued[k] == queue.enqueued[k] && later.requests[k] == queue.requests[k]
    decreases |calls|
  {
    if calls != [] {
      StepKeepsNumbers(queue, calls[0]);
      TasksAreNumbered(QueueStep(queue, calls[0]), calls[1..]);
    }
  }

  /** A key names one task for good: the same request is answered with it, and any other is a conflict. */
  lemma AnswerStands<K(!new), P>(calls: seq<QueueCall<K, P>>, key: K, request: QueueRequest<P>, more: seq<QueueCall<K, P>>,
                                 request': QueueRequest<P>)
    requires Enqueue(QueueRun(TaskQueue(map[], map[]), calls), key, request).Ok?
    ensures var (queue, id) := Enqueue(QueueRun(TaskQueue(map[], map[]), calls), key, request).value;
            var later := QueueRun(queue, more);
            Enqueue(later, key, request') == if request' == request then Ok((later, id)) else Err(Conflict)
  {
    var empty: TaskQueue<K, P> := TaskQueue(map[], map[]);
    TasksAreNumbered(empty, calls);
    var before := QueueRun(empty, calls);
    StepKeepsNumbers(before, QueueCall(key, request));
    TasksAreNumbered(Enqueue(before, key, request).value.0, more);
    hide Numbered;
  }
}
