/** The waiting room of the device: a counter bounded by a capacity. */
module DeviceQueues {
  import opened SimError

  datatype DeviceQueue = DeviceQueue(capacity: int, count: int)

  /** Every queue the operations below can produce satisfies this. */
  predicate Valid(q: DeviceQueue) {
    0 < q.capacity && 0 <= q.count <= q.capacity
  }

  /** No room for one more unit: within bounds, exactly when one more would
      break them. */
  function IsFull(q: DeviceQueue): (full: bool)
    ensures Valid(q) ==> (full <==> !Valid(q.(count := q.count + 1)))
  {
    q.capacity == q.count
  }

  /** No unit waiting: within bounds, exactly when one fewer would break them.
      A valid queue is never both full and empty. */
  function IsEmpty(q: DeviceQueue): (empty: bool)
    ensures Valid(q) ==> (empty <==> !Valid(q.(count := q.count - 1)))
    ensures Valid(q) && empty ==> !IsFull(q)
  {
    q.count == 0
  }

  /** Construction is refused unless the capacity is positive; a new queue is empty. */
  function New(capacity: int): (r: Result<DeviceQueue>)
    ensures r.Err? <==> capacity <= 0
    ensures r.Err? ==> r.error == QueueError
    ensures r.Ok? ==> Valid(r.value) && IsEmpty(r.value) && r.value.capacity == capacity
  {
    if capacity <= 0 then Err(QueueError) else Ok(DeviceQueue(capacity, 0))
  }

  /** Empties the waiting room and keeps the capacity. */
  function Clear(q: DeviceQueue): (r: DeviceQueue)
    ensures IsEmpty(r) && r.capacity == q.capacity
    ensures q.capacity > 0 ==> Valid(r) && !IsFull(r)
  {
    q.(count := 0)
  }

  /** Fails exactly on a full queue; otherwise one more waiting unit. */
  function Enqueue(q: DeviceQueue): (r: Result<DeviceQueue>)
    ensures r.Err? <==> IsFull(q)
    ensures r.Err? ==> r.error == QueueError
    ensures r.Ok? ==> r.value.capacity == q.capacity && r.value.count == q.count + 1
    ensures Valid(q) && r.Ok? ==> Valid(r.value) && !IsEmpty(r.value)
  {
    if IsFull(q) then Err(QueueError) else Ok(q.(count := q.count + 1))
  }

  /** Fails exactly on an empty queue; otherwise one waiting unit fewer. */
  function Dequeue(q: DeviceQueue): (r: Result<DeviceQueue>)
    ensures r.Err? <==> IsEmpty(q)
    ensures r.Err? ==> r.error == QueueError
    ensures r.Ok? ==> r.value.capacity == q.capacity && r.value.count == q.count - 1
    ensures Valid(q) && r.Ok? ==> Valid(r.value) && !IsFull(r.value)
  {
    if IsEmpty(q) then Err(QueueError) else Ok(q.(count := q.count - 1))
  }

  /** Enqueueing then dequeueing a unit gives back the queue it started from. */
  lemma EnqueueThenDequeue(q: DeviceQueue)
    requires Valid(q) && !IsFull(q)
    ensures Enqueue(q).Ok?
    ensures Dequeue(Enqueue(q).value) == Ok(q)
  {
  }

  /** Dequeueing then enqueueing a unit gives back the queue it started from. */
  lemma DequeueThenEnqueue(q: DeviceQueue)
    requires Valid(q) && !IsEmpty(q)
    ensures Dequeue(q).Ok?
    ensures Enqueue(Dequeue(q).value) == Ok(q)
  {
  }
}
