/** Failures the simulation engine can report.
    `QueueError` is the exception raised by the device queue; the other
    three stand for the places where the engine would crash or never stop. */
module SimError {

  datatype Error =
    | QueueError     // DeviceQueue: bad capacity, enqueue when full, dequeue when empty
    | PastEvent      // next-event driver popped an event planned before the clock
    | EmptySchedule  // a driver popped from an empty event list
    | OutOfFuel      // a driver used up its iteration bound before the target was reached

  datatype Result<+T> = Ok(value: T) | Err(error: Error)
}
