/** What several parts of the model share. */
module Basics {

  datatype Option<T> = None | Some(value: T)

  /** The item counter of the queue is an `unsigned` of 32 bits. */
  const COUNTER_LIMIT: nat := 0x1_0000_0000

  /** A function object in a queue; an empty one is taken but not called. */
  datatype Task = Empty | Job(id: nat)
}
