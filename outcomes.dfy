/** Errors the node raises, as values instead of Ruby exceptions. */
module Outcomes {

  /** The exception classes the core raises:
      - NodeError: a back/front assignment that is neither a Node nor nil;
      - DataError: a payload the DataType validator rejects;
      - ArgumentError: attach_back/attach_front given a non-Node, or
        String#* given a negative count;
      - FrozenError: an instance variable assignment on a frozen node. */
  datatype Error = NodeError | DataError | ArgumentError | FrozenError

  /** The result of a mutator whose value is nil (detach_back and
      detach_front, the value of `self.x = nil`) or is not used by its
      callers (the private setters). */
  datatype Outcome = Pass | Fail(error: Error)

  /** The result of an operation that returns a value or raises. */
  datatype Result<T> = Ok(value: T) | Err(error: Error)

  datatype Option<T> = None | Some(value: T)
}
