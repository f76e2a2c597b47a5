/** Building blocks shared by the models: optional values, results, 32-bit arithmetic and the tokio watch channel. */
module Common {

  datatype Option<+T> = None | Some(value: T)

  datatype Result<+T, +E> = Success(value: T) | Failure(error: E)

  /** The number of values of a u32. */
  const U32_SIZE: nat := 0x1_0000_0000

  newtype Byte = x: int | 0 <= x < 256

  /** A watch channel together with its one modelled receiver: the current value, the number of
      times it was replaced, and how many of those replacements the receiver has marked as seen. */
  datatype Watch<T> = Watch(value: T, version: nat, seen: nat) {

    /** `Receiver::changed` is ready. */
    predicate Unseen() {
      seen != version
    }

    /** `Sender::send_replace`: always a change, even when the value is the same. */
    function Send(v: T): Watch<T> {
      Watch(v, version + 1, seen)
    }

    /** `Receiver::changed` completing, or `borrow_and_update`. */
    function MarkSeen(): Watch<T> {
      this.(seen := version)
    }

    predicate Valid() {
      seen <= version
    }
  }
}
