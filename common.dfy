/** Value types shared by the whole model. */
module Common {

  /** Swift's `Optional`. */
  datatype Option<T> = None | Some(value: T)

  /**
   * A `UUID`. Only identity matters to the app, so a UUID is a natural
   * number handed out by a counter that stands for the generator.
   */
  type Uuid = nat

  /** Swift's `UInt16` (MQTT packet identifiers). */
  type UInt16 = x: int | 0 <= x < 0x1_0000

  /** Swift's `UInt8` (payload bytes). */
  type Byte = x: int | 0 <= x < 0x100
}
