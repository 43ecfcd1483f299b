/** Values shared by every part of the model: optional values, byte payloads, delivered
    messages and the readiness of a step that may have to wait. */
module Common {

  /** A value that may be absent; also stands for a nullable pointer to an immutable value. */
  datatype Option<+T> = None | Some(value: T)

  /** One byte of a payload. */
  newtype byte = x: int | 0 <= x < 256

  /** A payload as the engine sees it: a sequence of bytes. */
  type Bytes = seq<byte>

  /** The exclusive upper bound of `uint64_t` / `u64`. */
  const U64_MODULUS: int := 0x1_0000_0000_0000_0000

  /** An unsigned 64-bit integer. */
  type u64 = x: int | 0 <= x < U64_MODULUS

  /** A message delivered by the broker: its subject, its payload and its optional reply subject.
      Headers, status and description are not part of this model. */
  datatype Message = Message(subject: string, payload: Bytes, replyTo: Option<string>)

  /** The readiness of a step that may have to wait: `Pending` means that the caller stays
      blocked and nothing changed; `Ready(v)` means that the step completed with `v`. */
  datatype Poll<+T> = Pending | Ready(value: T)
}
