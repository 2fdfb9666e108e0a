/** The value types every component shares: streams, cursors, fetched messages, the
    outcome of a call into foreign code, and the four terminal dispositions. */
module Models {

  /** Seconds. */
  type Time = real

  type byte = b: int | 0 <= b < 256

  type Bytes = seq<byte>

  datatype Option<+T> = None | Some(value: T)

  /** The three error families that decide how a failing message is routed.  `Transient`
      also stands for every exception outside the three families. */
  datatype Failure = Permanent | Auth | Transient

  /** What a call into foreign code gives back: a value, or a raised exception. */
  datatype Answer<+T> = Ok(value: T) | Raise(failure: Failure)

  /** Where messages are read from; its key names its cursor slot. */
  datatype StreamRef = StreamRef(mailbox: string, folder: Option<string>) {
    function Key(): string {
      if folder.Some? && folder.value != "" then mailbox + ":" + folder.value else mailbox
    }
  }

  /** How far a stream was read.  The pipeline compares orders and hands the value back. */
  datatype Cursor = Cursor(value: string, order: int)

  datatype RawMessage = RawMessage(
    provider: string,
    providerMessageId: string,
    stream: StreamRef,
    sizeBytes: int,
    receivedAt: Time,
    cursor: Cursor,
    rawBytes: Bytes,
    threadKey: string)

  datatype Disposition = Emitted | Dropped | Duplicate | DeadLettered
}
