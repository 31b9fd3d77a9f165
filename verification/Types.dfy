// Constants and value types shared by every module: os_defines.h, os_task.h and os_msgqueue.h.
module Types {
  const NO_TID: nat := 255
  const ISR_TID: nat := 254
  const NO_EVENT: nat := 255
  const NO_QUEUE: nat := 255
  const NO_MSG_ID: uint8 := 0xff

  type uint8 = n: nat | n < 0x100
  type uint32 = n: nat | n < 0x1_0000_0000

  datatype Option<+T> = None | Some(value: T)

  /** The states of a task, in the order of the source's enumeration. */
  datatype TaskState =
    | SUSPENDED
    | WAITING_SEM
    | WAITING_TIME
    | WAITING_EVENT
    | WAITING_EVENT_TIMEOUT
    | READY
    | RUNNING
    | KILLED

  /** What a queue operation reports. */
  datatype QueueResult = UNDEF | DEF | EMPTY | FULL | RECEIVED | POSTED

  /** A message: its first four bytes (signal, reserved, two pads), its timer, the reload
      value of that timer, and whatever the application's own message type adds. */
  datatype Msg = Msg(header: seq<uint8>, delay: uint32, reload: uint32, payload: seq<uint8>)
}
