/** Machine integers, Unicode text and the event record shared by agent and backend. */
module Events {
  type Byte = x: int | 0 <= x < 0x100
  type UInt16 = x: int | 0 <= x < 0x1_0000
  type UInt32 = x: int | 0 <= x < 0x1_0000_0000
  type UInt64 = x: int | 0 <= x < 0x1_0000_0000_0000_0000
  type Int32 = x: int | -0x8000_0000 <= x < 0x8000_0000

  /** A Unicode scalar value: what ranging over a Go string yields. */
  type Scalar = x: int | (0 <= x < 0xD800) || (0xE000 <= x <= 0x10FFFF)

  /** A Go string, as the sequence of runes that ranging over it yields. */
  type Text = seq<Scalar>

  type Wide260 = s: seq<UInt16> | |s| == 260 witness seq(260, _ => 0)
  type Wide1024 = s: seq<UInt16> | |s| == 1024 witness seq(1024, _ => 0)
  type Cells260 = s: seq<Int32> | |s| == 260 witness seq(260, _ => 0)

  /** unsafe.Sizeof(ACEvent{}) on amd64; EventImage derives the number from the layout. */
  const EVENT_SIZE: nat := 3648

  datatype ACEvent = ACEvent(
    src: Int32,
    eventType: Wide260,
    callerPid: Int32,
    targetPid: Int32,
    threadId: Int32,
    imageFileName: Cells260,
    commandLine: Wide1024,
    isCreate: Int32,
    imageBase: UInt64,
    imageSize: UInt32)
}
