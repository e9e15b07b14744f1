/** Records shared by the protocol components, after esl/sw/datatypes.h. */
module DataSets {
  import opened Bits
  import opened TimeArith

  datatype Option<T> = None | Some(value: T)

  type UInt16 = x: int | 0 <= x < 0x1_0000
  type Identity = s: seq<Octet> | |s| == 8 witness [0, 0, 0, 0, 0, 0, 0, 0]

  /** The next value of a 16-bit counter. */
  function NextId(x: UInt16): UInt16 { if x == 0xFFFF then 0 else x + 1 }

  /** A 16-bit number in network order. */
  function Wide(x: UInt16): (s: seq<Octet>)
    ensures |s| == 2
  {
    [x / 256, x % 256]
  }

  datatype PortIdentity = PortIdentity(clock: Identity, port: UInt16)

  datatype Quality = Quality(clockClass: Octet, accuracy: Octet, variance: UInt16)

  /** The bits of flagField1 that Announce messages use. */
  datatype Flags = Flags(
    leap61: bool, leap59: bool, utcValid: bool, ptpTimescale: bool, timeTraceable: bool, frequencyTraceable: bool)

  datatype Announce = Announce(
    utcOffset: int, priority1: Octet, quality: Quality, priority2: Octet, grandmaster: Identity,
    stepsRemoved: UInt16, timeSource: Octet)

  /** A foreign master's latest Announce, with the header fields that the algorithms read. */
  datatype Record = Record(sender: PortIdentity, flags: Flags, announce: Announce)

  datatype PortState =
    | Initializing | Faulty | DisabledState | Listening | PreMaster | Master | Passive | Uncalibrated | Slave

  datatype DefaultDS = DefaultDS(
    identity: Identity, quality: Quality, priority1: Octet, priority2: Octet)

  datatype CurrentDS = CurrentDS(stepsRemoved: UInt16, offsetFromMaster: Time, meanPathDelay: Time)

  datatype ParentDS = ParentDS(
    parent: PortIdentity, grandmaster: Identity, quality: Quality, priority1: Octet, priority2: Octet)

  datatype TimePropertiesDS = TimePropertiesDS(utcOffset: int, flags: Flags, timeSource: Octet)

  /** What the best-master algorithm writes. */
  datatype Sets = Sets(current: CurrentDS, parent: ParentDS, timeProperties: TimePropertiesDS)
}
