/** The value types the broker exchanges with routers, handlers and its directory. */
module Core {

  newtype byte = x: int | 0 <= x < 0x100
  newtype uint32 = x: int | 0 <= x < 0x1_0000_0000

  /** A 4-byte device address: a lookup key that several devices may share. */
  type DevAddr = s: seq<byte> | |s| == 4 witness [0, 0, 0, 0]

  /** An 8-byte, globally unique application or device identifier. */
  type Eui = s: seq<byte> | |s| == 8 witness [0, 0, 0, 0, 0, 0, 0, 0]

  /** A 16-byte network session key, as used for the message integrity code. */
  type Key = s: seq<byte> | |s| == 16 witness [0, 0, 0, 0, 0, 0, 0, 0, 0, 0, 0, 0, 0, 0, 0, 0]

  /** A 4-byte message integrity code. */
  type Mic = s: seq<byte> | |s| == 4 witness [0, 0, 0, 0]

  /** The registrations a component may receive. A broker registration binds a device to a
      handler; an application registration binds an application; a router registration is
      meant for routers and is of no use to a broker. */
  datatype Registration =
    | BRegistration(recipient: seq<byte>, appEUI: Eui, devEUI: Eui, nwkSKey: Key)
    | ARegistration(recipient: seq<byte>, appEUI: Eui)
    | RRegistration(recipient: seq<byte>, devEUI: Eui)

  /** The handler-facing packet: addressed by application and device identifiers instead of
      the untrusted device address. `metadata` is the encoded metadata block. */
  datatype HPacket = HPacket(appEUI: Eui, devEUI: Eui, payload: seq<byte>, metadata: seq<byte>)

  /** A deliverable target, as resolved by an adapter from a raw recipient descriptor. */
  datatype Recipient = Recipient(address: seq<byte>)
}
