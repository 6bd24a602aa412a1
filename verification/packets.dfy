/** Packets and the only error of the scheduler: a class outside 0..7. */
module Packets {
  import opened Words

  /** Number of priority classes, hence of queues and of weights. */
  const CLASSES: nat := 8

  type Class = c: u8 | c < CLASSES

  /** A packet: the class that routes it, a flow tag the scheduler ignores, an opaque payload. */
  datatype Packet = Packet(cls: Class, flow: u16, payload: u64)

  /** Outcome of `Packet::new`: a packet, or the failed assertion on `cls < 8`. */
  datatype Construction = Built(packet: Packet) | ClassOutOfRange(cls: u8)

  /**
   `Packet::new(payload, class, flow)`. An out-of-range class aborts
   construction; it is never clamped or rerouted.
   */
  function NewPacket(payload: u64, cls: u8, flow: u16): (r: Construction)
    ensures r.Built? <==> cls < CLASSES
    ensures r.Built? ==> r.packet.cls == cls && r.packet.flow == flow && r.packet.payload == payload
    ensures r.ClassOutOfRange? ==> r.cls == cls
  {
    if cls < CLASSES then Built(Packet(cls, flow, payload)) else ClassOutOfRange(cls)
  }

  function ClassIs(c: int): Packet -> bool
  {
    (p: Packet) => p.cls == c
  }

  function FlowIs(f: int): Packet -> bool
  {
    (p: Packet) => p.flow == f
  }
}
