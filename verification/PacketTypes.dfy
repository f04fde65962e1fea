/** The type of a packet, in the high half of its first byte (section 2.1.2 of MQTT 5.0). */
module PacketTypes {
  import opened Bytes

  const PUBLISH := 0x30
  const DISCONNECT := 0xE0

  /** `command & 0xF0` */
  function Kind(command: Byte): Byte {
    command / 16 * 16
  }

  /** The types by their numbers in the standard. */
  lemma Numbered(command: Byte)
    ensures Kind(command) == PUBLISH <==> command / 16 == 3
    ensures Kind(command) == DISCONNECT <==> command / 16 == 14
  {
  }
}
