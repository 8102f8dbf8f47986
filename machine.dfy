/** The fixed-width unsigned integers of the firmware's C interface. */
module MachineInts {
  newtype uint8 = x: int | 0 <= x < 0x100
  newtype uint16 = x: int | 0 <= x < 0x1_0000
}
