/**
  Port-bit assignment of the nine LEDs (left to right, D0..D8): the first five sit on
  port D bits 2..6, the last four on port B bits 0..3.  The button and the jumpers are
  read by the model as booleans, so only the LED masks are needed here.
*/
module Board {

  const NumLowerLeds := 5
  const NumUpperLeds := 4

  /** Port D masks of LEDs 0..4. */
  const LowerLedBits: seq<bv8> := [0x04, 0x08, 0x10, 0x20, 0x40]
  /** Port B masks of LEDs 5..8. */
  const UpperLedBits: seq<bv8> := [0x01, 0x02, 0x04, 0x08]

  /** All port D bits that carry an LED. */
  const LowerLedMask: bv8 := 0x7C
  /** All port B bits that carry an LED. */
  const UpperLedMask: bv8 := 0x0F

  /** Port values right after board initialisation (the button pull-up is port B bit 4). */
  const InitialPortD: bv8 := 0x00
  const InitialPortB: bv8 := 0x10
}
