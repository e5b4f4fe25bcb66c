/** Integer widths and pin constants of the Arduino core that AutoTest stands in for. */
module Arduino {

  /** An unsigned 8-bit value (`uint8_t`): pin numbers, modes, digital levels. */
  type uint8 = x: int | 0 <= x < 256

  /** An unsigned 16-bit value (`uint16_t`): stored pin values and test-vector inputs. */
  type uint16 = x: int | 0 <= x < 65536

  /** A signed 16-bit value: `int` on the AVR boards. */
  type int16 = x: int | -32768 <= x < 32768

  /** A `uint16_t` stored into a 16-bit `int`: the same bits read in two's
    * complement, so values of 32768 and more become negative. */
  function AsInt16(x: uint16): (r: int16)
    ensures (r + 65536) % 65536 == x
    ensures 0 <= r <==> x < 32768
  {
    if x < 32768 then x else x - 65536
  }

  const INPUT: uint8 := 0
  const OUTPUT: uint8 := 1
  const INPUT_PULLUP: uint8 := 2

  const LOW: uint8 := 0
  const HIGH: uint8 := 1

  /** The modes whose slots receive test-vector values on activation. */
  predicate IsInputMode(mode: int) {
    mode == INPUT || mode == INPUT_PULLUP
  }

  /** The first analog pin of the default board (A0 is pin 14). */
  const FIRST_ANALOG_PIN: uint8 := 14

  /** The pin `analogRead` reads: a channel number below the first analog
    * pin names that analog pin; any other number is a pin already. */
  function AnalogPin(pin: uint8): (r: uint8)
    ensures FIRST_ANALOG_PIN <= r
  {
    if pin < FIRST_ANALOG_PIN then pin + FIRST_ANALOG_PIN else pin
  }

  /** A channel and its analog pin name the same pin. */
  lemma ChannelOrPin(channel: uint8)
    requires channel < FIRST_ANALOG_PIN
    ensures AnalogPin(channel) == AnalogPin(channel + FIRST_ANALOG_PIN) == channel + FIRST_ANALOG_PIN
  {
  }

  /** Mapping a pin that is already mapped changes nothing, for every pin. */
  lemma AnalogPinIdempotent(pin: uint8)
    ensures AnalogPin(AnalogPin(pin)) == AnalogPin(pin)
  {
  }
}
