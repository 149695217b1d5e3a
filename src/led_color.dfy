/** The RGB colour of one addressable LED (esphome's Color without its white channel). */
module LedColor {
  /** One 8-bit colour channel. */
  type Channel = v: int | 0 <= v < 256

  datatype Color = Color(red: Channel, green: Channel, blue: Channel)

  /** The colour a default-constructed esphome Color has, and the colour of an unlit LED. */
  const Black: Color := Color(0, 0, 0)

  /** A colour is lit when its channels do not all read zero (`red + green + blue > 0`). */
  predicate IsLit(c: Color)
  {
    c.red + c.green + c.blue > 0
  }

  /** Conversion of an int to uint8_t: the value modulo 256. */
  function ToChannel(v: int): (c: Channel)
    ensures 0 <= v < 256 ==> c == v
    ensures (c - v) % 256 == 0
  {
    v % 256
  }
}
