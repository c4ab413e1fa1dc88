/**
 * Value types shared by the block's components: an optional value, and the
 * location marker as the map canvas and the marker input use it, a record of
 * the latitude and longitude exactly as the editor typed them.
 */
module Types {

  datatype Option<+T> = None | Some(value: T)

  /** A location marker: latitude and longitude kept as the typed text. */
  datatype Marker = Marker(lat: string, lng: string)

  /** The two coordinates of a marker that a marker input edits. */
  datatype Coordinate = Lat | Lng

  /** The text of coordinate `c` of marker `m`. */
  function Get(m: Marker, c: Coordinate): string
  {
    match c
    case Lat => m.lat
    case Lng => m.lng
  }

  /** The coordinate that is not `c`. */
  function Other(c: Coordinate): (o: Coordinate)
    ensures o != c
  {
    match c
    case Lat => Lng
    case Lng => Lat
  }

  predicate IsDigit(ch: char)
  {
    '0' <= ch <= '9'
  }

  predicate AllDigits(s: string)
  {
    forall i | 0 <= i < |s| :: IsDigit(s[i])
  }

  /** The value of a decimal digit character. */
  function DigitValue(ch: char): int
  {
    ch as int - '0' as int
  }

  /** The value of a string of decimal digits, most significant digit first. */
  function DigitsValue(s: string): int
    decreases |s|
  {
    if s == [] then 0
    else DigitsValue(s[..|s| - 1]) * 10 + DigitValue(s[|s| - 1])
  }
}
