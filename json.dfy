/**
 * A property of a parsed JSON object as JavaScript reads it. A property the
 * object lacks reads as `undefined`; a string reads as itself; every other
 * JSON value (number, boolean, null, array, object) is kept as its JSON text.
 * Strict equality `===` between a string and anything but `Text` is false.
 */
module Json {

  datatype Field = Undefined | Text(s: string) | NonText(literal: string)
}
