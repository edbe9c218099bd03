/** Units and character classes shared by the app's modules: milliseconds of time and decimal digits. */
module Basics {

  /** Time in the app is integer milliseconds, as `Date.getTime()` gives it. */
  const SecondMs := 1000
  const MinuteMs := 60 * SecondMs
  const HourMs := 60 * MinuteMs

  /** A decimal digit 0-9, the class that `\d` matches. */
  predicate IsDigit(c: char)
  {
    '0' <= c <= '9'
  }
}
