/** Points in time and spans of it, in seconds; rounding to microseconds is not modelled. */
module Times {
  type Time = real
}
