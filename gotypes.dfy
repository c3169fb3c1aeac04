/** Go's fixed-width integer types that appear in the API objects the monitor reads. */
module GoTypes {
  /** Go's int32: restart counts and replica counts. */
  newtype int32 = x: int | -0x8000_0000 <= x < 0x8000_0000
}
