/** Octets, as the wire formats see them. */
module Bytes {
  type byte = bv8
}
