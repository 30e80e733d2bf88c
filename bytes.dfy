/** Octets, as held in image files, pixel channels and request bodies. */
module Bytes {

  newtype byte = x: int | 0 <= x < 256
}
