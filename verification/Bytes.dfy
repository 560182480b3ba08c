module Bytes {
  type byte = bv8
}
