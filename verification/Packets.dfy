/** Payloads, and the size of the buffers and packets that hold them. */
module Packets {
  type Bytes = seq<bv8>

  const MaxSize: nat := 1460
}
