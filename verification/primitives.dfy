/** Basic value types shared by the SOCKS5 model: octets, 16-bit ports and
    an optional value. */
module Primitives {

  /** One octet on the wire (Go's `uint8` / `byte`). */
  type Byte = b: int | 0 <= b < 256

  /** A TCP port as the server stores it (Go's `uint16`). */
  type Port = p: int | 0 <= p < 65536

  /** A value that may be absent (Go's nil slice or nil connection). */
  datatype Option<+T> = None | Some(value: T)
}
