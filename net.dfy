/**
 * The interface of the endpoint types the builder consumes. Parsing of
 * "host:port" strings belongs to the `net` module and is not part of this
 * model: resolution is handed to the builder as a function.
 */
module Net {

  /** A TCP/UDP port, Rust's `u16`. */
  type Port = n: nat | n < 0x1_0000

  /** A resolved remote endpoint: `RemoteAddr::address()` and `RemoteAddr::port()`. */
  datatype RemoteAddr = RemoteAddr(address: string, port: Port)

  /** `io::Error` as returned by a failed resolution. */
  datatype IoError = IoError(description: string)
}
