/** The protocol constants of the server: version, method, command, address
    type and reply codes of RFC 1928 (sections 3 to 6), with the values the
    server uses. */
module Constants {
  import opened Primitives

  /** The only protocol version the server speaks. */
  const SocksVersion: Byte := 5

  /** Authentication method "no authentication required". */
  const NoAuth: Byte := 0x00

  // Commands (CMD field of a request).
  const Connect: Byte := 0x01
  const Bind: Byte := 0x02
  const UdpAssociate: Byte := 0x03

  // Address types (ATYP field of a request or reply).
  const Ipv4: Byte := 0x01
  const DomainNameType: Byte := 0x03
  const Ipv6: Byte := 0x04

  // Reply codes (REP field of a reply).
  const Succeeded: Byte := 0x00
  const GeneralFailure: Byte := 0x01
  const ConnectionNotAllowed: Byte := 0x02
  const NetworkUnreachable: Byte := 0x03
  const HostUnreachable: Byte := 0x04
  const ConnectionRefused: Byte := 0x05
  const TtlExpired: Byte := 0x06
  const CommandNotSupported: Byte := 0x07
  const AddressTypeNotSupported: Byte := 0x08
}
