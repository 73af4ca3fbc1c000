/** The SOCKS5 wire codec: pure decoders for the greeting, the request header,
    the address and the port, and encoders for the replies the server writes.

    Every decoder takes the bytes still unread on the client connection and
    returns either `Ok(value, rest)` or `Err(failure)`. A `Reject` failure
    carries the reply code the server sends before closing; `Truncated` means
    the byte source ended before the field was complete, which the session
    treats as a broken connection (no reply is sent).

    The client-side encoders (`EncodeGreeting`, `EncodeAddress`,
    `EncodeRequest`) are not part of the server; they are the partners the
    round-trip lemmas use to say exactly which byte strings are accepted. */
module Codec {
  import opened Primitives
  import opened Constants

  datatype Failure = Reject(code: Byte) | Truncated

  datatype Decoded<T> = Ok(value: T, rest: seq<Byte>) | Err(failure: Failure)

  /** The outcome of a validation step. */
  datatype Check = Pass | Fail(code: Byte)

  /** A destination address as parsed from a request: the raw IP bytes for
      the IP address types, the raw name bytes for a domain name. */
  datatype Address = IPv4(ip: seq<Byte>) | IPv6(ip: seq<Byte>) | DomainName(fqdn: seq<Byte>)

  /** The fixed part of a request: its command and address type. */
  datatype Header = Header(command: Byte, addressType: Byte)

  // ---------------------------------------------------------------------
  // Validation

  /** A version byte other than 5 fails with general-failure. */
  function EnsureVersion(version: Byte): (r: Check)
    ensures r.Pass? <==> version == 5
    ensures r.Fail? ==> r.code == GeneralFailure
  {
    if version != SocksVersion then Fail(GeneralFailure) else Pass
  }

  /** The method count must lie in 1..255; as an octet only 0 is outside. */
  function EnsureNMethod(nmethod: Byte): (r: Check)
    ensures r.Pass? <==> nmethod != 0
    ensures r.Fail? ==> r.code == GeneralFailure
  {
    if !(1 <= nmethod && nmethod <= 255) then Fail(GeneralFailure) else Pass
  }

  // ---------------------------------------------------------------------
  // Greeting: VER, NMETHODS, METHODS...

  /** Reads `n` method identifiers one octet at a time, as the server's
      per-byte read loop does. */
  function GetAvailableMethods(s: seq<Byte>, n: nat): (r: Decoded<seq<Byte>>)
    ensures r.Ok? <==> n <= |s|
    ensures r.Ok? ==> r.value == s[..n] && r.rest == s[n..]
    ensures r.Err? ==> r.failure == Truncated
  {
    if n == 0 then Ok([], s)
    else if |s| == 0 then Err(Truncated)
    else
      match GetAvailableMethods(s[1..], n - 1)
      case Ok(ms, rest) => Ok([s[0]] + ms, rest)
      case Err(f) => Err(f)
  }

  /** Decodes a greeting and returns the offered methods. The version and
      the count are both read before either is checked, and the version is
      checked first. */
  function DecodeGreeting(s: seq<Byte>): (r: Decoded<seq<Byte>>)
    ensures |s| < 2 ==> r == Err(Truncated)
    ensures 2 <= |s| && (s[0] != SocksVersion || s[1] == 0) ==> r == Err(Reject(GeneralFailure))
    ensures r.Err? && !(2 <= |s| && (s[0] != SocksVersion || s[1] == 0)) ==> r.failure == Truncated
    ensures r.Ok? <==> 2 <= |s| && s[0] == SocksVersion && 1 <= s[1] && 2 + s[1] <= |s|
    ensures r.Ok? ==> |r.value| == s[1] && s == EncodeGreeting(r.value) + r.rest
  {
    if |s| < 2 then Err(Truncated)
    else
      var version, nmethod := s[0], s[1];
      match EnsureVersion(version)
      case Fail(code) => Err(Reject(code))
      case Pass =>
        match EnsureNMethod(nmethod)
        case Fail(code) => Err(Reject(code))
        case Pass => GetAvailableMethods(s[2..], nmethod)
  }

  /** The greeting a client sends offering `methods`. */
  function EncodeGreeting(methods: seq<Byte>): (r: seq<Byte>)
    requires |methods| <= 255
  {
    [SocksVersion, |methods|] + methods
  }

  /** Every greeting offering one to 255 methods is accepted, exactly its
      methods are consumed and the bytes after it are left unread. */
  lemma GreetingRoundTrip(methods: seq<Byte>, rest: seq<Byte>)
    requires 1 <= |methods| <= 255
    ensures DecodeGreeting(EncodeGreeting(methods) + rest) == Ok(methods, rest)
  {
    var s := EncodeGreeting(methods) + rest;
    assert s[2..] == methods + rest;
    assert (methods + rest)[..|methods|] == methods;
    assert (methods + rest)[|methods|..] == rest;
  }

  /** The method-selection message: always version 5 and "no authentication". */
  const MethodSelection: seq<Byte> := [SocksVersion, NoAuth]

  // ---------------------------------------------------------------------
  // Request: VER, CMD, RSV, ATYP, DST.ADDR, DST.PORT

  /** Reads the four header octets; the reserved octet is read and ignored. */
  function DecodeHeader(s: seq<Byte>): (r: Decoded<Header>)
    ensures |s| < 4 ==> r == Err(Truncated)
    ensures 4 <= |s| && s[0] != SocksVersion ==> r == Err(Reject(GeneralFailure))
    ensures r.Ok? <==> 4 <= |s| && s[0] == SocksVersion
    ensures r.Ok? ==> r.value.command == s[1] && r.value.addressType == s[3] && r.rest == s[4..]
  {
    if |s| < 4 then Err(Truncated)
    else
      match EnsureVersion(s[0])
      case Fail(code) => Err(Reject(code))
      case Pass => Ok(Header(s[1], s[3]), s[4..])
  }

  /** The address type tag of an address. */
  function AddressTypeOf(a: Address): Byte
  {
    match a
    case IPv4(_) => Ipv4
    case IPv6(_) => Ipv6
    case DomainName(_) => DomainNameType
  }

  /** An address that a request can carry: 4 or 16 IP bytes, a name of at
      most 255 bytes. */
  predicate WellFormed(a: Address)
  {
    match a
    case IPv4(ip) => |ip| == 4
    case IPv6(ip) => |ip| == 16
    case DomainName(name) => |name| <= 255
  }

  /** The bytes of an address on the wire, after its ATYP octet. */
  function EncodeAddress(a: Address): (r: seq<Byte>)
    requires WellFormed(a)
  {
    match a
    case IPv4(ip) => ip
    case IPv6(ip) => ip
    case DomainName(name) => [|name|] + name
  }

  /** Reads the address for the given address type: 4 bytes for IPv4, 16 for
      IPv6, a length octet and that many bytes for a domain name. Any other
      type is rejected with address-type-not-supported before anything is
      read. */
  function DecodeAddress(addressType: Byte, s: seq<Byte>): (r: Decoded<Address>)
    ensures addressType !in {Ipv4, DomainNameType, Ipv6} ==> r == Err(Reject(AddressTypeNotSupported))
    ensures addressType in {Ipv4, DomainNameType, Ipv6} && r.Err? ==> r.failure == Truncated
    ensures addressType == Ipv4 ==> (r.Ok? <==> 4 <= |s|)
    ensures addressType == Ipv6 ==> (r.Ok? <==> 16 <= |s|)
    ensures addressType == DomainNameType ==> (r.Ok? <==> 1 <= |s| && 1 + s[0] <= |s|)
    ensures r.Ok? ==> WellFormed(r.value) && AddressTypeOf(r.value) == addressType
    ensures r.Ok? ==> s == EncodeAddress(r.value) + r.rest
  {
    if addressType == Ipv4 then
      if |s| < 4 then Err(Truncated) else Ok(IPv4(s[..4]), s[4..])
    else if addressType == DomainNameType then
      if |s| < 1 then Err(Truncated)
      else
        var length: int := s[0];
        if |s| < 1 + length then Err(Truncated)
        else Ok(DomainName(s[1..1 + length]), s[1 + length..])
    else if addressType == Ipv6 then
      if |s| < 16 then Err(Truncated) else Ok(IPv6(s[..16]), s[16..])
    else
      Err(Reject(AddressTypeNotSupported))
  }

  /** Every well-formed address decodes back from its encoding under its own
      address type, leaving the bytes after it unread. */
  lemma AddressRoundTrip(a: Address, rest: seq<Byte>)
    requires WellFormed(a)
    ensures DecodeAddress(AddressTypeOf(a), EncodeAddress(a) + rest) == Ok(a, rest)
  {
    var s := EncodeAddress(a) + rest;
    match a
    case IPv4(ip) =>
      assert s[..4] == ip && s[4..] == rest;
    case IPv6(ip) =>
      assert s[..16] == ip && s[16..] == rest;
    case DomainName(name) =>
      assert s[1..1 + |name|] == name && s[1 + |name|..] == rest;
  }

  /** Reads a two-octet big-endian port: `(b0 << 8) | b1`, which for octets
      is `b0 * 256 + b1`. */
  function DecodePort(s: seq<Byte>): (r: Decoded<Port>)
    ensures r.Ok? <==> 2 <= |s|
    ensures r.Err? ==> r.failure == Truncated
    ensures r.Ok? ==> r.rest == s[2..] && r.value / 256 == s[0] && r.value % 256 == s[1]
  {
    if |s| < 2 then Err(Truncated) else Ok(s[0] as int * 256 + s[1], s[2..])
  }

  /** The two port octets of a reply: `uint8(port >> 8)` and
      `uint8(port & 0xff)`; the high octet keeps only bits 8 to 15. */
  function EncodePort(port: nat): (r: seq<Byte>)
  {
    [(port / 256) % 256, port % 256]
  }

  /** Encoding then decoding a port gives it back modulo 2^16, so every
      16-bit port survives the round trip. */
  lemma PortRoundTrip(port: nat, rest: seq<Byte>)
    ensures DecodePort(EncodePort(port) + rest) == Ok(port % 65536, rest)
    ensures port < 65536 ==> DecodePort(EncodePort(port) + rest) == Ok(port, rest)
  {
    var s := EncodePort(port) + rest;
    assert s[2..] == rest;
    var hi, lo := (port / 256) % 256, port % 256;
    assert port % 65536 == hi * 256 + lo by {
      assert port == (port / 256) * 256 + lo;
      assert port / 256 == ((port / 256) / 256) * 256 + hi;
      assert port == ((port / 256) / 256) * 65536 + hi * 256 + lo;
    }
  }

  /** Decoding then re-encoding a port reproduces the two octets read. */
  lemma PortBytesRoundTrip(s: seq<Byte>)
    requires 2 <= |s|
    ensures DecodePort(s).Ok? && EncodePort(DecodePort(s).value) == s[..2]
  {
  }

  /** A whole request as a client sends it; the reserved octet is zero. */
  function EncodeRequest(command: Byte, a: Address, port: Port): (r: seq<Byte>)
    requires WellFormed(a)
  {
    [SocksVersion, command, 0, AddressTypeOf(a)] + EncodeAddress(a) + EncodePort(port)
  }

  // ---------------------------------------------------------------------
  // Replies: VER, REP, RSV, ATYP, BND.ADDR, BND.PORT

  /** A reply frame with the given code, address type, address bytes and
      port. The address bytes are copied as given, whatever the type says. */
  function GenerateReply(reply: Byte, addressType: Byte, ip: seq<Byte>, port: nat): (r: seq<Byte>)
    ensures |r| == 6 + |ip|
    ensures r[..4] == [SocksVersion, reply, 0, addressType]
    ensures r[4..4 + |ip|] == ip
    ensures r[4 + |ip|..] == EncodePort(port)
  {
    [SocksVersion, reply, 0, addressType] + ip + EncodePort(port)
  }

  /** The reply sent when the session is closed with an error: a single zero
      address octet and port 0, under the current address type. */
  function FailedReply(code: Byte, addressType: Byte): (r: seq<Byte>)
    ensures r == [5, code, 0, addressType, 0, 0, 0]
  {
    GenerateReply(code, addressType, [0], 0)
  }

  /** A reply as a client reads it back, for the round-trip lemma. */
  datatype Reply = Reply(version: Byte, reply: Byte, reserved: Byte, addressType: Byte, ip: seq<Byte>, port: Port)

  /** Parses a reply frame whose address field is `addressLength` bytes long. */
  function ParseReply(r: seq<Byte>, addressLength: nat): (p: Option<Reply>)
    ensures p.Some? <==> |r| == 6 + addressLength
  {
    if |r| != 6 + addressLength then None
    else
      var n := 4 + addressLength;
      Some(Reply(r[0], r[1], r[2], r[3], r[4..n], r[n] as int * 256 + r[n + 1]))
  }

  /** A generated reply parses back into its parts, the port modulo 2^16. */
  lemma ReplyRoundTrip(reply: Byte, addressType: Byte, ip: seq<Byte>, port: nat)
    ensures ParseReply(GenerateReply(reply, addressType, ip, port), |ip|)
         == Some(Reply(SocksVersion, reply, 0, addressType, ip, port % 65536))
  {
  }

  /** The address part of a reply for an IP address uses the same layout as
      a request's: read with the request decoders, it gives back the address
      and the port. */
  lemma ReplyAddressDecodes(reply: Byte, a: Address, port: Port)
    requires WellFormed(a) && !a.DomainName?
    ensures var r := GenerateReply(reply, AddressTypeOf(a), a.ip, port);
            && DecodeAddress(r[3], r[4..]) == Ok(a, EncodePort(port))
            && DecodePort(EncodePort(port)) == Ok(port, [])
  {
    var r := GenerateReply(reply, AddressTypeOf(a), a.ip, port);
    assert r[4..] == EncodeAddress(a) + EncodePort(port);
    AddressRoundTrip(a, EncodePort(port));
    PortRoundTrip(port, []);
    assert EncodePort(port) + [] == EncodePort(port);
  }
}
