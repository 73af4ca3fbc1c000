# toy-socks5 handshake model

A Dafny model of the per-connection handshake of the toy-socks5 proxy server
(`server.go`). The server implements RFC 1928: method negotiation (section 3),
requests (section 4), addressing (section 5) and replies (section 6). The model
restates the handshake as pure functions over byte sequences:

- `Primitives`: octets (`Byte`), 16-bit ports (`Port`) and `Option`.
- `Constants`: the version, method, command, address-type and reply-code
  constants.
- `Codec`: the wire codec. It has decoders for the greeting, the request
  header, the address and the port, and encoders for the method selection and
  the reply frames. Each decoder returns `Ok(value, rest)` or `Err(failure)`.
  A failure is either `Reject(code)`, carrying the reply code the server sends,
  or `Truncated`, meaning the input ended early. Client-side encoders
  (`EncodeGreeting`, `EncodeAddress`, `EncodeRequest`) are the partners of the
  round-trip lemmas.
- `DialErrors`: the mapping from a dial error's message to a reply code. It
  works by substring search, and the recursive search is proved equal to an
  existential definition of "occurs in".
- `Session`: the server's per-connection record `SocksProxy`, as the immutable
  value `Proxy`. The phases `HandleGreetings`, `HandleRequestHeader` (with
  `ParseAddress` and `ParsePort`), `ConstructRemoteAddress`,
  `HandleCommandConnect` and `HandleRequestCommand` each take a record and
  return the next one. `Handle` runs them in order and decides whether the
  relay is entered (`DoReplyAction`). Every frame written to the client is
  logged in `Proxy.sent`.
- `SessionProperties` and `Scenarios`: whole-session lemmas, and concrete
  exchanges (connect to 127.0.0.1:8080, bind, a refused dial, example.com).

The model follows the code where it differs from RFC 1928:

- The server always selects "no authentication" (`05 00`), even when the
  client did not offer it. RFC 1928 would answer `0xFF`.
- A failure reply carries one zero address octet and port 0 under the
  session's current address type: `05 REP 00 ATYP 00 00 00`, 7 bytes, where
  RFC 1928 section 6 expects a full address of the stated type. ATYP is 0 for a
  failure in the greeting or in the request's version check. It is the
  request's type for an unknown type or a failed lookup, and 1 after a domain
  name was resolved.
- After a domain name is resolved, the address type becomes IPv4 whatever
  the family of the first address returned (`Session.ConstructRemoteAddress`,
  `SessionProperties.ConnectToDomain`).

Failure handling: on each error the server writes a failure reply and closes
the client connection, but it does not return; it goes on with the next phase
on the closed connection. The model stops at the first failure (`Step.Closed`,
`CommandOutcome.Failed`) and keeps the reply that was written. When the input
ends before a field is complete, the session also stops, with nothing written.

Lookup and dial are parameters. `lookup: seq<Byte> -> Lookup` gives the result
of resolving a host name: a failure, or a list of addresses. `dial: Endpoint ->
DialResult` gives the result of dialing an endpoint: the bound local address
and port, or an error message.

## Model

| member | source | states |
|---|---|---|
| Codec.EnsureVersion | server.go:92-96 | passes exactly when the version octet is 5; otherwise fails with general-failure (0x01) |
| Codec.EnsureNMethod | server.go:98-102 | passes exactly when the method count is non-zero (1..255 as an octet); otherwise general-failure |
| Codec.GetAvailableMethods | server.go:104-112 | reading n methods one octet at a time succeeds exactly when n octets are available, and yields the first n octets and leaves the rest |
| Codec.DecodeGreeting | server.go:141-150 | too short: truncated; wrong version or zero count: general-failure; otherwise accepted exactly when the count is 1..255 and that many methods follow, and the input is then the encoded greeting of those methods followed by the rest |
| Codec.GreetingRoundTrip | server.go:141-150 | every greeting offering 1..255 methods decodes back to those methods, leaving the following bytes unread |
| Codec.DecodeHeader | server.go:155-162 | four octets are read; version other than 5 gives general-failure; otherwise the command is octet 1, the address type octet 3, octet 2 is ignored |
| Codec.DecodeAddress | server.go:114-133 | IPv4 consumes 4 octets, IPv6 16, a domain name a length octet plus that many; any other type gives address-type-not-supported (0x08); an accepted address is well formed, of the requested type, and the input is its encoding followed by the rest |
| Codec.AddressRoundTrip | server.go:114-133 | every well-formed address decodes back from its encoding under its own type |
| Codec.DecodePort | server.go:135-139 | two octets are read big-endian: high octet = port / 256, low octet = port % 256 |
| Codec.PortBytesRoundTrip | server.go:135-139 | re-encoding a decoded port reproduces the two octets read |
| Codec.PortRoundTrip | server.go:219-225 | the reply's port octets `[p>>8, p&0xff]` decode back to p modulo 2^16, hence to p for every p < 65536 |
| Codec.GenerateReply | server.go:219-225 | reply layout `05, REP, 00, ATYP`, then the address bytes as given, then the two port octets; length 6 + address length |
| Codec.ReplyRoundTrip | server.go:219-225 | a generated reply parses back to version 5, its code, reserved 0, its address type, its address bytes and its port |
| Codec.ReplyAddressDecodes | server.go:219-225 | the address and port part of a reply for an IP address is read back by the request's address and port decoders |
| Codec.FailedReply | server.go:84-90 | the failure reply is exactly `[5, code, 0, atyp, 0, 0, 0]` |
| DialErrors.Contains | server.go:202-209 | the substring search answers true exactly when the phrase occurs at some index of the message |
| DialErrors.ClassifyDialError | server.go:202-209 | network-unreachable (0x03) exactly when "network is unreachable" occurs; connection-refused (0x05) exactly when it does not and "refused" does; host-unreachable (0x04) exactly when neither occurs |
| DialErrors.RefusedMessage | server.go:205-206 | Go's "connect: connection refused" dial error maps to connection-refused |
| DialErrors.UnreachableWinsOverRefused | server.go:203-206 | a message containing both phrases maps to network-unreachable |
| Session.NewProxy | server.go:70-77 | a new connection's record has nothing written, nothing dialed and no methods, and a failure reply sent before the request is read carries address type 0 |
| Session.CloseWithError | server.go:84-90 | records the code as the reply, appends the 7-byte failure reply under the current address type, closes, and changes nothing else |
| Session.HandleGreetings | server.go:141-153 | continues exactly for a valid greeting, with the offered methods recorded and `05 00` written; a bad version or zero count writes one general-failure reply and closes; input that ends early closes with nothing written and the record unchanged |
| Session.ParseAddress | server.go:114-133 | for a known type, stores a well-formed address of that type (4 octets for IPv4, 16 for IPv6, a name of at most 255 octets) in `ip` or `fqdn` only, consuming exactly its encoding; a known type is accepted exactly when enough octets are present (4, 16, or a length octet plus that many) and otherwise stops without a reply or any change; an unknown type closes with address-type-not-supported |
| Session.ParsePort | server.go:135-139 | stores the port when two octets are available, consuming exactly them |
| Session.ParseAddressAndPort | server.go:164-166 | the address then the port are read: the input is the encoding of a well-formed address of the record's type, then the port, then the rest; a known type is accepted exactly when 6, 18 or 3 + L octets are present, and otherwise writes nothing; an unknown type closes with 0x08 |
| Session.HandleRequestHeader | server.go:155-167 | an accepted request is `05 CMD RSV ATYP` + a well-formed address of type ATYP (4, 16 or 1+L octets) + port, with command, type, that address and port stored and nothing else changed; a bad version closes with general-failure under the old address type; an unknown type closes with 0x08 under that type; input that ends early closes with nothing written |
| Session.RequestRoundTrip | server.go:155-167 | every well-formed request is accepted and leaves its command, type, address and port in the record and the following bytes unread |
| Session.ReservedByteIgnored | server.go:155-162 | the reserved octet has no effect on the outcome |
| Session.ConstructRemoteAddress | server.go:170-192 | IP types dial the given address and port; a domain name dials the first looked-up address with the type set to IPv4; a failed or empty lookup closes with general-failure under type 3, and other types close with 0x08, in both cases dialing nothing and changing nothing but the reply code and the frames written |
| Session.HandleCommandConnect | server.go:194-217 | dials exactly the constructed endpoint; success gives a succeeded reply with the bound address and port; failure writes the reply code the error maps to |
| Session.HandleRequestCommand | server.go:234-248 | connect carries out the connect command (`HandleCommandConnect`), and only connect can yield a payload; bind, UDP associate and unknown commands close with 0x07 without dialing |
| Session.ReplyActionGate | server.go:250-260 | the relay gate (connect command with a succeeded reply) opens exactly when the command produced a payload; a session closed with a failure reply never passes it |
| Session.ReplyAndRelay | server.go:294-306 | the payload is written, then the relay gate is asked whatever the command's result; the relay is entered exactly for connect with a succeeded payload and receives the unread bytes; the outcome is well behaved |
| Session.HandleRequest | server.go:293-302 | after the method selection, the outcome is well behaved |
| Session.Handle | server.go:286-306 | every session writes at most the method selection and one reply; a session that dialed has written its reply; the relay is entered only after a succeeded reply to a successful dial, and otherwise no client bytes are handed on |
| SessionProperties.GreetedBy | server.go:141-153 | a greeting offering 1..255 methods leaves the record with those methods and `05 00` written |
| SessionProperties.ReachesCommand | server.go:292-294 | a valid greeting and a well-formed request bring the session to the command phase with the request's fields stored |
| SessionProperties.BadGreeting | server.go:141-148 | a wrong version or a zero method count gives exactly one reply `05 01 00 00 00 00 00`, no dial, no relay |
| SessionProperties.MethodsIgnored | server.go:150-152 | greetings offering different methods of the same count lead to the same session |
| SessionProperties.RequestIgnoresMethods | server.go:155-260 | the phases after the greeting do not depend on the recorded methods |
| SessionProperties.UnsupportedCommand | server.go:234-248 | any command other than connect gives `05 00` then `05 07 00 ATYP 00 00 00`, no dial, no relay |
| SessionProperties.UnsupportedAddressType | server.go:129-132 | an unknown address type gives `05 00` then `05 08 00 ATYP 00 00 00`, no dial, no relay |
| SessionProperties.ConnectToIp | server.go:194-217 | connect to an IP address dials exactly it; success replies with the bound address under the request's type and relays the following bytes; failure replies with the mapped code |
| SessionProperties.ConnectToDomain | server.go:174-185 | connect to a name: failed or empty lookup gives general-failure under type 3; otherwise the first address is dialed and the reply uses type 1 |
| SessionProperties.RelayOnlyForConnect | server.go:250-260 | whatever the input, the relay is entered only when the request's command octet is connect |
| Scenarios.ConnectScenario | server.go:286-302 | `05 01 00` + `05 01 00 01 7F 00 00 01 1F 90` dials 127.0.0.1:8080, replies `05 00` then `05 00 00 01` + bound address + port, and relays |
| Scenarios.RefusedScenario | server.go:202-206 | the same request with a refused dial gets `05 05 00 01 00 00 00` and no relay |
| Scenarios.BindScenario | server.go:237-239 | the bind request gets `05 07 00 01 00 00 00`, no dial, no relay |
| Scenarios.DomainScenario | server.go:174-185 | example.com resolving to 93.184.216.34 dials that address on port 80 and replies with ATYP 1 |
| Scenarios.NoAuthSelectedWhenNotOffered | server.go:152 | a client offering only username/password (0x02) still gets `05 00` |

## Left out

- The relay (`exchange` and its two copy goroutines joined over a channel,
  server.go:263-284). It is concurrency and socket I/O. The model only decides
  whether the relay is entered and which client bytes remain for it
  (`Outcome.relayInput`).
- `net.Dial`, `net.LookupIP` and `LocalAddr` are network calls. They are the
  `dial` and `lookup` parameters.
- `dial` over-approximates Go's dial: the lemmas hold for every `dial`, so
  they also cover outcomes the program cannot produce. The dial target is
  formatted with `"%v:%d"` / `"%s:%d"` (server.go:173 and 182) without
  brackets, so `net.Dial` rejects every IPv6 target that is not v4-mapped
  ("too many colons in address", reply 0x04). The IPv6 success branch of
  `SessionProperties.ConnectToIp`, and a name resolving to such an address
  followed by a successful dial, therefore never occur in the program.
- The dial-address string (`fmt.Sprintf`, `net.IP.String()`, server.go:173 and
  182) is library formatting. The model passes the endpoint as IP bytes and a
  port.
- `serve`, `main`, the listener loop, the `port` constant (1081) and all
  logging are process plumbing.
- Short reads: `conn.Read` byte counts are ignored by the server. The model
  stops with `Truncated`, and writes nothing, when the input is too short.
- The continuation after `closeConnectionWithError` is not modelled. The model
  stops at the first failure. This includes indexing `ips[0]` after a failed
  lookup (server.go:182) and the nil `remote` dereference (server.go:212 and
  308); both are crash paths.
- Session.ConstructRemoteAddress: an empty lookup result without an error is
  treated like a failed lookup (general-failure). The code would index
  `ips[0]` and crash, but Go's resolver reports an error rather than returning
  no addresses.
- Closing the client and remote connections (`closeConnection`, the deferred
  close in `handle`) is not modelled; a `Closed` step stands for it.
- DialErrors.ClassifyDialError: the message is a `string` of characters; Go
  searches bytes. The two agree for the ASCII phrases searched for.
