/** One client session of the proxy: the handshake phases of a connection,
    from greeting to the decision to enter the relay.

    The server keeps a mutable record per connection and fills it in phase by
    phase. Here that record is the immutable value `Proxy`, and each phase
    returns the next value. The bytes the server writes to the client are
    logged in order in `Proxy.sent`.

    Stopping on failure: the server writes its failure reply and closes the
    client connection, but then carries on with the next phase on the closed
    connection. The model does not. It stops at the first failure, returns
    `Closed`, and keeps the reply that was written. A byte source that ends
    early is also `Closed`, with no reply written.

    Name lookup and dialing are calls into the network. They are parameters
    here: `lookup` maps a host name to the lookup's result, and `dial` maps
    an endpoint to the dial's result. */
module Session {
  import opened Primitives
  import opened Constants
  import opened Codec
  import opened DialErrors

  /** An outbound destination: IP address bytes and a port. */
  datatype Endpoint = Endpoint(ip: seq<Byte>, port: Port)

  /** What the name lookup returns for a host name. */
  datatype Lookup = LookupFailed | Resolved(ips: seq<seq<Byte>>)

  /** What dialing an endpoint returns: the local (bound) address of the new
      connection, or the error's message. */
  datatype DialResult = Connected(bindIp: seq<Byte>, bindPort: Port) | DialFailed(message: string)

  /** The per-connection record. `ip` and `fqdn` hold the parsed
      destination (empty when unset). `dialed` is the endpoint a dial was attempted to, if
      any. `sent` lists the frames written to the client. */
  datatype Proxy = Proxy(
    command: Byte,
    addressType: Byte,
    reply: Byte,
    ip: seq<Byte>,
    fqdn: seq<Byte>,
    port: Port,
    methods: seq<Byte>,
    dialed: Option<Endpoint>,
    sent: seq<seq<Byte>>)

  /** The record of a freshly accepted connection: every field zero or empty.
      Nothing is written or dialed yet, and a failure reply sent before the
      request is read carries address type 0. */
  function NewProxy(): (p: Proxy)
    ensures p.sent == [] && p.dialed == None && p.methods == []
    ensures forall code: Byte :: CloseWithError(p, code).proxy.sent == [[SocksVersion, code, 0, 0, 0, 0, 0]]
  {
    Proxy(0, 0, 0, [], [], 0, [], None, [])
  }

  /** After a phase, the session either goes on with the unread input or is
      closed. */
  datatype Step = Continue(proxy: Proxy, input: seq<Byte>) | Closed(proxy: Proxy)

  /** Records the failure code, writes the failure reply under the current
      address type, and closes the session. */
  function CloseWithError(p: Proxy, code: Byte): (st: Step)
    ensures st.Closed?
    ensures st.proxy.sent == p.sent + [[SocksVersion, code, 0, p.addressType, 0, 0, 0]]
    ensures st.proxy == p.(reply := code, sent := st.proxy.sent)
  {
    var p' := p.(reply := code);
    Closed(p'.(sent := p'.sent + [FailedReply(code, p'.addressType)]))
  }

  /** Ends the session on a decoder failure: a rejection sends its reply, a
      truncated input closes without a reply. */
  function Abort(p: Proxy, f: Failure): (st: Step)
  {
    match f
    case Reject(code) => CloseWithError(p, code)
    case Truncated => Closed(p)
  }

  // ---------------------------------------------------------------------
  // Greeting

  /** Reads the greeting, keeps the offered methods, and answers with
      "no authentication" whatever was offered. */
  function HandleGreetings(p: Proxy, input: seq<Byte>): (st: Step)
    ensures st.Continue? <==> 2 <= |input| && input[0] == SocksVersion && 1 <= input[1] && 2 + input[1] <= |input|
    ensures st.Continue? ==> st.proxy == p.(methods := input[2..2 + input[1]], sent := p.sent + [[5, 0]])
    ensures st.Continue? ==> st.input == input[2 + input[1]..]
    ensures 2 <= |input| && (input[0] != SocksVersion || input[1] == 0) ==>
              st == Closed(p.(reply := GeneralFailure, sent := p.sent + [[5, GeneralFailure, 0, p.addressType, 0, 0, 0]]))
    ensures st.Closed? && !(2 <= |input| && (input[0] != SocksVersion || input[1] == 0)) ==> st.proxy == p
    ensures st.Closed? ==> |st.proxy.sent| <= |p.sent| + 1
    ensures st.proxy.dialed == p.dialed
  {
    match DecodeGreeting(input)
    case Err(f) => Abort(p, f)
    case Ok(methods, rest) =>
      Continue(p.(methods := methods, sent := p.sent + [MethodSelection]), rest)
  }

  // ---------------------------------------------------------------------
  // Request header, address and port

  /** Reads the address for the record's address type into `ip` or `fqdn`;
      an unknown type closes with address-type-not-supported. */
  function ParseAddress(p: Proxy, input: seq<Byte>): (st: Step)
    ensures st.Continue? ==>
              && p.addressType in {Ipv4, DomainNameType, Ipv6}
              && WellFormed(StoredAddress(st.proxy))
              && input == EncodeAddress(StoredAddress(st.proxy)) + st.input
              && st.proxy == StoreAddress(p, StoredAddress(st.proxy))
    ensures p.addressType == Ipv4 ==> (st.Continue? <==> 4 <= |input|)
    ensures p.addressType == Ipv6 ==> (st.Continue? <==> 16 <= |input|)
    ensures p.addressType == DomainNameType ==> (st.Continue? <==> 1 <= |input| && 1 + input[0] <= |input|)
    ensures p.addressType in {Ipv4, DomainNameType, Ipv6} && st.Closed? ==> st.proxy == p
    ensures p.addressType !in {Ipv4, DomainNameType, Ipv6} ==>
              st == CloseWithError(p, AddressTypeNotSupported)
    ensures st.Closed? ==> |st.proxy.sent| <= |p.sent| + 1
    ensures st.proxy.dialed == p.dialed
  {
    match DecodeAddress(p.addressType, input)
    case Err(f) => Abort(p, f)
    case Ok(address, rest) => Continue(StoreAddress(p, address), rest)
  }

  /** Reads the two-octet big-endian port into the record. */
  function ParsePort(p: Proxy, input: seq<Byte>): (st: Step)
    ensures st.Continue? <==> 2 <= |input|
    ensures st.Continue? ==> input == EncodePort(st.proxy.port) + st.input && st.proxy == p.(port := st.proxy.port)
    ensures st.Closed? ==> st.proxy == p
  {
    match DecodePort(input)
    case Err(f) => Abort(p, f)
    case Ok(port, rest) =>
      assert input == EncodePort(port) + rest by { PortBytesRoundTrip(input); }
      Continue(p.(port := port), rest)
  }

  /** Reads the request header, then the address for its address type, then
      the port. The command and address type are stored as soon as the
      header's version is accepted, so a later failure reply carries the
      request's address type. */
  function HandleRequestHeader(p: Proxy, input: seq<Byte>): (st: Step)
    ensures st.Continue? ==>
              && 4 <= |input|
              && input[..4] == [SocksVersion, st.proxy.command, input[2], st.proxy.addressType]
              && WellFormed(StoredAddress(st.proxy))
              && input[4..] == EncodeAddress(StoredAddress(st.proxy)) + EncodePort(st.proxy.port) + st.input
    ensures st.Continue? ==>
              st.proxy == StoreAddress(p.(command := input[1], addressType := input[3]), StoredAddress(st.proxy))
                            .(port := st.proxy.port)
    ensures 4 <= |input| && input[0] != SocksVersion ==>
              st == CloseWithError(p, GeneralFailure)
    ensures 4 <= |input| && input[0] == SocksVersion && input[3] !in {Ipv4, DomainNameType, Ipv6} ==>
              st == CloseWithError(p.(command := input[1], addressType := input[3]), AddressTypeNotSupported)
    ensures st.Closed? && !(4 <= |input| && (input[0] != SocksVersion || input[3] !in {Ipv4, DomainNameType, Ipv6})) ==>
              st.proxy.sent == p.sent
    ensures st.Closed? ==> |st.proxy.sent| <= |p.sent| + 1
    ensures st.proxy.dialed == p.dialed && (st.Continue? ==> st.proxy.sent == p.sent)
  {
    match DecodeHeader(input)
    case Err(f) => Abort(p, f)
    case Ok(header, rest) =>
      ParseAddressAndPort(p.(command := header.command, addressType := header.addressType), rest)
  }

  /** The address and then the port, as read after the header. */
  function ParseAddressAndPort(p: Proxy, input: seq<Byte>): (st: Step)
    ensures st.Continue? ==>
              && p.addressType in {Ipv4, DomainNameType, Ipv6}
              && WellFormed(StoredAddress(st.proxy))
              && input == EncodeAddress(StoredAddress(st.proxy)) + EncodePort(st.proxy.port) + st.input
              && st.proxy == StoreAddress(p, StoredAddress(st.proxy)).(port := st.proxy.port)
    ensures p.addressType == Ipv4 ==> (st.Continue? <==> 6 <= |input|)
    ensures p.addressType == Ipv6 ==> (st.Continue? <==> 18 <= |input|)
    ensures p.addressType == DomainNameType ==> (st.Continue? <==> 1 <= |input| && 3 + input[0] <= |input|)
    ensures p.addressType in {Ipv4, DomainNameType, Ipv6} && st.Closed? ==> st.proxy.sent == p.sent
    ensures p.addressType !in {Ipv4, DomainNameType, Ipv6} ==>
              st == CloseWithError(p, AddressTypeNotSupported)
    ensures st.Closed? ==> |st.proxy.sent| <= |p.sent| + 1
    ensures st.proxy.dialed == p.dialed && (st.Continue? ==> st.proxy.sent == p.sent)
  {
    match ParseAddress(p, input)
    case Closed(q) => Closed(q)
    case Continue(q, rest) =>
      var st := ParsePort(q, rest);
      if st.Continue? then
        var a := StoredAddress(q);
        assert StoredAddress(st.proxy) == a;
        assert st.proxy == StoreAddress(p, a).(port := st.proxy.port);
        assert input == EncodeAddress(a) + (EncodePort(st.proxy.port) + st.input);
        st
      else
        st
  }

  /** Puts a parsed address into the record: IP bytes for the IP types, the
      name for a domain name. */
  function StoreAddress(p: Proxy, a: Address): (q: Proxy)
  {
    match a
    case IPv4(ip) => p.(ip := ip)
    case IPv6(ip) => p.(ip := ip)
    case DomainName(name) => p.(fqdn := name)
  }

  /** The address the record holds for its address type: the name for a
      domain name, the IP bytes otherwise. */
  function StoredAddress(p: Proxy): (a: Address)
    ensures p.addressType in {Ipv4, DomainNameType, Ipv6} ==> AddressTypeOf(a) == p.addressType
    ensures StoreAddress(p, a) == p
  {
    if p.addressType == DomainNameType then DomainName(p.fqdn)
    else if p.addressType == Ipv6 then IPv6(p.ip)
    else IPv4(p.ip)
  }

  /** Every well-formed request is accepted; the record then holds its
      command, address type, address and port, and the bytes after it are
      left for the relay. */
  lemma RequestRoundTrip(p: Proxy, command: Byte, a: Address, port: Port, rest: seq<Byte>)
    requires WellFormed(a)
    ensures HandleRequestHeader(p, EncodeRequest(command, a, port) + rest)
         == Continue(StoreAddress(p.(command := command, addressType := AddressTypeOf(a)), a).(port := port), rest)
  {
    var s := EncodeRequest(command, a, port) + rest;
    var p1 := p.(command := command, addressType := AddressTypeOf(a));
    assert s[..4] == [SocksVersion, command, 0, AddressTypeOf(a)];
    assert s[4..] == EncodeAddress(a) + (EncodePort(port) + rest);
    assert DecodeHeader(s) == Ok(Header(command, AddressTypeOf(a)), s[4..]);
    AddressRoundTrip(a, EncodePort(port) + rest);
    assert ParseAddress(p1, s[4..]) == Continue(StoreAddress(p1, a), EncodePort(port) + rest);
    PortRoundTrip(port, rest);
  }

  /** The reserved octet of a request has no effect on the session. */
  lemma ReservedByteIgnored(p: Proxy, input: seq<Byte>, reserved: Byte)
    requires 4 <= |input|
    ensures HandleRequestHeader(p, input[2 := reserved]) == HandleRequestHeader(p, input)
  {
  }

  // ---------------------------------------------------------------------
  // Destination and command

  /** The destination to dial, or the closed session. */
  datatype Destination = Dialable(proxy: Proxy, endpoint: Endpoint) | Unresolvable(step: Step)

  /** Works out the endpoint to dial. IP addresses are used as they are. A
      domain name is looked up and the first address returned is used; the
      address type then becomes IPv4, whichever family that address is. A
      failed or empty lookup closes with general-failure; any other address
      type closes with address-type-not-supported. */
  function ConstructRemoteAddress(p: Proxy, lookup: seq<Byte> -> Lookup): (d: Destination)
    ensures p.addressType in {Ipv4, Ipv6} ==> d == Dialable(p, Endpoint(p.ip, p.port))
    ensures p.addressType == DomainNameType ==>
              match lookup(p.fqdn)
              case Resolved(ips) =>
                |ips| > 0 ==> d == Dialable(p.(addressType := Ipv4), Endpoint(ips[0], p.port))
              case LookupFailed => true
    ensures p.addressType == DomainNameType && (lookup(p.fqdn).LookupFailed? || lookup(p.fqdn).ips == []) ==>
              && d == Unresolvable(CloseWithError(p, GeneralFailure))
              && d.step.proxy.sent == p.sent + [[5, GeneralFailure, 0, DomainNameType, 0, 0, 0]]
    ensures p.addressType !in {Ipv4, DomainNameType, Ipv6} ==>
              && d == Unresolvable(CloseWithError(p, AddressTypeNotSupported))
              && d.step.proxy.sent == p.sent + [[5, AddressTypeNotSupported, 0, p.addressType, 0, 0, 0]]
    ensures d.Unresolvable? ==> d.step.Closed? && d.step.proxy.reply in {GeneralFailure, AddressTypeNotSupported}
  {
    if p.addressType == Ipv4 || p.addressType == Ipv6 then
      Dialable(p, Endpoint(p.ip, p.port))
    else if p.addressType == DomainNameType then
      match lookup(p.fqdn)
      case Resolved(ips) =>
        if |ips| == 0 then Unresolvable(CloseWithError(p, GeneralFailure))
        else Dialable(p.(addressType := Ipv4), Endpoint(ips[0], p.port))
      case LookupFailed => Unresolvable(CloseWithError(p, GeneralFailure))
    else
      Unresolvable(CloseWithError(p, AddressTypeNotSupported))
  }

  /** What the command phase yields: the reply payload still to be written,
      or a session already closed with its failure reply. */
  datatype CommandOutcome = Payload(proxy: Proxy, payload: seq<Byte>) | Failed(proxy: Proxy)

  /** Dials the destination. On success the payload is a succeeded reply
      carrying the local address and port of the new connection; on failure
      the session closes with the code the error message maps to. */
  function HandleCommandConnect(p: Proxy, lookup: seq<Byte> -> Lookup, dial: Endpoint -> DialResult): (c: CommandOutcome)
    ensures var d := ConstructRemoteAddress(p, lookup);
            d.Unresolvable? ==> c == Failed(d.step.proxy)
    ensures var d := ConstructRemoteAddress(p, lookup);
            d.Dialable? ==> c.proxy.dialed == Some(d.endpoint) && (c.Payload? <==> dial(d.endpoint).Connected?)
    ensures var d := ConstructRemoteAddress(p, lookup);
            d.Dialable? ==>
              match dial(d.endpoint)
              case Connected(bindIp, bindPort) =>
                && c.payload == GenerateReply(Succeeded, d.proxy.addressType, bindIp, bindPort)
                && c.proxy.reply == Succeeded
                && c.proxy.sent == p.sent
              case DialFailed(message) =>
                c.proxy.sent == p.sent + [FailedReply(ClassifyDialError(message), d.proxy.addressType)]
    ensures c.Failed? ==> |c.proxy.sent| == |p.sent| + 1 && c.proxy.reply != Succeeded
    ensures c.Payload? ==>
              && c.proxy.sent == p.sent && c.proxy.command == p.command && c.proxy.reply == Succeeded
              && c.proxy.dialed.Some? && dial(c.proxy.dialed.value).Connected?
              && 6 <= |c.payload| && c.payload[..2] == [SocksVersion, Succeeded]
  {
    match ConstructRemoteAddress(p, lookup)
    case Unresolvable(st) => Failed(st.proxy)
    case Dialable(q, endpoint) =>
      var q' := q.(dialed := Some(endpoint));
      match dial(endpoint)
      case DialFailed(message) => Failed(CloseWithError(q', ClassifyDialError(message)).proxy)
      case Connected(bindIp, bindPort) =>
        var q'' := q'.(reply := Succeeded);
        Payload(q'', GenerateReply(q''.reply, q''.addressType, bindIp, bindPort))
  }

  /** Only the connect command is carried out. Bind, UDP associate and every
      unknown command close the session with command-not-supported, without
      dialing. */
  function HandleRequestCommand(p: Proxy, lookup: seq<Byte> -> Lookup, dial: Endpoint -> DialResult): (c: CommandOutcome)
    ensures c.Payload? ==> p.command == Connect && c.proxy.command == Connect && c.proxy.reply == Succeeded
    ensures p.command == Connect ==> c == HandleCommandConnect(p, lookup, dial)
    ensures p.command != Connect ==>
              c == Failed(p.(reply := CommandNotSupported,
                             sent := p.sent + [[5, CommandNotSupported, 0, p.addressType, 0, 0, 0]]))
    ensures c.proxy.dialed.Some? ==> p.command == Connect || p.dialed.Some?
    ensures c.Failed? ==> |c.proxy.sent| == |p.sent| + 1 && c.proxy.reply != Succeeded
    ensures c.Payload? ==>
              && c.proxy.sent == p.sent
              && c.proxy.dialed.Some? && dial(c.proxy.dialed.value).Connected?
              && 6 <= |c.payload| && c.payload[..2] == [SocksVersion, Succeeded]
  {
    if p.command == Connect then HandleCommandConnect(p, lookup, dial)
    else if p.command == Bind then Failed(CloseWithError(p, CommandNotSupported).proxy)
    else if p.command == UdpAssociate then Failed(CloseWithError(p, CommandNotSupported).proxy)
    else Failed(CloseWithError(p, CommandNotSupported).proxy)
  }

  /** The relay is entered only for a connect command whose reply is
      succeeded. The server asks this after every command, failed or not. */
  predicate DoReplyAction(p: Proxy)
  {
    p.command == Connect && p.reply == Succeeded
  }

  /** The relay gate opens exactly after a command that produced a
      succeeded-reply payload: a session closed with a failure reply never
      passes it. */
  lemma ReplyActionGate(p: Proxy, lookup: seq<Byte> -> Lookup, dial: Endpoint -> DialResult)
    ensures var c := HandleRequestCommand(p, lookup, dial);
            DoReplyAction(c.proxy) <==> c.Payload?
  {
    var c := HandleRequestCommand(p, lookup, dial);
    if c.Payload? {
      assert p.command == Connect && c.proxy.command == Connect && c.proxy.reply == Succeeded;
    } else {
      assert c.proxy.reply != Succeeded;
    }
  }

  // ---------------------------------------------------------------------
  // The whole handshake

  /** What a session did: the frames it wrote to the client in order, the
      endpoint it dialed (if any), whether it entered the relay, and the
      client bytes still unread when the relay starts. */
  datatype Outcome = Outcome(sent: seq<seq<Byte>>, dialed: Option<Endpoint>, relay: bool, relayInput: seq<Byte>)

  /** The properties every session outcome has: at most the method
      selection and one reply are written, and the relay is entered only
      after a succeeded reply to a dialed endpoint. */
  ghost predicate WellBehaved(o: Outcome, dial: Endpoint -> DialResult)
  {
    && |o.sent| <= 2
    && (|o.sent| == 2 ==> o.sent[0] == MethodSelection)
    && (o.relay ==> |o.sent| == 2 && 6 <= |o.sent[1]| && o.sent[1][..2] == [SocksVersion, Succeeded])
    && (o.relay ==> o.dialed.Some? && dial(o.dialed.value).Connected?)
    && (o.dialed.Some? ==> |o.sent| == 2)
    && (!o.relay ==> o.relayInput == [])
  }

  /** Runs the handshake phases in order on the client's bytes, stopping at
      the first failure. */
  function Handle(input: seq<Byte>, lookup: seq<Byte> -> Lookup, dial: Endpoint -> DialResult): (o: Outcome)
    ensures WellBehaved(o, dial)
  {
    match HandleGreetings(NewProxy(), input)
    case Closed(p) => Outcome(p.sent, p.dialed, false, [])
    case Continue(p1, input1) => HandleRequest(p1, input1, lookup, dial)
  }

  /** The session after the method selection was written: request, command
      and the relay decision. */
  function HandleRequest(p: Proxy, input: seq<Byte>, lookup: seq<Byte> -> Lookup, dial: Endpoint -> DialResult): (o: Outcome)
    requires p.sent == [MethodSelection] && p.dialed == None
    ensures WellBehaved(o, dial)
  {
    match HandleRequestHeader(p, input)
    case Closed(q) => Outcome(q.sent, q.dialed, false, [])
    case Continue(q, rest) => ReplyAndRelay(q, rest, lookup, dial)
  }

  /** Carries out the command, writes its payload and decides on the relay;
      the unread client bytes go to the relay. */
  function ReplyAndRelay(p: Proxy, input: seq<Byte>, lookup: seq<Byte> -> Lookup, dial: Endpoint -> DialResult): (o: Outcome)
    requires p.sent == [MethodSelection] && p.dialed == None
    ensures WellBehaved(o, dial)
    ensures o.relay <==> p.command == Connect && HandleRequestCommand(p, lookup, dial).Payload?
    ensures var c := HandleRequestCommand(p, lookup, dial);
            match c
            case Failed(q) => o == Outcome(q.sent, q.dialed, false, [])
            case Payload(q, payload) => o == Outcome(q.sent + [payload], q.dialed, true, input)
  {
    var c := HandleRequestCommand(p, lookup, dial);
    var q := if c.Payload? then c.proxy.(sent := c.proxy.sent + [c.payload]) else c.proxy;
    ReplyActionGate(p, lookup, dial);
    var relay := DoReplyAction(q);
    Outcome(q.sent, q.dialed, relay, if relay then input else [])
  }
}
