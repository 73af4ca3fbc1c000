/** Properties of whole sessions: what the server writes and whether it
    dials and relays, for every shape of client input. */
module SessionProperties {
  import opened Primitives
  import opened Constants
  import opened Codec
  import opened DialErrors
  import opened Session

  /** The record after an accepted greeting offering `methods`. */
  function Greeted(methods: seq<Byte>): Proxy
  {
    NewProxy().(methods := methods, sent := [MethodSelection])
  }

  /** The record after a well-formed request. */
  function Requested(methods: seq<Byte>, command: Byte, a: Address, port: Port): Proxy
  {
    StoreAddress(Greeted(methods).(command := command, addressType := AddressTypeOf(a)), a).(port := port)
  }

  /** A greeting offering one to 255 methods is answered with the method
      selection and leaves the session at the request phase. */
  lemma GreetedBy(methods: seq<Byte>, rest: seq<Byte>)
    requires 1 <= |methods| <= 255
    ensures HandleGreetings(NewProxy(), EncodeGreeting(methods) + rest) == Continue(Greeted(methods), rest)
  {
  }

  /** A greeting and a well-formed request bring the session to the command
      phase, with the bytes after the request unread. */
  lemma ReachesCommand(methods: seq<Byte>, command: Byte, a: Address, port: Port,
                       rest: seq<Byte>, lookup: seq<Byte> -> Lookup, dial: Endpoint -> DialResult)
    requires 1 <= |methods| <= 255 && WellFormed(a)
    ensures Handle(EncodeGreeting(methods) + EncodeRequest(command, a, port) + rest, lookup, dial)
         == ReplyAndRelay(Requested(methods, command, a, port), rest, lookup, dial)
  {
    var request := EncodeRequest(command, a, port) + rest;
    var input := EncodeGreeting(methods) + request;
    assert EncodeGreeting(methods) + EncodeRequest(command, a, port) + rest == input;
    GreetedBy(methods, request);
    RequestRoundTrip(Greeted(methods), command, a, port, rest);
    assert HandleRequest(Greeted(methods), request, lookup, dial)
        == ReplyAndRelay(Requested(methods, command, a, port), rest, lookup, dial);
  }

  /** A greeting with a version other than 5 or with no methods is answered
      by one general-failure reply (address type still 0) and nothing else
      happens. */
  lemma BadGreeting(input: seq<Byte>, lookup: seq<Byte> -> Lookup, dial: Endpoint -> DialResult)
    requires 2 <= |input| && (input[0] != SocksVersion || input[1] == 0)
    ensures Handle(input, lookup, dial) == Outcome([[5, GeneralFailure, 0, 0, 0, 0, 0]], None, false, [])
  {
  }

  /** The offered methods never matter: two greetings offering the same
      number of methods lead to the same session, so "no authentication" is
      selected even when the client did not offer it. */
  lemma MethodsIgnored(m1: seq<Byte>, m2: seq<Byte>, rest: seq<Byte>,
                       lookup: seq<Byte> -> Lookup, dial: Endpoint -> DialResult)
    requires 1 <= |m1| == |m2| <= 255
    ensures Handle(EncodeGreeting(m1) + rest, lookup, dial) == Handle(EncodeGreeting(m2) + rest, lookup, dial)
  {
    GreetedBy(m1, rest);
    GreetedBy(m2, rest);
    assert Handle(EncodeGreeting(m1) + rest, lookup, dial) == HandleRequest(Greeted(m1), rest, lookup, dial);
    assert Handle(EncodeGreeting(m2) + rest, lookup, dial) == HandleRequest(Greeted(m2), rest, lookup, dial);
    assert Greeted(m1).(methods := m2) == Greeted(m2);
    RequestIgnoresMethods(Greeted(m1), m2, rest, lookup, dial);
  }

  /** The rest of the session does not depend on the methods recorded. */
  lemma RequestIgnoresMethods(p: Proxy, methods: seq<Byte>, input: seq<Byte>,
                              lookup: seq<Byte> -> Lookup, dial: Endpoint -> DialResult)
    requires p.sent == [MethodSelection] && p.dialed == None
    ensures HandleRequest(p.(methods := methods), input, lookup, dial) == HandleRequest(p, input, lookup, dial)
  {
    var st, st' := HandleRequestHeader(p, input), HandleRequestHeader(p.(methods := methods), input);
    HeaderIgnoresMethods(p, methods, input);
    if st.Continue? {
      CommandIgnoresMethods(st.proxy, methods, lookup, dial);
    }
  }

  lemma HeaderIgnoresMethods(p: Proxy, methods: seq<Byte>, input: seq<Byte>)
    ensures var st, st' := HandleRequestHeader(p, input), HandleRequestHeader(p.(methods := methods), input);
            st'.Continue? == st.Continue? && st'.proxy == st.proxy.(methods := methods)
            && (st.Continue? ==> st'.input == st.input)
  {
    match DecodeHeader(input)
    case Err(_) =>
    case Ok(header, rest) =>
      var p1 := p.(command := header.command, addressType := header.addressType);
      assert p.(methods := methods).(command := header.command, addressType := header.addressType)
          == p1.(methods := methods);
      var a, a' := ParseAddress(p1, rest), ParseAddress(p1.(methods := methods), rest);
      assert a'.Continue? == a.Continue? && a'.proxy == a.proxy.(methods := methods);
      if a.Continue? {
        assert a'.input == a.input;
        var port, port' := ParsePort(a.proxy, a.input), ParsePort(a'.proxy, a.input);
        assert port'.Continue? == port.Continue? && port'.proxy == port.proxy.(methods := methods);
      }
  }

  lemma CommandIgnoresMethods(p: Proxy, methods: seq<Byte>, lookup: seq<Byte> -> Lookup, dial: Endpoint -> DialResult)
    ensures var c, c' := HandleRequestCommand(p, lookup, dial), HandleRequestCommand(p.(methods := methods), lookup, dial);
            c'.Payload? == c.Payload? && c'.proxy == c.proxy.(methods := methods)
            && (c.Payload? ==> c'.payload == c.payload)
  {
  }

  /** A request with a command other than connect is answered with
      command-not-supported under the request's address type; nothing is
      dialed and the relay is not entered. */
  lemma UnsupportedCommand(methods: seq<Byte>, command: Byte, a: Address, port: Port,
                           rest: seq<Byte>, lookup: seq<Byte> -> Lookup, dial: Endpoint -> DialResult)
    requires 1 <= |methods| <= 255 && WellFormed(a) && command != Connect
    ensures Handle(EncodeGreeting(methods) + EncodeRequest(command, a, port) + rest, lookup, dial)
         == Outcome([MethodSelection, [5, CommandNotSupported, 0, AddressTypeOf(a), 0, 0, 0]], None, false, [])
  {
    ReachesCommand(methods, command, a, port, rest, lookup, dial);
  }

  /** A request with an unknown address type is answered with
      address-type-not-supported, echoing that type; nothing after the
      header is read. */
  lemma UnsupportedAddressType(methods: seq<Byte>, command: Byte, reserved: Byte, addressType: Byte,
                               rest: seq<Byte>, lookup: seq<Byte> -> Lookup, dial: Endpoint -> DialResult)
    requires 1 <= |methods| <= 255 && addressType !in {Ipv4, DomainNameType, Ipv6}
    ensures Handle(EncodeGreeting(methods) + [5, command, reserved, addressType] + rest, lookup, dial)
         == Outcome([MethodSelection, [5, AddressTypeNotSupported, 0, addressType, 0, 0, 0]], None, false, [])
  {
    var request := [5, command, reserved, addressType] + rest;
    assert EncodeGreeting(methods) + [5, command, reserved, addressType] + rest == EncodeGreeting(methods) + request;
    GreetedBy(methods, request);
  }

  /** A connect request to an IP address dials exactly that address and
      port. If the dial succeeds, the reply is succeeded with the bound
      address under the request's address type and the relay receives the
      bytes after the request; if it fails, the reply carries the code the
      error maps to and there is no relay. */
  lemma ConnectToIp(methods: seq<Byte>, a: Address, port: Port, rest: seq<Byte>,
                    lookup: seq<Byte> -> Lookup, dial: Endpoint -> DialResult)
    requires 1 <= |methods| <= 255 && WellFormed(a) && !a.DomainName?
    ensures var endpoint := Endpoint(a.ip, port);
            (Handle(EncodeGreeting(methods) + EncodeRequest(Connect, a, port) + rest, lookup, dial)
             == match dial(endpoint)
            case Connected(bindIp, bindPort) =>
              Outcome([MethodSelection, GenerateReply(Succeeded, AddressTypeOf(a), bindIp, bindPort)], Some(endpoint), true, rest)
            case DialFailed(message) =>
              Outcome([MethodSelection, FailedReply(ClassifyDialError(message), AddressTypeOf(a))], Some(endpoint), false, []))
  {
    ReachesCommand(methods, Connect, a, port, rest, lookup, dial);
    var q := Requested(methods, Connect, a, port);
    assert q.command == Connect && q.addressType == AddressTypeOf(a) && q.ip == a.ip && q.port == port;
    assert q.sent == [MethodSelection] && q.dialed == None;
    assert ConstructRemoteAddress(q, lookup) == Dialable(q, Endpoint(a.ip, port));
  }

  /** A connect request to a domain name looks the name up. A failed or
      empty lookup is answered with general-failure under the domain-name
      type. Otherwise the first address found is dialed, and from then on
      the address type is IPv4, whatever the address's length. */
  lemma ConnectToDomain(methods: seq<Byte>, name: seq<Byte>, port: Port, rest: seq<Byte>,
                        lookup: seq<Byte> -> Lookup, dial: Endpoint -> DialResult)
    requires 1 <= |methods| <= 255 && |name| <= 255
    ensures NameConnected(Handle(EncodeGreeting(methods) + EncodeRequest(Connect, DomainName(name), port) + rest, lookup, dial),
                          name, port, rest, lookup, dial)
  {
    ReachesCommand(methods, Connect, DomainName(name), port, rest, lookup, dial);
    var q := Requested(methods, Connect, DomainName(name), port);
    assert q.command == Connect && q.addressType == DomainNameType && q.fqdn == name && q.port == port;
    assert q.sent == [MethodSelection] && q.dialed == None;
    NameCommand(q, rest, lookup, dial);
  }

  /** The outcome of a connect to `name`: general-failure under the
      domain-name type when the lookup gives nothing, otherwise the first
      address is dialed and the reply is under IPv4. */
  ghost predicate NameConnected(o: Outcome, name: seq<Byte>, port: Port, rest: seq<Byte>,
                                lookup: seq<Byte> -> Lookup, dial: Endpoint -> DialResult)
  {
    match lookup(name)
    case LookupFailed =>
      o == Outcome([MethodSelection, [5, GeneralFailure, 0, DomainNameType, 0, 0, 0]], None, false, [])
    case Resolved(ips) =>
      if ips == [] then
        o == Outcome([MethodSelection, [5, GeneralFailure, 0, DomainNameType, 0, 0, 0]], None, false, [])
      else
        var endpoint := Endpoint(ips[0], port);
        match dial(endpoint)
        case Connected(bindIp, bindPort) =>
          o == Outcome([MethodSelection, GenerateReply(Succeeded, Ipv4, bindIp, bindPort)], Some(endpoint), true, rest)
        case DialFailed(message) =>
          o == Outcome([MethodSelection, FailedReply(ClassifyDialError(message), Ipv4)], Some(endpoint), false, [])
  }

  /** The command phase of a connect to a domain name, from the record left
      by the request. */
  lemma NameCommand(q: Proxy, rest: seq<Byte>, lookup: seq<Byte> -> Lookup, dial: Endpoint -> DialResult)
    requires q.command == Connect && q.addressType == DomainNameType
    requires q.sent == [MethodSelection] && q.dialed == None
    ensures NameConnected(ReplyAndRelay(q, rest, lookup, dial), q.fqdn, q.port, rest, lookup, dial)
  {
    var c := HandleRequestCommand(q, lookup, dial);
    match lookup(q.fqdn)
    case LookupFailed =>
      assert c == Failed(CloseWithError(q, GeneralFailure).proxy);
    case Resolved(ips) =>
      if ips == [] {
        assert c == Failed(CloseWithError(q, GeneralFailure).proxy);
      } else {
        var endpoint := Endpoint(ips[0], q.port);
        assert ConstructRemoteAddress(q, lookup) == Dialable(q.(addressType := Ipv4), endpoint);
        assert c.proxy.dialed == Some(endpoint);
      }
  }

  /** Whatever the client sends, the relay is entered only when the
      request's command octet is connect. */
  lemma RelayOnlyForConnect(input: seq<Byte>, lookup: seq<Byte> -> Lookup, dial: Endpoint -> DialResult)
    ensures Handle(input, lookup, dial).relay ==> 2 <= |input| && 3 + input[1] < |input| && input[3 + input[1]] == Connect
  {
  }
}
