/** Concrete sessions: the byte exchanges a client and the server go through
    in the typical cases. */
module Scenarios {
  import opened Primitives
  import opened Constants
  import opened Codec
  import opened DialErrors
  import opened Session
  import opened SessionProperties

  /** Connect to 127.0.0.1 port 8080 (0x1F90), offering only "no
      authentication". */
  const ConnectLocal8080: seq<Byte> := [5, 1, 0, 5, 1, 0, 1, 127, 0, 0, 1, 0x1F, 0x90]

  /** The same request with the bind command. */
  const BindLocal8080: seq<Byte> := [5, 1, 0, 5, 2, 0, 1, 127, 0, 0, 1, 0x1F, 0x90]

  lemma ConnectLocal8080Encodes()
    ensures ConnectLocal8080 == EncodeGreeting([NoAuth]) + EncodeRequest(Connect, IPv4([127, 0, 0, 1]), 8080) + []
  {
  }

  /** A successful connect: the method selection, then a succeeded reply
      with ATYP 1 carrying the bound address and port; the relay starts. */
  lemma ConnectScenario(lookup: seq<Byte> -> Lookup, dial: Endpoint -> DialResult, bindIp: seq<Byte>, bindPort: Port)
    requires dial(Endpoint([127, 0, 0, 1], 8080)) == Connected(bindIp, bindPort)
    ensures Handle(ConnectLocal8080, lookup, dial)
         == Outcome([[5, 0], [5, 0, 0, 1] + bindIp + EncodePort(bindPort)],
                    Some(Endpoint([127, 0, 0, 1], 8080)), true, [])
  {
    ConnectLocal8080Encodes();
    ConnectToIp([NoAuth], IPv4([127, 0, 0, 1]), 8080, [], lookup, dial);
  }

  /** A refused connect: the reply is connection-refused, nothing is relayed. */
  lemma RefusedScenario(lookup: seq<Byte> -> Lookup, dial: Endpoint -> DialResult)
    requires dial(Endpoint([127, 0, 0, 1], 8080)) == DialFailed("dial tcp 127.0.0.1:8080: connect: connection refused")
    ensures Handle(ConnectLocal8080, lookup, dial)
         == Outcome([[5, 0], [5, ConnectionRefused, 0, 1, 0, 0, 0]], Some(Endpoint([127, 0, 0, 1], 8080)), false, [])
  {
    ConnectLocal8080Encodes();
    ConnectToIp([NoAuth], IPv4([127, 0, 0, 1]), 8080, [], lookup, dial);
    RefusedMessage();
  }

  /** A bind request: command-not-supported, no dial, no relay. */
  lemma BindScenario(lookup: seq<Byte> -> Lookup, dial: Endpoint -> DialResult)
    ensures Handle(BindLocal8080, lookup, dial)
         == Outcome([[5, 0], [5, CommandNotSupported, 0, 1, 0, 0, 0]], None, false, [])
  {
    assert BindLocal8080 == EncodeGreeting([NoAuth]) + EncodeRequest(Bind, IPv4([127, 0, 0, 1]), 8080) + [];
    UnsupportedCommand([NoAuth], Bind, IPv4([127, 0, 0, 1]), 8080, [], lookup, dial);
  }

  /** "example.com" as octets. */
  const ExampleCom: seq<Byte> := [101, 120, 97, 109, 112, 108, 101, 46, 99, 111, 109]

  /** Connect to example.com port 80 when the name resolves to
      93.184.216.34: that address is dialed and the reply says IPv4. */
  lemma DomainScenario(lookup: seq<Byte> -> Lookup, dial: Endpoint -> DialResult, bindIp: seq<Byte>, bindPort: Port)
    requires lookup(ExampleCom) == Resolved([[93, 184, 216, 34]])
    requires dial(Endpoint([93, 184, 216, 34], 80)) == Connected(bindIp, bindPort)
    ensures var o := Handle([5, 1, 0, 5, 1, 0, 3, 11] + ExampleCom + [0, 80], lookup, dial);
            && o.dialed == Some(Endpoint([93, 184, 216, 34], 80))
            && o.relay
            && o.sent[1][..4] == [5, Succeeded, 0, Ipv4]
  {
    assert [5, 1, 0, 5, 1, 0, 3, 11] + ExampleCom + [0, 80]
        == EncodeGreeting([NoAuth]) + EncodeRequest(Connect, DomainName(ExampleCom), 80) + [];
    ConnectToDomain([NoAuth], ExampleCom, 80, [], lookup, dial);
  }

  /** A client offering only username/password (0x02) is still told "no
      authentication" and the session goes on to the request. */
  lemma NoAuthSelectedWhenNotOffered(rest: seq<Byte>)
    ensures HandleGreetings(NewProxy(), [5, 1, 2] + rest) == Continue(Greeted([2]), rest)
    ensures HandleGreetings(NewProxy(), [5, 1, 2] + rest).proxy.sent == [[5, 0]]
  {
  }
}
