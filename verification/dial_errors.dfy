/** Classification of a failed outbound dial into a SOCKS5 reply code, by
    looking for fixed phrases in the dial error's message. */
module DialErrors {
  import opened Primitives
  import opened Constants

  /** `sub` occurs in `msg` starting at index `i`. */
  ghost predicate OccursAt(msg: string, sub: string, i: int)
  {
    0 <= i && i + |sub| <= |msg| && msg[i..i + |sub|] == sub
  }

  /** `sub` occurs somewhere in `msg` (Go's `strings.Contains`). */
  ghost predicate Mentions(msg: string, sub: string)
  {
    exists i :: OccursAt(msg, sub, i)
  }

  /** Substring search by scanning every start position from the left. */
  function Contains(msg: string, sub: string): (r: bool)
    ensures r <==> Mentions(msg, sub)
    decreases |msg|
  {
    if |sub| <= |msg| && msg[..|sub|] == sub then
      assert OccursAt(msg, sub, 0);
      true
    else if |msg| == 0 then
      false
    else
      var r := Contains(msg[1..], sub);
      assert r ==> Mentions(msg, sub) by {
        if r {
          var i :| OccursAt(msg[1..], sub, i);
          assert msg[1..][i..i + |sub|] == msg[i + 1..i + 1 + |sub|];
          assert OccursAt(msg, sub, i + 1);
        }
      }
      assert Mentions(msg, sub) ==> r by {
        if Mentions(msg, sub) {
          var i :| OccursAt(msg, sub, i);
          assert i != 0;
          assert msg[1..][i - 1..i - 1 + |sub|] == msg[i..i + |sub|];
          assert OccursAt(msg[1..], sub, i - 1);
        }
      }
      r
  }

  const UnreachableText: string := "network is unreachable"
  const RefusedText: string := "refused"

  /** The reply code for a failed dial. The unreachable-network phrase is
      looked for first, so it wins when both phrases appear; otherwise
      "refused" means connection-refused, and anything else is reported as
      host-unreachable. */
  function ClassifyDialError(msg: string): (code: Byte)
    ensures code in {NetworkUnreachable, ConnectionRefused, HostUnreachable}
    ensures code == NetworkUnreachable <==> Mentions(msg, UnreachableText)
    ensures code == ConnectionRefused <==> !Mentions(msg, UnreachableText) && Mentions(msg, RefusedText)
    ensures code == HostUnreachable <==> !Mentions(msg, UnreachableText) && !Mentions(msg, RefusedText)
  {
    if Contains(msg, UnreachableText) then NetworkUnreachable
    else if Contains(msg, RefusedText) then ConnectionRefused
    else HostUnreachable
  }

  /** A phrase cannot occur in a message that lacks one of its characters. */
  lemma AbsentCharacter(msg: string, sub: string, j: nat)
    requires j < |sub| && sub[j] !in msg
    ensures !Mentions(msg, sub)
  {
  }

  /** The message Go reports for a refused TCP connection is classified as
      connection-refused. */
  lemma RefusedMessage()
    ensures ClassifyDialError("dial tcp 127.0.0.1:8080: connect: connection refused") == ConnectionRefused
  {
    var head, tail := "dial tcp 127.0.0.1:8080: ", "connect: connection ";
    var msg := head + tail + RefusedText;
    assert msg == "dial tcp 127.0.0.1:8080: connect: connection refused";
    assert 'k' !in head && 'k' !in tail && 'k' !in RefusedText;
    assert UnreachableText[6] == 'k';
    AbsentCharacter(msg, UnreachableText, 6);
    assert msg[|head + tail|..|head + tail| + |RefusedText|] == RefusedText;
    assert OccursAt(msg, RefusedText, |head + tail|);
  }

  /** When both phrases appear, the unreachable-network phrase decides. */
  lemma UnreachableWinsOverRefused(msg: string, i: nat, j: nat)
    requires OccursAt(msg, UnreachableText, i) && OccursAt(msg, RefusedText, j)
    ensures ClassifyDialError(msg) == NetworkUnreachable
  {
  }
}
