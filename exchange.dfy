/**
 * The two endpoints composed over the wire. A request packed by the client's request loop
 * (udp_client.py) is unpacked and echoed by the server (udp_server.py), and the echo
 * unpacks at the client to the sequence number and timestamp it sent. The client
 * acknowledges every response in the request layout, and the server answers every
 * datagram of 16 bytes or more, so an acknowledgement is itself answered: a single
 * request starts an exchange that goes on for as long as no datagram is lost.
 */
module Exchange {

  import opened Options
  import opened Wire
  import Client
  import Server

  /** The server's echo of a request, padded or not, unpacks to the request's own fields. */
  lemma RequestEchoRoundTrip(h: Header, padding: Bytes, serverNow: Double)
    ensures Server.ServerReply(PackHeader(h) + padding, serverNow)
      == Some(PackResponse(Response(h.sequenceNumber, h.timestamp, serverNow)))
    ensures UnpackResponse(PackResponse(Response(h.sequenceNumber, h.timestamp, serverNow)))
      == Some(Response(h.sequenceNumber, h.timestamp, serverNow))
  {
    UnpackPackHeader(h, padding);
    var r := Response(h.sequenceNumber, h.timestamp, serverNow);
    UnpackPackResponse(r, []);
    assert PackResponse(r) + [] == PackResponse(r);
  }

  /** The client's acknowledgement of a response is a request the server answers again. */
  lemma AckIsAnswered(response: Bytes, clientNow: Double, serverNow: Double)
    requires |response| >= RESPONSE_SIZE
    ensures var seqNum := UnpackResponse(response).value.sequenceNumber;
      && Client.ClientReply(response, clientNow) == Some(PackHeader(Header(seqNum, clientNow)))
      && Server.ServerReply(PackHeader(Header(seqNum, clientNow)), serverNow)
           == Some(PackResponse(Response(seqNum, clientNow, serverNow)))
  {
    var seqNum := UnpackResponse(response).value.sequenceNumber;
    RequestEchoRoundTrip(Header(seqNum, clientNow), [], serverNow);
    assert PackHeader(Header(seqNum, clientNow)) + [] == PackHeader(Header(seqNum, clientNow));
  }

  /** One turn of the exchange: the server's response and the client's acknowledgement. */
  datatype Round = Round(response: Bytes, ack: Bytes)

  /**
   * The turns that follow when `datagram` reaches the server, the server's k-th reply is
   * stamped `serverClock[k]` and the client's k-th acknowledgement `clientClock[k]`; it
   * stops early only if one side sends nothing.
   */
  function Conversation(datagram: Bytes, serverClock: seq<Double>, clientClock: seq<Double>)
    : seq<Round>
    requires |serverClock| == |clientClock|
    decreases |serverClock|
  {
    if serverClock == [] then []
    else
      match Server.ServerReply(datagram, serverClock[0])
      case None => []
      case Some(response) =>
        match Client.ClientReply(response, clientClock[0])
        case None => []
        case Some(ack) =>
          [Round(response, ack)] + Conversation(ack, serverClock[1..], clientClock[1..])
  }

  /**
   * A single request is never the last datagram: however many turns the clocks allow, the
   * exchange takes all of them. Every response carries the request's sequence number, the
   * first echoes the request's timestamp and each later one the previous acknowledgement's,
   * so from the second turn on the client's RTT measures an acknowledgement's round trip.
   */
  lemma {:induction false} ExchangeNeverEnds(
    h: Header, padding: Bytes, serverClock: seq<Double>, clientClock: seq<Double>)
    requires |serverClock| == |clientClock|
    ensures var rounds := Conversation(PackHeader(h) + padding, serverClock, clientClock);
      && |rounds| == |serverClock|
      && forall k :: 0 <= k < |rounds| ==>
           && UnpackResponse(rounds[k].response) == Some(Response(
                h.sequenceNumber,
                if k == 0 then h.timestamp else clientClock[k - 1],
                serverClock[k]))
           && rounds[k].ack == PackHeader(Header(h.sequenceNumber, clientClock[k]))
    decreases |serverClock|
  {
    if serverClock != [] {
      var rounds := Conversation(PackHeader(h) + padding, serverClock, clientClock);
      var response := PackResponse(Response(h.sequenceNumber, h.timestamp, serverClock[0]));
      RequestEchoRoundTrip(h, padding, serverClock[0]);
      AckIsAnswered(response, clientClock[0], serverClock[0]);
      var ackHeader := Header(h.sequenceNumber, clientClock[0]);
      var ack := PackHeader(ackHeader);
      assert ack + [] == ack;
      var rest := Conversation(ack + [], serverClock[1..], clientClock[1..]);
      assert rounds == [Round(response, ack)] + rest;
      ExchangeNeverEnds(ackHeader, [], serverClock[1..], clientClock[1..]);
      forall k | 0 < k < |rounds|
        ensures UnpackResponse(rounds[k].response)
          == Some(Response(h.sequenceNumber, clientClock[k - 1], serverClock[k]))
        ensures rounds[k].ack == PackHeader(Header(h.sequenceNumber, clientClock[k]))
      {
        assert rounds[k] == rest[k - 1];
        if k > 1 {
          assert clientClock[1..][k - 2] == clientClock[k - 1];
        }
      }
    }
  }
}
