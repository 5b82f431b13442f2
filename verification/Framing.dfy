/** Length-prefixed frames over a socket that may deliver any chunk, and the relay between two of them. */
module Framing {
  import opened BigEndian
  import opened Optional

  /** A stream the peer has closed after `rest`: each `Recv` takes some nonempty prefix of it. */
  class Socket {
    var rest: seq<byte>

    constructor (bytes: seq<byte>)
      ensures rest == bytes
    {
      rest := bytes;
    }

    method Recv(limit: nat) returns (chunk: seq<byte>)
      requires limit > 0
      modifies this
      ensures old(rest) == chunk + rest && |chunk| <= limit
      ensures chunk == [] <==> old(rest) == []
    {
      assert rest != [] ==> 1 <= |rest| && 1 <= limit;
      var taken :| 0 <= taken <= |rest| && taken <= limit && (taken == 0 <==> rest == []);
      chunk := rest[..taken];
      rest := rest[taken..];
    }
  }

  /** Exactly `length` bytes, however they arrive; None when the peer closes first. */
  method RecvExact(s: Socket, length: nat) returns (bytes: Option<seq<byte>>)
    modifies s
    ensures bytes.Some? <==> length <= |old(s.rest)|
    ensures if bytes.Some? then |bytes.value| == length && old(s.rest) == bytes.value + s.rest else s.rest == []
  {
    var chunks: seq<byte> := [];
    var remaining := length;
    while remaining > 0
      invariant 0 <= remaining && remaining + |chunks| == length
      invariant chunks + s.rest == old(s.rest)
      decreases remaining
    {
      var chunk := s.Recv(remaining);
      if chunk == [] {
        return None;
      }
      chunks := chunks + chunk;
      remaining := remaining - |chunk|;
    }
    return Some(chunks);
  }

  // ---------------------------------------------------------------- frames

  function Frame(payload: seq<byte>): (bytes: seq<byte>)
    ensures |bytes| == 4 + |payload|
  {
    ToBytes(|payload|, 4) + payload
  }

  /** What one read finds at the head of a stream. */
  datatype Read = End | Cut | Found(payload: seq<byte>, rest: seq<byte>)

  function ReadFrame(stream: seq<byte>): (r: Read)
    ensures r.Found? ==> |r.rest| < |stream|
  {
    if stream == [] then End
    else if |stream| < 4 || |stream| < 4 + FromBytes(stream[..4]) then Cut
    else Found(stream[4..4 + FromBytes(stream[..4])], stream[4 + FromBytes(stream[..4])..])
  }

  lemma ReadWhole(header: seq<byte>, payload: seq<byte>, rest: seq<byte>)
    requires |header| == 4 && FromBytes(header) == |payload|
    ensures ReadFrame(header + payload + rest) == Found(payload, rest)
  {
    var stream := header + payload + rest;
    assert stream[..4] == header;
    assert stream[4..4 + |payload|] == payload;
    assert stream[4 + |payload|..] == rest;
  }

  lemma ReadBack(payload: seq<byte>, rest: seq<byte>)
    requires |payload| < Span(4)
    ensures ReadFrame(Frame(payload) + rest) == Found(payload, rest)
  {
    WriteThenRead(|payload|, 4);
    ReadWhole(ToBytes(|payload|, 4), payload, rest);
  }

  lemma FromBytesFits(s: seq<byte>)
    ensures FromBytes(s) < Span(|s|)
  {
    if s != [] { FromBytesFits(s[..|s| - 1]); }
  }

  lemma FoundIsFrame(stream: seq<byte>)
    requires ReadFrame(stream).Found?
    ensures var r := ReadFrame(stream); stream == Frame(r.payload) + r.rest && |r.payload| < Span(4)
  {
    var size := FromBytes(stream[..4]);
    FromBytesFits(stream[..4]);
    ReadThenWrite(stream[..4]);
    assert stream == stream[..4] + stream[4..4 + size] + stream[4 + size..];
  }

  /** The first receive may bring one to four bytes of the header. */
  method TakeFrame(s: Socket) returns (r: Read)
    modifies s
    ensures r == ReadFrame(old(s.rest))
    ensures r.Found? ==> s.rest == r.rest
  {
    var first := s.Recv(4);
    if first == [] {
      return End;
    }
    var more := RecvExact(s, 4 - |first|);
    if more.None? {
      return Cut;
    }
    var header := first + more.value;
    assert old(s.rest) == header + s.rest && old(s.rest)[..4] == header;
    var payload := RecvExact(s, FromBytes(header));
    if payload.None? {
      return Cut;
    }
    ReadWhole(header, payload.value, s.rest);
    assert old(s.rest) == header + payload.value + s.rest;
    return Found(payload.value, s.rest);
  }

  // ---------------------------------------------------------------- the relay

  function Frames(payloads: seq<seq<byte>>): (bytes: seq<byte>)
  {
    if payloads == [] then [] else Frame(payloads[0]) + Frames(payloads[1..])
  }

  /** What the relay passes on: each whole request to the owner, each whole reply to the client. */
  datatype Relayed = Relayed(toOwner: seq<byte>, toClient: seq<byte>, clean: bool)

  function Relay(client: seq<byte>, owner: seq<byte>): (r: Relayed)
    decreases |client|
  {
    match ReadFrame(client)
    case End => Relayed([], [], true)
    case Cut => Relayed([], [], false)
    case Found(request, rest) =>
      match ReadFrame(owner)
      case Found(reply, more) =>
        var later := Relay(rest, more);
        Relayed(Frame(request) + later.toOwner, Frame(reply) + later.toClient, later.clean)
      case _ => Relayed(Frame(request), [], false)
  }

  /** What was passed on, then what is still to come, make up the whole. */
  ghost predicate Continues(total: Relayed, toOwner: seq<byte>, toClient: seq<byte>, left: Relayed) {
    total == Relayed(toOwner + left.toOwner, toClient + left.toClient, left.clean)
  }

  lemma PassOn(total: Relayed, toOwner: seq<byte>, toClient: seq<byte>, x: seq<byte>, y: seq<byte>, later: Relayed)
    requires Continues(total, toOwner, toClient, Relayed(x + later.toOwner, y + later.toClient, later.clean))
    ensures Continues(total, toOwner + x, toClient + y, later)
  {
    assert toOwner + (x + later.toOwner) == toOwner + x + later.toOwner;
    assert toClient + (y + later.toClient) == toClient + y + later.toClient;
  }

  method Forward(client: Socket, owner: Socket) returns (r: Relayed)
    requires client != owner
    modifies client, owner
    ensures r == Relay(old(client.rest), old(owner.rest))
  {
    var toOwner: seq<byte>, toClient: seq<byte> := [], [];
    ghost var total := Relay(client.rest, owner.rest);
    while true
      invariant Continues(total, toOwner, toClient, Relay(client.rest, owner.rest))
      decreases |client.rest|
    {
      var request := TakeFrame(client);
      if !request.Found? {
        return Relayed(toOwner, toClient, request.End?);
      }
      ghost var sent := toOwner;
      toOwner := toOwner + Frame(request.payload);
      var reply := TakeFrame(owner);
      if !reply.Found? {
        return Relayed(toOwner, toClient, false);
      }
      PassOn(total, sent, toClient, Frame(request.payload), Frame(reply.payload), Relay(client.rest, owner.rest));
      toClient := toClient + Frame(reply.payload);
    }
  }

  ghost predicate Fit(payloads: seq<seq<byte>>) {
    forall i :: 0 <= i < |payloads| ==> |payloads[i]| < Span(4)
  }

  /** For every chunking, a stream of requests reaches the owner byte for byte, and each is answered by
      exactly one whole reply; replies nobody asked for stay unread. */
  lemma {:induction false} RelayIsFaithful(requests: seq<seq<byte>>, replies: seq<seq<byte>>, rest: seq<byte>)
    requires Fit(requests) && Fit(replies) && |requests| <= |replies|
    ensures Relay(Frames(requests), Frames(replies) + rest)
            == Relayed(Frames(requests), Frames(replies[..|requests|]), true)
  {
    if requests != [] {
      ReadBack(requests[0], Frames(requests[1..]));
      ReadBack(replies[0], Frames(replies[1..]) + rest);
      assert Frames(replies) + rest == Frame(replies[0]) + (Frames(replies[1..]) + rest);
      RelayIsFaithful(requests[1..], replies[1..], rest);
      RelayFound(Frames(requests), Frames(replies) + rest, Frames(requests[1..]), Frames(replies[1..]) + rest,
                 requests[0], replies[0]);
      assert replies[..|requests|][1..] == replies[1..][..|requests| - 1];
      assert Frames(replies[..|requests|]) == Frame(replies[0]) + Frames(replies[1..][..|requests| - 1]);
    }
  }

  lemma RelayFound(
      client: seq<byte>, owner: seq<byte>, rest: seq<byte>, more: seq<byte>, request: seq<byte>, reply: seq<byte>)
    requires ReadFrame(client) == Found(request, rest) && ReadFrame(owner) == Found(reply, more)
    ensures var later := Relay(rest, more);
            Relay(client, owner) == Relayed(Frame(request) + later.toOwner, Frame(reply) + later.toClient, later.clean)
  {
  }

  /** Whatever either side sends, what is passed on is what was sent, from the start; and a connection
      that ends cleanly has passed on every request. */
  lemma {:induction false} RelayChangesNothing(client: seq<byte>, owner: seq<byte>)
    ensures var r := Relay(client, owner);
            r.toOwner <= client && r.toClient <= owner && (r.clean ==> r.toOwner == client)
    decreases |client|
  {
    var request, reply := ReadFrame(client), ReadFrame(owner);
    if request.Found? {
      FoundIsFrame(client);
      if reply.Found? {
        FoundIsFrame(owner);
        RelayChangesNothing(request.rest, reply.rest);
        PrefixAppend(Frame(request.payload), Relay(request.rest, reply.rest).toOwner, request.rest);
        PrefixAppend(Frame(reply.payload), Relay(request.rest, reply.rest).toClient, reply.rest);
      }
    }
  }

  lemma PrefixAppend(head: seq<byte>, a: seq<byte>, b: seq<byte>)
    requires a <= b
    ensures head + a <= head + b
  {
    assert head + b == head + a + b[|a|..];
  }
}
