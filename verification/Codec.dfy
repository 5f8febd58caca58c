// The wire format of the tunnel: type, sender, target for some types, payload size, payload, in a
// buffer of fixed size of which only the written part is sent.
module Codec {
  import opened LinkTypes

  const MAX_MESSAGE_SIZE: nat := 512

  function HeaderSize(typ: MessageType): nat {
    1 + 8 + (if typ.HasTarget() then 8 else 0) + 2
  }

  function EncapsulatedSize(typ: MessageType, payloadSize: nat): nat {
    HeaderSize(typ) + payloadSize
  }

  function Zeros(n: nat): (z: seq<Byte>)
    ensures |z| == n
  {
    seq(n, _ => 0)
  }

  // A received datagram is copied into a zeroed buffer.
  function Padded(bytes: seq<Byte>): seq<Byte>
    requires |bytes| <= MAX_MESSAGE_SIZE
  {
    bytes + Zeros(MAX_MESSAGE_SIZE - |bytes|)
  }

  // The 16-bit size field, in network byte order.
  function SizeField(n: nat): seq<Byte>
    requires n < 0x1_0000
  {
    [n / 256, n % 256]
  }

  function SizeOf(high: int, low: int): int {
    256 * high + low
  }

  // A target is there whenever the type calls for one.
  predicate Addressed(msg: Message) {
    msg.typ.HasTarget() ==> msg.to.Some?
  }

  predicate Fits(msg: Message) {
    EncapsulatedSize(msg.typ, |msg.payload|) <= MAX_MESSAGE_SIZE
  }

  // The bytes a message is written as.
  function Wire(msg: Message): (w: seq<Byte>)
    requires Addressed(msg) && Fits(msg)
    ensures |w| == EncapsulatedSize(msg.typ, |msg.payload|)
  {
    [msg.typ.Code()] + msg.from + (if msg.typ.HasTarget() then msg.to.value else [])
    + SizeField(|msg.payload|) + msg.payload
  }

  // The letter that stands for a message type on the wire.
  function Letter(typ: MessageType): char {
    match typ
    case TunnelHello => 'i'
    case TunnelBye => 'y'
    case TunnelKeepalive => 'k'
    case Broadcast => 'b'
    case Unicast => 'u'
    case ByeBye => 'z'
    case MeasurementPing => 'm'
    case MeasurementPong => 'r'
  }

  // Where everything lies: the letter, the sender, the target of a unicast, ping or pong, the size in
  // two bytes, high byte first, and the payload.
  lemma WireLayout(msg: Message)
    requires Addressed(msg) && Fits(msg)
    ensures var w, at := Wire(msg), if msg.typ in {Unicast, MeasurementPing, MeasurementPong} then 17 else 9;
            && |w| == at + 2 + |msg.payload| <= 512
            && w[0] == Letter(msg.typ) as int && w[1..9] == msg.from
            && (at == 17 ==> msg.to.Some? && w[9..17] == msg.to.value)
            && var high: int, low: int := w[at], w[at + 1];
               256 * high + low == |msg.payload| && w[at + 2..] == msg.payload
  {
  }

  method Put(buf: array<Byte>, at: nat, bytes: seq<Byte>) returns (next: nat)
    requires at + |bytes| <= buf.Length
    modifies buf
    ensures next == at + |bytes|
    ensures buf[..next] == old(buf[..at]) + bytes
    ensures forall k :: next <= k < buf.Length ==> buf[k] == old(buf[k])
  {
    for i := 0 to |bytes|
      invariant buf[..] == old(buf[..at]) + bytes[..i] + old(buf[at + i..])
    {
      buf[at + i] := bytes[i];
    }
    next := at + |bytes|;
  }

  ghost predicate ZeroFrom(buf: array<Byte>, at: nat)
    reads buf
  {
    forall k :: at <= k < buf.Length ==> buf[k] == 0
  }

  // Oversized payloads would run past the buffer, so callers must not pass them.
  method Encapsulate(msg: Message) returns (r: Option<seq<Byte>>)
    requires Fits(msg)
    ensures r.Some? <==> Addressed(msg)
    ensures r.Some? ==> r.value == Padded(Wire(msg))
  {
    if !Addressed(msg) {
      return None;
    }
    var buf := new Byte[MAX_MESSAGE_SIZE](_ => 0);
    var it := PutNodes(buf, msg);
    it := Put(buf, it, SizeField(|msg.payload|));
    it := Put(buf, it, msg.payload);
    assert buf[..it] == Wire(msg);
    assert buf[it..] == Zeros(MAX_MESSAGE_SIZE - it);
    assert buf[..] == buf[..it] + buf[it..];
    return Some(buf[..]);
  }

  // Writes the header up to the size field.
  method PutNodes(buf: array<Byte>, msg: Message) returns (it: nat)
    requires buf.Length == MAX_MESSAGE_SIZE && ZeroFrom(buf, 0) && Addressed(msg)
    modifies buf
    ensures it == HeaderSize(msg.typ) - 2 && ZeroFrom(buf, it)
    ensures buf[..it] == [msg.typ.Code()] + msg.from + if msg.typ.HasTarget() then msg.to.value else []
  {
    it := Put(buf, 0, [msg.typ.Code()]);
    it := Put(buf, it, msg.from);
    if msg.typ.HasTarget() {
      it := Put(buf, it, msg.to.value);
    }
  }

  // What decapsulation yields: the raw type byte, the header fields, and a buffer whose first
  // `size` bytes are the payload.
  datatype Received = Received(code: Byte, from: NodeId, to: Option<NodeId>, size: int, body: seq<Byte>)

  predicate CarriesTarget(code: Byte) {
    code == Unicast.Code() || code == MeasurementPing.Code() || code == MeasurementPong.Code()
  }

  function Decoded(buf: seq<Byte>): Received
    requires |buf| == MAX_MESSAGE_SIZE
  {
    var at := if CarriesTarget(buf[0]) then 17 else 9;
    Received(buf[0], buf[1..9], if CarriesTarget(buf[0]) then Some(buf[9..17]) else None,
             SizeOf(buf[at], buf[at + 1]), Padded(buf[at + 2..]))
  }

  method Decapsulate(buf: seq<Byte>) returns (r: Option<Received>)
    requires |buf| == MAX_MESSAGE_SIZE
    ensures r == Some(Decoded(buf))
  {
    var it := 0;
    var code := buf[it];
    it := it + 1;
    var from: NodeId := buf[it..it + 8];
    it := it + 8;
    var to: Option<NodeId> := None;
    if CarriesTarget(code) {
      to := Some(buf[it..it + 8]);
      it := it + 8;
    }
    var size := SizeOf(buf[it], buf[it + 1]);
    it := it + 2;
    if it == |buf| {
      return None;
    }
    return Some(Received(code, from, to, size, Padded(buf[it..])));
  }

  lemma CodesAreDistinct(a: MessageType, b: MessageType)
    ensures a.Code() == b.Code() <==> a == b
    ensures CarriesTarget(a.Code()) <==> a.HasTarget()
  {
  }

  // Sending exactly the written bytes and padding them at the far end loses nothing: type, sender,
  // size and payload arrive as they were, and so does the target for the types that carry one.
  lemma RoundTrip(msg: Message)
    requires Addressed(msg) && Fits(msg)
    ensures |Wire(msg)| == EncapsulatedSize(msg.typ, |msg.payload|)
    ensures Decoded(Padded(Wire(msg)))
         == Received(msg.typ.Code(), msg.from, OnWire(msg).to, |msg.payload|, Padded(msg.payload))
  {
    CodesAreDistinct(msg.typ, msg.typ);
    var w, size := Wire(msg), SizeField(|msg.payload|);
    var buf := Padded(w);
    var at := if msg.typ.HasTarget() then 17 else 9;
    assert buf[0] == msg.typ.Code();
    assert buf[1..9] == msg.from;
    assert msg.typ.HasTarget() ==> buf[9..17] == msg.to.value;
    assert w[at..] == size + msg.payload;
    assert buf[at] == size[0] && buf[at + 1] == size[1];
    assert buf[at + 2..] == msg.payload + Zeros(MAX_MESSAGE_SIZE - |w|);
    assert Padded(buf[at + 2..]) == Padded(msg.payload);
  }

  // So no two different messages look alike on the wire.
  lemma WireIsUnambiguous(a: Message, b: Message)
    requires Addressed(a) && Fits(a) && Addressed(b) && Fits(b) && Padded(Wire(a)) == Padded(Wire(b))
    ensures OnWire(a) == OnWire(b)
  {
    RoundTrip(a);
    RoundTrip(b);
    CodesAreDistinct(a.typ, b.typ);
    assert a.payload == Padded(a.payload)[..|a.payload|];
    assert b.payload == Padded(b.payload)[..|b.payload|];
  }

  function TypeOf(code: Byte): Option<MessageType> {
    match code
    case 105 => Some(TunnelHello)
    case 121 => Some(TunnelBye)
    case 107 => Some(TunnelKeepalive)
    case 98 => Some(Broadcast)
    case 117 => Some(Unicast)
    case 122 => Some(ByeBye)
    case 109 => Some(MeasurementPing)
    case 114 => Some(MeasurementPong)
    case _ => None
  }

  // The message the receiver acts on: the first `size` bytes of the body are its payload.
  function AsMessage(r: Received): Option<Message> {
    if TypeOf(r.code).Some? && 0 <= r.size <= |r.body| then
      Some(Message(TypeOf(r.code).value, r.from, r.to, r.body[..r.size]))
    else None
  }

  // What one end encapsulates, trims and sends is what the other end pads, decapsulates and handles.
  lemma TransportIsFaithful(msg: Message)
    requires Addressed(msg) && Fits(msg)
    ensures AsMessage(Decoded(Padded(Wire(msg)))) == Some(OnWire(msg))
  {
    RoundTrip(msg);
    assert Padded(msg.payload)[..|msg.payload|] == msg.payload;
  }
}
