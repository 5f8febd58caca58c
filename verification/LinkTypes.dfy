// Vocabulary shared by every component: bytes, node identifiers, endpoints and tunnel messages.
module LinkTypes {

  datatype Option<+T> = None | Some(value: T)

  type Byte = b: int | 0 <= b < 256

  // A Link node identifier is an array of eight bytes.
  type NodeId = s: seq<Byte> | |s| == 8 witness [0, 0, 0, 0, 0, 0, 0, 0]

  const ZERO_ID: NodeId := [0, 0, 0, 0, 0, 0, 0, 0]

  // A UDP endpoint.  Only the IPv6 form carries the scope of the interface it belongs to.
  datatype Endpoint =
    | V4(address: nat, port: nat)
    | V6(address6: nat, scope: nat, port: nat)

  datatype MessageType =
    | TunnelHello
    | TunnelBye
    | TunnelKeepalive
    | Broadcast
    | Unicast
    | ByeBye
    | MeasurementPing
    | MeasurementPong
  {
    // HELLO, BYE and KEEPALIVE originate inside the tunnel and never reach a gateway.
    predicate IsControl() {
      TunnelHello? || TunnelBye? || TunnelKeepalive?
    }

    // Message types whose header carries a target node.
    predicate HasTarget() {
      Unicast? || MeasurementPing? || MeasurementPong?
    }

    // Message types the duplicate filter looks at.
    predicate IsFiltered() {
      Broadcast? || Unicast? || ByeBye?
    }

    // The byte that stands for the type on the wire.
    function Code(): Byte {
      match this
      case TunnelHello => 105
      case TunnelBye => 121
      case TunnelKeepalive => 107
      case Broadcast => 98
      case Unicast => 117
      case ByeBye => 122
      case MeasurementPing => 109
      case MeasurementPong => 114
    }
  }

  datatype Message = Message(typ: MessageType, from: NodeId, to: Option<NodeId>, payload: seq<Byte>)

  // What the tunnel puts on the wire: only some message types carry their target.
  function OnWire(msg: Message): Message {
    if msg.typ.HasTarget() then msg else msg.(to := None)
  }

  const HELLO := Message(TunnelHello, ZERO_ID, None, [])
  const BYE := Message(TunnelBye, ZERO_ID, None, [])
  const KEEPALIVE := Message(TunnelKeepalive, ZERO_ID, None, [])

  // One datagram handed to a socket.
  datatype Send = Send(to: Endpoint, msg: Message)

  // All clocks count milliseconds.
  const SECOND := 1000

  ghost predicate Distinct<T>(s: seq<T>) {
    forall i, j :: 0 <= i < j < |s| ==> s[i] != s[j]
  }

  ghost function Elements<T>(s: seq<T>): set<T> {
    set x | x in s
  }

  // s lists the set, each element once.
  ghost predicate Lists<T>(s: seq<T>, all: set<T>) {
    Distinct(s) && Elements(s) == all
  }
}
