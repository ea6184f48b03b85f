/**
 * The protocol's closed enumerations, each with its fixed wire value. `ToWire` is
 * the member's value; `FromWire` is Python's lookup by value (`Enum(value)`), which
 * finds the member carrying that value or fails (None) when no member does.
 * Every enumeration is declared unique: no two members share a wire value.
 */

/** The sub-protocol identifier negotiated at the WebSocket upgrade. */
module SubProtocols {
  import opened Wrappers

  datatype SubProtocol = SaltyRtcV10

  /** The identifier offered in the WebSocket upgrade's sub-protocol list. */
  function ToWire(p: SubProtocol): (r: string)
    ensures r == "saltyrtc-1.0"
  {
    match p
    case SaltyRtcV10 => "saltyrtc-1.0"
  }

  function FromWire(s: string): (r: Option<SubProtocol>)
    ensures r.Some? ==> ToWire(r.value) == s
  {
    if s == "saltyrtc-1.0" then Some(SaltyRtcV10) else None
  }

  lemma RoundTrip(p: SubProtocol)
    ensures FromWire(ToWire(p)) == Some(p)
  {
  }
}

/** Close codes: two WebSocket codes and five application-defined ones. */
module CloseCodes {
  import opened Wrappers

  datatype CloseCode =
    | GoingAway
    | SubProtocolError
    | PathFullError
    | ProtocolError
    | InternalError
    | DataChannelHandover
    | DropByInitiator

  /** The status code sent in the close frame: 1001-1002 or 3000-3004, within 16 bits. */
  function ToWire(c: CloseCode): (r: int)
    ensures 1001 <= r <= 1002 || 3000 <= r <= 3004
    ensures r <= 1002 <==> c == GoingAway || c == SubProtocolError
  {
    match c
    case GoingAway => 1001
    case SubProtocolError => 1002
    case PathFullError => 3000
    case ProtocolError => 3001
    case InternalError => 3002
    case DataChannelHandover => 3003
    case DropByInitiator => 3004
  }

  function FromWire(v: int): (r: Option<CloseCode>)
    ensures r.Some? ==> ToWire(r.value) == v
  {
    if v == 1001 then Some(GoingAway)
    else if v == 1002 then Some(SubProtocolError)
    else if v == 3000 then Some(PathFullError)
    else if v == 3001 then Some(ProtocolError)
    else if v == 3002 then Some(InternalError)
    else if v == 3003 then Some(DataChannelHandover)
    else if v == 3004 then Some(DropByInitiator)
    else None
  }

  lemma RoundTrip(c: CloseCode)
    ensures FromWire(ToWire(c)) == Some(c)
  {
  }

  /** `@enum.unique`: distinct codes have distinct wire values. */
  lemma Unique(c: CloseCode, d: CloseCode)
    ensures ToWire(c) == ToWire(d) ==> c == d
  {
  }

  /**
   * Every code fits the unsigned 16-bit status field of a WebSocket close frame and
   * lies in one of the two bands section 7.4.2 of RFC 6455 allows: 1000-2999 for the
   * WebSocket protocol itself, 3000-3999 for libraries and applications.
   */
  lemma Bands(c: CloseCode)
    ensures 0 <= ToWire(c) < 0x1_0000
    ensures 1000 <= ToWire(c) <= 2999 <==> c == GoingAway || c == SubProtocolError
    ensures 3000 <= ToWire(c) <= 3999 <==> !(c == GoingAway || c == SubProtocolError)
  {
  }
}

/**
 * Peer roles. An address is one byte: 0x00 is the server, 0x01 the initiator, and
 * every address above 0x01 is a responder, whose canonical value is 0xff.
 */
module AddressTypes {
  import opened Wrappers

  datatype AddressType = Server | Initiator | Responder

  /** A role's address byte: only the server and the initiator sit at or below 0x01. */
  function ToWire(t: AddressType): (r: int)
    ensures 0x00 <= r <= 0xff
    ensures r <= 0x01 <==> t != Responder
  {
    match t
    case Server => 0x00
    case Initiator => 0x01
    case Responder => 0xff
  }

  function FromWire(v: int): (r: Option<AddressType>)
    ensures r.Some? ==> ToWire(r.value) == v
    ensures r.None? <==> v != 0x00 && v != 0x01 && v != 0xff
  {
    if v == 0x00 then Some(Server)
    else if v == 0x01 then Some(Initiator)
    else if v == 0xff then Some(Responder)
    else None
  }

  lemma RoundTrip(t: AddressType)
    ensures FromWire(ToWire(t)) == Some(t)
  {
  }

  /** `@enum.unique`: distinct roles have distinct wire values. */
  lemma Unique(t: AddressType, u: AddressType)
    ensures ToWire(t) == ToWire(u) ==> t == u
  {
  }

  /**
   * `AddressType.from_address`: every address above 0x01 is a responder, however
   * large; otherwise the address is looked up by value, which finds the server or
   * the initiator and fails for anything else (a negative address).
   */
  function FromAddress(address: int): (r: Option<AddressType>)
    ensures r == Some(Responder) <==> address > 0x01
    ensures r == Some(Initiator) <==> address == 0x01
    ensures r == Some(Server) <==> address == 0x00
    ensures r.None? <==> address < 0
  {
    if address > 0x01 then Some(Responder) else FromWire(address)
  }

  /** Classifying a role's own wire value gives that role back. */
  lemma ClassifyRoundTrip(t: AddressType)
    ensures FromAddress(ToWire(t)) == Some(t)
  {
  }

  /** Every single-byte address has a role, and only the reserved two are not responders. */
  lemma ClassifyByte(address: int)
    requires 0 <= address <= 0xff
    ensures FromAddress(address).Some?
    ensures FromAddress(address).value == Responder <==> address != 0x00 && address != 0x01
  {
  }
}

/** Message types exchanged between a client and the server (not between clients). */
module MessageTypes {
  import opened Wrappers

  datatype MessageType =
    | ServerHello
    | ClientHello
    | ClientAuth
    | ServerAuth
    | NewResponder
    | NewInitiator
    | DropResponder
    | SendError

  /** A lower-case, hyphen-separated tag such as `server-hello`. */
  predicate IsTag(s: string) {
    |s| > 0 && s[0] != '-' && s[|s| - 1] != '-'
    && forall i :: 0 <= i < |s| ==> 'a' <= s[i] <= 'z' || s[i] == '-'
  }

  /** The value of the message's `type` field. */
  function ToWire(m: MessageType): (r: string)
    ensures IsTag(r)
  {
    match m
    case ServerHello => "server-hello"
    case ClientHello => "client-hello"
    case ClientAuth => "client-auth"
    case ServerAuth => "server-auth"
    case NewResponder => "new-responder"
    case NewInitiator => "new-initiator"
    case DropResponder => "drop-responder"
    case SendError => "send-error"
  }

  function FromWire(s: string): (r: Option<MessageType>)
    ensures r.Some? ==> ToWire(r.value) == s
  {
    if s == "server-hello" then Some(ServerHello)
    else if s == "client-hello" then Some(ClientHello)
    else if s == "client-auth" then Some(ClientAuth)
    else if s == "server-auth" then Some(ServerAuth)
    else if s == "new-responder" then Some(NewResponder)
    else if s == "new-initiator" then Some(NewInitiator)
    else if s == "drop-responder" then Some(DropResponder)
    else if s == "send-error" then Some(SendError)
    else None
  }

  lemma RoundTrip(m: MessageType)
    ensures FromWire(ToWire(m)) == Some(m)
  {
  }

  /** `@enum.unique`: distinct message types have distinct wire tags. */
  lemma Unique(m: MessageType, n: MessageType)
    ensures ToWire(m) == ToWire(n) ==> m == n
  {
  }

  /** A tag not produced by any member is rejected by the lookup. */
  lemma UnknownTagRejected(s: string)
    requires forall m: MessageType :: ToWire(m) != s
    ensures FromWire(s).None?
  {
  }
}
