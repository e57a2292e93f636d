// Primitive types shared by every layer: tokens, readiness events, stream identifiers.
module Api {

  datatype Option<+T> = None | Some(value: T) {
    function GetOr(default: T): T {
      match this
      case Some(v) => v
      case None => default
    }
  }

  const TWO_TO_THE_32: nat := 0x1_0000_0000
  const TWO_TO_THE_64: nat := 0x1_0000_0000_0000_0000

  type byte = x: int | 0 <= x < 256

  // A connection token is a u32.
  type Token = t: int | 0 <= t < TWO_TO_THE_32

  // An instant, in nanoseconds of a monotone clock.
  type Time = int

  datatype EventKind =
    | Send
    | Recv
    | Connected
    | Accept
    | Closed
    | StreamOpenBidi
    | StreamOpenUni
    | StreamAccept
    | StreamSend
    | StreamRecv
    | ReadLock

  datatype Event = Event(token: Token, kind: EventKind, isServer: bool, isError: bool, streamId: nat)

  datatype StreamKind = Uni | Bidi

  // Bit 0 of a stream identifier tells who opened the stream.
  predicate IsLocal(streamId: nat, isServer: bool) {
    streamId % 2 == if isServer then 1 else 0
  }

  // Bit 1 of a stream identifier is clear for bidirectional streams.
  predicate IsBidi(streamId: nat) {
    streamId / 2 % 2 == 0
  }

  function StreamKindOf(streamId: nat): StreamKind {
    if IsBidi(streamId) then Bidi else Uni
  }

  function Min(a: nat, b: nat): nat {
    if a < b then a else b
  }
}
