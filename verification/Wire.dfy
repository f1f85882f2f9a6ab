/** Vocabulary shared by the relay and the clients: identifiers, sealed messages, frames. */
module Wire {

  datatype Option<+T> = None | Some(value: T)

  type DeviceId = string
  type MsgId = string
  type Key = int

  /** A decrypted payload. `Other` is any inner kind whose handler only acknowledges. */
  datatype Inner = Text(text: string) | MalformedText | Other

  /** An ideal authenticated box: the nonce and ciphertext carry exactly what was sealed. */
  datatype Box = Box(sealer: Key, opener: Key, inner: Inner)

  function Seal(inner: Inner, own: Key, peer: Key): Box {
    Box(own, peer, inner)
  }

  /** The box key is shared by both ends, so either end of the pair opens it and nobody else does. */
  function Open(box: Box, own: Key, peer: Key): Option<Inner> {
    if (box.sealer == peer && box.opener == own) || (box.sealer == own && box.opener == peer)
    then Some(box.inner)
    else None
  }

  /** What one end seals for the other, both ends read, and with any other pair of keys nobody does. */
  lemma SealOpens(inner: Inner, a: Key, b: Key, own: Key, peer: Key)
    ensures Open(Seal(inner, a, b), own, peer) ==
      if (own == b && peer == a) || (own == a && peer == b) then Some(inner) else None
  {
  }

  /** The frames of the delivery protocol. Clients leave `from` empty; the relay stamps it. */
  datatype Frame =
    | Msg(from: DeviceId, to: DeviceId, msgId: MsgId, box: Box)
    | Ack(msgId: MsgId, peer: DeviceId)

  /** What a write to a connection reports, and whether the frame really left. */
  datatype Outcome = Written | FailedClean | FailedPlaced {
    predicate Placed() { this != FailedClean }
  }
}
