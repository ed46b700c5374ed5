/** Signed Nostr events and the identities they carry. */
module Events {
  import opened Prelude

  /** Thirty-two byte identities compare as big-endian numbers. */
  type EventId = nat
  type PublicKey = nat
  type Kind = k: nat | k < 0x1_0000
  type Timestamp = nat
  /** A relay URL, by its rank in byte order. */
  type RelayUrl = nat

  /** The author, kind and identifier an `a` tag names. */
  datatype Address = Address(author: PublicKey, kind: Kind, identifier: string)

  /** One tag: its raw values, and what the event-id, coordinate and integer
      parsers read in its second value. */
  datatype Tag = Tag(values: seq<string>, asId: Option<EventId>, asAddress: Option<Address>, asSeconds: Option<nat>)

  datatype Event = Event(
    id: EventId,
    author: PublicKey,
    kind: Kind,
    createdAt: Timestamp,
    tags: seq<Tag>,
    content: string)

  predicate Named(tag: Tag, name: string) {
    |tag.values| > 0 && tag.values[0] == name
  }
}
