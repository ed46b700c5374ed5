/** Saved-group list edits: their byte format and their effect on the list. */
module SavedGroups {
  import opened Prelude
  import opened Events
  import opened Utf8
  import TagEdits

  const SAVED_KIND: nat := 10_009
  const SAVE_SIMPLE_GROUP: Byte := 1
  const REMOVE_SIMPLE_GROUP: Byte := 2
  const RENAME_SIMPLE_GROUP: Byte := 3
  const SAVE_RELAY: Byte := 4
  const REMOVE_RELAY: Byte := 5

  /** Relay addresses as the URL library prints and parses them. */
  datatype Urls = Urls(show: RelayUrl -> Text, parse: Text -> Option<RelayUrl>)

  ghost predicate RoundTrips(u: Urls) {
    forall r: RelayUrl :: u.parse(u.show(r)) == Some(r)
  }

  datatype Change = Change(operation: Byte, id: Text, relays: seq<RelayUrl>, name: Option<Text>)

  datatype EventEdit = EventEdit(kind: nat, identifier: Option<Text>, change: seq<Byte>)

  datatype Refusal = Refused(reason: string)

  // ----- Encoding -----

  function PutText(t: Text): Result<seq<Byte>, Refusal> {
    var bytes := EncodeText(t);
    if |bytes| >= 0x1_0000_0000 then Err(Refused("edit text is too long")) else Ok(BigEndian32(|bytes|) + bytes)
  }

  /** Appends one encoded part to what was encoded before. */
  function Then(before: Result<seq<Byte>, Refusal>, part: Result<seq<Byte>, Refusal>): Result<seq<Byte>, Refusal> {
    if before.Err? then before else if part.Err? then part else Ok(before.value + part.value)
  }

  function PutRelays(u: Urls, relays: seq<RelayUrl>): Result<seq<Byte>, Refusal> {
    if relays == [] then Ok([]) else Then(PutText(u.show(relays[0])), PutRelays(u, relays[1..]))
  }

  function PutCount(n: nat): Result<seq<Byte>, Refusal> {
    if n >= 0x1_0000 then Err(Refused("too many simple group relays")) else Ok(BigEndian16(n))
  }

  function PutGroup(u: Urls, id: Text, relays: seq<RelayUrl>): Result<seq<Byte>, Refusal> {
    Then(Then(PutText(id), PutCount(|relays|)), PutRelays(u, relays))
  }

  function PutOptional(t: Option<Text>): Result<seq<Byte>, Refusal> {
    if t.Some? then Then(Ok([1]), PutText(t.value)) else Ok([0])
  }

  function Encode(u: Urls, c: Change): Result<seq<Byte>, Refusal> {
    var head: Result<seq<Byte>, Refusal> := Ok([c.operation]);
    if c.operation == SAVE_SIMPLE_GROUP then Then(Then(head, PutGroup(u, c.id, c.relays)), PutOptional(c.name))
    else if c.operation == REMOVE_SIMPLE_GROUP then Then(head, PutGroup(u, c.id, c.relays))
    else if c.operation == RENAME_SIMPLE_GROUP then
      Then(Then(head, PutGroup(u, c.id, c.relays)),
           if c.name.Some? then PutText(c.name.value) else Err(Refused("missing saved-list display name")))
    else if c.operation == SAVE_RELAY || c.operation == REMOVE_RELAY then
      Then(head, if c.relays != [] then PutText(u.show(c.relays[0])) else Err(Refused("missing saved-list relay")))
    else Err(Refused("unknown saved-list edit operation"))
  }

  // ----- Decoding -----

  datatype Taken<+T> = Taken(value: T, rest: seq<Byte>)

  function TakeText(input: seq<Byte>): Result<Taken<Text>, Refusal> {
    if |input| < 4 then Err(Refused("truncated saved-list text length"))
    else
      var end := 4 + FromBigEndian32(input);
      if |input| < end then Err(Refused("truncated saved-list text"))
      else
        var text := DecodeText(input[4..end]);
        if text.None? then Err(Refused("saved-list text is not UTF-8")) else Ok(Taken(text.value, input[end..]))
  }

  function TakeRelay(u: Urls, input: seq<Byte>): Result<Taken<RelayUrl>, Refusal> {
    var text := TakeText(input);
    if text.Err? then Err(text.error)
    else
      var relay := u.parse(text.value.value);
      if relay.None? then Err(Refused("invalid saved-list relay")) else Ok(Taken(relay.value, text.value.rest))
  }

  /** Reads `count` relays after those already read, refusing a repeated one. */
  function TakeRelays(u: Urls, input: seq<Byte>, count: nat, seen: seq<RelayUrl>): Result<Taken<seq<RelayUrl>>, Refusal>
    decreases count
  {
    if count == 0 then Ok(Taken(seen, input))
    else
      var relay := TakeRelay(u, input);
      if relay.Err? then Err(relay.error)
      else if relay.value.value in seen then Err(Refused("duplicate saved-list simple-group relay"))
      else TakeRelays(u, relay.value.rest, count - 1, seen + [relay.value.value])
  }

  datatype Group = Group(id: Text, relays: seq<RelayUrl>)

  function TakeGroup(u: Urls, input: seq<Byte>): Result<Taken<Group>, Refusal> {
    var id := TakeText(input);
    if id.Err? then Err(id.error)
    else if |id.value.rest| < 2 then Err(Refused("truncated saved-list relay count"))
    else if FromBigEndian16(id.value.rest) == 0 then Err(Refused("invalid saved-list relay count"))
    else
      var relays := TakeRelays(u, id.value.rest[2..], FromBigEndian16(id.value.rest), []);
      if relays.Err? then Err(relays.error) else Ok(Taken(Group(id.value.value, relays.value.value), relays.value.rest))
  }

  function TakeOptional(input: seq<Byte>): Result<Taken<Option<Text>>, Refusal> {
    if input == [] then Err(Refused("truncated saved-list edit"))
    else if input[0] == 0 then Ok(Taken(None, input[1..]))
    else if input[0] == 1 then
      var text := TakeText(input[1..]);
      if text.Err? then Err(text.error) else Ok(Taken(Some(text.value.value), text.value.rest))
    else Err(Refused("invalid saved-list optional text flag"))
  }

  function TakeChange(u: Urls, input: seq<Byte>): Result<Taken<Change>, Refusal> {
    if input == [] then Err(Refused("truncated saved-list edit"))
    else
      var operation, rest := input[0], input[1..];
      if operation == SAVE_RELAY || operation == REMOVE_RELAY then
        var relay := TakeRelay(u, rest);
        if relay.Err? then Err(relay.error)
        else Ok(Taken(Change(operation, [], [relay.value.value], None), relay.value.rest))
      else if operation !in {SAVE_SIMPLE_GROUP, REMOVE_SIMPLE_GROUP, RENAME_SIMPLE_GROUP} then
        Err(Refused("unknown saved-list edit operation"))
      else
        var group := TakeGroup(u, rest);
        if group.Err? then Err(group.error)
        else
          var id, relays, after := group.value.value.id, group.value.value.relays, group.value.rest;
          if operation == REMOVE_SIMPLE_GROUP then Ok(Taken(Change(operation, id, relays, None), after))
          else if operation == SAVE_SIMPLE_GROUP then
            var name := TakeOptional(after);
            if name.Err? then Err(name.error)
            else Ok(Taken(Change(operation, id, relays, name.value.value), name.value.rest))
          else
            var name := TakeText(after);
            if name.Err? then Err(name.error)
            else Ok(Taken(Change(operation, id, relays, Some(name.value.value)), name.value.rest))
  }

  /** Reads a whole edit: the right coordinate, one change, and nothing after it. */
  function DecodeEdit(u: Urls, edit: EventEdit): Result<Change, Refusal> {
    if edit.kind != SAVED_KIND || edit.identifier.Some? then
      Err(Refused("saved-list edit requires a non-addressable kind-10009 coordinate"))
    else
      var change := TakeChange(u, edit.change);
      if change.Err? then Err(change.error)
      else if change.value.rest != [] then Err(Refused("trailing saved-list edit bytes"))
      else Ok(change.value.value)
  }

  // ----- Decoding undoes encoding -----

  lemma TakePutText(t: Text, rest: seq<Byte>)
    requires PutText(t).Ok?
    ensures TakeText(PutText(t).value + rest) == Ok(Taken(t, rest))
  {
    var bytes := EncodeText(t);
    var input := PutText(t).value + rest;
    assert input == BigEndian32(|bytes|) + (bytes + rest);
    BigEndianRoundTrip(|bytes|, bytes + rest);
    assert input[4..4 + |bytes|] == bytes && input[4 + |bytes|..] == rest;
    DecodeEncodedText(t);
  }

  lemma TakePutRelay(u: Urls, r: RelayUrl, rest: seq<Byte>)
    requires RoundTrips(u) && PutText(u.show(r)).Ok?
    ensures TakeRelay(u, PutText(u.show(r)).value + rest) == Ok(Taken(r, rest))
  {
    TakePutText(u.show(r), rest);
  }

  lemma PutRelaysFirst(u: Urls, relays: seq<RelayUrl>, rest: seq<Byte>)
    requires relays != [] && PutRelays(u, relays).Ok?
    ensures PutText(u.show(relays[0])).Ok? && PutRelays(u, relays[1..]).Ok?
    ensures PutRelays(u, relays).value + rest
            == PutText(u.show(relays[0])).value + (PutRelays(u, relays[1..]).value + rest)
  {
    var first, others := PutText(u.show(relays[0])), PutRelays(u, relays[1..]);
    assert PutRelays(u, relays) == Then(first, others);
    Reassociates(first.value, others.value, rest);
  }

  lemma Reassociates(a: seq<Byte>, b: seq<Byte>, c: seq<Byte>)
    ensures a + b + c == a + (b + c)
  {
  }

  lemma TakeOneRelay(u: Urls, r: RelayUrl, rest: seq<Byte>, count: nat, seen: seq<RelayUrl>)
    requires RoundTrips(u) && PutText(u.show(r)).Ok? && r !in seen
    ensures TakeRelays(u, PutText(u.show(r)).value + rest, count + 1, seen) == TakeRelays(u, rest, count, seen + [r])
  {
    TakePutRelay(u, r, rest);
  }

  lemma DistinctTail(relays: seq<RelayUrl>, seen: seq<RelayUrl>)
    requires relays != [] && Distinct(relays) && forall r :: r in relays ==> r !in seen
    ensures Distinct(relays[1..]) && forall r :: r in relays[1..] ==> r !in seen + [relays[0]]
  {
  }

  lemma {:induction false} TakePutRelays(u: Urls, relays: seq<RelayUrl>, rest: seq<Byte>, seen: seq<RelayUrl>)
    requires RoundTrips(u) && PutRelays(u, relays).Ok? && Distinct(relays) && forall r :: r in relays ==> r !in seen
    ensures TakeRelays(u, PutRelays(u, relays).value + rest, |relays|, seen) == Ok(Taken(seen + relays, rest))
    decreases |relays|
  {
    if relays == [] {
      assert seen + relays == seen && [] + rest == rest;
    } else {
      var first, others := relays[0], relays[1..];
      DistinctTail(relays, seen);
      var tail := PutRelays(u, others).value + rest;
      hide TakeRelays, PutText, RoundTrips;
      calc {
        TakeRelays(u, PutRelays(u, relays).value + rest, |relays|, seen);
      == { PutRelaysFirst(u, relays, rest); }
        TakeRelays(u, PutText(u.show(first)).value + tail, |others| + 1, seen);
      == { TakeOneRelay(u, first, tail, |others|, seen); }
        TakeRelays(u, tail, |others|, seen + [first]);
      == { TakePutRelays(u, others, rest, seen + [first]); }
        Ok(Taken(seen + [first] + others, rest));
      == { assert seen + [first] + others == seen + relays; }
        Ok(Taken(seen + relays, rest));
      }
    }
  }

  lemma TakePutGroup(u: Urls, id: Text, relays: seq<RelayUrl>, rest: seq<Byte>)
    requires RoundTrips(u) && PutGroup(u, id, relays).Ok? && Distinct(relays) && relays != []
    ensures TakeGroup(u, PutGroup(u, id, relays).value + rest) == Ok(Taken(Group(id, relays), rest))
  {
    var list := PutRelays(u, relays).value + rest;
    var after := BigEndian16(|relays|) + list;
    assert PutGroup(u, id, relays).value + rest == PutText(id).value + after;
    TakePutText(id, after);
    BigEndianRoundTrip(|relays|, list);
    assert after[2..] == list;
    assert [] + relays == relays;
    TakePutRelays(u, relays, rest, []);
  }

  /** What the public constructors build. */
  ghost predicate Buildable(c: Change) {
    if c.operation == SAVE_RELAY || c.operation == REMOVE_RELAY then c.id == [] && |c.relays| == 1 && c.name.None?
    else
      && (c.operation == SAVE_SIMPLE_GROUP || c.operation == REMOVE_SIMPLE_GROUP || c.operation == RENAME_SIMPLE_GROUP)
      && c.relays != [] && Distinct(c.relays)
      && (c.operation == REMOVE_SIMPLE_GROUP ==> c.name.None?) && (c.operation == RENAME_SIMPLE_GROUP ==> c.name.Some?)
  }

  lemma RelayRoundTrip(u: Urls, c: Change)
    requires RoundTrips(u) && Buildable(c) && (c.operation == SAVE_RELAY || c.operation == REMOVE_RELAY)
             && Encode(u, c).Ok?
    ensures TakeChange(u, Encode(u, c).value) == Ok(Taken(c, []))
  {
    var bytes := Encode(u, c).value;
    assert bytes[0] == c.operation && bytes[1..] == PutText(u.show(c.relays[0])).value + [];
    TakePutRelay(u, c.relays[0], []);
    assert [c.relays[0]] == c.relays;
  }

  /** What follows the group in a group change. */
  function Tail(c: Change): Result<seq<Byte>, Refusal> {
    if c.operation == SAVE_SIMPLE_GROUP then PutOptional(c.name)
    else if c.operation == RENAME_SIMPLE_GROUP && c.name.Some? then PutText(c.name.value)
    else Ok([])
  }

  lemma GroupLayout(u: Urls, c: Change)
    requires Buildable(c) && c.operation != SAVE_RELAY && c.operation != REMOVE_RELAY && Encode(u, c).Ok?
    ensures PutGroup(u, c.id, c.relays).Ok? && Tail(c).Ok?
    ensures Encode(u, c).value == [c.operation] + (PutGroup(u, c.id, c.relays).value + Tail(c).value)
  {
    var group := PutGroup(u, c.id, c.relays).value;
    assert [c.operation] + group + Tail(c).value == [c.operation] + (group + Tail(c).value);
  }

  lemma TailRoundTrip(c: Change)
    requires Tail(c).Ok?
    ensures c.operation == SAVE_SIMPLE_GROUP ==> TakeOptional(Tail(c).value) == Ok(Taken(c.name, []))
    ensures c.operation == RENAME_SIMPLE_GROUP && c.name.Some? ==>
              TakeText(Tail(c).value) == Ok(Taken(c.name.value, []))
  {
    if c.operation == SAVE_SIMPLE_GROUP && c.name.Some? {
      assert Tail(c).value[1..] == PutText(c.name.value).value + [];
      TakePutText(c.name.value, []);
    } else if c.operation == SAVE_SIMPLE_GROUP {
      var none: seq<Byte> := [0];
      assert Tail(c).value == none && none[1..] == [];
    } else if c.operation == RENAME_SIMPLE_GROUP && c.name.Some? {
      assert Tail(c).value == PutText(c.name.value).value + [];
      TakePutText(c.name.value, []);
    }
  }

  lemma GroupRoundTrip(u: Urls, c: Change)
    requires RoundTrips(u) && Buildable(c) && c.operation != SAVE_RELAY && c.operation != REMOVE_RELAY
             && Encode(u, c).Ok?
    ensures TakeChange(u, Encode(u, c).value) == Ok(Taken(c, []))
  {
    GroupLayout(u, c);
    TailRoundTrip(c);
    TakePutGroup(u, c.id, c.relays, Tail(c).value);
    assert Encode(u, c).value[1..] == PutGroup(u, c.id, c.relays).value + Tail(c).value;
  }

  /** Decoding undoes encoding for every change the public constructors build and the encoder accepts. */
  lemma DecodeUndoesEncode(u: Urls, c: Change)
    requires RoundTrips(u) && Buildable(c) && Encode(u, c).Ok?
    ensures DecodeEdit(u, EventEdit(SAVED_KIND, None, Encode(u, c).value)) == Ok(c)
  {
    if c.operation == SAVE_RELAY || c.operation == REMOVE_RELAY {
      RelayRoundTrip(u, c);
    } else {
      GroupRoundTrip(u, c);
    }
  }

  /** Relays are encoded exactly when each address fits its length prefix. */
  lemma {:induction false} PutRelaysFits(u: Urls, relays: seq<RelayUrl>)
    ensures PutRelays(u, relays).Ok? <==> forall r :: r in relays ==> |EncodeText(u.show(r))| < 0x1_0000_0000
  {
    if relays != [] {
      PutRelaysFits(u, relays[1..]);
      assert relays == [relays[0]] + relays[1..];
      assert relays[0] in relays && forall r :: r in relays[1..] ==> r in relays;
    }
  }

  predicate TextFits(t: Text) {
    |EncodeText(t)| < 0x1_0000_0000
  }

  /** The encoder accepts a buildable change exactly when it names at most 65535 relays and
      every text it writes fits its length prefix. */
  lemma EncodesExactly(u: Urls, c: Change)
    requires Buildable(c)
    ensures Encode(u, c).Ok? <==>
              && |c.relays| < 0x1_0000 && TextFits(c.id) && (c.name.Some? ==> TextFits(c.name.value))
              && forall r :: r in c.relays ==> TextFits(u.show(r))
  {
    PutRelaysFits(u, c.relays);
    if c.operation == SAVE_RELAY || c.operation == REMOVE_RELAY {
      assert c.relays == [c.relays[0]] && EncodeText(c.id) == [];
    }
  }

  // ----- The byte loops -----

  /** Appends the id, the relay count and each relay. */
  method EncodeSimpleGroup(u: Urls, bytes: seq<Byte>, id: Text, relays: seq<RelayUrl>)
    returns (r: Result<seq<Byte>, Refusal>)
    ensures r == Then(Ok(bytes), PutGroup(u, id, relays))
  {
    var head := Then(PutText(id), PutCount(|relays|));
    if head.Err? {
      return head;
    }
    var list: seq<Byte> := [];
    assert relays[0..] == relays
           && (PutRelays(u, relays).Ok? ==> [] + PutRelays(u, relays).value == PutRelays(u, relays).value);
    for i := 0 to |relays|
      invariant PutRelays(u, relays) == Then(Ok(list), PutRelays(u, relays[i..]))
    {
      assert relays[i..][0] == relays[i] && relays[i..][1..] == relays[i + 1..];
      var text := PutText(u.show(relays[i]));
      if text.Err? {
        return text;
      }
      ThenAssociates(list, text.value, PutRelays(u, relays[i + 1..]));
      list := list + text.value;
    }
    assert list + [] == list;
    return Ok(bytes + (head.value + list));
  }

  lemma ThenAssociates(a: seq<Byte>, b: seq<Byte>, part: Result<seq<Byte>, Refusal>)
    ensures Then(Ok(a), Then(Ok(b), part)) == Then(Ok(a + b), part)
  {
    if part.Ok? {
      assert a + (b + part.value) == a + b + part.value;
    }
  }

  /** Reads an id and its relays, refusing an empty or repeating list. */
  method TakeSimpleGroup(u: Urls, input: seq<Byte>) returns (r: Result<Taken<Group>, Refusal>)
    ensures r == TakeGroup(u, input)
  {
    var id := TakeText(input);
    if id.Err? {
      return Err(id.error);
    }
    var rest := id.value.rest;
    if |rest| < 2 {
      return Err(Refused("truncated saved-list relay count"));
    }
    var count := FromBigEndian16(rest);
    rest := rest[2..];
    if count == 0 {
      return Err(Refused("invalid saved-list relay count"));
    }
    var relays := ReadRelays(u, rest, count);
    if relays.Err? {
      return Err(relays.error);
    }
    return Ok(Taken(Group(id.value.value, relays.value.value), relays.value.rest));
  }

  method ReadRelays(u: Urls, input: seq<Byte>, count: nat) returns (r: Result<Taken<seq<RelayUrl>>, Refusal>)
    ensures r == TakeRelays(u, input, count, [])
  {
    var relays: seq<RelayUrl> := [];
    var rest := input;
    for i := 0 to count
      invariant TakeRelays(u, rest, count - i, relays) == TakeRelays(u, input, count, [])
    {
      var relay := TakeRelay(u, rest);
      if relay.Err? {
        return Err(relay.error);
      }
      if relay.value.value in relays {
        return Err(Refused("duplicate saved-list simple-group relay"));
      }
      relays, rest := relays + [relay.value.value], relay.value.rest;
    }
    return Ok(Taken(relays, rest));
  }

  // ----- Applying -----

  type Tag = seq<Text>

  const GROUP: Text := [0x67, 0x72, 0x6F, 0x75, 0x70]
  const RELAY: Text := [0x72]

  /** The relay of a `group` tag for this id. */
  function GroupTarget(u: Urls, id: Text, tag: Tag): Option<RelayUrl> {
    if |tag| >= 3 && tag[0] == GROUP && tag[1] == id then u.parse(tag[2]) else None
  }

  /** The relay of an `r` tag. */
  function RelayTarget(u: Urls, tag: Tag): Option<RelayUrl> {
    if |tag| >= 2 && tag[0] == RELAY then u.parse(tag[1]) else None
  }

  function Renamed(tag: Tag, name: Text): Tag {
    if |tag| < 3 then tag else if |tag| == 3 then tag + [name] else tag[3 := name]
  }

  function GroupTag(u: Urls, id: Text, relay: RelayUrl, name: Option<Text>): Tag {
    [GROUP, id, u.show(relay)] + if name.Some? then [name.value] else []
  }

  /** One entry per selected relay: kept as it is, renamed, or removed. */
  function GroupEdit(u: Urls, c: Change): TagEdits.Edit<Tag, RelayUrl> {
    TagEdits.Edit(
      (t: Tag) => GroupTarget(u, c.id, t),
      c.relays,
      c.operation != REMOVE_SIMPLE_GROUP,
      (t: Tag) => if c.operation == RENAME_SIMPLE_GROUP && c.name.Some? then Renamed(t, c.name.value) else t,
      (r: RelayUrl) => GroupTag(u, c.id, r, c.name))
  }

  function RelayEdit(u: Urls, c: Change): TagEdits.Edit<Tag, RelayUrl> {
    TagEdits.Edit(
      (t: Tag) => RelayTarget(u, t),
      c.relays,
      c.operation == SAVE_RELAY,
      (t: Tag) => t,
      (r: RelayUrl) => [RELAY, u.show(r)])
  }

  function ListEdit(u: Urls, c: Change): TagEdits.Edit<Tag, RelayUrl> {
    if c.operation == SAVE_RELAY || c.operation == REMOVE_RELAY then RelayEdit(u, c) else GroupEdit(u, c)
  }

  lemma EditsAreLawful(u: Urls, c: Change)
    requires RoundTrips(u) && Buildable(c)
    ensures TagEdits.Lawful(ListEdit(u, c))
  {
    var e := ListEdit(u, c);
    forall t | TagEdits.Hits(e, t)
      ensures e.target(e.keep(t)) == e.target(t) && e.keep(e.keep(t)) == e.keep(t)
    {
      if c.name.Some? {
        RenamingSettles(t, c.name.value);
      }
    }
    forall k | k in e.selected
      ensures e.target(e.make(k)) == Some(k) && e.keep(e.make(k)) == e.make(k)
    {
      if c.name.Some? {
        var made := GroupTag(u, c.id, k, c.name);
        assert made[3 := c.name.value] == made;
      }
    }
  }

  lemma RenamingSettles(t: Tag, name: Text)
    ensures Renamed(Renamed(t, name), name) == Renamed(t, name)
    ensures |t| >= 3 ==> |Renamed(t, name)| >= 3 && Renamed(t, name)[..3] == t[..3]
    ensures |t| >= 3 ==> Renamed(t, name)[0] == t[0] && Renamed(t, name)[1] == t[1] && Renamed(t, name)[2] == t[2]
  {
  }

  /** Saved-list edits keep every other tag in order, leave exactly one entry per selected
      relay on a save or rename and none on a removal, and change nothing when repeated. */
  lemma SavedListEdits(u: Urls, c: Change, source: seq<Tag>)
    requires RoundTrips(u) && Buildable(c)
    ensures var e := ListEdit(u, c);
            var once := TagEdits.Applied(e, source);
            && TagEdits.Applied(e, once) == once
            && TagEdits.Others(e, once) == TagEdits.Others(e, source)
            && forall relay :: relay in c.relays ==>
                 TagEdits.Count(e, once, relay)
                 == if c.operation == REMOVE_SIMPLE_GROUP || c.operation == REMOVE_RELAY then 0 else 1
  {
    EditsAreLawful(u, c);
    TagEdits.Idempotent(ListEdit(u, c), source);
    TagEdits.KeepsOthers(ListEdit(u, c), source);
    forall relay | relay in c.relays {
      TagEdits.OnePerTarget(ListEdit(u, c), source, relay);
    }
  }

  /** Runs an edit: every other tag stays in order, each selected relay ends with one entry or
      none, and running it again would change nothing. */
  method ApplyEdit(u: Urls, source: seq<Tag>, c: Change) returns (tags: seq<Tag>)
    requires Buildable(c)
    ensures tags == TagEdits.Applied(ListEdit(u, c), source)
    ensures RoundTrips(u) ==>
              && TagEdits.Applied(ListEdit(u, c), tags) == tags
              && TagEdits.Others(ListEdit(u, c), tags) == TagEdits.Others(ListEdit(u, c), source)
              && forall relay :: relay in c.relays ==>
                   TagEdits.Count(ListEdit(u, c), tags, relay)
                   == if c.operation == REMOVE_SIMPLE_GROUP || c.operation == REMOVE_RELAY then 0 else 1
  {
    tags := TagEdits.Apply(ListEdit(u, c), source);
    if RoundTrips(u) {
      SavedListEdits(u, c, source);
    }
  }
}
