/** Public bookmark edits: their byte format and their effect on the list. */
module Bookmarks {
  import opened Prelude
  import opened Orders
  import opened Decimals
  import opened Utf8
  import opened Events
  import EventState

  const ADD: Byte := 1
  const REMOVE: Byte := 2
  const EVENT: Byte := 1
  const COORDINATE: Byte := 2

  /** A thirty-two byte event id or public key. */
  type Key = seq<Byte>

  datatype Coordinate = Coordinate(author: Key, kind: Kind, identifier: Option<Text>)

  datatype Target = EventTarget(id: Key) | CoordinateTarget(coordinate: Coordinate)

  datatype Change = Change(adds: bool, target: Target)

  datatype Refusal = Refused(reason: string)

  predicate ValidCoordinate(c: Coordinate) {
    if c.identifier.Some? then EventState.IsAddressable(c.kind) else EventState.IsReplaceable(c.kind)
  }

  // ----- The byte format -----

  function IdentifierBytes(c: Coordinate): seq<Byte> {
    if c.identifier.Some? then EncodeText(c.identifier.value) else []
  }

  function EncodeCoordinate(c: Coordinate): Result<seq<Byte>, Refusal> {
    var identifier := IdentifierBytes(c);
    if |identifier| >= 0x1_0000_0000 then Err(Refused("identifier exceeds bookmark encoding capacity"))
    else
      var flag := if c.identifier.Some? then 1 else 0;
      Ok(BigEndian16(c.kind) + [flag] + c.author + BigEndian32(|identifier|) + identifier)
  }

  function Encode(c: Change): Result<seq<Byte>, Refusal> {
    var operation := if c.adds then ADD else REMOVE;
    match c.target
    case EventTarget(id) => Ok([operation, EVENT] + id)
    case CoordinateTarget(coordinate) =>
      var rest := EncodeCoordinate(coordinate);
      if rest.Err? then rest else Ok([operation, COORDINATE] + rest.value)
  }

  /** `isKey` is the key library's own verdict on thirty-two bytes. */
  function DecodeCoordinate(bytes: seq<Byte>, isKey: Key -> bool): Result<Coordinate, Refusal> {
    if |bytes| < 39 then Err(Refused("malformed bookmark coordinate"))
    else if bytes[2] > 1 then Err(Refused("invalid bookmark coordinate identifier flag"))
    else if !isKey(bytes[3..35]) then Err(Refused("invalid bookmark coordinate author"))
    else if |bytes| != 39 + FromBigEndian32(bytes[35..]) then
      Err(Refused("invalid bookmark coordinate identifier length"))
    else
      var identifier := DecodeText(bytes[39..]);
      if identifier.None? then Err(Refused("bookmark coordinate identifier is not UTF-8"))
      else
        var named := if bytes[2] == 1 then Some(identifier.value) else None;
        var c := Coordinate(bytes[3..35], FromBigEndian16(bytes), named);
        if ValidCoordinate(c) then Ok(c) else Err(Refused("invalid bookmark coordinate"))
  }

  function Decode(bytes: seq<Byte>, isKey: Key -> bool): Result<Change, Refusal> {
    if |bytes| < 2 then Err(Refused("malformed bookmark edit"))
    else if bytes[0] != ADD && bytes[0] != REMOVE then Err(Refused("unknown bookmark edit operation"))
    else if bytes[1] == EVENT then
      (if |bytes| == 34 then Ok(Change(bytes[0] == ADD, EventTarget(bytes[2..])))
       else Err(Refused("malformed bookmark event target")))
    else if bytes[1] == COORDINATE then
      var c := DecodeCoordinate(bytes[2..], isKey);
      if c.Err? then Err(c.error) else Ok(Change(bytes[0] == ADD, CoordinateTarget(c.value)))
    else Err(Refused("unknown bookmark target kind"))
  }

  /** What the public constructors build. */
  ghost predicate Buildable(c: Change, isKey: Key -> bool) {
    match c.target
    case EventTarget(id) => |id| == 32
    case CoordinateTarget(coordinate) =>
      ValidCoordinate(coordinate) && |coordinate.author| == 32 && isKey(coordinate.author)
  }

  lemma CoordinateRoundTrip(c: Coordinate, isKey: Key -> bool)
    requires ValidCoordinate(c) && |c.author| == 32 && isKey(c.author) && EncodeCoordinate(c).Ok?
    ensures DecodeCoordinate(EncodeCoordinate(c).value, isKey) == Ok(c)
  {
    var identifier := IdentifierBytes(c);
    var bytes := EncodeCoordinate(c).value;
    assert bytes[..2] == BigEndian16(c.kind) && bytes[3..35] == c.author && bytes[39..] == identifier;
    assert bytes == BigEndian16(c.kind) + bytes[2..];
    BigEndianRoundTrip(c.kind, bytes[2..]);
    assert bytes[35..] == BigEndian32(|identifier|) + identifier;
    BigEndianRoundTrip(|identifier|, identifier);
    if c.identifier.Some? {
      DecodeEncodedText(c.identifier.value);
    }
  }

  /** Decoding undoes encoding for every change the public constructors build; the encoder
      refuses exactly an identifier that does not fit its length prefix. */
  lemma DecodeUndoesEncode(c: Change, isKey: Key -> bool)
    requires Buildable(c, isKey)
    ensures Encode(c).Ok? <==> (c.target.CoordinateTarget? ==> |IdentifierBytes(c.target.coordinate)| < 0x1_0000_0000)
    ensures Encode(c).Ok? ==> Decode(Encode(c).value, isKey) == Ok(c)
  {
    if Encode(c).Ok? {
      var bytes := Encode(c).value;
      match c.target
      case EventTarget(id) =>
        assert bytes[2..] == id;
      case CoordinateTarget(coordinate) =>
        assert bytes[2..] == EncodeCoordinate(coordinate).value;
        CoordinateRoundTrip(coordinate, isKey);
    }
  }

  // ----- Applying -----

  type TagValues = seq<Text>

  /** Which tags name one target, the tag made for it, and the order of tags. */
  datatype Matching = Matching(targets: TagValues -> bool, targetTag: TagValues, before: (TagValues, TagValues) -> bool)

  ghost predicate Lawful(m: Matching) {
    m.targets(m.targetTag) && TotalOrder(m.before)
  }

  /** Ids as the library prints and parses them. */
  datatype Ids = Ids(show: Key -> Text, parse: Text -> Option<Key>)

  /** Parsing reads back what printing a thirty-two byte id wrote. */
  ghost predicate Prints(ids: Ids) {
    forall k: Key :: |k| == 32 ==> ids.parse(ids.show(k)) == Some(k)
  }

  const E: Text := [0x65]
  const A: Text := [0x61]
  const COLON: Text := [0x3A]

  function Written(s: string): Text {
    seq(|s|, i requires 0 <= i < |s| => s[i] as nat)
  }

  function CoordinateText(ids: Ids, c: Coordinate): Text {
    Written(Digits(c.kind)) + COLON + ids.show(c.author) + COLON + if c.identifier.Some? then c.identifier.value else []
  }

  /** An event tag matches by the id it parses to, a coordinate tag by its exact text. */
  function TargetMatching(ids: Ids, target: Target, before: (TagValues, TagValues) -> bool): Matching {
    match target
    case EventTarget(id) =>
      Matching((t: TagValues) => |t| >= 2 && t[0] == E && ids.parse(t[1]) == Some(id), [E, ids.show(id)], before)
    case CoordinateTarget(c) =>
      var text := CoordinateText(ids, c);
      Matching((t: TagValues) => |t| >= 2 && t[0] == A && t[1] == text, [A, text], before)
  }

  lemma TargetMatchingLawful(ids: Ids, target: Target, before: (TagValues, TagValues) -> bool)
    requires TotalOrder(before) && Prints(ids) && (target.EventTarget? ==> |target.id| == 32)
    ensures Lawful(TargetMatching(ids, target, before))
  {
  }

  /** The longer tag, and the lesser of equally long ones. */
  function Canonical(m: Matching, left: TagValues, right: TagValues): TagValues {
    if |left| > |right| || (|left| == |right| && m.before(left, right)) then left else right
  }

  function Best(m: Matching, s: seq<TagValues>): Option<TagValues> {
    if s == [] then None
    else
      var last, best := s[|s| - 1], Best(m, s[..|s| - 1]);
      if !m.targets(last) then best
      else if best.None? then Some(last)
      else Some(Canonical(m, best.value, last))
  }

  function Others(m: Matching, s: seq<TagValues>): seq<TagValues> {
    if s == [] then [] else Others(m, s[..|s| - 1]) + if m.targets(s[|s| - 1]) then [] else [s[|s| - 1]]
  }

  /** How many other tags precede the first match. */
  function Lead(m: Matching, s: seq<TagValues>): nat {
    if s == [] then 0
    else
      var before := s[..|s| - 1];
      if Best(m, before).Some? || m.targets(s[|s| - 1]) then Lead(m, before) else Lead(m, before) + 1
  }

  lemma {:induction false} LeadBound(m: Matching, s: seq<TagValues>)
    ensures Lead(m, s) <= |Others(m, s)|
    ensures Best(m, s).None? ==> Lead(m, s) == |Others(m, s)|
  {
    if s != [] {
      LeadBound(m, s[..|s| - 1]);
    }
  }

  /** One tag set among others at a place. */
  function Woven(others: seq<TagValues>, lead: nat, tag: TagValues): seq<TagValues>
    requires lead <= |others|
  {
    others[..lead] + [tag] + others[lead..]
  }

  lemma WeaveOnward(others: seq<TagValues>, lead: nat, tag: TagValues, next: TagValues)
    requires lead <= |others|
    ensures Woven(others + [next], lead, tag) == Woven(others, lead, tag) + [next]
    ensures Woven(others, |others|, tag) == others + [tag]
  {
    assert (others + [next])[..lead] == others[..lead] && (others + [next])[lead..] == others[lead..] + [next];
  }

  /** The other tags, with the canonical match where the first match stood or a new tag at
      the end; without any match on removal. */
  function Applied(m: Matching, adds: bool, s: seq<TagValues>): seq<TagValues> {
    var others := Others(m, s);
    if !adds then others
    else if Best(m, s).None? then others + [m.targetTag]
    else LeadBound(m, s); Woven(others, Lead(m, s), Best(m, s).value)
  }

  method RetainCanonical(m: Matching, source: seq<TagValues>) returns (retained: Option<TagValues>)
    ensures retained == Best(m, source)
  {
    retained := None;
    for i := 0 to |source|
      invariant retained == Best(m, source[..i])
    {
      assert source[..i + 1][..i] == source[..i];
      if m.targets(source[i]) {
        retained := Some(if retained.None? then source[i] else Canonical(m, retained.value, source[i]));
      }
    }
    assert source[..|source|] == source;
  }

  /** What the loop has written once it passed `s`, with `retained` the canonical match. */
  ghost predicate WrittenSoFar(m: Matching, adds: bool, s: seq<TagValues>, retained: Option<TagValues>, found: bool,
                               tags: seq<TagValues>) {
    && found == (adds && Best(m, s).Some?) && (found ==> retained.Some?) && Lead(m, s) <= |Others(m, s)|
    && tags == if found then Woven(Others(m, s), Lead(m, s), retained.value) else Others(m, s)
  }

  lemma WriteOne(m: Matching, adds: bool, s: seq<TagValues>, retained: Option<TagValues>, found: bool,
                 tags: seq<TagValues>, t: TagValues)
    requires WrittenSoFar(m, adds, s, retained, found, tags) && (m.targets(t) ==> retained.Some?)
    ensures !m.targets(t) ==> WrittenSoFar(m, adds, s + [t], retained, found, tags + [t])
    ensures m.targets(t) && (!adds || found) ==> WrittenSoFar(m, adds, s + [t], retained, found, tags)
    ensures m.targets(t) && adds && !found ==> WrittenSoFar(m, adds, s + [t], retained, true, tags + [retained.value])
  {
    assert (s + [t])[..|s|] == s && (s + [t])[|s|] == t;
    LeadBound(m, s);
    if retained.Some? {
      WeaveOnward(Others(m, s), Lead(m, s), retained.value, t);
    }
  }

  method Apply(m: Matching, adds: bool, source: seq<TagValues>) returns (tags: seq<TagValues>)
    ensures tags == Applied(m, adds, source)
  {
    var retained := RetainCanonical(m, source);
    var found := false;
    tags := [];
    for i := 0 to |source|
      invariant WrittenSoFar(m, adds, source[..i], retained, found, tags)
    {
      assert source[..i + 1] == source[..i] + [source[i]];
      if m.targets(source[i]) {
        BestMatches(m, source);
        assert source[i] in source;
      }
      WriteOne(m, adds, source[..i], retained, found, tags, source[i]);
      if m.targets(source[i]) {
        if adds && !found {
          tags := tags + [retained.value];
          found := true;
        }
      } else {
        tags := tags + [source[i]];
      }
    }
    assert source[..|source|] == source;
    if adds && !found {
      tags := tags + [m.targetTag];
    }
  }

  // ----- What an edit keeps -----

  function Count(m: Matching, s: seq<TagValues>): nat {
    if s == [] then 0 else Count(m, s[..|s| - 1]) + if m.targets(s[|s| - 1]) then 1 else 0
  }

  lemma {:induction false} Appended(m: Matching, a: seq<TagValues>, b: seq<TagValues>)
    ensures Others(m, a + b) == Others(m, a) + Others(m, b) && Count(m, a + b) == Count(m, a) + Count(m, b)
  {
    if b == [] {
      assert a + b == a;
    } else {
      assert (a + b)[..|a + b| - 1] == a + b[..|b| - 1];
      Appended(m, a, b[..|b| - 1]);
    }
  }

  lemma {:induction false} OthersDoNotMatch(m: Matching, s: seq<TagValues>)
    ensures forall t :: t in Others(m, s) ==> !m.targets(t)
  {
    if s != [] {
      OthersDoNotMatch(m, s[..|s| - 1]);
    }
  }

  lemma {:induction false} NoMatches(m: Matching, s: seq<TagValues>)
    requires forall t :: t in s ==> !m.targets(t)
    ensures Others(m, s) == s && Count(m, s) == 0 && Best(m, s).None? && Lead(m, s) == |s|
  {
    if s != [] {
      var n := |s| - 1;
      assert s == s[..n] + [s[n]] && s[n] in s;
      NoMatches(m, s[..n]);
    }
  }

  lemma {:induction false} BestMatches(m: Matching, s: seq<TagValues>)
    ensures Best(m, s).Some? ==> Best(m, s).value in s && m.targets(Best(m, s).value)
    ensures Best(m, s).None? <==> forall t :: t in s ==> !m.targets(t)
  {
    if s != [] {
      var n := |s| - 1;
      assert s == s[..n] + [s[n]];
      BestMatches(m, s[..n]);
    }
  }

  /** A list of other tags around one match reads back as just that. */
  lemma OneMatch(m: Matching, a: seq<TagValues>, t: TagValues, b: seq<TagValues>)
    requires m.targets(t) && (forall x :: x in a ==> !m.targets(x)) && (forall x :: x in b ==> !m.targets(x))
    ensures Others(m, a + [t] + b) == a + b && Count(m, a + [t] + b) == 1
    ensures Best(m, a + [t] + b) == Some(t) && Lead(m, a + [t] + b) == |a|
  {
    LastMatch(m, a, t);
    assert Others(m, a + [t] + b) == a + b && Count(m, a + [t] + b) == 1 by {
      NoMatches(m, b);
      Appended(m, a + [t], b);
    }
    TrailingOthers(m, a + [t], b);
  }

  lemma LastMatch(m: Matching, a: seq<TagValues>, t: TagValues)
    requires m.targets(t) && forall x :: x in a ==> !m.targets(x)
    ensures Others(m, a + [t]) == a && Count(m, a + [t]) == 1 && Best(m, a + [t]) == Some(t) && Lead(m, a + [t]) == |a|
  {
    NoMatches(m, a);
    assert (a + [t])[..|a|] == a && (a + [t])[|a|] == t;
  }

  lemma {:induction false} TrailingOthers(m: Matching, a: seq<TagValues>, b: seq<TagValues>)
    requires Best(m, a).Some? && forall x :: x in b ==> !m.targets(x)
    ensures Best(m, a + b) == Best(m, a) && Lead(m, a + b) == Lead(m, a)
  {
    if b == [] {
      assert a + b == a;
    } else {
      var n := |b| - 1;
      assert (a + b)[..|a + b| - 1] == a + b[..n] && b[n] in b && forall x :: x in b[..n] ==> x in b;
      TrailingOthers(m, a, b[..n]);
    }
  }

  /** An edit keeps every other tag in order, leaves exactly one match on an addition and
      none on a removal, and changes nothing when repeated. */
  lemma LawfulEdits(m: Matching, adds: bool, s: seq<TagValues>)
    requires Lawful(m)
    ensures var once := Applied(m, adds, s);
            && Others(m, once) == Others(m, s)
            && Count(m, once) == (if adds then 1 else 0)
            && Applied(m, adds, once) == once
  {
    var others := Others(m, s);
    OthersDoNotMatch(m, s);
    LeadBound(m, s);
    BestMatches(m, s);
    if !adds {
      NoMatches(m, others);
    } else {
      var lead := if Best(m, s).None? then |others| else Lead(m, s);
      var tag := if Best(m, s).None? then m.targetTag else Best(m, s).value;
      var a, b := others[..lead], others[lead..];
      assert others == a + b;
      assert Applied(m, adds, s) == a + [tag] + b by {
        WeaveOnward(others, lead, tag, tag);
      }
      OneMatch(m, a, tag, b);
    }
  }

  /** A bookmark edit for an event or a coordinate keeps every tag that does not name it, in
      order, leaves exactly one tag naming it on an addition and none on a removal, and
      changes nothing when repeated. */
  lemma BookmarkEdits(ids: Ids, before: (TagValues, TagValues) -> bool, c: Change, s: seq<TagValues>)
    requires TotalOrder(before) && Prints(ids) && (c.target.EventTarget? ==> |c.target.id| == 32)
    ensures var m := TargetMatching(ids, c.target, before);
            var once := Applied(m, c.adds, s);
            && Others(m, once) == Others(m, s)
            && Count(m, once) == (if c.adds then 1 else 0)
            && Applied(m, c.adds, once) == once
  {
    TargetMatchingLawful(ids, c.target, before);
    LawfulEdits(TargetMatching(ids, c.target, before), c.adds, s);
  }

  // ----- The arrangement of the matches does not matter -----

  /** A match that every match yields to. */
  ghost predicate IsBest(m: Matching, s: seq<TagValues>, t: TagValues) {
    t in s && m.targets(t) && forall x :: x in s && m.targets(x) ==> Canonical(m, t, x) == t
  }

  lemma {:induction false} BestIsBest(m: Matching, s: seq<TagValues>)
    requires TotalOrder(m.before) && Best(m, s).Some?
    ensures IsBest(m, s, Best(m, s).value)
  {
    var n := |s| - 1;
    assert s == s[..n] + [s[n]];
    BestMatches(m, s);
    if Best(m, s[..n]).Some? {
      BestIsBest(m, s[..n]);
    } else {
      BestMatches(m, s[..n]);
    }
  }

  lemma BestUnique(m: Matching, s: seq<TagValues>, t: seq<TagValues>, a: TagValues, b: TagValues)
    requires TotalOrder(m.before) && IsBest(m, s, a) && IsBest(m, t, b)
    requires forall x :: m.targets(x) ==> (x in s <==> x in t)
    ensures a == b
  {
    assert Canonical(m, a, b) == a && Canonical(m, b, a) == b;
  }

  /** The result depends only on the other tags, on where the first match stands among
      them, and on which matches there are: not on their arrangement or repetition. */
  lemma ArrangementDoesNotMatter(m: Matching, adds: bool, s: seq<TagValues>, t: seq<TagValues>)
    requires TotalOrder(m.before) && Others(m, s) == Others(m, t) && Lead(m, s) == Lead(m, t)
    requires forall x :: m.targets(x) ==> (x in s <==> x in t)
    ensures Applied(m, adds, s) == Applied(m, adds, t)
  {
    BestMatches(m, s);
    BestMatches(m, t);
    if Best(m, s).Some? {
      assert Best(m, s).value in t;
      BestIsBest(m, s);
      BestIsBest(m, t);
      BestUnique(m, s, t, Best(m, s).value, Best(m, t).value);
    }
  }
}
