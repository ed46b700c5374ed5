/** The encoded-size check on contact-list events, against the compact JSON text it measures. */
module ContactListSize {
  import opened Prelude
  import opened Decimals
  import opened Utf8

  const MAX_EVENT_BYTES: nat := 131_072
  const MIN_EVENT_WITH_ONE_TAG_BYTES: nat := 334
  const MAX_TAG_VALUES: nat := (MAX_EVENT_BYTES - MIN_EVENT_WITH_ONE_TAG_BYTES) / 3
  const EMPTY_EVENT_OBJECT_BYTES: nat := 71
  const FIXED_HEX_BYTES: nat := 64 + 64 + 128

  // ----- The text -----

  /** Encoded text, one character per byte. */
  type Octets = string

  function Characters(bytes: seq<Byte>): Octets {
    seq(|bytes|, i requires 0 <= i < |bytes| => bytes[i] as char)
  }

  function HexDigit(n: nat): char
    requires n < 16
  {
    "0123456789abcdef"[n]
  }

  /** One character inside a JSON string: the short escapes, the six-byte control escapes, or itself. */
  function JsonCharacter(c: Scalar): Octets {
    if c == 0x22 then "\\\""
    else if c == 0x5C then "\\\\"
    else if c == 0x08 then "\\b"
    else if c == 0x09 then "\\t"
    else if c == 0x0A then "\\n"
    else if c == 0x0C then "\\f"
    else if c == 0x0D then "\\r"
    else if c < 0x20 then "\\u00" + [HexDigit(c / 16), HexDigit(c % 16)]
    else Characters(EncodeScalar(c))
  }

  function JsonCharacters(value: Text): Octets {
    if value == [] then "" else JsonCharacters(value[..|value| - 1]) + JsonCharacter(value[|value| - 1])
  }

  function JsonString(value: Text): Octets {
    "\"" + JsonCharacters(value) + "\""
  }

  /** Items of an array, separated by commas. */
  function Values(values: seq<Text>): Octets {
    if values == [] then ""
    else Values(values[..|values| - 1]) + (if |values| > 1 then "," else "") + JsonString(values[|values| - 1])
  }

  function Tags(tags: seq<seq<Text>>): Octets {
    if tags == [] then ""
    else Tags(tags[..|tags| - 1]) + (if |tags| > 1 then "," else "") + "[" + Values(tags[|tags| - 1]) + "]"
  }

  datatype Hexes = Hexes(id: Octets, pubkey: Octets, sig: Octets)

  predicate Sized(h: Hexes) {
    |h.id| == 64 && |h.pubkey| == 64 && |h.sig| == 128
  }

  /** The compact JSON object of a signed event. */
  function EventJson(h: Hexes, createdAt: nat, kind: nat, tags: seq<seq<Text>>, content: Text): Octets {
    "{\"id\":\"" + h.id + "\",\"pubkey\":\"" + h.pubkey + "\",\"created_at\":" + Digits(createdAt)
    + ",\"kind\":" + Digits(kind) + ",\"tags\":[" + Tags(tags) + "],\"content\":" + JsonString(content)
    + ",\"sig\":\"" + h.sig + "\"}"
  }

  // ----- Its length -----

  function CountValues(tags: seq<seq<Text>>): nat {
    if tags == [] then 0 else CountValues(tags[..|tags| - 1]) + |tags[|tags| - 1]|
  }

  /** Everything but the tags and the content. */
  function Frame(createdAt: nat, kind: nat): nat {
    EMPTY_EVENT_OBJECT_BYTES + FIXED_HEX_BYTES + |Digits(createdAt)| + |Digits(kind)| + 2
  }

  lemma JsonLength(h: Hexes, createdAt: nat, kind: nat, tags: seq<seq<Text>>, content: Text)
    requires Sized(h)
    ensures |EventJson(h, createdAt, kind, tags, content)|
            == Frame(createdAt, kind) + |Tags(tags)| + |JsonString(content)|
  {
  }

  lemma {:induction false} ValuesFloor(values: seq<Text>)
    ensures |Values(values)| + 1 >= 3 * |values|
  {
    if values != [] {
      ValuesFloor(values[..|values| - 1]);
    }
  }

  lemma {:induction false} TagsFloor(tags: seq<seq<Text>>)
    ensures |Tags(tags)| >= 3 * CountValues(tags) + |tags|
  {
    if tags != [] {
      TagsFloor(tags[..|tags| - 1]);
      ValuesFloor(tags[|tags| - 1]);
    }
  }

  /** An event with more tag values than the cut-off never fits. */
  lemma CutoffIsSafe(h: Hexes, createdAt: nat, kind: nat, tags: seq<seq<Text>>, content: Text)
    requires Sized(h) && CountValues(tags) > MAX_TAG_VALUES
    ensures |EventJson(h, createdAt, kind, tags, content)| > MAX_EVENT_BYTES
  {
    JsonLength(h, createdAt, kind, tags, content);
    TagsFloor(tags);
  }

  /** The length of the tags' text, tag by tag. */
  function TagsLength(tags: seq<seq<Text>>): nat {
    if tags == [] then 0
    else TagsLength(tags[..|tags| - 1]) + (if |tags| > 1 then 1 else 0) + 2 + ValuesLength(tags[|tags| - 1])
  }

  lemma {:induction false} TagsMeasured(tags: seq<seq<Text>>)
    ensures TagsLength(tags) == |Tags(tags)|
  {
    if tags != [] {
      TagsMeasured(tags[..|tags| - 1]);
      ValuesMeasured(tags[|tags| - 1]);
    }
  }

  lemma OneMoreTag(tags: seq<seq<Text>>, i: nat)
    requires i < |tags|
    ensures TagsLength(tags[..i + 1]) == TagsLength(tags[..i]) + (if i > 0 then 1 else 0) + 2 + ValuesLength(tags[i])
    ensures CountValues(tags[..i + 1]) == CountValues(tags[..i]) + |tags[i]|
  {
    assert tags[..i + 1][..i] == tags[..i];
  }

  lemma {:induction false} TagsPrefix(tags: seq<seq<Text>>, i: nat)
    requires i <= |tags|
    ensures TagsLength(tags[..i]) <= TagsLength(tags) && CountValues(tags[..i]) <= CountValues(tags)
  {
    if i < |tags| {
      assert tags[..|tags| - 1][..i] == tags[..i];
      TagsPrefix(tags[..|tags| - 1], i);
    } else {
      assert tags[..i] == tags;
    }
  }

  /** The length of a string's text, character by character. */
  function StringLength(value: Text): nat {
    if value == [] then 2 else StringLength(value[..|value| - 1]) + |JsonCharacter(value[|value| - 1])|
  }

  lemma {:induction false} StringMeasured(value: Text)
    ensures StringLength(value) == |JsonString(value)|
  {
    if value != [] {
      StringMeasured(value[..|value| - 1]);
    }
  }

  /** The length of the values' text, value by value. */
  function ValuesLength(values: seq<Text>): nat {
    if values == [] then 0
    else ValuesLength(values[..|values| - 1]) + (if |values| > 1 then 1 else 0) + StringLength(values[|values| - 1])
  }

  lemma {:induction false} ValuesMeasured(values: seq<Text>)
    ensures ValuesLength(values) == |Values(values)|
  {
    if values != [] {
      ValuesMeasured(values[..|values| - 1]);
      StringMeasured(values[|values| - 1]);
    }
  }

  lemma {:induction false} ValuesPrefix(values: seq<Text>, i: nat)
    requires i <= |values|
    ensures ValuesLength(values[..i]) <= ValuesLength(values)
  {
    if i < |values| {
      assert values[..|values| - 1][..i] == values[..i];
      ValuesPrefix(values[..|values| - 1], i);
    } else {
      assert values[..i] == values;
    }
  }

  lemma {:induction false} CharactersPrefix(value: Text, i: nat)
    requires i <= |value|
    ensures |JsonCharacters(value[..i])| <= |JsonCharacters(value)|
  {
    if i < |value| {
      assert value[..|value| - 1][..i] == value[..i];
      CharactersPrefix(value[..|value| - 1], i);
    } else {
      assert value[..i] == value;
    }
  }

  // ----- The running check -----

  datatype SizeError = TooLarge(size: nat, maximum: nat)

  method Add(total: nat, amount: nat) returns (r: Result<nat, SizeError>)
    ensures r.Ok? <==> total + amount <= MAX_EVENT_BYTES
    ensures r.Ok? ==> r.value == total + amount
  {
    if total + amount > MAX_EVENT_BYTES {
      return Err(TooLarge(total + amount, MAX_EVENT_BYTES));
    }
    return Ok(total + amount);
  }

  function Utf8Length(c: Scalar): nat {
    if c < 0x80 then 1 else if c < 0x800 then 2 else if c < 0x1_0000 then 3 else 4
  }

  method AddJsonString(start: nat, value: Text) returns (r: Result<nat, SizeError>)
    ensures r.Ok? <==> start + |JsonString(value)| <= MAX_EVENT_BYTES
    ensures r.Ok? ==> r.value == start + |JsonString(value)|
  {
    r := Add(start, 2);
    if r.Err? {
      return;
    }
    var total := r.value;
    for i := 0 to |value|
      invariant total == start + 2 + |JsonCharacters(value[..i])| <= MAX_EVENT_BYTES
    {
      var c := value[i];
      var encoded := if c in {0x22, 0x5C, 0x08, 0x09, 0x0A, 0x0C, 0x0D} then 2
                     else if c < 0x20 then 6
                     else Utf8Length(c);
      assert value[..i + 1][..i] == value[..i];
      assert |JsonCharacters(value[..i + 1])| == |JsonCharacters(value[..i])| + encoded;
      CharactersPrefix(value, i + 1);
      r := Add(total, encoded);
      if r.Err? {
        return;
      }
      total := r.value;
    }
    assert value[..|value|] == value;
    r := Ok(total);
  }

  /** One tag: its values, counted and measured. */
  method AddTag(start: nat, count: nat, tag: seq<Text>, separated: bool) returns (r: Result<(nat, nat), SizeError>)
    requires count <= MAX_TAG_VALUES
    ensures var size := start + (if separated then 1 else 0) + 2 + ValuesLength(tag);
            && (r.Ok? <==> size <= MAX_EVENT_BYTES && count + |tag| <= MAX_TAG_VALUES)
            && (r.Ok? ==> r.value == (size, count + |tag|))
  {
    var step := Add(start, if separated then 1 else 0);
    if step.Err? {
      return Err(step.error);
    }
    step := Add(step.value, 2);
    if step.Err? {
      return Err(step.error);
    }
    r := AddValues(step.value, count, tag);
  }

  method AddValues(base: nat, count: nat, tag: seq<Text>) returns (r: Result<(nat, nat), SizeError>)
    requires base <= MAX_EVENT_BYTES && count <= MAX_TAG_VALUES
    ensures r.Ok? <==> base + ValuesLength(tag) <= MAX_EVENT_BYTES && count + |tag| <= MAX_TAG_VALUES
    ensures r.Ok? ==> r.value == (base + ValuesLength(tag), count + |tag|)
  {
    var total, values := base, count;
    for j := 0 to |tag|
      invariant total == base + ValuesLength(tag[..j]) <= MAX_EVENT_BYTES && values == count + j <= MAX_TAG_VALUES
    {
      OneMoreValue(tag, j);
      ValuesPrefix(tag, j + 1);
      var step := AddValue(total, values, j > 0, tag[j]);
      if step.Err? {
        return Err(step.error);
      }
      total, values := step.value, values + 1;
    }
    assert tag[..|tag|] == tag;
    return Ok((total, values));
  }

  /** One value: counted against the cut-off, then separated and measured. */
  method AddValue(total: nat, values: nat, separated: bool, value: Text) returns (r: Result<nat, SizeError>)
    ensures r.Ok? <==> values < MAX_TAG_VALUES
                       && total + (if separated then 1 else 0) + StringLength(value) <= MAX_EVENT_BYTES
    ensures r.Ok? ==> r.value == total + (if separated then 1 else 0) + StringLength(value)
  {
    if values + 1 > MAX_TAG_VALUES {
      return Err(TooLarge(values + 1, MAX_TAG_VALUES));
    }
    r := Add(total, if separated then 1 else 0);
    if r.Err? {
      return;
    }
    StringMeasured(value);
    r := AddJsonString(r.value, value);
  }

  lemma OneMoreValue(tag: seq<Text>, j: nat)
    requires j < |tag|
    ensures ValuesLength(tag[..j + 1]) == ValuesLength(tag[..j]) + (if j > 0 then 1 else 0) + StringLength(tag[j])
  {
    assert tag[..j + 1][..j] == tag[..j];
  }

  method AddTags(start: nat, tags: seq<seq<Text>>) returns (r: Result<nat, SizeError>)
    requires start <= MAX_EVENT_BYTES
    ensures r.Ok? <==> start + TagsLength(tags) <= MAX_EVENT_BYTES && CountValues(tags) <= MAX_TAG_VALUES
    ensures r.Ok? ==> r.value == start + TagsLength(tags)
  {
    var total, values := start, 0;
    for i := 0 to |tags|
      invariant total == start + TagsLength(tags[..i]) <= MAX_EVENT_BYTES
                && values == CountValues(tags[..i]) <= MAX_TAG_VALUES
    {
      OneMoreTag(tags, i);
      TagsPrefix(tags, i + 1);
      var step := AddTag(total, values, tags[i], i > 0);
      if step.Err? {
        return Err(step.error);
      }
      total, values := step.value.0, step.value.1;
    }
    assert tags[..|tags|] == tags;
    return Ok(total);
  }

  /** Accepts exactly the events whose compact JSON text fits, and answers its length. */
  method EncodedLength(h: Hexes, createdAt: nat, kind: nat, tags: seq<seq<Text>>, content: Text)
    returns (r: Result<nat, SizeError>)
    requires Sized(h) && createdAt <= 0xFFFF_FFFF_FFFF_FFFF && kind <= 0xFFFF
    ensures r.Ok? <==> |EventJson(h, createdAt, kind, tags, content)| <= MAX_EVENT_BYTES
    ensures r.Ok? ==> r.value == |EventJson(h, createdAt, kind, tags, content)|
  {
    JsonLength(h, createdAt, kind, tags, content);
    CountDigits(createdAt);
    CountDigits(kind);
    if CountValues(tags) > MAX_TAG_VALUES {
      CutoffIsSafe(h, createdAt, kind, tags, content);
    }
    var start := EMPTY_EVENT_OBJECT_BYTES + FIXED_HEX_BYTES + DecimalLength(createdAt) + DecimalLength(kind) + 2;
    TagsMeasured(tags);
    r := AddTags(start, tags);
    if r.Err? {
      return;
    }
    r := AddJsonString(r.value, content);
  }

  /** The number of decimal digits, by repeated division. */
  function DecimalLength(n: nat): (r: nat)
    ensures r == |Digits(n)|
  {
    if n < 10 then 1 else DecimalLength(n / 10) + 1
  }
}
