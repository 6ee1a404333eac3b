/** The BER/DER reader: one tag-length-value at a time, definite or indefinite, and the inverse of
    every encoding it must accept (sections 8.1.3 and 8.1.5 of ITU-T X.690). */
module Asn1 {

  const MAX_ASN1_DEPTH: nat := 16
  const LENGTH_LIMIT: nat := 0x1_0000_0000

  type Byte = b: nat | b < 256

  datatype Result<T> = Ok(value: T) | Err(error: string)

  /** A value with its tag and its content. */
  datatype Item = Item(tag: Byte, content: seq<Byte>)

  /** An item read from the front of the input, and how many bytes it took. */
  datatype Parsed = Parsed(item: Item, size: nat)

  datatype Header = Header(length: nat, bytes: nat)

  function BigEndian(s: seq<Byte>): nat {
    if s == [] then 0 else 256 * BigEndian(s[..|s| - 1]) + s[|s| - 1]
  }

  /** A definite length: one byte, or a count of one to four bytes without a leading zero. */
  function LengthAt(s: seq<Byte>): Result<Header>
    requires s != []
  {
    if s[0] < 128 then Ok(Header(s[0], 1))
    else
      var count := s[0] - 128;
      if count == 0 || count > 4 then Err("CMS_ASN1_LENGTH")
      else if |s| < 1 + count then Err("CMS_ASN1_EOF")
      else if s[1] == 0 then Err("CMS_ASN1_NON_MINIMAL_LENGTH")
      else Ok(Header(BigEndian(s[1..1 + count]), 1 + count))
  }

  predicate Constructed(tag: Byte) { tag / 32 % 2 == 1 }

  predicate EndMark(s: seq<Byte>) {
    |s| >= 2 && s[0] == 0 && s[1] == 0
  }

  /** `parse_tlv_at`, on the input from the offset on. A successful read takes at least two bytes
      and never more than there are. */
  function ParseAt(s: seq<Byte>, depth: nat): (r: Result<Parsed>)
    ensures r.Ok? ==> 2 <= r.value.size <= |s| && |r.value.item.content| + 2 <= r.value.size
    ensures r.Ok? ==> r.value.item.tag == s[0]
    decreases |s|, 0
  {
    if depth >= MAX_ASN1_DEPTH || s == [] then Err("CMS_ASN1_DEPTH_OR_EOF")
    else if s[0] % 32 == 31 then Err("CMS_ASN1_HIGH_TAG")
    else if |s| < 2 then Err("CMS_ASN1_EOF")
    else if s[1] == 128 then
      if !Constructed(s[0]) then Err("CMS_ASN1_INDEFINITE_PRIMITIVE")
      else
        var end := ContentsEnd(s[2..], depth + 1);
        if end.Err? then Err(end.error)
        else Ok(Parsed(Item(s[0], s[2..2 + end.value]), end.value + 4))
    else
      var header := LengthAt(s[1..]);
      if header.Err? then Err(header.error)
      else
        var start := 1 + header.value.bytes;
        if start + header.value.length > |s| then Err("CMS_ASN1_EOF")
        else Ok(Parsed(Item(s[0], s[start..start + header.value.length]), start + header.value.length))
  }

  /** Where the two end-of-contents bytes are, skipping whole nested values. */
  function ContentsEnd(s: seq<Byte>, depth: nat): (r: Result<nat>)
    ensures r.Ok? ==> r.value + 2 <= |s|
    decreases |s|, 1
  {
    if EndMark(s) then Ok(0)
    else
      var nested := ParseAt(s, depth);
      if nested.Err? then Err(nested.error)
      else
        var rest := ContentsEnd(s[nested.value.size..], depth);
        if rest.Err? then rest else Ok(nested.value.size + rest.value)
  }

  // ---- In place ----

  method ReadLength(input: seq<Byte>, offset: nat) returns (r: Result<Header>)
    requires offset < |input|
    ensures r == LengthAt(input[offset..])
  {
    var first := input[offset];
    if first < 128 {
      return Ok(Header(first, 1));
    }
    var count := first - 128;
    if count == 0 || count > 4 {
      return Err("CMS_ASN1_LENGTH");
    }
    if offset + 1 + count > |input| {
      return Err("CMS_ASN1_EOF");
    }
    var lengthBytes := input[offset + 1..offset + 1 + count];
    assert lengthBytes == input[offset..][1..1 + count];
    assert lengthBytes[0] == input[offset..][1];
    if lengthBytes[0] == 0 {
      return Err("CMS_ASN1_NON_MINIMAL_LENGTH");
    }
    var length: nat := 0;
    for k := 0 to count
      invariant length == BigEndian(lengthBytes[..k])
    {
      assert lengthBytes[..k + 1][..k] == lengthBytes[..k];
      var digit: nat := lengthBytes[k];
      length := 256 * length + digit;
    }
    assert lengthBytes[..count] == lengthBytes;
    r := Ok(Header(length, 1 + count));
  }

  function Later(r: Result<nat>, bytes: nat): Result<nat> {
    if r.Err? then r else Ok(r.value + bytes)
  }

  lemma ContentsEndIs(s: seq<Byte>, depth: nat)
    ensures ContentsEnd(s, depth) ==
              if EndMark(s) then Ok(0)
              else
                var nested := ParseAt(s, depth);
                if nested.Err? then Err(nested.error)
                  else Later(ContentsEnd(s[nested.value.size..], depth), nested.value.size)
  {
  }

  method FindEnd(input: seq<Byte>, start: nat, depth: nat) returns (r: Result<nat>)
    requires start <= |input|
    ensures r == Later(ContentsEnd(input[start..], depth), start)
    decreases |input| - start, 1
  {
    hide ContentsEnd, ParseAt;
    var cursor := start;
    while true
      invariant start <= cursor <= |input|
      invariant Later(ContentsEnd(input[start..], depth), start) == Later(ContentsEnd(input[cursor..], depth), cursor)
      decreases |input| - cursor
    {
      ContentsEndIs(input[cursor..], depth);
      if cursor + 2 <= |input| && input[cursor] == 0 && input[cursor + 1] == 0 {
        return Ok(cursor);
      }
      var nested := ParseTlvAt(input, cursor, depth);
      if nested.Err? {
        return Err(nested.error);
      }
      assert input[cursor..][nested.value.size..] == input[cursor + nested.value.size..];
      cursor := cursor + nested.value.size;
    }
  }

  lemma IndefiniteIs(s: seq<Byte>, depth: nat)
    requires depth < MAX_ASN1_DEPTH && |s| >= 2 && s[0] % 32 != 31 && s[1] == 128 && Constructed(s[0])
    ensures var end := ContentsEnd(s[2..], depth + 1);
            ParseAt(s, depth) == if end.Err? then Err(end.error)
                                 else Ok(Parsed(Item(s[0], s[2..2 + end.value]), end.value + 4))
  {
  }

  lemma DefiniteIs(s: seq<Byte>, depth: nat)
    requires depth < MAX_ASN1_DEPTH && |s| >= 2 && s[0] % 32 != 31 && s[1] != 128
    ensures var header := LengthAt(s[1..]);
            ParseAt(s, depth) ==
              if header.Err? then Err(header.error)
              else if 1 + header.value.bytes + header.value.length > |s| then Err("CMS_ASN1_EOF")
              else
                var start := 1 + header.value.bytes;
                Ok(Parsed(Item(s[0], s[start..start + header.value.length]), start + header.value.length))
  {
  }

  lemma FailsEarly(s: seq<Byte>, depth: nat)
    ensures depth >= MAX_ASN1_DEPTH || s == [] ==> ParseAt(s, depth) == Err("CMS_ASN1_DEPTH_OR_EOF")
    ensures depth < MAX_ASN1_DEPTH && s != [] && s[0] % 32 == 31 ==> ParseAt(s, depth) == Err("CMS_ASN1_HIGH_TAG")
    ensures depth < MAX_ASN1_DEPTH && |s| == 1 && s[0] % 32 != 31 ==> ParseAt(s, depth) == Err("CMS_ASN1_EOF")
    ensures depth < MAX_ASN1_DEPTH && |s| >= 2 && s[0] % 32 != 31 && s[1] == 128 && !Constructed(s[0]) ==>
              ParseAt(s, depth) == Err("CMS_ASN1_INDEFINITE_PRIMITIVE")
  {
  }

  /** One value at an offset. */
  method ParseTlvAt(input: seq<Byte>, offset: nat, depth: nat) returns (r: Result<Parsed>)
    requires offset <= |input|
    ensures r == ParseAt(input[offset..], depth)
    decreases |input| - offset, 0
  {
    hide ParseAt, ContentsEnd, LengthAt, Constructed;
    FailsEarly(input[offset..], depth);
    if depth >= MAX_ASN1_DEPTH || offset >= |input| {
      return Err("CMS_ASN1_DEPTH_OR_EOF");
    }
    var tag := input[offset];
    if tag % 32 == 31 {
      return Err("CMS_ASN1_HIGH_TAG");
    }
    if offset + 1 >= |input| {
      return Err("CMS_ASN1_EOF");
    }
    if input[offset + 1] == 128 {
      if !Constructed(tag) {
        return Err("CMS_ASN1_INDEFINITE_PRIMITIVE");
      }
      IndefiniteIs(input[offset..], depth);
      assert input[offset..][2..] == input[offset + 2..];
      var end := FindEnd(input, offset + 2, depth + 1);
      if end.Err? {
        return Err(end.error);
      }
      assert input[offset..][2..end.value - offset] == input[offset + 2..end.value];
      r := Ok(Parsed(Item(tag, input[offset + 2..end.value]), end.value + 2 - offset));
    } else {
      DefiniteIs(input[offset..], depth);
      assert input[offset..][1..] == input[offset + 1..];
      var header := ReadLength(input, offset + 1);
      if header.Err? {
        return Err(header.error);
      }
      var contentStart := offset + 1 + header.value.bytes;
      var contentEnd := contentStart + header.value.length;
      if contentEnd > |input| {
        return Err("CMS_ASN1_EOF");
      }
      assert input[offset..][contentStart - offset..contentEnd - offset] == input[contentStart..contentEnd];
      r := Ok(Parsed(Item(tag, input[contentStart..contentEnd]), contentEnd - offset));
    }
  }

  // ---- Encodings ----

  /** What can be encoded: a value with raw content or with nested values, in a definite form with a
      short or long length, or in the indefinite form. */
  datatype Tree =
    | Raw(tag: Byte, long: bool, bytes: seq<Byte>)
    | Definite(tag: Byte, long: bool, kids: Forest)
    | Indefinite(tag: Byte, kids: Forest)

  datatype Forest = Bare | Grove(first: Tree, rest: Forest)

  function Digits(n: nat): (s: seq<Byte>)
    ensures s != []
  {
    if n < 256 then [n] else Digits(n / 256) + [n % 256]
  }

  function LengthBytes(n: nat, long: bool): seq<Byte> {
    if !long && n < 128 then [n] else [(128 + |Digits(n)|) % 256] + Digits(n)
  }

  function Encode(t: Tree): seq<Byte> {
    match t
    case Raw(tag, long, bytes) => [tag] + LengthBytes(|bytes|, long) + bytes
    case Definite(tag, long, kids) => [tag] + LengthBytes(|EncodeAll(kids)|, long) + EncodeAll(kids)
    case Indefinite(tag, kids) => [tag, 128] + EncodeAll(kids) + [0, 0]
  }

  function EncodeAll(ts: Forest): seq<Byte> {
    match ts
    case Bare => []
    case Grove(first, rest) => Encode(first) + EncodeAll(rest)
  }

  function ContentOf(t: Tree): seq<Byte> {
    match t
    case Raw(_, _, bytes) => bytes
    case Definite(_, _, kids) => EncodeAll(kids)
    case Indefinite(_, kids) => EncodeAll(kids)
  }

  /** How deep a reader must follow indefinite lengths. */
  function Height(t: Tree): nat {
    match t
    case Indefinite(_, kids) => 1 + HeightAll(kids)
    case _ => 1
  }

  function HeightAll(ts: Forest): nat {
    match ts
    case Bare => 0
    case Grove(first, rest) => if Height(first) < HeightAll(rest) then HeightAll(rest) else Height(first)
  }

  /** Low tag numbers, lengths of at most four bytes and not zero in the long form, indefinite
      lengths only on constructed tags, no end-of-contents tag among nested values, and indefinite
      nesting within the depth limit. */
  predicate Valid(t: Tree) {
    && t.tag % 32 != 31 && t.tag != 0 && Height(t) <= MAX_ASN1_DEPTH
    && match t
       case Raw(_, long, bytes) => (long ==> bytes != []) && |bytes| < LENGTH_LIMIT
       case Definite(_, long, kids) => (long ==> EncodeAll(kids) != []) && |EncodeAll(kids)| < LENGTH_LIMIT
         && ValidAll(kids)
       case Indefinite(tag, kids) => Constructed(tag) && ValidAll(kids)
  }

  predicate ValidAll(ts: Forest) {
    match ts
    case Bare => true
    case Grove(first, rest) => Valid(first) && ValidAll(rest)
  }

  lemma {:induction false} DigitsAre(n: nat)
    ensures BigEndian(Digits(n)) == n
    ensures n > 0 ==> Digits(n)[0] != 0
  {
    if n < 256 {
      assert BigEndian([n]) == 256 * BigEndian([]) + n;
    } else {
      DigitsAre(n / 256);
      assert Digits(n)[..|Digits(n)| - 1] == Digits(n / 256);
    }
  }

  lemma DigitsFit(n: nat)
    requires n < LENGTH_LIMIT
    ensures |Digits(n)| <= 4
  {
    if n >= 256 {
      if n / 256 >= 256 {
        if n / 256 / 256 >= 256 {
          assert n / 256 / 256 / 256 < 256;
          assert |Digits(n / 256 / 256 / 256)| == 1;
        }
        assert |Digits(n / 256 / 256)| <= 2;
      }
      assert |Digits(n / 256)| <= 3;
    }
  }

  /** Every length written is read back. */
  lemma LengthReadsBack(n: nat, long: bool, rest: seq<Byte>)
    requires n < LENGTH_LIMIT && (long ==> n > 0)
    ensures var s := LengthBytes(n, long);
            && LengthAt(s + rest) == Ok(Header(n, |s|))
            && (s + rest)[0] != 128
  {
    DigitsFit(n);
    DigitsAre(n);
    var s := LengthBytes(n, long);
    if long || n >= 128 {
      assert (s + rest)[1..1 + |Digits(n)|] == Digits(n);
    }
  }

  lemma DefiniteReadsBack(tag: Byte, long: bool, content: seq<Byte>, rest: seq<Byte>, depth: nat)
    requires tag % 32 != 31 && depth < MAX_ASN1_DEPTH && |content| < LENGTH_LIMIT && (long ==> content != [])
    ensures var s := [tag] + LengthBytes(|content|, long) + content;
            ParseAt(s + rest, depth) == Ok(Parsed(Item(tag, content), |s|))
  {
    var header := LengthBytes(|content|, long);
    var s := [tag] + header + content;
    LengthReadsBack(|content|, long, content + rest);
    assert (s + rest)[1..] == header + (content + rest);
    assert (s + rest)[0] == tag && (s + rest)[1] == (header + (content + rest))[0];
    var start := 1 + |header|;
    assert (s + rest)[start..start + |content|] == content;
  }

  lemma IndefiniteReadsBack(tag: Byte, content: seq<Byte>, rest: seq<Byte>, depth: nat)
    requires tag % 32 != 31 && Constructed(tag) && depth < MAX_ASN1_DEPTH
    requires ContentsEnd(content + [0, 0] + rest, depth + 1) == Ok(|content|)
    ensures var s := [tag, 128] + content + [0, 0];
            ParseAt(s + rest, depth) == Ok(Parsed(Item(tag, content), |s|))
  {
    var s := [tag, 128] + content + [0, 0] + rest;
    assert s[2..] == content + [0, 0] + rest;
    assert s[2..2 + |content|] == content;
  }

  lemma {:induction false} TreeReadsBack(t: Tree, rest: seq<Byte>, depth: nat)
    requires Valid(t) && depth + Height(t) <= MAX_ASN1_DEPTH
    ensures ParseAt(Encode(t) + rest, depth) == Ok(Parsed(Item(t.tag, ContentOf(t)), |Encode(t)|))
    decreases t
  {
    hide ParseAt, ContentsEnd;
    match t
    case Raw(tag, long, bytes) => DefiniteReadsBack(tag, long, bytes, rest, depth);
    case Definite(tag, long, kids) => DefiniteReadsBack(tag, long, EncodeAll(kids), rest, depth);
    case Indefinite(tag, kids) =>
      KidsReadBack(kids, rest, depth + 1);
      IndefiniteReadsBack(tag, EncodeAll(kids), rest, depth);
  }

  lemma {:induction false} KidsReadBack(ts: Forest, rest: seq<Byte>, depth: nat)
    requires ValidAll(ts) && depth + HeightAll(ts) <= MAX_ASN1_DEPTH
    ensures ContentsEnd(EncodeAll(ts) + [0, 0] + rest, depth) == Ok(|EncodeAll(ts)|)
    decreases ts
  {
    hide ParseAt, ContentsEnd;
    match ts
    case Bare => ContentsEndIs([0, 0] + rest, depth);
                 assert EncodeAll(ts) + [0, 0] + rest == [0, 0] + rest;
    case Grove(first, others) =>
      var tail := EncodeAll(others) + [0, 0] + rest;
      TreeReadsBack(first, tail, depth);
      KidsReadBack(others, rest, depth);
      FirstByte(first);
      GroveReadsBack(Encode(first), tail, depth);
      assert EncodeAll(ts) + [0, 0] + rest == Encode(first) + tail;
  }

  lemma FirstByte(t: Tree)
    ensures Encode(t) != [] && Encode(t)[0] == t.tag
  {
  }

  lemma GroveReadsBack(first: seq<Byte>, tail: seq<Byte>, depth: nat)
    requires first != [] && first[0] != 0
    requires ParseAt(first + tail, depth).Ok? && ParseAt(first + tail, depth).value.size == |first|
    ensures ContentsEnd(first + tail, depth) == Later(ContentsEnd(tail, depth), |first|)
  {
    ContentsEndIs(first + tail, depth);
    assert (first + tail)[|first|..] == tail;
    assert !EndMark(first + tail);
  }

  // ---- All values of a content ----

  function Items(s: seq<Byte>): Result<seq<Item>>
    decreases |s|
  {
    if s == [] then Ok([])
    else
      var p := ParseAt(s, 0);
      if p.Err? then Err(p.error)
      else
        var rest := Items(s[p.value.size..]);
        if rest.Err? then rest else Ok([p.value.item] + rest.value)
  }

  function ItemsOf(ts: Forest): seq<Item> {
    match ts
    case Bare => []
    case Grove(first, rest) => [Item(first.tag, ContentOf(first))] + ItemsOf(rest)
  }

  /** The values of any valid encoding are the encoded ones, in order. */
  lemma {:induction false} ItemsReadBack(ts: Forest)
    requires ValidAll(ts)
    ensures Items(EncodeAll(ts)) == Ok(ItemsOf(ts))
    decreases ts
  {
    match ts
    case Bare =>
    case Grove(first, rest) =>
      TreeReadsBack(first, EncodeAll(rest), 0);
      var s := EncodeAll(ts);
      assert s[|Encode(first)|..] == EncodeAll(rest);
      ItemsReadBack(rest);
  }

  /** A cursor over one content. */
  class Reader {
    const input: seq<Byte>
    var offset: nat

    constructor (input: seq<Byte>)
      ensures this.input == input && offset == 0
    {
      this.input, offset := input, 0;
    }

    ghost predicate Valid()
      reads this
    {
      offset <= |input|
    }

    function Rest(): seq<Byte>
      reads this
      requires Valid()
    {
      input[offset..]
    }

    method IsEmpty() returns (empty: bool)
      requires Valid()
      ensures empty <==> Rest() == []
    {
      empty := offset == |input|;
    }

    method PeekTag() returns (tag: Result<Byte>)
      requires Valid()
      ensures tag == if Rest() == [] then Err("") else Ok(Rest()[0])
    {
      tag := if offset < |input| then Ok(input[offset]) else Err("");
    }

    /** Reads one value, moves past it, and stays within the input; a failed read does not move. */
    method Read() returns (r: Result<Item>)
      requires Valid()
      modifies this`offset
      ensures Valid()
      ensures r.Ok? <==> ParseAt(old(Rest()), 0).Ok?
      ensures r.Ok? ==>
                && r.value == ParseAt(old(Rest()), 0).value.item
                && offset == old(offset) + ParseAt(old(Rest()), 0).value.size
      ensures r.Ok? ==> offset >= old(offset) + 2 && Rest() == old(Rest())[ParseAt(old(Rest()), 0).value.size..]
      ensures r.Err? ==> offset == old(offset)
      ensures r.Ok? ==> r.value.tag == old(Rest())[0]
      ensures Items(old(Rest())).Ok? <==> old(Rest()) == [] || (r.Ok? && Items(Rest()).Ok?)
      ensures Items(old(Rest())).Ok? && r.Ok? ==> Items(old(Rest())).value == [r.value] + Items(Rest()).value
    {
      var parsed := ParseTlvAt(input, offset, 0);
      if parsed.Err? {
        return Err(parsed.error);
      }
      offset := offset + parsed.value.size;
      r := Ok(parsed.value.item);
    }

    /** Reads one value with the given tag. */
    method Expect(tag: Byte) returns (r: Result<seq<Byte>>)
      requires Valid()
      modifies this`offset
      ensures Valid() && |Rest()| <= |old(Rest())|
      ensures r.Ok? ==> |Rest()| < |old(Rest())| && |r.value| < |old(Rest())|
      ensures r.Ok? ==> (Items(old(Rest())).Ok? <==> Items(Rest()).Ok?)
      ensures r.Ok? && Items(Rest()).Ok? ==> Items(old(Rest())).value == [Item(tag, r.value)] + Items(Rest()).value
      ensures r.Err? && Items(old(Rest())).Ok? ==>
                Items(old(Rest())).value == [] || Items(old(Rest())).value[0].tag != tag
    {
      var item := Read();
      if item.Err? {
        return Err(item.error);
      }
      if item.value.tag != tag {
        return Err("CMS_ASN1_TAG");
      }
      r := Ok(item.value.content);
    }
  }
}
