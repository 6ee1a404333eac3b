/** The KMS recipient envelope: what the parser accepts, stated on the values of each nested
    content, and the envelope recovered from every valid encoding (section 6.1 of RFC 5652). */
module RecipientCms {
  import opened Asn1

  const MAX_CMS_BYTES: nat := 1048576

  const OID_ENVELOPED: seq<Byte> := [0x2a, 0x86, 0x48, 0x86, 0xf7, 0x0d, 0x01, 0x07, 0x03]
  const OID_DATA: seq<Byte> := [0x2a, 0x86, 0x48, 0x86, 0xf7, 0x0d, 0x01, 0x07, 0x01]
  const OID_OAEP: seq<Byte> := [0x2a, 0x86, 0x48, 0x86, 0xf7, 0x0d, 0x01, 0x01, 0x07]
  const OID_MGF1: seq<Byte> := [0x2a, 0x86, 0x48, 0x86, 0xf7, 0x0d, 0x01, 0x01, 0x08]
  const OID_PSPECIFIED: seq<Byte> := [0x2a, 0x86, 0x48, 0x86, 0xf7, 0x0d, 0x01, 0x01, 0x09]
  const OID_SHA256: seq<Byte> := [0x60, 0x86, 0x48, 0x01, 0x65, 0x03, 0x04, 0x02, 0x01]
  const OID_AES_256_CBC: seq<Byte> := [0x60, 0x86, 0x48, 0x01, 0x65, 0x03, 0x04, 0x01, 0x2a]

  // ---- The identifiers, by their arcs (section 8.19 of ITU-T X.690) ----

  /** Base 128, every byte but the last with its high bit set. */
  function Septets(n: nat, last: bool): (s: seq<Byte>) {
    var low: Byte := if last then n % 128 else 128 + n % 128;
    if n < 128 then [low] else Septets(n / 128, false) + [low]
  }

  function Identifier(arcs: seq<nat>): seq<Byte>
    requires |arcs| >= 2
  {
    if |arcs| == 2 then Septets(40 * arcs[0] + arcs[1], true)
    else Identifier(arcs[..|arcs| - 1]) + Septets(arcs[|arcs| - 1], true)
  }

  lemma Appends(arcs: seq<nat>, arc: nat)
    requires |arcs| >= 2
    ensures Identifier(arcs + [arc]) == Identifier(arcs) + Septets(arc, true)
  {
    assert (arcs + [arc])[..|arcs|] == arcs;
  }

  lemma Small(arc: nat)
    requires arc < 128
    ensures Septets(arc, true) == [arc]
  {
  }

  /** pkcs-7 3 and 1, pkcs-1 7, 8 and 9, SHA-256, and AES-256 in CBC mode. */
  lemma IdentifiersAre()
    ensures OID_ENVELOPED == Identifier([1, 2, 840, 113549, 1, 7, 3])
    ensures OID_DATA == Identifier([1, 2, 840, 113549, 1, 7, 1])
    ensures OID_OAEP == Identifier([1, 2, 840, 113549, 1, 1, 7])
    ensures OID_MGF1 == Identifier([1, 2, 840, 113549, 1, 1, 8])
    ensures OID_PSPECIFIED == Identifier([1, 2, 840, 113549, 1, 1, 9])
    ensures OID_SHA256 == Identifier([2, 16, 840, 1, 101, 3, 4, 2, 1])
    ensures OID_AES_256_CBC == Identifier([2, 16, 840, 1, 101, 3, 4, 1, 42])
  {
    hide Identifier, Septets;
    RsaIs(7, 3);
    RsaIs(7, 1);
    RsaIs(1, 7);
    RsaIs(1, 8);
    RsaIs(1, 9);
    NistIs(2, 1);
    NistIs(1, 42);
  }

  lemma RsaIs(a: nat, b: nat)
    requires a < 128 && b < 128
    ensures Identifier([1, 2, 840, 113549, 1, a, b]) == [0x2a, 0x86, 0x48, 0x86, 0xf7, 0x0d, 0x01, a, b]
  {
    hide Identifier, Septets;
    RsaArcs();
    TwoMore([1, 2, 840, 113549, 1], a, b);
    assert [1, 2, 840, 113549, 1] + [a, b] == [1, 2, 840, 113549, 1, a, b];
  }

  lemma NistIs(a: nat, b: nat)
    requires a < 128 && b < 128
    ensures Identifier([2, 16, 840, 1, 101, 3, 4, a, b]) == [0x60, 0x86, 0x48, 0x01, 0x65, 0x03, 0x04, a, b]
  {
    hide Identifier, Septets;
    NistArcs();
    TwoMore([2, 16, 840, 1, 101, 3, 4], a, b);
    assert [2, 16, 840, 1, 101, 3, 4] + [a, b] == [2, 16, 840, 1, 101, 3, 4, a, b];
  }

  lemma TwoMore(arcs: seq<nat>, a: nat, b: nat)
    requires |arcs| >= 2 && a < 128 && b < 128
    ensures Identifier(arcs + [a, b]) == Identifier(arcs) + [a, b]
  {
    hide Identifier, Septets;
    Small(a);
    Small(b);
    Appends(arcs, a);
    Appends(arcs + [a], b);
    Joined(arcs, a, b);
    Joined(Identifier(arcs), a, b);
  }

  lemma Joined(s: seq<nat>, a: nat, b: nat)
    ensures s + [a] + [b] == s + [a, b]
  {
  }

  lemma RsaArcs()
    ensures Identifier([1, 2, 840, 113549, 1]) == [0x2a, 0x86, 0x48, 0x86, 0xf7, 0x0d, 0x01]
  {
    Septets840();
    assert Septets(113549, true) == [0x86, 0xf7, 0x0d] by {
      assert 113549 / 128 == 887 && 887 / 128 == 6 && 113549 % 128 == 13 && 887 % 128 == 119;
      assert Septets(6, false) == [0x86];
      assert Septets(887, false) == Septets(6, false) + [0xf7];
    }
    assert Identifier([1, 2]) == [0x2a];
    Small(1);
    hide Identifier, Septets;
    Appends([1, 2], 840);
    Appends([1, 2, 840], 113549);
    Appends([1, 2, 840, 113549], 1);
    assert [1, 2] + [840] == [1, 2, 840] && [1, 2, 840] + [113549] == [1, 2, 840, 113549];
    assert [1, 2, 840, 113549] + [1] == [1, 2, 840, 113549, 1];
  }

  lemma Septets840()
    ensures Septets(840, true) == [0x86, 0x48]
  {
    assert 840 / 128 == 6 && 840 % 128 == 72;
    assert Septets(6, false) == [0x86];
  }

  lemma NistArcs()
    ensures Identifier([2, 16, 840, 1, 101, 3, 4]) == [0x60, 0x86, 0x48, 0x01, 0x65, 0x03, 0x04]
  {
    Septets840();
    assert Identifier([2, 16]) == [0x60];
    hide Identifier, Septets;
    Appends([2, 16], 840);
    TwoMore([2, 16, 840], 1, 101);
    TwoMore([2, 16, 840, 1, 101], 3, 4);
    assert [2, 16] + [840] == [2, 16, 840] && [2, 16, 840] + [1, 101] == [2, 16, 840, 1, 101];
    assert [2, 16, 840, 1, 101] + [3, 4] == [2, 16, 840, 1, 101, 3, 4];
  }

  datatype Envelope = Envelope(encryptedKey: seq<Byte>, iv: seq<Byte>, ciphertext: seq<Byte>)

  // ---- What is accepted, on lists of values ----

  /** The values of a content; none if it is malformed. */
  function ItemsIn(s: seq<Byte>): seq<Item> {
    if Items(s).Ok? then Items(s).value else []
  }

  predicate Sha256(items: seq<Item>) {
    |items| == 2 && items[0] == Item(0x06, OID_SHA256) && items[1] == Item(0x05, [])
  }

  /** A context that wraps one sequence. */
  predicate WrapsOne(items: seq<Item>) {
    |items| == 1 && items[0].tag == 0x30
  }

  predicate HashContext(items: seq<Item>) {
    WrapsOne(items) && Sha256(ItemsIn(items[0].content))
  }

  predicate MgfAlgorithm(items: seq<Item>) {
    |items| == 2 && items[0] == Item(0x06, OID_MGF1) && items[1].tag == 0x30 && Sha256(ItemsIn(items[1].content))
  }

  predicate MgfContext(items: seq<Item>) {
    WrapsOne(items) && MgfAlgorithm(ItemsIn(items[0].content))
  }

  /** Only the empty label. */
  predicate EmptyLabel(items: seq<Item>) {
    |items| == 2 && items[0] == Item(0x06, OID_PSPECIFIED) && items[1] == Item(0x04, [])
  }

  predicate SourceContext(items: seq<Item>) {
    WrapsOne(items) && EmptyLabel(ItemsIn(items[0].content))
  }

  predicate OaepParameters(items: seq<Item>) {
    && 2 <= |items| <= 3
    && items[0].tag == 0xa0 && HashContext(ItemsIn(items[0].content))
    && items[1].tag == 0xa1 && MgfContext(ItemsIn(items[1].content))
    && (|items| == 3 ==> items[2].tag == 0xa2 && SourceContext(ItemsIn(items[2].content)))
  }

  predicate KeyAlgorithm(items: seq<Item>) {
    && |items| == 2 && items[0] == Item(0x06, OID_OAEP)
    && items[1].tag == 0x30 && OaepParameters(ItemsIn(items[1].content))
  }

  /** Version 2, any recipient identifier, the key algorithm and a 256-byte key. */
  predicate Recipient(items: seq<Item>, key: seq<Byte>) {
    && |items| == 4 && items[0] == Item(0x02, [2])
    && items[2].tag == 0x30 && KeyAlgorithm(ItemsIn(items[2].content))
    && items[3] == Item(0x04, key) && |key| == 256
  }

  predicate ContentAlgorithm(items: seq<Item>, iv: seq<Byte>) {
    |items| == 2 && items[0] == Item(0x06, OID_AES_256_CBC) && items[1] == Item(0x04, iv) && |iv| == 16
  }

  /** The bytes of nested octet strings, in order. */
  function Octets(s: seq<Byte>, depth: nat): Result<seq<Byte>>
    decreases MAX_ASN1_DEPTH - depth, 1, 0
  {
    if depth >= MAX_ASN1_DEPTH then Err("CMS_ASN1_DEPTH_OR_EOF")
    else
      var items := Items(s);
      if items.Err? then Err(items.error) else JoinOctets(items.value, depth)
  }

  function JoinOctets(items: seq<Item>, depth: nat): Result<seq<Byte>>
    requires depth < MAX_ASN1_DEPTH
    decreases MAX_ASN1_DEPTH - depth, 0, |items|
  {
    if items == [] then Ok([])
    else
      var first := OctetsOf(items[0], depth);
      if first.Err? then first
      else
        var rest := JoinOctets(items[1..], depth);
        if rest.Err? then rest else Ok(first.value + rest.value)
  }

  function OctetsOf(item: Item, depth: nat): Result<seq<Byte>>
    requires depth < MAX_ASN1_DEPTH
    decreases MAX_ASN1_DEPTH - depth, 0, 0
  {
    if item.tag == 0x04 || item.tag == 0x80 then Ok(item.content)
    else if item.tag == 0x24 || item.tag == 0xa0 then Octets(item.content, depth + 1)
    else Err("CMS_ENCRYPTED_CONTENT_TAG")
  }

  /** The encrypted content: one or more chunks, each primitive or constructed. */
  function Ciphertext(items: seq<Item>): Result<seq<Byte>> {
    if items == [] then Ok([])
    else
      var first :=
        if items[0].tag == 0x80 then Ok(items[0].content)
        else if items[0].tag == 0xa0 then Octets(items[0].content, 0)
        else Err("CMS_ENCRYPTED_CONTENT_TAG");
      if first.Err? then first
      else
        var rest := Ciphertext(items[1..]);
        if rest.Err? then rest else Ok(first.value + rest.value)
  }

  predicate EncryptedContent(items: seq<Item>, iv: seq<Byte>, ciphertext: seq<Byte>) {
    && |items| >= 2 && items[0] == Item(0x06, OID_DATA)
    && items[1].tag == 0x30 && ContentAlgorithm(ItemsIn(items[1].content), iv)
    && Ciphertext(items[2..]) == Ok(ciphertext)
  }

  /** Version 2, optional originator information, one recipient, the encrypted content. */
  predicate EnvelopedData(items: seq<Item>, e: Envelope) {
    && |items| >= 3 && items[0] == Item(0x02, [2])
    && var at := if items[1].tag == 0xa0 then 2 else 1;
       && |items| == at + 2
       && items[at].tag == 0x31 && WrapsOne(ItemsIn(items[at].content))
       && Recipient(ItemsIn(ItemsIn(items[at].content)[0].content), e.encryptedKey)
       && items[at + 1].tag == 0x30 && EncryptedContent(ItemsIn(items[at + 1].content), e.iv, e.ciphertext)
  }

  predicate ContentInfo(items: seq<Item>, e: Envelope) {
    && |items| == 2 && items[0] == Item(0x06, OID_ENVELOPED)
    && items[1].tag == 0xa0 && WrapsOne(ItemsIn(items[1].content))
    && EnvelopedData(ItemsIn(ItemsIn(items[1].content)[0].content), e)
  }

  predicate Sized(e: Envelope) {
    e.ciphertext != [] && |e.ciphertext| % 16 == 0 && |e.ciphertext| <= MAX_CMS_BYTES
  }

  /** The whole message. */
  predicate Decodes(input: seq<Byte>, e: Envelope) {
    && 0 < |input| <= MAX_CMS_BYTES
    && WrapsOne(ItemsIn(input)) && ContentInfo(ItemsIn(ItemsIn(input)[0].content), e)
    && Sized(e)
  }

  // ---- In place ----

  method ExpectOid(reader: Reader, oid: seq<Byte>) returns (ok: bool)
    requires reader.Valid()
    modifies reader`offset
    ensures reader.Valid() && |reader.Rest()| <= |old(reader.Rest())|
    ensures ok ==> (Items(old(reader.Rest())).Ok? <==> Items(reader.Rest()).Ok?)
    ensures ok && Items(reader.Rest()).Ok? ==>
              Items(old(reader.Rest())).value == [Item(0x06, oid)] + Items(reader.Rest()).value
    ensures !ok && Items(old(reader.Rest())).Ok? ==>
              Items(old(reader.Rest())).value == [] || Items(old(reader.Rest())).value[0] != Item(0x06, oid)
  {
    hide Items, ParseAt;
    var content := reader.Expect(0x06);
    ok := content.Ok? && content.value == oid;
  }

  method IsSha256(input: seq<Byte>) returns (ok: bool)
    ensures ok <==> Sha256(ItemsIn(input))
  {
    hide Items, ParseAt;
    EmptyItems();
    var algorithm := new Reader(input);
    assert algorithm.Rest() == input;
    ok := ExpectOid(algorithm, OID_SHA256);
    if !ok {
      return;
    }
    var parameters := algorithm.Expect(0x05);
    if parameters.Err? {
      return false;
    }
    NonEmptyItems(algorithm.Rest());
    var empty := algorithm.IsEmpty();
    ok := parameters.value == [] && empty;
  }

  lemma EmptyItems()
    ensures Items([]) == Ok([])
  {
  }

  lemma NonEmptyItems(s: seq<Byte>)
    ensures s != [] && Items(s).Ok? ==> |Items(s).value| > 0
    ensures s == [] ==> Items(s) == Ok([])
  {
  }

  /** Reads a content that is one sequence. */
  method Unwrap(input: seq<Byte>) returns (r: Result<seq<Byte>>)
    ensures r.Ok? <==> WrapsOne(ItemsIn(input))
    ensures r.Ok? ==> r.value == ItemsIn(input)[0].content && |r.value| <= |input|
  {
    hide Items, ParseAt;
    var reader := new Reader(input);
    assert reader.Rest() == input;
    r := reader.Expect(0x30);
    if r.Err? {
      return;
    }
    NonEmptyItems(reader.Rest());
    ItemsShorter(input);
    var empty := reader.IsEmpty();
    if !empty {
      r := Err("CMS_TRAILING");
    }
  }

  lemma {:induction false} ItemsShorter(s: seq<Byte>)
    ensures Items(s).Ok? ==> forall k :: 0 <= k < |Items(s).value| ==> |Items(s).value[k].content| <= |s|
    decreases |s|
  {
    if s != [] && ParseAt(s, 0).Ok? {
      ItemsShorter(s[ParseAt(s, 0).value.size..]);
    }
  }

  /** Reads a content that is an object identifier and one value with the given tag. */
  method OidAnd(input: seq<Byte>, oid: seq<Byte>, tag: Byte) returns (r: Result<seq<Byte>>)
    ensures r.Ok? <==> |ItemsIn(input)| == 2 && ItemsIn(input)[0] == Item(0x06, oid) && ItemsIn(input)[1].tag == tag
    ensures r.Ok? ==> r.value == ItemsIn(input)[1].content && |r.value| <= |input|
  {
    hide Items, ParseAt;
    var reader := new Reader(input);
    assert reader.Rest() == input;
    var ok := ExpectOid(reader, oid);
    if !ok {
      return Err("CMS_OID");
    }
    r := reader.Expect(tag);
    if r.Err? {
      return;
    }
    NonEmptyItems(reader.Rest());
    ItemsShorter(input);
    var empty := reader.IsEmpty();
    if !empty {
      r := Err("CMS_TRAILING");
    }
  }

  method IsHashContext(input: seq<Byte>) returns (ok: bool)
    ensures ok <==> HashContext(ItemsIn(input))
  {
    hide Items, Sha256;
    var algorithm := Unwrap(input);
    ok := false;
    if algorithm.Ok? {
      ok := IsSha256(algorithm.value);
    }
  }

  method IsMgfContext(input: seq<Byte>) returns (ok: bool)
    ensures ok <==> MgfContext(ItemsIn(input))
  {
    hide Items, Sha256;
    var algorithm := Unwrap(input);
    if algorithm.Err? {
      return false;
    }
    var hash := OidAnd(algorithm.value, OID_MGF1, 0x30);
    if hash.Err? {
      return false;
    }
    ok := IsSha256(hash.value);
  }

  method IsSourceContext(input: seq<Byte>) returns (ok: bool)
    ensures ok <==> SourceContext(ItemsIn(input))
  {
    hide Items;
    var algorithm := Unwrap(input);
    if algorithm.Err? {
      return false;
    }
    var optional := OidAnd(algorithm.value, OID_PSPECIFIED, 0x04);
    ok := optional.Ok? && optional.value == [];
  }

  /** The OAEP parameters: the optional third context is read when its tag is next. */
  method IsOaepParameters(input: seq<Byte>) returns (ok: bool)
    ensures ok <==> OaepParameters(ItemsIn(input))
  {
    hide Items, ParseAt, HashContext, MgfContext, SourceContext;
    var reader := new Reader(input);
    assert reader.Rest() == input;
    var hash := reader.Expect(0xa0);
    if hash.Err? {
      return false;
    }
    ok := IsHashContext(hash.value);
    if !ok {
      return;
    }
    var mgf := reader.Expect(0xa1);
    if mgf.Err? {
      return false;
    }
    ok := IsMgfContext(mgf.value);
    if !ok {
      return;
    }
    FirstTag(reader.Rest());
    NonEmptyItems(reader.Rest());
    var tag := reader.PeekTag();
    if tag == Ok(0xa2) {
      var source := reader.Expect(0xa2);
      if source.Err? {
        return false;
      }
      ok := IsSourceContext(source.value);
      if !ok {
        return;
      }
      NonEmptyItems(reader.Rest());
    }
    ok := reader.IsEmpty();
  }

  lemma FirstTag(s: seq<Byte>)
    ensures s != [] && Items(s).Ok? ==> Items(s).value != [] && Items(s).value[0].tag == s[0]
  {
  }

  method IsKeyAlgorithm(input: seq<Byte>) returns (ok: bool)
    ensures ok <==> KeyAlgorithm(ItemsIn(input))
  {
    hide Items, OaepParameters;
    var parameters := OidAnd(input, OID_OAEP, 0x30);
    ok := false;
    if parameters.Ok? {
      ok := IsOaepParameters(parameters.value);
    }
  }

  // ---- Chunked content ----

  lemma {:induction false} OctetsFit(s: seq<Byte>, depth: nat)
    ensures Octets(s, depth).Ok? ==> |Octets(s, depth).value| <= |s|
    decreases MAX_ASN1_DEPTH - depth, 1, 0
  {
    if depth < MAX_ASN1_DEPTH && Items(s).Ok? {
      JoinFits(s, depth);
    }
  }

  lemma {:induction false} JoinFits(s: seq<Byte>, depth: nat)
    requires depth < MAX_ASN1_DEPTH && Items(s).Ok?
    ensures JoinOctets(Items(s).value, depth).Ok? ==> |JoinOctets(Items(s).value, depth).value| <= |s|
    decreases MAX_ASN1_DEPTH - depth, 0, |s|
  {
    if s != [] {
      var p := ParseAt(s, 0).value;
      var rest := s[p.size..];
      JoinFits(rest, depth);
      assert Items(s).value[1..] == Items(rest).value;
      if p.item.tag == 0x24 || p.item.tag == 0xa0 {
        OctetsFit(p.item.content, depth + 1);
      }
    }
  }

  lemma JoinStep(items: seq<Item>, depth: nat)
    requires items != [] && depth < MAX_ASN1_DEPTH
    ensures JoinOctets(items, depth).Ok? <==> OctetsOf(items[0], depth).Ok? && JoinOctets(items[1..], depth).Ok?
    ensures JoinOctets(items, depth).Ok? ==>
              JoinOctets(items, depth).value == OctetsOf(items[0], depth).value + JoinOctets(items[1..], depth).value
  {
  }

  /** The values still to be joined, if they can be read. */
  function Remaining(s: seq<Byte>, depth: nat): Result<seq<Byte>>
    requires depth < MAX_ASN1_DEPTH
  {
    if Items(s).Err? then Err("") else JoinOctets(Items(s).value, depth)
  }

  lemma RemainingStep(s: seq<Byte>, depth: nat)
    requires depth < MAX_ASN1_DEPTH
    ensures s == [] ==> Remaining(s, depth) == Ok([])
    ensures s != [] && ParseAt(s, 0).Err? ==> Remaining(s, depth).Err?
    ensures s != [] && ParseAt(s, 0).Ok? ==>
              var p := ParseAt(s, 0).value;
              var rest := Remaining(s[p.size..], depth);
              && (Remaining(s, depth).Ok? <==> OctetsOf(p.item, depth).Ok? && rest.Ok?)
              && (Remaining(s, depth).Ok? ==> Remaining(s, depth).value == OctetsOf(p.item, depth).value + rest.value)
  {
    if s != [] && ParseAt(s, 0).Ok? && Items(s).Ok? {
      JoinStep(Items(s).value, depth);
      assert Items(s).value[1..] == Items(s[ParseAt(s, 0).value.size..]).value;
    }
  }

  lemma RemainingFits(s: seq<Byte>, depth: nat)
    requires depth < MAX_ASN1_DEPTH
    ensures Remaining(s, depth).Ok? ==> |Remaining(s, depth).value| <= |s|
    ensures Octets(s, depth).Ok? <==> Remaining(s, depth).Ok?
    ensures Octets(s, depth).Ok? ==> Octets(s, depth).value == Remaining(s, depth).value
  {
    if Items(s).Ok? {
      JoinFits(s, depth);
    }
  }

  lemma OctetsOfIs(item: Item, depth: nat)
    requires depth < MAX_ASN1_DEPTH
    ensures item.tag in {0x04, 0x80} ==> OctetsOf(item, depth) == Ok(item.content)
    ensures item.tag in {0x24, 0xa0} ==> OctetsOf(item, depth) == Octets(item.content, depth + 1)
    ensures item.tag !in {0x04, 0x80, 0x24, 0xa0} ==> OctetsOf(item, depth).Err?
    ensures OctetsOf(item, depth).Ok? ==> |OctetsOf(item, depth).value| <= |item.content|
  {
    if item.tag in {0x24, 0xa0} {
      OctetsFit(item.content, depth + 1);
    }
  }

  lemma TooDeep(s: seq<Byte>, depth: nat)
    ensures depth >= MAX_ASN1_DEPTH ==> Octets(s, depth).Err?
  {
  }

  /** One value of the loop below. */
  method AppendOctets(item: Item, output: seq<Byte>, depth: nat) returns (r: Result<seq<Byte>>)
    requires depth < MAX_ASN1_DEPTH && |output| + |item.content| <= MAX_CMS_BYTES
    ensures r.Ok? <==> OctetsOf(item, depth).Ok?
    ensures r.Ok? ==> r.value == output + OctetsOf(item, depth).value && |r.value| <= |output| + |item.content|
    decreases MAX_ASN1_DEPTH - depth, 0
  {
    hide Octets, OctetsOf;
    OctetsOfIs(item, depth);
    if item.tag == 0x04 || item.tag == 0x80 {
      r := Ok(output + item.content);
    } else if item.tag == 0x24 || item.tag == 0xa0 {
      r := CollectOctetStrings(item.content, output, depth + 1);
    } else {
      r := Err("CMS_ENCRYPTED_CONTENT_TAG");
    }
  }

  /** `collect_octet_strings`: appends to `output`; the size limit is that of the whole message, so
      it never refuses content that came from one. */
  method CollectOctetStrings(input: seq<Byte>, output: seq<Byte>, depth: nat) returns (r: Result<seq<Byte>>)
    requires |output| + |input| <= MAX_CMS_BYTES
    ensures r.Ok? <==> Octets(input, depth).Ok?
    ensures r.Ok? ==> r.value == output + Octets(input, depth).value
    decreases MAX_ASN1_DEPTH - depth, 1
  {
    hide Items, ParseAt, Octets, OctetsOf, Remaining;
    TooDeep(input, depth);
    if depth >= MAX_ASN1_DEPTH {
      return Err("CMS_ASN1_DEPTH_OR_EOF");
    }
    RemainingFits(input, depth);
    var collected := output;
    var reader := new Reader(input);
    assert reader.Rest() == input;
    var empty := reader.IsEmpty();
    while !empty
      invariant reader.Valid() && fresh(reader) && (empty <==> reader.Rest() == [])
      invariant |collected| + |reader.Rest()| <= MAX_CMS_BYTES
      invariant Remaining(input, depth).Ok? <==> Remaining(reader.Rest(), depth).Ok?
      invariant Remaining(input, depth).Ok? ==>
                  output + Remaining(input, depth).value == collected + Remaining(reader.Rest(), depth).value
      decreases |reader.Rest()|
    {
      RemainingStep(reader.Rest(), depth);
      var item := reader.Read();
      if item.Err? {
        return Err(item.error);
      }
      var appended := AppendOctets(item.value, collected, depth);
      if appended.Err? {
        return appended;
      }
      collected := appended.value;
      if |collected| > MAX_CMS_BYTES {
        return Err("CMS_ENCRYPTED_CONTENT_TOO_LARGE");
      }
      empty := reader.IsEmpty();
    }
    RemainingStep([], depth);
    r := Ok(collected);
  }

  /** What is left of the encrypted content. */
  function Chunks(s: seq<Byte>): Result<seq<Byte>> {
    if Items(s).Err? then Err("") else Ciphertext(Items(s).value)
  }

  function ChunkOf(item: Item): Result<seq<Byte>> {
    if item.tag == 0x80 then Ok(item.content)
    else if item.tag == 0xa0 then Octets(item.content, 0)
    else Err("CMS_ENCRYPTED_CONTENT_TAG")
  }

  lemma CiphertextStep(items: seq<Item>)
    requires items != []
    ensures Ciphertext(items).Ok? <==> ChunkOf(items[0]).Ok? && Ciphertext(items[1..]).Ok?
    ensures Ciphertext(items).Ok? ==> Ciphertext(items).value == ChunkOf(items[0]).value + Ciphertext(items[1..]).value
  {
  }

  lemma ChunksStep(s: seq<Byte>)
    ensures s == [] ==> Chunks(s) == Ok([])
    ensures s != [] && ParseAt(s, 0).Err? ==> Chunks(s).Err?
    ensures s != [] && ParseAt(s, 0).Ok? ==>
              var p := ParseAt(s, 0).value;
              var rest := Chunks(s[p.size..]);
              && (Chunks(s).Ok? <==> ChunkOf(p.item).Ok? && rest.Ok?)
              && (Chunks(s).Ok? ==> Chunks(s).value == ChunkOf(p.item).value + rest.value)
  {
    if s != [] && ParseAt(s, 0).Ok? && Items(s).Ok? {
      CiphertextStep(Items(s).value);
      assert Items(s).value[1..] == Items(s[ParseAt(s, 0).value.size..]).value;
    }
  }

  lemma ChunkFits(item: Item)
    ensures ChunkOf(item).Ok? ==> |ChunkOf(item).value| <= |item.content|
  {
    if item.tag == 0xa0 {
      OctetsFit(item.content, 0);
    }
  }

  /** The loop over the chunks that follow the content algorithm. */
  method ReadChunks(reader: Reader) returns (r: Result<seq<Byte>>)
    requires reader.Valid() && |reader.Rest()| <= MAX_CMS_BYTES
    modifies reader`offset
    ensures r.Ok? <==> Chunks(old(reader.Rest())).Ok?
    ensures r.Ok? ==> r.value == Chunks(old(reader.Rest())).value
  {
    hide Items, ParseAt, Octets, Chunks;
    ghost var input := reader.Rest();
    var ciphertext: seq<Byte> := [];
    var empty := reader.IsEmpty();
    while !empty
      invariant reader.Valid() && (empty <==> reader.Rest() == [])
      invariant |ciphertext| + |reader.Rest()| <= MAX_CMS_BYTES
      invariant Chunks(input).Ok? <==> Chunks(reader.Rest()).Ok?
      invariant Chunks(input).Ok? ==> Chunks(input).value == ciphertext + Chunks(reader.Rest()).value
      decreases |reader.Rest()|
    {
      ChunksStep(reader.Rest());
      var item := reader.Read();
      if item.Err? {
        return Err(item.error);
      }
      ChunkFits(item.value);
      ghost var before := ciphertext;
      if item.value.tag == 0x80 {
        ciphertext := ciphertext + item.value.content;
      } else if item.value.tag == 0xa0 {
        var nested := CollectOctetStrings(item.value.content, ciphertext, 0);
        if nested.Err? {
          return nested;
        }
        ciphertext := nested.value;
      } else {
        return Err("CMS_ENCRYPTED_CONTENT_TAG");
      }
      assert ciphertext == before + ChunkOf(item.value).value;
      empty := reader.IsEmpty();
    }
    ChunksStep([]);
    r := Ok(ciphertext);
  }
}
