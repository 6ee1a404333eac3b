/** The envelope parser, value by value, against what it must accept, and the round trip. */
module EnvelopeParser {
  import opened Asn1
  import opened RecipientCms

  method ExpectVersion(reader: Reader, version: Byte) returns (ok: bool)
    requires reader.Valid()
    modifies reader`offset
    ensures reader.Valid() && |reader.Rest()| <= |old(reader.Rest())|
    ensures ok ==> (Items(old(reader.Rest())).Ok? <==> Items(reader.Rest()).Ok?)
    ensures ok && Items(reader.Rest()).Ok? ==>
              Items(old(reader.Rest())).value == [Item(0x02, [version])] + Items(reader.Rest()).value
    ensures !ok && Items(old(reader.Rest())).Ok? ==>
              Items(old(reader.Rest())).value == [] || Items(old(reader.Rest())).value[0] != Item(0x02, [version])
  {
    hide Items, ParseAt;
    var content := reader.Expect(0x02);
    ok := content.Ok? && content.value == [version];
  }

  /** One recipient: its encrypted key. */
  method ReadRecipient(input: seq<Byte>) returns (r: Result<seq<Byte>>)
    ensures r.Ok? ==> Recipient(ItemsIn(input), r.value)
    ensures r.Err? ==> forall key: seq<Byte> :: !Recipient(ItemsIn(input), key)
  {
    hide Items, ParseAt, KeyAlgorithm;
    var reader := new Reader(input);
    assert reader.Rest() == input;
    var ok := ExpectVersion(reader, 2);
    if !ok {
      return Err("CMS_VERSION");
    }
    NonEmptyItems(reader.Rest());
    var identifier := reader.Read();
    if identifier.Err? {
      return Err(identifier.error);
    }
    var algorithm := reader.Expect(0x30);
    if algorithm.Err? {
      return algorithm;
    }
    ok := IsKeyAlgorithm(algorithm.value);
    if !ok {
      return Err("CMS_OAEP");
    }
    var key := reader.Expect(0x04);
    if key.Err? {
      return key;
    }
    NonEmptyItems(reader.Rest());
    var empty := reader.IsEmpty();
    if |key.value| != 256 || !empty {
      return Err("CMS_ENCRYPTED_KEY_LENGTH");
    }
    r := key;
  }

  /** The content algorithm's initialisation vector. */
  method ReadIv(input: seq<Byte>) returns (r: Result<seq<Byte>>)
    ensures r.Ok? ==> ContentAlgorithm(ItemsIn(input), r.value)
    ensures r.Err? ==> forall iv: seq<Byte> :: !ContentAlgorithm(ItemsIn(input), iv)
  {
    hide Items;
    r := OidAnd(input, OID_AES_256_CBC, 0x04);
    if r.Ok? && |r.value| != 16 {
      r := Err("CMS_IV_LENGTH");
    }
  }

  datatype Encrypted = Encrypted(iv: seq<Byte>, ciphertext: seq<Byte>)

  lemma ChunksAre(s: seq<Byte>, items: seq<Item>, first: Item, second: Item)
    requires Items(s).Ok? && items == [first] + ([second] + Items(s).value)
    ensures |items| >= 2 && items[0] == first && items[1] == second && Chunks(s) == Ciphertext(items[2..])
  {
    assert items[2..] == Items(s).value;
  }

  method ReadEncryptedContent(input: seq<Byte>) returns (r: Result<Encrypted>)
    requires |input| <= MAX_CMS_BYTES
    ensures r.Ok? ==> EncryptedContent(ItemsIn(input), r.value.iv, r.value.ciphertext)
    ensures r.Err? ==> forall iv: seq<Byte>, c: seq<Byte> :: !EncryptedContent(ItemsIn(input), iv, c)
  {
    hide Items, ParseAt, ContentAlgorithm, Ciphertext, Chunks;
    var reader := new Reader(input);
    assert reader.Rest() == input;
    var ok := ExpectOid(reader, OID_DATA);
    if !ok {
      return Err("CMS_OID");
    }
    var algorithm := reader.Expect(0x30);
    if algorithm.Err? {
      return Err(algorithm.error);
    }
    ghost var rest := reader.Rest();
    if Items(rest).Ok? {
      ChunksAre(rest, ItemsIn(input), Item(0x06, OID_DATA), Item(0x30, algorithm.value));
    }
    NoItemsNoChunks(rest);
    var iv := ReadIv(algorithm.value);
    if iv.Err? {
      return Err(iv.error);
    }
    var ciphertext := ReadChunks(reader);
    if ciphertext.Err? {
      return Err(ciphertext.error);
    }
    r := Ok(Encrypted(iv.value, ciphertext.value));
  }

  lemma NoItemsNoChunks(s: seq<Byte>)
    ensures Items(s).Err? ==> Chunks(s).Err?
  {
  }

  method ReadRecipientSet(input: seq<Byte>) returns (r: Result<seq<Byte>>)
    ensures r.Ok? ==> WrapsOne(ItemsIn(input)) && Recipient(ItemsIn(ItemsIn(input)[0].content), r.value)
    ensures r.Err? && WrapsOne(ItemsIn(input)) ==>
              forall key: seq<Byte> :: !Recipient(ItemsIn(ItemsIn(input)[0].content), key)
  {
    hide Items, Recipient;
    var recipient := Unwrap(input);
    if recipient.Err? {
      return recipient;
    }
    r := ReadRecipient(recipient.value);
  }

  method ReadEnvelopedData(input: seq<Byte>) returns (r: Result<Envelope>)
    requires |input| <= MAX_CMS_BYTES
    ensures r.Ok? ==> EnvelopedData(ItemsIn(input), r.value)
    ensures r.Err? ==> forall e: Envelope :: !EnvelopedData(ItemsIn(input), e)
  {
    hide Items, ParseAt, Recipient, EncryptedContent, WrapsOne;
    var reader := new Reader(input);
    assert reader.Rest() == input;
    var ok := ExpectVersion(reader, 2);
    if !ok {
      return Err("CMS_VERSION");
    }
    FirstTag(reader.Rest());
    NonEmptyItems(reader.Rest());
    var tag := reader.PeekTag();
    if tag == Ok(0xa0) {
      var originator := reader.Read();
      if originator.Err? {
        return Err(originator.error);
      }
    }
    var recipients := reader.Expect(0x31);
    if recipients.Err? {
      return Err(recipients.error);
    }
    var key := ReadRecipientSet(recipients.value);
    if key.Err? {
      return Err(key.error);
    }
    var info := reader.Expect(0x30);
    if info.Err? {
      return Err(info.error);
    }
    NonEmptyItems(reader.Rest());
    var empty := reader.IsEmpty();
    if !empty {
      return Err("CMS_ENVELOPED_TRAILING");
    }
    var content := ReadEncryptedContent(info.value);
    if content.Err? {
      return Err(content.error);
    }
    r := Ok(Envelope(key.value, content.value.iv, content.value.ciphertext));
  }

  method ReadContentInfo(input: seq<Byte>) returns (r: Result<Envelope>)
    requires |input| <= MAX_CMS_BYTES
    ensures r.Ok? ==> ContentInfo(ItemsIn(input), r.value)
    ensures r.Err? ==> forall e: Envelope :: !ContentInfo(ItemsIn(input), e)
  {
    hide Items, EnvelopedData;
    var context := OidAnd(input, OID_ENVELOPED, 0xa0);
    if context.Err? {
      return Err(context.error);
    }
    var enveloped := Unwrap(context.value);
    if enveloped.Err? {
      return Err(enveloped.error);
    }
    r := ReadEnvelopedData(enveloped.value);
  }

  /** `parse_kms_recipient_cms`: an envelope is returned exactly for the messages that hold one. */
  method ParseRecipientCms(input: seq<Byte>) returns (r: Result<Envelope>)
    ensures r.Ok? ==> Decodes(input, r.value)
    ensures forall e: Envelope :: Decodes(input, e) ==> r == Ok(e)
  {
    hide Items, ContentInfo;
    if input == [] || |input| > MAX_CMS_BYTES {
      return Err("CMS_SIZE");
    }
    var outer := Unwrap(input);
    if outer.Err? {
      return Err(outer.error);
    }
    r := ReadContentInfo(outer.value);
    if r.Ok? {
      ContentInfoIsUnique(ItemsIn(outer.value));
      var ciphertext := r.value.ciphertext;
      if ciphertext == [] || |ciphertext| % 16 != 0 || |ciphertext| > MAX_CMS_BYTES {
        r := Err("CMS_CIPHERTEXT_LENGTH");
      }
    }
  }

  lemma ContentInfoIsUnique(items: seq<Item>)
    ensures forall e: Envelope, e': Envelope :: ContentInfo(items, e) && ContentInfo(items, e') ==> e == e'
  {
    forall e: Envelope, e': Envelope | ContentInfo(items, e) && ContentInfo(items, e') ensures e == e' {
      OneEnvelope(ItemsIn(ItemsIn(items[1].content)[0].content), e, e');
    }
  }

  lemma OneEnvelope(items: seq<Item>, e: Envelope, e': Envelope)
    requires EnvelopedData(items, e) && EnvelopedData(items, e')
    ensures e == e'
  {
  }

  // ---- Encodings of an envelope ----

  function List(ts: Forest): seq<Tree> {
    match ts
    case Bare => []
    case Grove(first, rest) => [first] + List(rest)
  }

  predicate Leaf(t: Tree, tag: Byte, bytes: seq<Byte>) {
    t.Raw? && t.tag == tag && t.bytes == bytes
  }

  predicate Node(t: Tree, tag: Byte) {
    !t.Raw? && t.tag == tag
  }

  function Kids(t: Tree): seq<Tree> {
    if t.Raw? then [] else List(t.kids)
  }

  /** A node around one sequence. */
  predicate Around(t: Tree, tag: Byte) {
    Node(t, tag) && |Kids(t)| == 1 && Node(Kids(t)[0], 0x30)
  }

  function Inside(t: Tree): seq<Tree>
    requires |Kids(t)| == 1
  {
    Kids(Kids(t)[0])
  }

  predicate Sha256Tree(l: seq<Tree>) {
    |l| == 2 && Leaf(l[0], 0x06, OID_SHA256) && Leaf(l[1], 0x05, [])
  }

  predicate MgfTree(l: seq<Tree>) {
    |l| == 2 && Leaf(l[0], 0x06, OID_MGF1) && Node(l[1], 0x30) && Sha256Tree(Kids(l[1]))
  }

  predicate LabelTree(l: seq<Tree>) {
    |l| == 2 && Leaf(l[0], 0x06, OID_PSPECIFIED) && Leaf(l[1], 0x04, [])
  }

  predicate OaepTree(l: seq<Tree>) {
    && 2 <= |l| <= 3
    && Around(l[0], 0xa0) && Sha256Tree(Inside(l[0]))
    && Around(l[1], 0xa1) && MgfTree(Inside(l[1]))
    && (|l| == 3 ==> Around(l[2], 0xa2) && LabelTree(Inside(l[2])))
  }

  predicate KeyAlgorithmTree(l: seq<Tree>) {
    |l| == 2 && Leaf(l[0], 0x06, OID_OAEP) && Node(l[1], 0x30) && OaepTree(Kids(l[1]))
  }

  predicate RecipientTree(l: seq<Tree>, key: seq<Byte>) {
    && |l| == 4 && Leaf(l[0], 0x02, [2]) && Node(l[2], 0x30) && KeyAlgorithmTree(Kids(l[2]))
    && Leaf(l[3], 0x04, key) && |key| == 256
  }

  predicate ContentAlgorithmTree(l: seq<Tree>, iv: seq<Byte>) {
    |l| == 2 && Leaf(l[0], 0x06, OID_AES_256_CBC) && Leaf(l[1], 0x04, iv) && |iv| == 16
  }

  /** Octet strings split in any way, nested within the depth limit. */
  predicate ChunkTrees(ts: Forest, depth: nat) {
    depth < MAX_ASN1_DEPTH
    && match ts
       case Bare => true
       case Grove(first, rest) =>
         && (if first.Raw? then first.tag in {0x04, 0x80}
           else first.tag in {0x24, 0xa0} && ChunkTrees(first.kids, depth + 1))
         && ChunkTrees(rest, depth)
  }

  function ChunkBytes(ts: Forest): seq<Byte> {
    match ts
    case Bare => []
    case Grove(first, rest) => (if first.Raw? then first.bytes else ChunkBytes(first.kids)) + ChunkBytes(rest)
  }

  /** The encrypted content proper: implicitly tagged, primitive or constructed. */
  predicate CiphertextTrees(l: seq<Tree>, ciphertext: seq<Byte>) {
    if l == [] then ciphertext == []
    else if l[0].Raw? then
      l[0].tag == 0x80 && l[0].bytes <= ciphertext && CiphertextTrees(l[1..], ciphertext[|l[0].bytes|..])
    else
      var bytes := ChunkBytes(l[0].kids);
      && l[0].tag == 0xa0 && ChunkTrees(l[0].kids, 0)
      && bytes <= ciphertext && CiphertextTrees(l[1..], ciphertext[|bytes|..])
  }

  predicate EncryptedContentTree(l: seq<Tree>, iv: seq<Byte>, ciphertext: seq<Byte>) {
    && |l| >= 2 && Leaf(l[0], 0x06, OID_DATA) && Node(l[1], 0x30) && ContentAlgorithmTree(Kids(l[1]), iv)
    && CiphertextTrees(l[2..], ciphertext)
  }

  predicate EnvelopedDataTree(l: seq<Tree>, e: Envelope) {
    && |l| >= 3 && Leaf(l[0], 0x02, [2])
    && var at := if l[1].tag == 0xa0 then 2 else 1;
       && |l| == at + 2
       && Around(l[at], 0x31) && RecipientTree(Inside(l[at]), e.encryptedKey)
       && Node(l[at + 1], 0x30) && EncryptedContentTree(Kids(l[at + 1]), e.iv, e.ciphertext)
  }

  /** Every form the envelope may be sent in: any mix of short, long and indefinite lengths, with or
      without originator information and the optional label, any recipient identifier, any chunks. */
  predicate EnvelopeTree(t: Tree, e: Envelope) {
    && Node(t, 0x30) && |Kids(t)| == 2 && Leaf(Kids(t)[0], 0x06, OID_ENVELOPED)
    && Around(Kids(t)[1], 0xa0) && EnvelopedDataTree(Inside(Kids(t)[1]), e)
  }

  // ---- The round trip ----

  lemma {:induction false} ListIsItems(ts: Forest)
    ensures |ItemsOf(ts)| == |List(ts)|
    ensures forall k :: 0 <= k < |List(ts)| ==> ItemsOf(ts)[k] == Item(List(ts)[k].tag, ContentOf(List(ts)[k]))
    ensures ValidAll(ts) ==> forall k :: 0 <= k < |List(ts)| ==> Valid(List(ts)[k])
  {
    match ts
    case Bare =>
    case Grove(first, rest) => ListIsItems(rest);
  }

  /** The values read from a valid node's content are its children. */
  lemma KidsAreItems(t: Tree)
    requires Valid(t) && !t.Raw?
    ensures |ItemsIn(ContentOf(t))| == |Kids(t)|
    ensures forall k :: 0 <= k < |Kids(t)| ==>
              Valid(Kids(t)[k]) && ItemsIn(ContentOf(t))[k] == Item(Kids(t)[k].tag, ContentOf(Kids(t)[k]))
  {
    hide Valid;
    ValidKids(t);
    ItemsReadBack(t.kids);
    ListIsItems(t.kids);
  }

  lemma ValidKids(t: Tree)
    requires Valid(t) && !t.Raw?
    ensures ValidAll(t.kids)
  {
  }

  lemma AroundIs(t: Tree, tag: Byte)
    requires Valid(t) && Around(t, tag)
    ensures var items := ItemsIn(ContentOf(t));
            && WrapsOne(items) && items[0].content == ContentOf(Kids(t)[0])
            && |ItemsIn(items[0].content)| == |Inside(t)|
            && forall k :: 0 <= k < |Inside(t)| ==>
                 Valid(Inside(t)[k]) && ItemsIn(items[0].content)[k] == Item(Inside(t)[k].tag, ContentOf(Inside(t)[k]))
  {
    hide Valid, Items;
    KidsAreItems(t);
    KidsAreItems(Kids(t)[0]);
  }

  lemma OaepReadsBack(t: Tree)
    requires Valid(t) && Node(t, 0x30) && OaepTree(Kids(t))
    ensures OaepParameters(ItemsIn(ContentOf(t)))
  {
    hide Valid, ItemsIn;
    KidsAreItems(t);
    var l := Kids(t);
    AroundIs(l[0], 0xa0);
    AroundIs(l[1], 0xa1);
    KidsAreItems(Inside(l[1])[1]);
    if |l| == 3 {
      AroundIs(l[2], 0xa2);
    }
  }

  lemma KeyAlgorithmReadsBack(t: Tree)
    requires Valid(t) && Node(t, 0x30) && KeyAlgorithmTree(Kids(t))
    ensures KeyAlgorithm(ItemsIn(ContentOf(t)))
  {
    hide Valid, ItemsIn, OaepTree, OaepParameters;
    KidsAreItems(t);
    OaepReadsBack(Kids(t)[1]);
  }

  lemma {:induction false} ChunksReadBack(ts: Forest, depth: nat)
    requires ValidAll(ts) && ChunkTrees(ts, depth)
    ensures JoinOctets(ItemsOf(ts), depth) == Ok(ChunkBytes(ts))
    ensures Octets(EncodeAll(ts), depth) == Ok(ChunkBytes(ts))
    decreases ts
  {
    ItemsReadBack(ts);
    match ts
    case Bare =>
    case Grove(first, rest) =>
      ChunksReadBack(rest, depth);
      if !first.Raw? {
        ChunksReadBack(first.kids, depth + 1);
      }
      assert ItemsOf(ts)[1..] == ItemsOf(rest);
  }

  lemma {:induction false} CiphertextReadsBack(l: seq<Tree>, items: seq<Item>, ciphertext: seq<Byte>)
    requires CiphertextTrees(l, ciphertext) && |items| == |l|
    requires forall k :: 0 <= k < |l| ==> Valid(l[k]) && items[k] == Item(l[k].tag, ContentOf(l[k]))
    ensures Ciphertext(items) == Ok(ciphertext)
  {
    hide Valid;
    if l != [] {
      var bytes := if l[0].Raw? then l[0].bytes else ChunkBytes(l[0].kids);
      CiphertextReadsBack(l[1..], items[1..], ciphertext[|bytes|..]);
      assert ciphertext == bytes + ciphertext[|bytes|..];
      if !l[0].Raw? {
        ValidKids(l[0]);
        ChunksReadBack(l[0].kids, 0);
      }
    }
  }

  lemma EncryptedReadsBack(t: Tree, iv: seq<Byte>, ciphertext: seq<Byte>)
    requires Valid(t) && Node(t, 0x30) && EncryptedContentTree(Kids(t), iv, ciphertext)
    ensures EncryptedContent(ItemsIn(ContentOf(t)), iv, ciphertext)
  {
    hide Valid, ItemsIn, CiphertextTrees, Ciphertext;
    KidsAreItems(t);
    KidsAreItems(Kids(t)[1]);
    CiphertextReadsBack(Kids(t)[2..], ItemsIn(ContentOf(t))[2..], ciphertext);
  }

  lemma RecipientReadsBack(t: Tree, key: seq<Byte>)
    requires Valid(t) && Around(t, 0x31) && RecipientTree(Inside(t), key)
    ensures WrapsOne(ItemsIn(ContentOf(t))) && Recipient(ItemsIn(ItemsIn(ContentOf(t))[0].content), key)
  {
    hide Valid, ItemsIn, KeyAlgorithmTree, KeyAlgorithm;
    AroundIs(t, 0x31);
    KeyAlgorithmReadsBack(Inside(t)[2]);
  }

  lemma EnvelopedReadsBack(l: seq<Tree>, items: seq<Item>, e: Envelope)
    requires EnvelopedDataTree(l, e) && |items| == |l|
    requires forall k :: 0 <= k < |l| ==> Valid(l[k]) && items[k] == Item(l[k].tag, ContentOf(l[k]))
    ensures EnvelopedData(items, e)
  {
    hide Valid, ItemsIn, RecipientTree, Recipient, EncryptedContentTree, EncryptedContent;
    var at := if l[1].tag == 0xa0 then 2 else 1;
    RecipientReadsBack(l[at], e.encryptedKey);
    EncryptedReadsBack(l[at + 1], e.iv, e.ciphertext);
  }

  /** Every valid encoding of an envelope, within the size limit, is a message that holds it, so
      the parser returns it. */
  lemma EncodingsDecode(t: Tree, e: Envelope)
    requires Valid(t) && EnvelopeTree(t, e) && Sized(e) && |Encode(t)| <= MAX_CMS_BYTES
    ensures Decodes(Encode(t), e)
  {
    hide Valid, Items, EnvelopedDataTree, EnvelopedData;
    RootReadsBack(t);
    KidsAreItems(t);
    AroundIs(Kids(t)[1], 0xa0);
    EnvelopedReadsBack(Inside(Kids(t)[1]), ItemsIn(ItemsIn(ContentOf(Kids(t)[1]))[0].content), e);
  }

  lemma RootReadsBack(t: Tree)
    requires Valid(t)
    ensures Encode(t) != [] && ItemsIn(Encode(t)) == [Item(t.tag, ContentOf(t))]
  {
    hide Valid, Encode;
    FirstByte(t);
    SingleIsValid(t);
    ItemsReadBack(Grove(t, Bare));
    assert EncodeAll(Grove(t, Bare)) == Encode(t);
  }

  lemma SingleIsValid(t: Tree)
    requires Valid(t)
    ensures ValidAll(Grove(t, Bare))
  {
  }
}
