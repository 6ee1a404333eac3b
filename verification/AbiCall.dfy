/** The settlement call's calldata: the matcher against an independent decoder and against the
    canonical encoding. */
module AbiCall {
  import opened Wrappers
  import opened Asn1

  const USIZE_LIMIT: nat := 0x1_0000_0000_0000_0000
  const SIGNATURE_BYTES: nat := 65

  /** What a candidate settlement calls with. */
  datatype Call = Call(root: seq<Byte>, payouts: seq<nat>, signature: seq<Byte>)

  function Power(k: nat): (p: nat)
    ensures p > 0
  {
    if k == 0 then 1 else 256 * Power(k - 1)
  }

  /** The `k`-byte big-endian form. */
  function ToBytes(n: nat, k: nat): (s: seq<Byte>)
    ensures |s| == k
  {
    if k == 0 then [] else ToBytes(n / 256, k - 1) + [n % 256]
  }

  function Word(n: nat): (s: seq<Byte>)
    ensures |s| == 32
  {
    ToBytes(n, 32)
  }

  lemma {:induction false} BytesReadBack(n: nat, k: nat)
    requires n < Power(k)
    ensures BigEndian(ToBytes(n, k)) == n
  {
    if k > 0 {
      assert n / 256 < Power(k - 1);
      BytesReadBack(n / 256, k - 1);
      assert ToBytes(n, k)[..k - 1] == ToBytes(n / 256, k - 1);
    }
  }

  /** Bytes of one length are determined by their value. */
  lemma {:induction false} ValueDetermines(s: seq<Byte>)
    ensures BigEndian(s) < Power(|s|) && ToBytes(BigEndian(s), |s|) == s
  {
    if s != [] {
      var init, last := s[..|s| - 1], s[|s| - 1];
      ValueDetermines(init);
      var n := 256 * BigEndian(init) + last;
      assert n / 256 == BigEndian(init) && n % 256 == last;
      assert s == init + [last];
    }
  }

  // ---- The matcher ----

  function Range(data: seq<Byte>, start: nat, len: nat): Option<seq<Byte>> {
    if start + len < USIZE_LIMIT && start + len <= |data| then Some(data[start..start + len]) else None
  }

  /** A word as a machine size, if it fits. */
  function Size(data: seq<Byte>, start: nat): Option<nat> {
    var word := Range(data, start, 32);
    if word.None? || BigEndian(word.value) >= USIZE_LIMIT then None else Some(BigEndian(word.value))
  }

  /** The fold over a word's bytes, which gives up at the first overflow. */
  method ReadSize(data: seq<Byte>, start: nat) returns (r: Option<nat>)
    ensures r == Size(data, start)
  {
    var word := Range(data, start, 32);
    if word.None? {
      return None;
    }
    var n: nat := 0;
    for k := 0 to 32
      invariant n == BigEndian(word.value[..k]) && n < USIZE_LIMIT
    {
      assert word.value[..k + 1][..k] == word.value[..k];
      n := 256 * n + word.value[k];
      if n >= USIZE_LIMIT {
        PrefixIsLess(word.value, k + 1);
        return None;
      }
    }
    assert word.value[..32] == word.value;
    r := Some(n);
  }

  lemma {:induction false} PrefixIsLess(s: seq<Byte>, k: nat)
    requires k <= |s|
    ensures BigEndian(s[..k]) <= BigEndian(s)
  {
    if k < |s| {
      PrefixIsLess(s[..|s| - 1], k);
      assert s[..|s| - 1][..k] == s[..k];
    } else {
      assert s[..k] == s;
    }
  }

  function WordsMatch(words: seq<Byte>, payouts: seq<nat>): bool
    requires |words| == 32 * |payouts|
  {
    forall k :: 0 <= k < |payouts| ==> words[32 * k..32 * k + 32] == Word(payouts[k])
  }

  /** `settlement_call_matches`, on decoded calldata. */
  method CallMatches(data: seq<Byte>, selector: seq<Byte>, call: Call) returns (matched: bool)
    requires |selector| == 4 && |data| < USIZE_LIMIT
    requires forall k :: 0 <= k < |call.payouts| ==> call.payouts[k] < Power(32)
    ensures matched <==> Decoded(data, selector) == Some(call)
  {
    hide BigEndian, Values, WordsMatch, Power;
    var head := Range(data, 0, 4);
    if head != Some(selector) {
      return false;
    }
    var args := data[4..];
    if Range(args, 0, 96).None? || Range(args, 0, 32).value != call.root {
      return false;
    }
    var payouts := ReadSize(args, 32);
    var signature := ReadSize(args, 64);
    if payouts.None? || signature.None? {
      return false;
    }
    var count := ReadSize(args, payouts.value);
    if count.None? || count.value != |call.payouts| {
      return false;
    }
    var length := ReadSize(args, signature.value);
    if length != Some(SIGNATURE_BYTES) {
      return false;
    }
    var words := Range(args, payouts.value + 32, 32 * count.value);
    if words.None? {
      return false;
    }
    WordsAreValues(words.value, call.payouts);
    if !WordsMatch(words.value, call.payouts) {
      return false;
    }
    matched := Range(args, signature.value + 32, SIGNATURE_BYTES) == Some(call.signature);
  }

  // ---- An independent decoder ----

  /** `n` consecutive words, as numbers. */
  function Values(words: seq<Byte>, n: nat): (s: seq<nat>)
    requires |words| == 32 * n
    ensures |s| == n
  {
    if n == 0 then [] else Values(words[..32 * (n - 1)], n - 1) + [BigEndian(words[32 * (n - 1)..])]
  }

  /** The decoded call: the argument words, then each dynamic argument at its offset, a length
      followed by its contents. Offsets need not be ordered or aligned and may overlap. */
  function Decoded(data: seq<Byte>, selector: seq<Byte>): Option<Call> {
    if |data| < 100 || data[..4] != selector then None
    else
      var args := data[4..];
      var payouts, signature := BigEndian(args[32..64]), BigEndian(args[64..96]);
      if payouts + 32 > |args| || signature + 32 + SIGNATURE_BYTES > |args| then None
      else
        var count, length := BigEndian(args[payouts..payouts + 32]), BigEndian(args[signature..signature + 32]);
        if length != SIGNATURE_BYTES || payouts + 32 + 32 * count > |args| then None
        else
          Some(Call(args[..32], Values(args[payouts + 32..payouts + 32 + 32 * count], count),
                    args[signature + 32..signature + 32 + SIGNATURE_BYTES]))
  }

  lemma {:induction false} ValueOfWord(words: seq<Byte>, n: nat, k: nat)
    requires |words| == 32 * n && k < n
    ensures Values(words, n)[k] == BigEndian(words[32 * k..32 * k + 32])
  {
    if k < n - 1 {
      ValueOfWord(words[..32 * (n - 1)], n - 1, k);
      assert words[..32 * (n - 1)][32 * k..32 * k + 32] == words[32 * k..32 * k + 32];
    } else {
      assert words[32 * (n - 1)..] == words[32 * k..32 * k + 32];
    }
  }

  /** Comparing words with encoded payouts is comparing their values. */
  lemma WordsAreValues(words: seq<Byte>, payouts: seq<nat>)
    requires |words| == 32 * |payouts| && forall k :: 0 <= k < |payouts| ==> payouts[k] < Power(32)
    ensures WordsMatch(words, payouts) <==> Values(words, |payouts|) == payouts
  {
    forall k | 0 <= k < |payouts|
      ensures words[32 * k..32 * k + 32] == Word(payouts[k]) <==> Values(words, |payouts|)[k] == payouts[k]
    {
      ValueOfWord(words, |payouts|, k);
      BytesReadBack(payouts[k], 32);
      ValueDetermines(words[32 * k..32 * k + 32]);
    }
  }

  // ---- The canonical encoding ----

  function Words(payouts: seq<nat>): (s: seq<Byte>)
    ensures |s| == 32 * |payouts|
  {
    if payouts == [] then [] else Words(payouts[..|payouts| - 1]) + Word(payouts[|payouts| - 1])
  }

  function Zeros(n: nat): (s: seq<Byte>)
    ensures |s| == n
  {
    if n == 0 then [] else Zeros(n - 1) + [0]
  }

  /** The Solidity ABI encoding: head, payouts, signature padded to whole words. */
  function Encoded(selector: seq<Byte>, call: Call): seq<Byte> {
    var n := |call.payouts|;
    selector + call.root + Word(96) + Word(128 + 32 * n)
    + Word(n) + Words(call.payouts)
    + Word(SIGNATURE_BYTES) + call.signature + Zeros(31)
  }

  lemma WordReadsBack(n: nat)
    requires n < Power(32)
    ensures BigEndian(Word(n)) == n
  {
    BytesReadBack(n, 32);
  }

  lemma {:induction false} WordsReadBack(payouts: seq<nat>)
    requires forall k :: 0 <= k < |payouts| ==> payouts[k] < Power(32)
    ensures Values(Words(payouts), |payouts|) == payouts
  {
    hide BigEndian, Power, Word;
    if payouts != [] {
      var init, last := payouts[..|payouts| - 1], payouts[|payouts| - 1];
      WordsReadBack(init);
      WordReadsBack(last);
      var words := Words(payouts);
      assert words[..32 * (|payouts| - 1)] == Words(init);
      assert words[32 * (|payouts| - 1)..] == Word(last);
    }
  }

  lemma SmallFits(n: nat)
    requires n < USIZE_LIMIT
    ensures n < Power(32)
  {
    PowerGrows(8, 32);
    assert Power(8) == USIZE_LIMIT by {
      assert Power(0) == 1 && Power(1) == 256 && Power(2) == 65536 && Power(4) == 0x1_0000_0000;
    }
  }

  lemma {:induction false} PowerGrows(j: nat, k: nat)
    requires j <= k
    ensures Power(j) <= Power(k)
  {
    if j < k {
      PowerGrows(j, k - 1);
    }
  }

  /** Every canonical encoding, whatever follows it, decodes to its call, so it is matched. */
  lemma EncodedIsDecoded(selector: seq<Byte>, call: Call, trailing: seq<Byte>)
    requires |selector| == 4 && |call.root| == 32 && |call.signature| == SIGNATURE_BYTES
    requires 1000 + 32 * |call.payouts| < USIZE_LIMIT
    requires forall k :: 0 <= k < |call.payouts| ==> call.payouts[k] < Power(32)
    ensures Decoded(Encoded(selector, call) + trailing, selector) == Some(call)
  {
    hide ToBytes, Power, BigEndian, Values, Words, Zeros, Word;
    var n := |call.payouts|;
    var data := Encoded(selector, call) + trailing;
    var args := data[4..];
    EncodedLayout(selector, call, trailing);
    WordIs(96);
    WordIs(128 + 32 * n);
    WordIs(n);
    WordIs(SIGNATURE_BYTES);
    WordsReadBack(call.payouts);
  }

  lemma WordIs(n: nat)
    requires n < USIZE_LIMIT
    ensures BigEndian(Word(n)) == n
  {
    SmallFits(n);
    BytesReadBack(n, 32);
  }

  lemma EncodedLayout(selector: seq<Byte>, call: Call, trailing: seq<Byte>)
    requires |selector| == 4 && |call.root| == 32 && |call.signature| == SIGNATURE_BYTES
    ensures var n, data := |call.payouts|, Encoded(selector, call) + trailing;
            && |data| >= 4 + 128 + 32 * n + 32 + SIGNATURE_BYTES && data[..4] == selector
            && var args := data[4..];
               && args[..32] == call.root && args[32..64] == Word(96) && args[64..96] == Word(128 + 32 * n)
               && args[96..128] == Word(n) && args[128..128 + 32 * n] == Words(call.payouts)
               && args[128 + 32 * n..160 + 32 * n] == Word(SIGNATURE_BYTES)
               && args[160 + 32 * n..160 + 32 * n + SIGNATURE_BYTES] == call.signature
  {
    hide ToBytes, Word, Words, Zeros;
    var n := |call.payouts|;
    var a := call.root + Word(96) + Word(128 + 32 * n) + Word(n);
    var b := Word(SIGNATURE_BYTES) + call.signature + Zeros(31);
    var data := Encoded(selector, call) + trailing;
    assert data[4..] == a + Words(call.payouts) + (b + trailing);
  }
}
