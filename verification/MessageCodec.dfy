// The TeleporterMessage struct and its ABI encoding, following sections "Formal
// Specification of the Encoding" and "Strict Encoding Mode" of the Solidity
// Contract ABI Specification.
module MessageCodec {
  import opened Words

  datatype Receipt = Receipt(receivedMessageID: Word, relayerRewardAddress: Address)

  datatype MessageFields = Message(
    messageID: Word,
    senderAddress: Address,
    destinationBlockchainID: Word,
    destinationAddress: Address,
    requiredGasLimit: Word,
    allowedRelayerAddresses: seq<Address>,
    receipts: seq<Receipt>,
    message: Bytes)

  // n rounded up to a whole number of 32-byte words.
  function Padded(n: nat): (p: nat)
    ensures n <= p < n + 32 && p % 32 == 0
  {
    if n == 0 then 0 else if n <= 32 then 32 else 32 + Padded(n - 32)
  }

  // The number of bytes in the encoding of m.
  function Size(m: MessageFields): nat {
    384 + 32 * |m.allowedRelayerAddresses| + 64 * |m.receipts| + Padded(|m.message|)
  }

  // Memory beyond 2^64 - 1 bytes cannot be allocated, so no contract ever holds
  // a message whose encoding is longer.
  type Message = m: MessageFields | Size(m) <= MAX_UINT64
    witness Message(0, 0, 0, 0, 0, [], [], [])

  // ---------- encoder ----------

  // Word j of the elements of an array of receipts.
  function ReceiptWord(rs: seq<Receipt>, j: nat): Word
    requires j < 2 * |rs|
  {
    if j % 2 == 0 then rs[j / 2].receivedMessageID else rs[j / 2].relayerRewardAddress
  }

  function Zeros(n: nat): (s: Bytes)
    ensures |s| == n && forall i :: 0 <= i < n ==> s[i] == 0
  {
    seq(n, i => 0)
  }

  function ReceiptsOffset(relayers: nat): nat {
    0x120 + 32 * relayers
  }

  function PayloadOffset(relayers: nat, receipts: nat): nat {
    0x140 + 32 * relayers + 64 * receipts
  }

  // Word k of the encoding: the offset of the struct, its head of eight words,
  // and its tail of two arrays and the length of the payload.
  function MessageWord(m: Message, k: nat): Word {
    var n, r := |m.allowedRelayerAddresses|, |m.receipts|;
    if k == 0 then 0x20
    else if k == 1 then m.messageID
    else if k == 2 then m.senderAddress
    else if k == 3 then m.destinationBlockchainID
    else if k == 4 then m.destinationAddress
    else if k == 5 then m.requiredGasLimit
    else if k == 6 then 0x100
    else if k == 7 then ReceiptsOffset(n)
    else if k == 8 then PayloadOffset(n, r)
    else if k == 9 then n
    else if k < 10 + n then m.allowedRelayerAddresses[k - 10]
    else if k == 10 + n then r
    else if k < 11 + n + 2 * r then ReceiptWord(m.receipts, k - (11 + n))
    else |m.message|
  }

  function WordCount(m: Message): nat {
    12 + |m.allowedRelayerAddresses| + 2 * |m.receipts|
  }

  function MessageWords(m: Message): (ws: seq<Word>)
    ensures |ws| == WordCount(m)
  {
    seq(WordCount(m), k requires 0 <= k => MessageWord(m, k))
  }

  function Encode(m: Message): (b: Bytes)
    ensures |b| == Size(m)
  {
    EncodeWords(MessageWords(m)) + (m.message + Zeros(Padded(|m.message|) - |m.message|))
  }

  // ---------- decoder ----------

  // The elements of the array at `pos`, each of `size` bytes, must lie within b.
  function DecodeLength(b: Bytes, pos: nat, pairs: bool): (r: Option<nat>)
    ensures r.Some? ==> pos + 32 + (if pairs then 64 * r.value else 32 * r.value) <= |b|
  {
    if pos + 0x1f >= |b| then None
    else
      var length := ReadWord(b, pos);
      if length > MAX_UINT64 || pos + 32 + (if pairs then 64 * length else 32 * length) > |b|
      then None else Some(length)
  }

  // Word i behind the length word of the array at `pos`.
  function ElementWord(b: Bytes, pos: nat, i: nat): Word
    requires pos + 64 + 32 * i <= |b|
  {
    ReadWord(b, pos + 32 + 32 * i)
  }

  function DecodeAddresses(b: Bytes, pos: nat): Option<seq<Address>> {
    match DecodeLength(b, pos, false)
    case None => None
    case Some(n) =>
      if forall i: nat :: i < n ==> ElementWord(b, pos, i) < ADDRESS_LIMIT
      then Some(seq(n, i requires 0 <= i < n => ElementWord(b, pos, i)))
      else None
  }

  predicate IsReceipt(b: Bytes, pos: nat, i: nat)
    requires pos + 96 + 64 * i <= |b|
  {
    ElementWord(b, pos, 2 * i + 1) < ADDRESS_LIMIT
  }

  function ReceiptAt(b: Bytes, pos: nat, i: nat): Receipt
    requires pos + 96 + 64 * i <= |b| && IsReceipt(b, pos, i)
  {
    Receipt(ElementWord(b, pos, 2 * i), ElementWord(b, pos, 2 * i + 1))
  }

  function DecodeReceipts(b: Bytes, pos: nat): Option<seq<Receipt>> {
    match DecodeLength(b, pos, true)
    case None => None
    case Some(n) =>
      if forall i: nat :: i < n ==> IsReceipt(b, pos, i)
      then Some(seq(n, i requires 0 <= i < n => ReceiptAt(b, pos, i)))
      else None
  }

  function DecodeBytes(b: Bytes, pos: nat): (r: Option<Bytes>)
    ensures r.Some? ==> |b| >= pos + 32 && |r.value| == ReadWord(b, pos)
    ensures r.Some? ==> pos + 32 + |r.value| <= |b|
    ensures r.Some? ==> r.value == b[pos + 32..pos + 32 + |r.value|]
  {
    if pos + 0x1f >= |b| then None
    else
      var length := ReadWord(b, pos);
      if length > MAX_UINT64 || pos + 32 + length > |b| then None
      else Some(b[pos + 32..pos + 32 + length])
  }

  // An offset word of the struct at `head`, refused above 2^64 - 1.
  function DecodeOffset(b: Bytes, head: nat, at: nat): Option<nat>
    requires head + at + 32 <= |b|
  {
    var offset := ReadWord(b, head + at);
    if offset > MAX_UINT64 then None else Some(head + offset)
  }

  function DecodeTail(b: Bytes, head: nat)
    : Option<(seq<Address>, seq<Receipt>, Bytes)>
    requires head + 0x100 <= |b|
  {
    match (DecodeOffset(b, head, 0xa0), DecodeOffset(b, head, 0xc0), DecodeOffset(b, head, 0xe0))
    case (Some(i), Some(j), Some(k)) =>
      (match (DecodeAddresses(b, i), DecodeReceipts(b, j), DecodeBytes(b, k))
       case (Some(relayers), Some(receipts), Some(payload)) => Some((relayers, receipts, payload))
       case _ => None)
    case _ => None
  }

  function Decode(b: Bytes): Option<Message> {
    if |b| < 32 then None
    else
      var head := ReadWord(b, 0);
      if head > MAX_UINT64 || |b| < head + 0x100 then None
      else
        var sender, destination := ReadWord(b, head + 0x20), ReadWord(b, head + 0x60);
        if sender >= ADDRESS_LIMIT || destination >= ADDRESS_LIMIT then None
        else
          match DecodeTail(b, head)
          case None => None
          case Some((relayers, receipts, payload)) =>
            var m := Message(ReadWord(b, head), sender, ReadWord(b, head + 0x40), destination,
                             ReadWord(b, head + 0x80), relayers, receipts, payload);
            if Size(m) <= MAX_UINT64 then Some(m) else None
  }

  // ---------- properties ----------

  // b starts with the words of m's encoding, and the payload follows them.
  ghost predicate Layout(b: Bytes, m: Message) {
    && Size(m) <= |b|
    && (forall k :: 0 <= k < WordCount(m) ==> ReadWord(b, 32 * k) == MessageWord(m, k))
    && b[32 * WordCount(m)..32 * WordCount(m) + |m.message|] == m.message
  }

  lemma EncodedLayout(m: Message, rest: Bytes)
    ensures Layout(Encode(m) + rest, m)
  {
    var b, ws := Encode(m) + rest, MessageWords(m);
    EncodedParts(m, rest);
    forall k | 0 <= k < WordCount(m)
      ensures ReadWord(b, 32 * k) == MessageWord(m, k)
    {
      ReadEncodedWords(ws, b, 0, k);
    }
  }

  lemma EncodedParts(m: Message, rest: Bytes)
    ensures var b, n := Encode(m) + rest, 32 * WordCount(m);
      && |b| >= Size(m) && Size(m) >= n + |m.message|
      && b[0..0 + n] == EncodeWords(MessageWords(m)) && b[n..n + |m.message|] == m.message
  {
    hide EncodeWords, ReadWord, MessageWord;
    var words := EncodeWords(MessageWords(m));
    var padding := Zeros(Padded(|m.message|) - |m.message|);
    assert Encode(m) + rest == words + (m.message + (padding + rest));
  }

  lemma LaidOutHead(b: Bytes, m: Message)
    requires Layout(b, m)
    ensures ReadWord(b, 0) == 0x20 && ReadWord(b, 192) == 0x100
    ensures ReadWord(b, 32) == m.messageID && ReadWord(b, 64) == m.senderAddress
    ensures ReadWord(b, 96) == m.destinationBlockchainID
    ensures ReadWord(b, 128) == m.destinationAddress && ReadWord(b, 160) == m.requiredGasLimit
  {
    assert ReadWord(b, 32 * 0) == MessageWord(m, 0) && ReadWord(b, 32 * 6) == MessageWord(m, 6);
    assert ReadWord(b, 32 * 1) == MessageWord(m, 1) && ReadWord(b, 32 * 2) == MessageWord(m, 2);
    assert ReadWord(b, 32 * 3) == MessageWord(m, 3) && ReadWord(b, 32 * 4) == MessageWord(m, 4);
    assert ReadWord(b, 32 * 5) == MessageWord(m, 5);
  }

  lemma LaidOutLengths(b: Bytes, m: Message)
    requires Layout(b, m)
    ensures var n, r := |m.allowedRelayerAddresses|, |m.receipts|;
      && ReadWord(b, 224) == ReceiptsOffset(n) && ReadWord(b, 256) == PayloadOffset(n, r)
      && ReadWord(b, 288) == n && ReadWord(b, 320 + 32 * n) == r
      && ReadWord(b, 352 + 32 * n + 64 * r) == |m.message|
  {
    var n, r := |m.allowedRelayerAddresses|, |m.receipts|;
    assert ReadWord(b, 32 * 7) == MessageWord(m, 7) && ReadWord(b, 32 * 8) == MessageWord(m, 8);
    assert ReadWord(b, 32 * 9) == MessageWord(m, 9);
    assert ReadWord(b, 32 * (10 + n)) == MessageWord(m, 10 + n);
    assert ReadWord(b, 32 * (11 + n + 2 * r)) == MessageWord(m, 11 + n + 2 * r);
  }

  // The place of every field in the encoding, as the ABI has it: the head of the struct,
  // its array of addresses, its array of receipts, its payload, and padding.
  lemma FieldsInPlace(m: Message)
    ensures var b, n, r := Encode(m), |m.allowedRelayerAddresses|, |m.receipts|;
      var payload := 384 + 32 * n + 64 * r;
      && |b| == payload + Padded(|m.message|)
      && ReadWord(b, 0) == 32 && ReadWord(b, 32) == m.messageID && ReadWord(b, 64) == m.senderAddress
      && ReadWord(b, 96) == m.destinationBlockchainID && ReadWord(b, 128) == m.destinationAddress
      && ReadWord(b, 160) == m.requiredGasLimit
      && ReadWord(b, 192) == 256 && ReadWord(b, 224) == 288 + 32 * n && ReadWord(b, 256) == 320 + 32 * n + 64 * r
      && ReadWord(b, 288) == n && ReadWord(b, 320 + 32 * n) == r && ReadWord(b, 352 + 32 * n + 64 * r) == |m.message|
      && (forall i :: 0 <= i < n ==> ReadWord(b, 320 + 32 * i) == m.allowedRelayerAddresses[i])
      && (forall i :: 0 <= i < r ==> ReadWord(b, 352 + 32 * n + 64 * i) == m.receipts[i].receivedMessageID
                                     && ReadWord(b, 384 + 32 * n + 64 * i) == m.receipts[i].relayerRewardAddress)
      && b[payload..payload + |m.message|] == m.message
      && (forall i :: payload + |m.message| <= i < |b| ==> b[i] == 0)
  {
    var b, n := Encode(m), |m.allowedRelayerAddresses|;
    EncodedLayout(m, []);
    assert b + [] == b;
    LaidOutHead(b, m);
    LaidOutLengths(b, m);
    EncodeEndsInZeros(m);
    ElementsInPlace(b, m);
  }

  lemma ElementsInPlace(b: Bytes, m: Message)
    requires Layout(b, m)
    ensures var n := |m.allowedRelayerAddresses|;
      && (forall i :: 0 <= i < n ==> ReadWord(b, 320 + 32 * i) == m.allowedRelayerAddresses[i])
      && (forall i :: 0 <= i < |m.receipts| ==>
            && ReadWord(b, 352 + 32 * n + 64 * i) == m.receipts[i].receivedMessageID
            && ReadWord(b, 384 + 32 * n + 64 * i) == m.receipts[i].relayerRewardAddress)
  {
    hide ReadWord, Padded;
    var n := |m.allowedRelayerAddresses|;
    forall i | 0 <= i < n
      ensures ReadWord(b, 320 + 32 * i) == m.allowedRelayerAddresses[i]
    {
      assert ReadWord(b, 32 * (10 + i)) == MessageWord(m, 10 + i);
    }
    forall i | 0 <= i < |m.receipts|
      ensures ReadWord(b, 352 + 32 * n + 64 * i) == m.receipts[i].receivedMessageID
      ensures ReadWord(b, 384 + 32 * n + 64 * i) == m.receipts[i].relayerRewardAddress
    {
      ReceiptWords(m, i);
      assert ReadWord(b, 32 * (11 + n + 2 * i)) == MessageWord(m, 11 + n + 2 * i);
      assert ReadWord(b, 32 * (12 + n + 2 * i)) == MessageWord(m, 12 + n + 2 * i);
    }
  }

  lemma LaidOutAddresses(b: Bytes, m: Message)
    requires Layout(b, m)
    ensures DecodeAddresses(b, 288) == Some(m.allowedRelayerAddresses)
  {
    var n := |m.allowedRelayerAddresses|;
    LaidOutLengths(b, m);
    forall i: nat | i < n
      ensures ElementWord(b, 288, i) == m.allowedRelayerAddresses[i]
    {
      assert ReadWord(b, 32 * (10 + i)) == MessageWord(m, 10 + i);
    }
    assert DecodeLength(b, 288, false) == Some(n);
    assert DecodeAddresses(b, 288).Some?;
    assert DecodeAddresses(b, 288).value == m.allowedRelayerAddresses;
  }

  lemma ReceiptWords(m: Message, i: nat)
    requires i < |m.receipts|
    ensures var j := 11 + |m.allowedRelayerAddresses| + 2 * i;
      && MessageWord(m, j) == m.receipts[i].receivedMessageID
      && MessageWord(m, j + 1) == m.receipts[i].relayerRewardAddress
  {
    assert (2 * i) % 2 == 0 && (2 * i) / 2 == i;
    assert (2 * i + 1) % 2 == 1 && (2 * i + 1) / 2 == i;
  }

  lemma LaidOutReceipt(b: Bytes, m: Message, i: nat)
    requires Layout(b, m) && i < |m.receipts|
    ensures var pos := 320 + 32 * |m.allowedRelayerAddresses|;
      IsReceipt(b, pos, i) && ReceiptAt(b, pos, i) == m.receipts[i]
  {
    var pos, j := 320 + 32 * |m.allowedRelayerAddresses|, 11 + |m.allowedRelayerAddresses| + 2 * i;
    ReceiptWords(m, i);
    assert ReadWord(b, 32 * j) == MessageWord(m, j);
    assert ReadWord(b, 32 * (j + 1)) == MessageWord(m, j + 1);
    assert ElementWord(b, pos, 2 * i) == ReadWord(b, 32 * j);
    assert ElementWord(b, pos, 2 * i + 1) == ReadWord(b, 32 * (j + 1));
  }

  lemma LaidOutReceipts(b: Bytes, m: Message)
    requires Layout(b, m)
    ensures DecodeReceipts(b, 320 + 32 * |m.allowedRelayerAddresses|) == Some(m.receipts)
  {
    var pos := 320 + 32 * |m.allowedRelayerAddresses|;
    LaidOutLengths(b, m);
    assert DecodeLength(b, pos, true) == Some(|m.receipts|);
    forall i: nat | i < |m.receipts|
      ensures IsReceipt(b, pos, i) && ReceiptAt(b, pos, i) == m.receipts[i]
    {
      LaidOutReceipt(b, m, i);
    }
    assert DecodeReceipts(b, pos).value == m.receipts;
  }

  lemma DecodeLaidOut(b: Bytes, m: Message)
    requires Layout(b, m)
    ensures Decode(b) == Some(m)
  {
    LaidOutHead(b, m);
    LaidOutLengths(b, m);
    LaidOutAddresses(b, m);
    LaidOutReceipts(b, m);
    DecodeTailAt(b, m);
  }

  lemma DecodeTailAt(b: Bytes, m: Message)
    requires Size(m) <= |b| && ReadWord(b, 192) == 0x100
    requires var n, r := |m.allowedRelayerAddresses|, |m.receipts|;
      && ReadWord(b, 224) == ReceiptsOffset(n) && ReadWord(b, 256) == PayloadOffset(n, r)
      && ReadWord(b, 352 + 32 * n + 64 * r) == |m.message|
      && DecodeAddresses(b, 288) == Some(m.allowedRelayerAddresses)
      && DecodeReceipts(b, 320 + 32 * n) == Some(m.receipts)
      && b[384 + 32 * n + 64 * r..384 + 32 * n + 64 * r + |m.message|] == m.message
    ensures DecodeTail(b, 0x20) == Some((m.allowedRelayerAddresses, m.receipts, m.message))
  {
    var n, r := |m.allowedRelayerAddresses|, |m.receipts|;
    assert DecodeOffset(b, 0x20, 0xa0) == Some(288);
    assert DecodeOffset(b, 0x20, 0xc0) == Some(320 + 32 * n);
    assert DecodeOffset(b, 0x20, 0xe0) == Some(352 + 32 * n + 64 * r);
    assert DecodeBytes(b, 352 + 32 * n + 64 * r) == Some(m.message);
  }

  // Decoding inverts encoding; bytes behind the encoding are not looked at.
  lemma RoundTripWithSuffix(m: Message, rest: Bytes)
    ensures Decode(Encode(m) + rest) == Some(m)
  {
    EncodedLayout(m, rest);
    DecodeLaidOut(Encode(m) + rest, m);
  }

  lemma RoundTrip(m: Message)
    ensures Decode(Encode(m)) == Some(m)
  {
    RoundTripWithSuffix(m, []);
    assert Encode(m) + [] == Encode(m);
  }

  lemma EncodeInjective(m: Message, m': Message)
    requires Encode(m) == Encode(m')
    ensures m == m'
  {
    RoundTrip(m);
    RoundTrip(m');
  }

  // The layout that Encode produces, as a check on the bytes alone: each offset
  // points just behind the previous part, nothing follows, and the padding is zero.
  predicate Canonical(b: Bytes) {
    && 384 <= |b|
    && ReadWord(b, 0) == 0x20
    && ReadWord(b, 192) == 0x100
    && var n := ReadWord(b, 288);
    && ReadWord(b, 224) == ReceiptsOffset(n)
    && 352 + 32 * n <= |b|
    && var r := ReadWord(b, 320 + 32 * n);
    && ReadWord(b, 256) == PayloadOffset(n, r)
    && 384 + 32 * n + 64 * r <= |b|
    && var l := ReadWord(b, 352 + 32 * n + 64 * r);
    && |b| == 384 + 32 * n + 64 * r + Padded(l)
    && forall i :: 384 + 32 * n + 64 * r + l <= i < |b| ==> b[i] == 0
  }

  lemma EncodeEndsInZeros(m: Message)
    ensures forall i :: 32 * WordCount(m) + |m.message| <= i < Size(m) ==> Encode(m)[i] == 0
  {
  }

  lemma EncodeIsCanonical(m: Message)
    ensures Canonical(Encode(m))
  {
    var b := Encode(m);
    EncodedLayout(m, []);
    assert b + [] == b;
    LaidOutHead(b, m);
    LaidOutLengths(b, m);
    EncodeEndsInZeros(m);
    CanonicalFrom(b, m);
  }

  lemma CanonicalFrom(b: Bytes, m: Message)
    requires |b| == Size(m) && ReadWord(b, 0) == 0x20 && ReadWord(b, 192) == 0x100
    requires var n, r := |m.allowedRelayerAddresses|, |m.receipts|;
      && ReadWord(b, 224) == ReceiptsOffset(n) && ReadWord(b, 256) == PayloadOffset(n, r)
      && ReadWord(b, 288) == n && ReadWord(b, 320 + 32 * n) == r
      && ReadWord(b, 352 + 32 * n + 64 * r) == |m.message|
    requires forall i :: 32 * WordCount(m) + |m.message| <= i < Size(m) ==> b[i] == 0
    ensures Canonical(b)
  {
  }

  // Encoding inverts decoding on the canonical encodings and on no others.
  lemma ReencodeIffCanonical(b: Bytes)
    requires Decode(b).Some?
    ensures Encode(Decode(b).value) == b <==> Canonical(b)
  {
    var m := Decode(b).value;
    EncodeIsCanonical(m);
    if Canonical(b) {
      ReencodeCanonical(b, m);
    }
  }

  // What Canonical and Decode together say about b, spelled out for m.
  ghost predicate HeadParts(b: Bytes, m: Message) {
    && Size(m) <= |b|
    && ReadWord(b, 0) == 0x20 && ReadWord(b, 192) == 0x100
    && ReadWord(b, 32) == m.messageID && ReadWord(b, 64) == m.senderAddress
    && ReadWord(b, 96) == m.destinationBlockchainID
    && ReadWord(b, 128) == m.destinationAddress && ReadWord(b, 160) == m.requiredGasLimit
  }

  ghost predicate TailParts(b: Bytes, m: Message) {
    var n, r := |m.allowedRelayerAddresses|, |m.receipts|;
    && Size(m) == |b|
    && ReadWord(b, 224) == ReceiptsOffset(n) && ReadWord(b, 256) == PayloadOffset(n, r)
    && ReadWord(b, 288) == n && ReadWord(b, 320 + 32 * n) == r
    && ReadWord(b, 352 + 32 * n + 64 * r) == |m.message|
    && DecodeAddresses(b, 288) == Some(m.allowedRelayerAddresses)
    && DecodeReceipts(b, 320 + 32 * n) == Some(m.receipts)
    && DecodeBytes(b, 352 + 32 * n + 64 * r) == Some(m.message)
  }

  // The tail that DecodeTail returns, given where its three offset words point.
  lemma TailAt(b: Bytes, m: Message, i: nat, j: nat, k: nat)
    requires 0x120 <= |b|
    requires DecodeTail(b, 0x20) == Some((m.allowedRelayerAddresses, m.receipts, m.message))
    requires i == 32 + ReadWord(b, 192) && j == 32 + ReadWord(b, 224) && k == 32 + ReadWord(b, 256)
    ensures DecodeAddresses(b, i) == Some(m.allowedRelayerAddresses)
    ensures DecodeReceipts(b, j) == Some(m.receipts)
    ensures DecodeBytes(b, k) == Some(m.message)
  {
    assert DecodeOffset(b, 0x20, 0xa0) == Some(i);
    assert DecodeOffset(b, 0x20, 0xc0) == Some(j);
    assert DecodeOffset(b, 0x20, 0xe0) == Some(k);
  }

  lemma CanonicalTail(b: Bytes, m: Message)
    requires Canonical(b)
    requires DecodeTail(b, 0x20) == Some((m.allowedRelayerAddresses, m.receipts, m.message))
    ensures TailParts(b, m)
  {
    TailAt(b, m, 32 + ReadWord(b, 192), 32 + ReadWord(b, 224), 32 + ReadWord(b, 256));
  }

  lemma CanonicalParts(b: Bytes, m: Message)
    requires Decode(b) == Some(m) && Canonical(b)
    ensures HeadParts(b, m) && TailParts(b, m)
  {
    CanonicalTail(b, m);
  }

  lemma CanonicalPadding(b: Bytes, m: Message)
    requires TailParts(b, m) && Canonical(b)
    ensures forall i :: 32 * WordCount(m) + |m.message| <= i < |b| ==> b[i] == 0
  {
  }

  lemma DecodedReceiptWord(b: Bytes, pos: nat, rs: seq<Receipt>, j: nat)
    requires DecodeReceipts(b, pos) == Some(rs) && j < 2 * |rs|
    requires pos + 64 + 32 * j <= |b|
    ensures ElementWord(b, pos, j) == ReceiptWord(rs, j)
  {
    var i := j / 2;
    assert ReceiptAt(b, pos, i) == DecodeReceipts(b, pos).value[i] == rs[i];
    assert j == 2 * i || j == 2 * i + 1;
  }

  lemma DecodedAddressWord(b: Bytes, pos: nat, xs: seq<Address>, i: nat)
    requires DecodeAddresses(b, pos) == Some(xs) && i < |xs|
    requires pos + 64 + 32 * i <= |b|
    ensures ElementWord(b, pos, i) == xs[i]
  {
  }

  lemma TailWord(b: Bytes, m: Message, k: nat)
    requires TailParts(b, m) && 9 <= k < WordCount(m)
    requires 32 * k + 32 <= |b|
    ensures ReadWord(b, 32 * k) == MessageWord(m, k)
  {
    hide DecodeAddresses, DecodeReceipts, DecodeBytes, Padded, ReceiptWord;
    var n, r := |m.allowedRelayerAddresses|, |m.receipts|;
    if 10 <= k < 10 + n {
      DecodedAddressWord(b, 288, m.allowedRelayerAddresses, k - 10);
    } else if 11 + n <= k < 11 + n + 2 * r {
      TailReceiptWord(b, m, k - (11 + n));
    }
  }

  lemma TailReceiptWord(b: Bytes, m: Message, j: nat)
    requires DecodeReceipts(b, 320 + 32 * |m.allowedRelayerAddresses|) == Some(m.receipts)
    requires j < 2 * |m.receipts| && Size(m) <= |b|
    ensures var k := 11 + |m.allowedRelayerAddresses| + j;
      ReadWord(b, 32 * k) == MessageWord(m, k)
  {
    DecodedReceiptWord(b, 320 + 32 * |m.allowedRelayerAddresses|, m.receipts, j);
  }

  lemma HeadWord(b: Bytes, m: Message, k: nat)
    requires HeadParts(b, m) && TailParts(b, m) && k < 9
    ensures ReadWord(b, 32 * k) == MessageWord(m, k)
  {
  }

  lemma ReencodeCanonical(b: Bytes, m: Message)
    requires Decode(b) == Some(m) && Canonical(b)
    ensures Encode(m) == b
  {
    CanonicalParts(b, m);
    CanonicalPadding(b, m);
    forall k: nat | k < WordCount(m)
      ensures ReadWord(b, 32 * k) == MessageWord(m, k)
    {
      if k < 9 { HeadWord(b, m, k); } else { TailWord(b, m, k); }
    }
    ReencodeParts(b, m);
  }

  lemma ReencodeParts(b: Bytes, m: Message)
    requires |b| == Size(m)
    requires forall k: nat :: k < WordCount(m) ==> ReadWord(b, 32 * k) == MessageWord(m, k)
    requires b[32 * WordCount(m)..32 * WordCount(m) + |m.message|] == m.message
    requires forall i :: 32 * WordCount(m) + |m.message| <= i < |b| ==> b[i] == 0
    ensures Encode(m) == b
  {
    var size := 32 * WordCount(m);
    assert ReadWords(b, 0, WordCount(m)) == MessageWords(m);
    EncodeReadWords(b, 0, WordCount(m));
    assert b[size + |m.message|..] == Zeros(Padded(|m.message|) - |m.message|);
    SplitBytes(b, size, size + |m.message|);
  }

  lemma SplitBytes(b: Bytes, i: nat, j: nat)
    requires i <= j <= |b|
    ensures b == b[0..i] + (b[i..j] + b[j..])
  {
  }

  // A byte behind an encoding is enough to make a decodable string that is no encoding.
  lemma ReencodeMayDiffer(m: Message)
    ensures Decode(Encode(m) + [0]) == Some(m) && Encode(m) != Encode(m) + [0]
  {
    RoundTripWithSuffix(m, [0]);
  }
}
