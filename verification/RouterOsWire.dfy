/** The RouterOS native API framing of `src/server/routeros/native-client.ts`: length-prefixed words,
    zero-terminated sentences, and the buffer loop that turns arbitrary socket chunks into records.
    Words are modelled as the bytes that travel, before any text decoding. */
module RouterOsWire {
  type Byte = x: int | 0 <= x < 0x100
  type Word = seq<Byte>
  type Record = map<Word, Word>

  // ---------------------------------------------------------------------------------------------
  // Length prefixes

  datatype Prefix = Short | Unsupported | Prefix(length: nat, bytes: nat)

  const MAX_WORD := 0x1_0000_0000

  function EncodeLength(n: nat): (r: seq<Byte>)
    requires n < MAX_WORD
  {
    if n < 0x80 then [n]
    else if n < 0x4000 then [n / 0x100 + 0x80, n % 0x100]
    else if n < 0x20_0000 then [n / 0x1_0000 + 0xc0, n / 0x100 % 0x100, n % 0x100]
    else if n < 0x1000_0000 then [n / 0x100_0000 + 0xe0, n / 0x1_0000 % 0x100, n / 0x100 % 0x100, n % 0x100]
    else [0xf0, n / 0x100_0000, n / 0x1_0000 % 0x100, n / 0x100 % 0x100, n % 0x100]
  }

  function BigEndian(b: seq<Byte>): nat {
    if b == [] then 0 else 0x100 * BigEndian(b[..|b| - 1]) + b[|b| - 1]
  }

  lemma BigEndianStep(b: seq<Byte>, last: Byte)
    ensures BigEndian(b + [last]) == 0x100 * BigEndian(b) + last
  {
    assert (b + [last])[..|b|] == b;
  }

  lemma BigEndianOf(a: Byte, b: Byte, c: Byte, d: Byte, e: Byte)
    ensures BigEndian([a]) == a && BigEndian([a, b]) == BigEndian([a]) * 0x100 + b
    ensures BigEndian([a, b, c]) == BigEndian([a, b]) * 0x100 + c
    ensures BigEndian([a, b, c, d]) == BigEndian([a, b, c]) * 0x100 + d
    ensures BigEndian([a, b, c, d, e]) == BigEndian([a, b, c, d]) * 0x100 + e
  {
    BigEndianStep([], a);
    BigEndianStep([a], b);
    BigEndianStep([a, b], c);
    BigEndianStep([a, b, c], d);
    BigEndianStep([a, b, c, d], e);
    assert [] + [a] == [a] && [a] + [b] == [a, b] && [a, b] + [c] == [a, b, c];
    assert [a, b, c] + [d] == [a, b, c, d] && [a, b, c, d] + [e] == [a, b, c, d, e];
  }

  lemma BytesAddUp(n: nat)
    ensures n == n / 0x1_0000 * 0x1_0000 + n / 0x100 % 0x100 * 0x100 + n % 0x100
    ensures n / 0x1_0000 == n / 0x100_0000 * 0x100 + n / 0x1_0000 % 0x100
  {
  }

  /** Read as one big-endian number, the prefix is the length with the mark of its size added. */
  lemma PrefixIsMarked(n: nat)
    requires n < MAX_WORD
    ensures var r := EncodeLength(n);
            && |r| == (if n < 0x80 then 1 else if n < 0x4000 then 2 else if n < 0x20_0000 then 3
                       else if n < 0x1000_0000 then 4 else 5)
            && BigEndian(r) == n + [0, 0x8000, 0xC0_0000, 0xE000_0000, 0xF0_0000_0000][|r| - 1]
  {
    var r := EncodeLength(n);
    hide BigEndian;
    var b: seq<Byte> := r + [0, 0, 0, 0];
    BigEndianOf(b[0], b[1], b[2], b[3], b[4]);
    BytesAddUp(n);
    assert r == b[..|r|];
    assert b[..1] == [b[0]] && b[..2] == [b[0], b[1]] && b[..3] == [b[0], b[1], b[2]];
    assert b[..4] == [b[0], b[1], b[2], b[3]] && b[..5] == [b[0], b[1], b[2], b[3], b[4]];
  }

  function At(b: seq<Byte>, i: nat): nat
    requires i < |b|
  {
    b[i]
  }

  /** The mask tests on the first byte select the ranges below; `first & mask` is then a subtraction. */
  function DecodeLength(b: seq<Byte>, offset: nat): (r: Prefix)
    ensures r.Prefix? ==> 1 <= r.bytes <= 5 && offset + r.bytes <= |b|
  {
    if offset >= |b| then Short
    else
      var first: int := b[offset];
      if first < 0x80 then Prefix(first, 1)
      else if first < 0xc0 then
        if offset + 2 > |b| then Short else Prefix((first - 0x80) * 0x100 + At(b, offset + 1), 2)
      else if first < 0xe0 then
        if offset + 3 > |b| then Short
        else Prefix((first - 0xc0) * 0x1_0000 + At(b, offset + 1) * 0x100 + At(b, offset + 2), 3)
      else if first < 0xf0 then
        if offset + 4 > |b| then Short
        else Prefix((first - 0xe0) * 0x100_0000 + At(b, offset + 1) * 0x1_0000
                    + At(b, offset + 2) * 0x100 + At(b, offset + 3), 4)
      else if first == 0xf0 then
        if offset + 5 > |b| then Short
        else Prefix(At(b, offset + 1) * 0x100_0000 + At(b, offset + 2) * 0x1_0000
                    + At(b, offset + 3) * 0x100 + At(b, offset + 4), 5)
      else Unsupported
  }

  lemma LengthRoundTrip(n: nat, rest: seq<Byte>)
    requires n < MAX_WORD
    ensures DecodeLength(EncodeLength(n) + rest, 0) == Prefix(n, |EncodeLength(n)|)
  {
    var e := EncodeLength(n);
    assert forall i :: 0 <= i < |e| ==> (e + rest)[i] == e[i];
    BytesAddUp(n);
  }

  lemma LengthPrefixIsShort(n: nat, k: nat)
    requires n < MAX_WORD && k < |EncodeLength(n)|
    ensures DecodeLength(EncodeLength(n)[..k], 0) == Short
  {
    var e := EncodeLength(n);
    assert forall i :: 0 <= i < k ==> e[..k][i] == e[i];
  }

  // ---------------------------------------------------------------------------------------------
  // Sentences

  datatype Decoded = Incomplete | Malformed | Sentence(words: seq<Word>, bytes: nat)

  predicate Sendable(ws: seq<Word>) {
    forall i :: 0 <= i < |ws| ==> 0 < |ws[i]| < MAX_WORD
  }

  function EncodeSentence(ws: seq<Word>): seq<Byte>
    requires Sendable(ws)
  {
    if ws == [] then [0] else EncodeLength(|ws[0]|) + ws[0] + EncodeSentence(ws[1..])
  }

  /** What the bytes of `b` say, defined on suffixes; `DecodeSentence` is the offset loop that computes it. */
  function Decode(b: seq<Byte>): (r: Decoded)
    ensures r.Sentence? ==> 0 < r.bytes <= |b|
    decreases |b|
  {
    match DecodeLength(b, 0)
    case Short => Incomplete
    case Unsupported => Malformed
    case Prefix(n, k) =>
      if n == 0 then Sentence([], k)
      else if k + n > |b| then Incomplete
      else match Decode(b[k + n..])
        case Sentence(ws, m) => Sentence([b[k..k + n]] + ws, k + n + m)
        case other => other
  }

  function Prepend(words: seq<Word>, bytes: nat, d: Decoded): Decoded {
    if d.Sentence? then Sentence(words + d.words, bytes + d.bytes) else d
  }

  lemma DecodeStep(b: seq<Byte>, n: nat, k: nat)
    requires DecodeLength(b, 0) == Prefix(n, k) && 0 < n && k + n <= |b|
    ensures Decode(b) == Prepend([b[k..k + n]], k + n, Decode(b[k + n..]))
  {
    hide DecodeLength;
  }

  lemma PrependTwice(words: seq<Word>, n: nat, more: seq<Word>, m: nat, d: Decoded)
    ensures Prepend(words, n, Prepend(more, m, d)) == Prepend(words + more, n + m, d)
  {
    if d.Sentence? { assert words + (more + d.words) == words + more + d.words; }
  }

  lemma PrefixAtOffset(b: seq<Byte>, offset: nat)
    requires offset <= |b|
    ensures DecodeLength(b[offset..], 0) == DecodeLength(b, offset)
  {
  }

  /** One round of the offset loop: the words read so far and the bytes behind `offset` say what the buffer says. */
  lemma RoundContinues(buffer: seq<Byte>, offset: nat, words: seq<Word>, n: nat, k: nat, whole: Decoded)
    requires offset <= |buffer| && DecodeLength(buffer, offset) == Prefix(n, k) && 0 < n && offset + k + n <= |buffer|
    requires whole == Prepend(words, offset, Decode(buffer[offset..]))
    ensures whole
              == Prepend(words + [buffer[offset + k..offset + k + n]], offset + k + n, Decode(buffer[offset + k + n..]))
  {
    hide DecodeLength, Decode;
    var rest, next := buffer[offset..], offset + k + n;
    PrefixAtOffset(buffer, offset);
    DecodeStep(rest, n, k);
    assert rest[k..k + n] == buffer[offset + k..next];
    assert rest[k + n..] == buffer[next..];
    PrependTwice(words, offset, [buffer[offset + k..next]], k + n, Decode(buffer[next..]));
  }

  lemma RoundEnds(buffer: seq<Byte>, offset: nat, words: seq<Word>)
    requires offset <= |buffer|
    ensures match DecodeLength(buffer, offset)
            case Short => Decode(buffer[offset..]) == Incomplete
            case Unsupported => Decode(buffer[offset..]) == Malformed
            case Prefix(n, k) =>
              && (n == 0 ==> Prepend(words, offset, Decode(buffer[offset..])) == Sentence(words, offset + k))
              && (n > 0 && offset + k + n > |buffer| ==> Decode(buffer[offset..]) == Incomplete)
  {
    hide DecodeLength;
    PrefixAtOffset(buffer, offset);
    assert words + [] == words;
  }

  lemma PrependNothing(d: Decoded)
    ensures Prepend([], 0, d) == d
  {
    if d.Sentence? { assert [] + d.words == d.words; }
  }

  method DecodeSentence(buffer: seq<Byte>) returns (r: Decoded)
    ensures r == Decode(buffer)
  {
    hide DecodeLength, Decode;
    var offset := 0;
    var words: seq<Word> := [];
    assert buffer[0..] == buffer;
    PrependNothing(Decode(buffer));
    while true
      invariant 0 <= offset <= |buffer|
      invariant Decode(buffer) == Prepend(words, offset, Decode(buffer[offset..]))
      decreases |buffer| - offset
    {
      var prefix := DecodeLength(buffer, offset);
      RoundEnds(buffer, offset, words);
      if prefix == Short { return Incomplete; }
      if prefix == Unsupported { return Malformed; }
      var start := offset + prefix.bytes;
      if prefix.length == 0 { return Sentence(words, start); }
      if start + prefix.length > |buffer| { return Incomplete; }
      var next := start + prefix.length;
      RoundContinues(buffer, offset, words, prefix.length, prefix.bytes, Decode(buffer));
      words := words + [buffer[start..next]];
      offset := next;
    }
  }

  lemma WordAfterPrefix(len: seq<Byte>, w: Word, rest: seq<Byte>)
    requires DecodeLength(len + (w + rest), 0) == Prefix(|w|, |len|) && 0 < |w|
    ensures Decode(len + w + rest) == Prepend([w], |len + w|, Decode(rest))
  {
    var b := len + w + rest;
    assert b == len + (w + rest);
    DecodeStep(b, |w|, |len|);
    assert b[|len|..|len| + |w|] == w;
    assert b[|len| + |w|..] == rest;
  }

  /** One encoded word at the front: decoding continues behind it. */
  lemma DecodeWord(w: Word, rest: seq<Byte>)
    requires 0 < |w| < MAX_WORD
    ensures var head := EncodeLength(|w|) + w;
            Decode(head + rest) == Prepend([w], |head|, Decode(rest))
  {
    var len := EncodeLength(|w|);
    LengthRoundTrip(|w|, w + rest);
    WordAfterPrefix(len, w, rest);
  }

  /** Decoding what `EncodeSentence` wrote returns the words and consumes exactly the bytes written. */
  lemma {:induction false} SentenceRoundTrip(ws: seq<Word>, rest: seq<Byte>)
    requires Sendable(ws)
    ensures Decode(EncodeSentence(ws) + rest) == Sentence(ws, |EncodeSentence(ws)|)
  {
    if ws == [] {
      assert DecodeLength([0] + rest, 0) == Prefix(0, 1);
    } else {
      var head, tail := EncodeLength(|ws[0]|) + ws[0], EncodeSentence(ws[1..]);
      assert EncodeSentence(ws) + rest == head + (tail + rest);
      DecodeWord(ws[0], tail + rest);
      SentenceRoundTrip(ws[1..], rest);
      assert ws == [ws[0]] + ws[1..];
    }
  }

  lemma ShortWord(len: seq<Byte>, w: Word, k: nat)
    requires k < |w| && DecodeLength(len + w[..k], 0) == Prefix(|w|, |len|)
    ensures Decode(len + w[..k]) == Incomplete
  {
  }

  /** No strict prefix of an encoded sentence decodes to anything: the decoder waits for the rest. */
  lemma {:induction false} StrictPrefixIncomplete(ws: seq<Word>, k: nat)
    requires Sendable(ws) && k < |EncodeSentence(ws)|
    ensures Decode(EncodeSentence(ws)[..k]) == Incomplete
  {
    if ws == [] {
      assert [0][..k] == [];
    } else {
      var w, len, tail := ws[0], EncodeLength(|ws[0]|), EncodeSentence(ws[1..]);
      var b := (len + w + tail)[..k];
      if k < |len| {
        assert b == len[..k];
        LengthPrefixIsShort(|w|, k);
      } else if k < |len| + |w| {
        assert b == len + w[..k - |len|];
        LengthRoundTrip(|w|, w[..k - |len|]);
        ShortWord(len, w, k - |len|);
      } else {
        assert b == len + w + tail[..k - |len| - |w|];
        DecodeWord(w, tail[..k - |len| - |w|]);
        StrictPrefixIncomplete(ws[1..], k - |len| - |w|);
      }
    }
  }

  lemma PrefixStays(b: seq<Byte>, c: seq<Byte>)
    ensures DecodeLength(b, 0) != Short ==> DecodeLength(b + c, 0) == DecodeLength(b, 0)
  {
  }

  /** A verdict already reached is not changed by bytes that arrive later. */
  lemma {:induction false} DecodeIsMonotone(b: seq<Byte>, c: seq<Byte>)
    requires Decode(b) != Incomplete
    ensures Decode(b + c) == Decode(b)
    decreases |b|
  {
    hide DecodeLength;
    var p := DecodeLength(b, 0);
    PrefixStays(b, c);
    if p.Prefix? && p.length != 0 {
      var next := p.bytes + p.length;
      assert (b + c)[p.bytes..next] == b[p.bytes..next];
      assert (b + c)[next..] == b[next..] + c;
      DecodeIsMonotone(b[next..], c);
    }
  }

  // ---------------------------------------------------------------------------------------------
  // Attributes

  const EQUALS: Byte := 61

  function IndexOfEquals(w: Word): (r: int)
    ensures r == -1 ==> EQUALS !in w
    ensures r != -1 ==> 0 <= r < |w| && w[r] == EQUALS && EQUALS !in w[..r]
  {
    if w == [] then -1
    else if w[0] == EQUALS then 0
    else
      var r := IndexOfEquals(w[1..]);
      assert r != -1 ==> w[..r + 1] == [w[0]] + w[1..][..r];
      if r == -1 then -1 else r + 1
  }

  function PutAttribute(output: Record, word: Word): Record {
    var normalized := if word != [] && word[0] == EQUALS then word[1..] else word;
    var index := IndexOfEquals(normalized);
    if index == -1 then output[normalized := []] else output[normalized[..index] := normalized[index + 1..]]
  }

  function Attributes(words: seq<Word>): Record {
    if words == [] then map[] else PutAttribute(Attributes(words[..|words| - 1]), words[|words| - 1])
  }

  method ParseAttributes(words: seq<Word>) returns (output: Record)
    ensures output == Attributes(words)
  {
    output := map[];
    for i := 0 to |words|
      invariant output == Attributes(words[..i])
    {
      output := PutAttribute(output, words[i]);
      assert words[..i + 1][..i] == words[..i];
    }
    assert words[..|words|] == words;
  }

  /** One outgoing attribute; `undefined` values are filtered out by the caller. */
  function AttributeWord(key: Word, value: Word): Word {
    [EQUALS] + key + [EQUALS] + value
  }

  function AttributeWords(entries: seq<(Word, Word)>): seq<Word> {
    if entries == [] then []
    else AttributeWords(entries[..|entries| - 1]) + [AttributeWord(entries[|entries| - 1].0, entries[|entries| - 1].1)]
  }

  function ToRecord(entries: seq<(Word, Word)>): Record {
    if entries == [] then map[]
    else ToRecord(entries[..|entries| - 1])[entries[|entries| - 1].0 := entries[|entries| - 1].1]
  }

  lemma {:induction false} FirstEquals(key: Word, value: Word)
    requires EQUALS !in key
    ensures IndexOfEquals(key + [EQUALS] + value) == |key|
  {
    var w := key + [EQUALS] + value;
    if key == [] {
      assert w[0] == EQUALS;
    } else {
      assert w[0] == key[0] && w[1..] == key[1..] + [EQUALS] + value;
      FirstEquals(key[1..], value);
    }
  }

  lemma PutAttributeWord(output: Record, key: Word, value: Word)
    requires EQUALS !in key
    ensures PutAttribute(output, AttributeWord(key, value)) == output[key := value]
  {
    var normalized := AttributeWord(key, value)[1..];
    assert normalized == key + [EQUALS] + value;
    FirstEquals(key, value);
    assert normalized[..|key|] == key && normalized[|key| + 1..] == value;
  }

  /** A word without an equals sign behind its first character is a key with an empty value; the leading sign, which the
      client writes, is optional when reading. */
  lemma BareWords(output: Record, key: Word, value: Word)
    requires EQUALS !in key
    ensures PutAttribute(output, [EQUALS] + key) == output[key := []]
    ensures PutAttribute(output, key) == output[key := []]
    ensures key != [] ==> PutAttribute(output, key + [EQUALS] + value) == output[key := value]
  {
    assert ([EQUALS] + key)[1..] == key && IndexOfEquals(key) == -1;
    FirstEquals(key, value);
    var word := key + [EQUALS] + value;
    assert key != [] ==> word[0] == key[0];
    assert word[..|key|] == key && word[|key| + 1..] == value;
  }

  /** Attributes survive the wire whenever no key contains `=`; values may contain anything. */
  lemma {:induction false} AttributeRoundTrip(entries: seq<(Word, Word)>)
    requires forall i :: 0 <= i < |entries| ==> EQUALS !in entries[i].0
    ensures Attributes(AttributeWords(entries)) == ToRecord(entries)
  {
    if entries != [] {
      var n := |entries| - 1;
      var (key, value) := entries[n];
      AttributeRoundTrip(entries[..n]);
      var ws, word := AttributeWords(entries[..n]), AttributeWord(key, value);
      assert (ws + [word])[..|ws|] == ws;
      PutAttributeWord(Attributes(ws), key, value);
    }
  }

  // ---------------------------------------------------------------------------------------------
  // The exchange loop

  const RE: Word := [33, 114, 101]
  const TRAP: Word := [33, 116, 114, 97, 112]
  const FATAL: Word := [33, 102, 97, 116, 97, 108]
  const DONE: Word := [33, 100, 111, 110, 101]
  const MESSAGE: Word := [109, 101, 115, 115, 97, 103, 101]

  /** `Rejected([])` stands for the client's default message; `Crashed` for the unsupported-length exception. */
  datatype Outcome = Waiting | Resolved | Rejected(message: Word) | Crashed
  datatype Connection = Connection(buffer: seq<Byte>, records: seq<Record>, outcome: Outcome)

  const START := Connection([], [], Waiting)

  function Handle(records: seq<Record>, words: seq<Word>): (seq<Record>, Outcome) {
    if words == [] then (records, Waiting)
    else
      var row := Attributes(words[1..]);
      if words[0] == RE then (records + [row], Waiting)
      else if words[0] == TRAP || words[0] == FATAL
      then (records, Rejected(if MESSAGE in row then row[MESSAGE] else []))
      else if words[0] == DONE then (if row != map[] then records + [row] else records, Resolved)
      else (records, Waiting)
  }

  /** Handles every complete sentence at the front of the buffer. */
  function Drain(c: Connection): Connection
    decreases |c.buffer|
  {
    if c.outcome != Waiting then c
    else match Decode(c.buffer)
      case Incomplete => c
      case Malformed => c.(outcome := Crashed)
      case Sentence(words, n) =>
        var (records, outcome) := Handle(c.records, words);
        Drain(Connection(c.buffer[n..], records, outcome))
  }

  function Feed(c: Connection, chunk: seq<Byte>): Connection {
    if c.outcome == Waiting then Drain(c.(buffer := c.buffer + chunk)) else c
  }

  function FeedAll(c: Connection, chunks: seq<seq<Byte>>): Connection
    decreases |chunks|
  {
    if chunks == [] then c else FeedAll(Feed(c, chunks[0]), chunks[1..])
  }

  function Concat(chunks: seq<seq<Byte>>): seq<Byte> {
    if chunks == [] then [] else chunks[0] + Concat(chunks[1..])
  }

  /** What the caller of `exchange` can see: the rows it resolves with, or the error. */
  function Visible(c: Connection): (seq<Record>, Outcome) {
    (c.records, c.outcome)
  }

  class Exchange {
    var buffer: seq<Byte>
    var records: seq<Record>
    var outcome: Outcome

    ghost function State(): Connection reads this {
      Connection(buffer, records, outcome)
    }

    constructor ()
      ensures State() == START
    {
      buffer, records, outcome := [], [], Waiting;
    }

    /** The socket's `data` listener; it is removed as soon as the exchange is finished. */
    method OnData(chunk: seq<Byte>)
      modifies this
      ensures State() == Feed(old(State()), chunk)
    {
      if outcome != Waiting { return; }
      buffer := buffer + chunk;
      while true
        invariant outcome == Waiting
        invariant Drain(State()) == Feed(old(State()), chunk)
        decreases |buffer|
      {
        var decoded := DecodeSentence(buffer);
        if decoded == Incomplete { break; }
        if decoded == Malformed { outcome := Crashed; return; }
        buffer := buffer[decoded.bytes..];
        if decoded.words != [] {
          var kind := decoded.words[0];
          var row := ParseAttributes(decoded.words[1..]);
          if kind == RE { records := records + [row]; }
          if kind == TRAP || kind == FATAL {
            outcome := Rejected(if MESSAGE in row then row[MESSAGE] else []);
            return;
          }
          if kind == DONE {
            if row != map[] { records := records + [row]; }
            outcome := Resolved;
            return;
          }
        }
      }
    }
  }

  predicate Drained(c: Connection) {
    c.outcome == Waiting ==> Decode(c.buffer) == Incomplete
  }

  lemma {:induction false} DrainThenFeed(c: Connection, more: seq<Byte>)
    ensures Drained(Drain(c))
    ensures c.outcome == Waiting ==> Visible(Drain(c.(buffer := c.buffer + more))) == Visible(Feed(Drain(c), more))
    decreases |c.buffer|
  {
    if c.outcome == Waiting && Decode(c.buffer) != Incomplete {
      DecodeIsMonotone(c.buffer, more);
      var d := Decode(c.buffer);
      if d.Sentence? {
        var (records, outcome) := Handle(c.records, d.words);
        var next := Connection(c.buffer[d.bytes..], records, outcome);
        assert (c.buffer + more)[d.bytes..] == next.buffer + more;
        DrainThenFeed(next, more);
      }
    }
  }

  lemma {:induction false} FeedAllIsFeed(c: Connection, chunks: seq<seq<Byte>>)
    requires Drained(c)
    ensures Visible(FeedAll(c, chunks)) == Visible(Feed(c, Concat(chunks)))
    decreases |chunks|
  {
    hide Handle, DecodeLength;
    if chunks == [] {
      assert c.buffer + [] == c.buffer;
    } else if c.outcome == Waiting {
      var first := c.(buffer := c.buffer + chunks[0]);
      DrainThenFeed(first, Concat(chunks[1..]));
      assert first.buffer + Concat(chunks[1..]) == c.buffer + Concat(chunks);
      FeedAllIsFeed(Drain(first), chunks[1..]);
    } else {
      FeedAllIsFeed(c, chunks[1..]);
    }
  }

  lemma StartIsDrained()
    ensures Drained(START)
  {
    assert DecodeLength([], 0) == Short;
  }

  /** How TCP splits the reply is invisible: only the concatenated byte stream matters. */
  lemma ChunkingIsInvisible(left: seq<seq<Byte>>, right: seq<seq<Byte>>)
    requires Concat(left) == Concat(right)
    ensures Visible(FeedAll(START, left)) == Visible(FeedAll(START, right))
  {
    hide FeedAll, Feed, Concat, Drained;
    StartIsDrained();
    FeedAllIsFeed(START, left);
    FeedAllIsFeed(START, right);
  }

  predicate AllSendable(sentences: seq<seq<Word>>) {
    forall i :: 0 <= i < |sentences| ==> Sendable(sentences[i])
  }

  function EncodeAll(sentences: seq<seq<Word>>): seq<Byte>
    requires AllSendable(sentences)
  {
    if sentences == [] then [] else EncodeSentence(sentences[0]) + EncodeAll(sentences[1..])
  }

  // ---------------------------------------------------------------------------------------------
  // What a reply means

  /** The word consists of the characters of an ASCII text. */
  predicate Spells(word: Word, text: string) {
    |word| == |text| && forall i :: 0 <= i < |text| ==> word[i] == text[i] as int
  }

  lemma KindsAsText()
    ensures Spells(RE, "!re") && Spells(TRAP, "!trap") && Spells(FATAL, "!fatal") && Spells(DONE, "!done")
    ensures Spells(MESSAGE, "message")
  {
  }

  /** A sentence that ends the exchange. */
  predicate Ends(words: seq<Word>) {
    words != [] && words[0] in {DONE, TRAP, FATAL}
  }

  /** The position of the first sentence that ends the exchange, or the number of sentences if none does. */
  function FirstEnd(sentences: seq<seq<Word>>): (n: nat)
    ensures n <= |sentences| && (n < |sentences| ==> Ends(sentences[n]))
    ensures forall i :: 0 <= i < n ==> !Ends(sentences[i])
  {
    if sentences == [] || Ends(sentences[0]) then 0 else 1 + FirstEnd(sentences[1..])
  }

  function RowOf(words: seq<Word>): seq<Record> {
    if words != [] && words[0] == RE then [Attributes(words[1..])] else []
  }

  /** The attribute records of the `!re` sentences, in order. */
  function Rows(sentences: seq<seq<Word>>): seq<Record> {
    if sentences == [] then [] else RowOf(sentences[0]) + Rows(sentences[1..])
  }

  /** The exchange resolves with the rows before `!done`, and a row of `!done` itself if it has attributes; it rejects
      with the message of the first `!trap` or `!fatal`; if there is neither, the bytes left over decide. */
  ghost predicate Means(before: seq<Record>, sentences: seq<seq<Word>>, rest: seq<Byte>, records: seq<Record>,
                        outcome: Outcome) {
    var n := FirstEnd(sentences);
    if n < |sentences| then
      var row := Attributes(sentences[n][1..]);
      if sentences[n][0] == DONE then
        outcome == Resolved && records == before + Rows(sentences[..n]) + if row == map[] then [] else [row]
      else
        && outcome == Rejected(if MESSAGE in row then row[MESSAGE] else [])
        && records == before + Rows(sentences[..n])
    else
      && (Decode(rest) == Incomplete ==> outcome == Waiting && records == before + Rows(sentences))
      && (Decode(rest) == Malformed ==> outcome == Crashed && records == before + Rows(sentences))
  }

  lemma HandleMeans(before: seq<Record>, words: seq<Word>)
    ensures !Ends(words) ==> Handle(before, words) == (before + RowOf(words), Waiting)
    ensures Ends(words) ==>
              var row := Attributes(words[1..]);
              Handle(before, words) ==
              if words[0] == DONE then (before + (if row == map[] then [] else [row]), Resolved)
              else (before, Rejected(if MESSAGE in row then row[MESSAGE] else []))
  {
    hide Attributes;
    assert |RE| < |DONE| && before + [] == before;
  }

  lemma MeansAtEnd(before: seq<Record>, sentences: seq<seq<Word>>, rest: seq<Byte>)
    requires sentences != [] && Ends(sentences[0])
    ensures var (records, outcome) := Handle(before, sentences[0]); Means(before, sentences, rest, records, outcome)
  {
    HandleMeans(before, sentences[0]);
    hide Attributes, Handle, Ends;
    assert sentences[..0] == [] && before + Rows([]) == before;
  }

  lemma MeansMore(before: seq<Record>, sentences: seq<seq<Word>>, rest: seq<Byte>, records: seq<Record>,
                  outcome: Outcome)
    requires sentences != [] && !Ends(sentences[0])
    requires Means(before + RowOf(sentences[0]), sentences[1..], rest, records, outcome)
    ensures Means(before, sentences, rest, records, outcome)
  {
    hide Attributes, RowOf, Ends;
    var n, more := FirstEnd(sentences), sentences[1..];
    assert sentences[..n][1..] == more[..n - 1] && sentences[..n][0] == sentences[0];
    assert before + Rows(sentences) == before + RowOf(sentences[0]) + Rows(more);
    assert before + Rows(sentences[..n]) == before + RowOf(sentences[0]) + Rows(more[..n - 1]);
  }

  lemma DrainSentence(c: Connection, words: seq<Word>, n: nat)
    requires c.outcome == Waiting && Decode(c.buffer) == Sentence(words, n) && n <= |c.buffer|
    ensures var (records, outcome) := Handle(c.records, words);
            Drain(c) == Drain(Connection(c.buffer[n..], records, outcome))
  {
  }

  /** One sentence at the front of the buffer is handled and consumed. */
  lemma DrainFirst(before: seq<Record>, sentences: seq<seq<Word>>, rest: seq<Byte>)
    requires AllSendable(sentences) && sentences != []
    ensures AllSendable(sentences[1..])
    ensures var (records, outcome) := Handle(before, sentences[0]);
            Drain(Connection(EncodeAll(sentences) + rest, before, Waiting)) ==
            Drain(Connection(EncodeAll(sentences[1..]) + rest, records, outcome))
  {
    var words, more := sentences[0], EncodeAll(sentences[1..]) + rest;
    assert Sendable(words);
    SentenceRoundTrip(words, more);
    hide Handle, EncodeSentence, Decode, Sendable, Drain;
    var first := EncodeSentence(words);
    assert EncodeAll(sentences) + rest == first + more;
    DrainSentence(Connection(first + more, before, Waiting), words, |first|);
    assert (first + more)[|first|..] == more;
  }

  lemma DrainDone(c: Connection)
    ensures c.outcome != Waiting || Decode(c.buffer) == Incomplete ==> Drain(c) == c
    ensures c.outcome == Waiting && Decode(c.buffer) == Malformed ==> Drain(c) == c.(outcome := Crashed)
  {
  }

  lemma {:induction false} DrainMeans(before: seq<Record>, sentences: seq<seq<Word>>, rest: seq<Byte>)
    requires AllSendable(sentences)
    ensures var (records, outcome) := Visible(Drain(Connection(EncodeAll(sentences) + rest, before, Waiting)));
            Means(before, sentences, rest, records, outcome)
    decreases |sentences|
  {
    hide Drain, Decode, Handle;
    if sentences == [] {
      assert EncodeAll(sentences) + rest == rest && before + Rows(sentences) == before;
      DrainDone(Connection(rest, before, Waiting));
    } else {
      hide Means, AllSendable, EncodeAll;
      DrainFirst(before, sentences, rest);
      HandleMeans(before, sentences[0]);
      var more := EncodeAll(sentences[1..]) + rest;
      if Ends(sentences[0]) {
        MeansAtEnd(before, sentences, rest);
        var (records, outcome) := Handle(before, sentences[0]);
        DrainDone(Connection(more, records, outcome));
      } else {
        DrainMeans(before + RowOf(sentences[0]), sentences[1..], rest);
        var (records, outcome) := Visible(Drain(Connection(more, before + RowOf(sentences[0]), Waiting)));
        MeansMore(before, sentences, rest, records, outcome);
      }
    }
  }

  /** End to end: however the encoding of a reply is cut into chunks, the exchange delivers what the sentences mean. */
  lemma ReplyIsDelivered(sentences: seq<seq<Word>>, rest: seq<Byte>, chunks: seq<seq<Byte>>)
    requires AllSendable(sentences)
    requires Concat(chunks) == EncodeAll(sentences) + rest
    ensures var (records, outcome) := Visible(FeedAll(START, chunks)); Means([], sentences, rest, records, outcome)
  {
    hide FeedAll, Concat, Drained, Drain, EncodeAll, Means, Sendable;
    StartIsDrained();
    FeedAllIsFeed(START, chunks);
    assert [] + Concat(chunks) == Concat(chunks);
    DrainMeans([], sentences, rest);
  }

  /** The whole conversation: chunks arrive one by one, cut anywhere, and end in what the sentences in them mean. */
  method Receive(chunks: seq<seq<Byte>>) returns (records: seq<Record>, outcome: Outcome)
    ensures (records, outcome) == Visible(FeedAll(START, chunks))
    ensures forall sentences, rest :: AllSendable(sentences) && Concat(chunks) == EncodeAll(sentences) + rest ==>
              Means([], sentences, rest, records, outcome)
  {
    var exchange := new Exchange();
    for i := 0 to |chunks|
      invariant FeedAll(START, chunks) == FeedAll(exchange.State(), chunks[i..])
    {
      assert chunks[i..][0] == chunks[i] && chunks[i..][1..] == chunks[i + 1..];
      exchange.OnData(chunks[i]);
    }
    records, outcome := exchange.records, exchange.outcome;
    forall sentences, rest | AllSendable(sentences) && Concat(chunks) == EncodeAll(sentences) + rest
      ensures Means([], sentences, rest, records, outcome)
    {
      ReplyIsDelivered(sentences, rest, chunks);
    }
  }
}
