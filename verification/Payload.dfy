/** The chunked, authenticated framing of a stored Profile payload. */
module Payload {
  import opened Basics
  import opened Aead

  const CHUNK_SIZE := 0x10_0000
  const MAGIC: Bytes := [79, 76, 66, 82, 80, 70, 48, 49] // "OLBRPF01"
  const PREFIX_SIZE := 8
  const MAX_INDEX := 0xFFFF_FFFF

  // ---------- Big-endian 32-bit integers and nonces ----------

  function BigEndian(n: nat): (b: Bytes)
    requires n <= MAX_INDEX
    ensures |b| == 4
  {
    var (high, low) := (n / 0x1_0000, n % 0x1_0000);
    [(high / 256) as byte, (high % 256) as byte, (low / 256) as byte, (low % 256) as byte]
  }

  function FromBigEndian(b: Bytes): (n: nat)
    requires |b| == 4
    ensures n <= MAX_INDEX
  {
    (b[0] as int * 256 + b[1] as int) * 0x1_0000 + (b[2] as int * 256 + b[3] as int)
  }

  lemma BigEndianRoundTrip(n: nat)
    requires n <= MAX_INDEX
    ensures FromBigEndian(BigEndian(n)) == n
  {
  }

  /** The first byte is the highest. */
  lemma HighestFirst(n: nat)
    requires n <= MAX_INDEX
    ensures var b := BigEndian(n);
            n == b[0] as int * 0x100_0000 + b[1] as int * 0x1_0000 + b[2] as int * 0x100 + b[3] as int
  {
  }

  lemma FromBigEndianRoundTrip(b: Bytes)
    requires |b| == 4
    ensures BigEndian(FromBigEndian(b)) == b
  {
    var high, low := b[0] as int * 256 + b[1] as int, b[2] as int * 256 + b[3] as int;
    var n := high * 0x1_0000 + low;
    assert 0 <= low < 0x1_0000;
    assert n / 0x1_0000 == high && n % 0x1_0000 == low;
    assert high / 256 == b[0] as int && high % 256 == b[1] as int;
    assert low / 256 == b[2] as int && low % 256 == b[3] as int;
  }

  function Nonce(prefix: Bytes, index: nat): Bytes
    requires index <= MAX_INDEX
  {
    prefix + BigEndian(index)
  }

  lemma NonceIsInjective(p: Bytes, i: nat, q: Bytes, j: nat)
    requires |p| == |q| && i <= MAX_INDEX && j <= MAX_INDEX
    requires Nonce(p, i) == Nonce(q, j)
    ensures p == q && i == j
  {
    assert p == Nonce(p, i)[..|p|] && q == Nonce(q, j)[..|q|];
    assert BigEndian(i) == Nonce(p, i)[|p|..] && BigEndian(j) == Nonce(q, j)[|q|..];
    BigEndianRoundTrip(i);
    BigEndianRoundTrip(j);
  }

  // ---------- What encrypting one payload produces ----------

  function Chunks(payload: Bytes): (chunks: seq<Bytes>)
    ensures forall i :: 0 <= i < |chunks| ==> 0 < |chunks[i]| <= CHUNK_SIZE
    ensures Flatten(chunks) == payload
    decreases |payload|
  {
    if payload == [] then []
    else if |payload| <= CHUNK_SIZE then [payload]
    else
      assert payload == payload[..CHUNK_SIZE] + payload[CHUNK_SIZE..];
      [payload[..CHUNK_SIZE]] + Chunks(payload[CHUNK_SIZE..])
  }

  /** Only the last chunk may be shorter than the chunk size. */
  lemma {:induction false} ChunksAreFull(payload: Bytes, i: nat)
    requires i + 1 < |Chunks(payload)|
    ensures |Chunks(payload)[i]| == CHUNK_SIZE
    decreases |payload|
  {
    if i > 0 {
      assert Chunks(payload)[i] == Chunks(payload[CHUNK_SIZE..])[i - 1];
      ChunksAreFull(payload[CHUNK_SIZE..], i - 1);
    }
  }

  /** A payload under the nonce prefix drawn for it. */
  datatype Message = Message(prefix: Bytes, identity: Identity, payload: Bytes)
  {
    /** Every chunk has an index, with one index to spare for the terminator. */
    predicate Fits() { |Chunks(payload)| <= MAX_INDEX }

    function Record(index: nat): Sealing
      requires index <= |Chunks(payload)| && index <= MAX_INDEX
    {
      var final := index == |Chunks(payload)|;
      var text := if final then [] else Chunks(payload)[index];
      Sealing(Nonce(prefix, index), RecordData(V2, identity, index, |text|, final), text)
    }
  }

  /** One run of the encryptor: the first `records` records of the message were
      sealed before it finished or was interrupted. */
  datatype Run = Run(message: Message, records: nat)
  {
    ghost predicate Valid() {
      && |message.prefix| == PREFIX_SIZE
      && records <= if message.Fits() then |Chunks(message.payload)| + 1 else MAX_INDEX
    }

    predicate Complete() { message.Fits() && records == |Chunks(message.payload)| + 1 }

    function Sealed(): set<Sealing>
      requires Valid()
    {
      set i | 0 <= i < records :: message.Record(i)
    }
  }

  function Framed(cipher: Cipher, record: Sealing): Bytes
    requires |record.text| <= CHUNK_SIZE
  {
    BigEndian(|record.text|) + cipher.seal(record)
  }

  /** The records from `index` to the terminator, as they appear in the file. */
  function Records(cipher: Cipher, message: Message, index: nat): Bytes
    requires message.Fits() && index <= |Chunks(message.payload)|
    decreases |Chunks(message.payload)| - index
  {
    Framed(cipher, message.Record(index)) +
    if index == |Chunks(message.payload)| then [] else Records(cipher, message, index + 1)
  }

  function Encoded(cipher: Cipher, message: Message): Bytes
    requires message.Fits()
  {
    MAGIC + message.prefix + Records(cipher, message, 0)
  }

  /** Everything sealed under one key. */
  ghost function Produced(runs: set<Run>): set<Sealing>
    requires forall run :: run in runs ==> run.Valid()
  {
    set run, s | run in runs && s in run.Sealed() :: s
  }

  ghost predicate DistinctPrefixes(runs: set<Run>) {
    && (forall run :: run in runs ==> run.Valid())
    && (forall a, b :: a in runs && b in runs && a.message.prefix == b.message.prefix ==> a == b)
  }

  lemma SealedBy(runs: set<Run>, s: Sealing) returns (run: Run, index: nat)
    requires (forall run :: run in runs ==> run.Valid()) && s in Produced(runs)
    ensures run in runs && index < run.records && s == run.message.Record(index)
    ensures index <= |Chunks(run.message.payload)| && s.nonce == Nonce(run.message.prefix, index)
  {
    run :| run in runs && s in run.Sealed();
    index :| 0 <= index < run.records && s == run.message.Record(index);
  }

  /** No nonce is used for two different sealings under one key: the uniqueness
      requirement of section 8 of NIST SP 800-38D. */
  lemma NoncesAreUnique(runs: set<Run>, s: Sealing, t: Sealing)
    requires DistinctPrefixes(runs)
    requires s in Produced(runs) && t in Produced(runs) && s.nonce == t.nonce
    ensures s == t
  {
    var a, i := SealedBy(runs, s);
    var b, j := SealedBy(runs, t);
    NonceIsInjective(a.message.prefix, i, b.message.prefix, j);
  }

  // ---------- Decryption ----------

  datatype Decoded = Accepted(text: Bytes) | Rejected(text: Bytes)

  /** A reader's view of the key: the cipher, what was sealed under it, and the
      identity and contract it expects. */
  datatype Reader = Reader(cipher: Cipher, produced: set<Sealing>, identity: Identity, contract: Contract)

  datatype Parsed = BadRecord | Terminator(rest: Bytes) | Chunk(text: Bytes, rest: Bytes)

  /** Reads and authenticates the record at the head of `input`. */
  function ParseRecord(reader: Reader, prefix: Bytes, input: Bytes, index: nat): (parsed: Parsed)
    requires reader.cipher.Ideal() && index <= MAX_INDEX
    ensures parsed.Chunk? ==> parsed.text != [] && |parsed.rest| < |input|
  {
    if |input| < 4 then BadRecord
    else
      var length := FromBigEndian(input[..4]);
      if length > CHUNK_SIZE || |input| < 4 + length + OVERHEAD then BadRecord
      else
        var final := length == 0;
        var plain := reader.cipher.Open(
          reader.produced, Nonce(prefix, index),
          RecordData(reader.contract, reader.identity, index, length, final),
          input[4..4 + length + OVERHEAD]);
        var rest := input[4 + length + OVERHEAD..];
        if plain.None? || |plain.value| != length then BadRecord
        else if final then Terminator(rest)
        else Chunk(plain.value, rest)
  }

  function DecodeRecords(reader: Reader, prefix: Bytes, input: Bytes, index: nat, text: Bytes): Decoded
    requires reader.cipher.Ideal() && index <= MAX_INDEX
    decreases |input|
  {
    match ParseRecord(reader, prefix, input, index)
    case BadRecord => Rejected(text)
    case Terminator(rest) => if rest == [] then Accepted(text) else Rejected(text)
    case Chunk(piece, rest) =>
      if index == MAX_INDEX then Rejected(text + piece)
      else DecodeRecords(reader, prefix, rest, index + 1, text + piece)
  }

  function Decode(reader: Reader, input: Bytes): Decoded
    requires reader.cipher.Ideal()
  {
    if |input| < |MAGIC| + PREFIX_SIZE || input[..|MAGIC|] != MAGIC then Rejected([])
    else
      var header := |MAGIC| + PREFIX_SIZE;
      DecodeRecords(reader, input[|MAGIC|..header], input[header..], 0, [])
  }

  // ---------- Round trip ----------

  lemma FlattenSnoc(pieces: seq<Bytes>, i: nat)
    requires i < |pieces|
    ensures Flatten(pieces[..i + 1]) == Flatten(pieces[..i]) + pieces[i]
  {
    if i == 0 {
      assert pieces[..1][1..] == [];
    } else {
      assert pieces[..i + 1][1..] == pieces[1..][..i];
      assert pieces[..i][1..] == pieces[1..][..i - 1];
      FlattenSnoc(pieces[1..], i - 1);
    }
  }

  /** What a genuine record is to the decoder. */
  lemma ParseFramed(reader: Reader, run: Run, index: nat, rest: Bytes)
    requires reader.cipher.Ideal() && run.Valid() && run.Sealed() <= reader.produced
    requires reader.identity == run.message.identity && reader.contract == V2
    requires index < run.records && index <= |Chunks(run.message.payload)|
    ensures ParseRecord(reader, run.message.prefix, Framed(reader.cipher, run.message.Record(index)) + rest, index) ==
            if index == |Chunks(run.message.payload)| then Terminator(rest) else Chunk(Chunks(run.message.payload)[index], rest)
  {
    var record := run.message.Record(index);
    var length := |record.text|;
    var input := Framed(reader.cipher, record) + rest;
    assert record in run.Sealed();
    OpenOfProduced(reader.cipher, reader.produced, record);
    BigEndianRoundTrip(length);
    assert input[..4] == BigEndian(length);
    assert input[4..4 + length + OVERHEAD] == reader.cipher.seal(record);
    assert input[4 + length + OVERHEAD..] == rest;
  }

  lemma {:induction false} RecordsRoundTrip(reader: Reader, run: Run, index: nat, text: Bytes)
    requires reader.cipher.Ideal() && run.Valid() && run.Complete()
    requires run.Sealed() <= reader.produced
    requires reader.identity == run.message.identity && reader.contract == V2
    requires index <= |Chunks(run.message.payload)| && text == Flatten(Chunks(run.message.payload)[..index])
    ensures DecodeRecords(reader, run.message.prefix, Records(reader.cipher, run.message, index), index, text) == Accepted(run.message.payload)
    decreases |Chunks(run.message.payload)| - index
  {
    var chunks := Chunks(run.message.payload);
    var rest := if index == |chunks| then [] else Records(reader.cipher, run.message, index + 1);
    ParseFramed(reader, run, index, rest);
    if index == |chunks| {
      assert chunks[..index] == chunks;
    } else {
      FlattenSnoc(chunks, index);
      RecordsRoundTrip(reader, run, index + 1, text + chunks[index]);
    }
  }

  lemma HeaderShape(cipher: Cipher, run: Run)
    requires run.Valid() && run.message.Fits()
    ensures var input := Encoded(cipher, run.message);
            var header := |MAGIC| + PREFIX_SIZE;
            && |input| >= header && input[..|MAGIC|] == MAGIC
            && input[|MAGIC|..header] == run.message.prefix
            && input[header..] == Records(cipher, run.message, 0)
  {
  }

  lemma CompleteDecodes(reader: Reader, run: Run)
    requires reader.cipher.Ideal() && run.Valid() && run.Complete() && run.Sealed() <= reader.produced
    requires reader.identity == run.message.identity && reader.contract == V2
    ensures Decode(reader, Encoded(reader.cipher, run.message)) == Accepted(run.message.payload)
  {
    HeaderShape(reader.cipher, run);
    assert Chunks(run.message.payload)[..0] == [];
    RecordsRoundTrip(reader, run, 0, []);
  }

  /** Decrypting what a completed run wrote gives its payload back, for every
      payload the encryptor accepts, exactly when the reader uses contract V2. */
  lemma RoundTrip(reader: Reader, runs: set<Run>, run: Run)
    requires reader.cipher.Ideal() && DistinctPrefixes(runs) && reader.produced == Produced(runs)
    requires run in runs && run.Complete() && reader.identity == run.message.identity
    ensures Decode(reader, Encoded(reader.cipher, run.message)) == Accepted(run.message.payload) <==> reader.contract == V2
  {
    HeaderShape(reader.cipher, run);
    assert run.Sealed() <= reader.produced;
    if reader.contract == V2 {
      CompleteDecodes(reader, run);
    } else if ParseRecord(reader, run.message.prefix, Records(reader.cipher, run.message, 0), 0) != BadRecord {
      var _ := ParsedRecord(reader, runs, run.message.prefix, Records(reader.cipher, run.message, 0), 0);
    }
  }

  // ---------- Authenticity ----------

  /** A record that opens under this prefix and index is that record of the one
      run that drew the prefix. */
  lemma OpenedRecord(reader: Reader, runs: set<Run>, prefix: Bytes, index: nat, length: nat, sealed: Bytes)
    returns (run: Run)
    requires reader.cipher.Ideal() && DistinctPrefixes(runs) && reader.produced == Produced(runs)
    requires |prefix| == PREFIX_SIZE && index <= MAX_INDEX
    requires reader.cipher.Open(reader.produced, Nonce(prefix, index),
               RecordData(reader.contract, reader.identity, index, length, length == 0), sealed).Some?
    ensures reader.contract == V2
    ensures run in runs && run.message.prefix == prefix && run.message.identity == reader.identity
    ensures index < run.records && index <= |Chunks(run.message.payload)|
    ensures sealed == reader.cipher.seal(run.message.Record(index)) && length == |run.message.Record(index).text|
    ensures reader.cipher.Open(reader.produced, Nonce(prefix, index),
              RecordData(reader.contract, reader.identity, index, length, length == 0), sealed) == Some(run.message.Record(index).text)
    ensures length == 0 <==> index == |Chunks(run.message.payload)|
  {
    var data := RecordData(reader.contract, reader.identity, index, length, length == 0);
    var s := Sealing(Nonce(prefix, index), data, reader.cipher.Open(reader.produced, Nonce(prefix, index), data, sealed).value);
    var j;
    run, j := SealedBy(runs, s);
    NonceIsInjective(prefix, index, run.message.prefix, j);
  }

  lemma ParsedRecord(reader: Reader, runs: set<Run>, prefix: Bytes, input: Bytes, index: nat) returns (run: Run)
    requires reader.cipher.Ideal() && DistinctPrefixes(runs) && reader.produced == Produced(runs)
    requires |prefix| == PREFIX_SIZE && index <= MAX_INDEX
    requires ParseRecord(reader, prefix, input, index) != BadRecord
    ensures reader.contract == V2
    ensures run in runs && run.message.prefix == prefix && run.message.identity == reader.identity
    ensures index < run.records && index <= |Chunks(run.message.payload)|
    ensures var parsed := ParseRecord(reader, prefix, input, index);
            && input == Framed(reader.cipher, run.message.Record(index)) + parsed.rest
            && parsed == if index == |Chunks(run.message.payload)| then Terminator(parsed.rest)
                         else Chunk(Chunks(run.message.payload)[index], parsed.rest)
  {
    var length := FromBigEndian(input[..4]);
    var sealed, rest := input[4..4 + length + OVERHEAD], input[4 + length + OVERHEAD..];
    run := OpenedRecord(reader, runs, prefix, index, length, sealed);
    FromBigEndianRoundTrip(input[..4]);
    assert input == BigEndian(length) + sealed + rest;
  }

  lemma {:induction false} AcceptedRecords(reader: Reader, runs: set<Run>, prefix: Bytes, input: Bytes, index: nat, text: Bytes)
    returns (run: Run)
    requires reader.cipher.Ideal() && DistinctPrefixes(runs) && reader.produced == Produced(runs)
    requires |prefix| == PREFIX_SIZE && index <= MAX_INDEX
    requires DecodeRecords(reader, prefix, input, index, text).Accepted?
    ensures run in runs && run.message.prefix == prefix && run.message.identity == reader.identity && run.Complete()
    ensures index <= |Chunks(run.message.payload)| && input == Records(reader.cipher, run.message, index)
    ensures reader.contract == V2
    decreases |input|
  {
    run := ParsedRecord(reader, runs, prefix, input, index);
    var parsed := ParseRecord(reader, prefix, input, index);
    if parsed.Chunk? {
      var later := AcceptedRecords(reader, runs, prefix, parsed.rest, index + 1, text + parsed.text);
      assert later == run;
    }
  }

  lemma HeaderSplit(input: Bytes)
    requires |input| >= |MAGIC| + PREFIX_SIZE && input[..|MAGIC|] == MAGIC
    ensures var header := |MAGIC| + PREFIX_SIZE;
            input == MAGIC + input[|MAGIC|..header] + input[header..]
  {
  }

  /** Every stream the decryptor accepts is byte for byte the whole output of one
      completed run under the key: nothing can be cut off, reordered, spliced
      from another run or appended, even when some runs were interrupted. */
  lemma {:induction false} AcceptedIsOneWholeRun(reader: Reader, runs: set<Run>, input: Bytes) returns (run: Run)
    requires reader.cipher.Ideal() && DistinctPrefixes(runs) && reader.produced == Produced(runs)
    requires Decode(reader, input).Accepted?
    ensures run in runs && run.Complete() && run.message.identity == reader.identity && reader.contract == V2
    ensures input == Encoded(reader.cipher, run.message)
    ensures Decode(reader, input) == Accepted(run.message.payload)
  {
    run := AcceptedStream(reader, runs, input);
    RoundTrip(reader, runs, run);
  }

  lemma {:induction false} AcceptedStream(reader: Reader, runs: set<Run>, input: Bytes) returns (run: Run)
    requires reader.cipher.Ideal() && DistinctPrefixes(runs) && reader.produced == Produced(runs)
    requires Decode(reader, input).Accepted?
    ensures run in runs && run.Complete() && run.message.identity == reader.identity && reader.contract == V2
    ensures input == Encoded(reader.cipher, run.message)
  {
    var header := |MAGIC| + PREFIX_SIZE;
    HeaderSplit(input);
    run := AcceptedRecords(reader, runs, input[|MAGIC|..header], input[header..], 0, []);
  }

  /** A file cut short anywhere, and any file begun by a run that did not finish,
      is rejected. */
  lemma IncompleteIsRejected(reader: Reader, runs: set<Run>, run: Run, input: Bytes)
    requires reader.cipher.Ideal() && DistinctPrefixes(runs) && reader.produced == Produced(runs)
    requires run in runs && MAGIC + run.message.prefix <= input
    requires run.Complete() ==> input != Encoded(reader.cipher, run.message)
    ensures Decode(reader, input).Rejected?
  {
    if Decode(reader, input).Accepted? {
      var other := AcceptedStream(reader, runs, input);
      assert false;
    }
  }

  /** `text` is what the records before `index` of this run held. */
  ghost predicate Delivers(run: Run, reader: Reader, prefix: Bytes, index: nat, text: Bytes) {
    && run.message.prefix == prefix && run.message.identity == reader.identity
    && index <= |Chunks(run.message.payload)| && text == Flatten(Chunks(run.message.payload)[..index])
  }

  lemma {:induction false} FlattenPrefix(pieces: seq<Bytes>, i: nat)
    requires i <= |pieces|
    ensures Flatten(pieces[..i]) <= Flatten(pieces)
    decreases |pieces| - i
  {
    if i == |pieces| {
      assert pieces[..i] == pieces;
    } else {
      FlattenSnoc(pieces, i);
      FlattenPrefix(pieces, i + 1);
    }
  }

  ghost predicate FromOneRun(runs: set<Run>, reader: Reader, text: Bytes) {
    text == [] || exists run :: run in runs && run.message.identity == reader.identity && text <= run.message.payload
  }

  /** The next chunk comes from the same run as everything delivered so far. */
  lemma DeliveredNext(reader: Reader, runs: set<Run>, run: Run, prefix: Bytes, input: Bytes, index: nat, text: Bytes)
    requires reader.cipher.Ideal() && DistinctPrefixes(runs) && reader.produced == Produced(runs)
    requires |prefix| == PREFIX_SIZE && index <= MAX_INDEX && ParseRecord(reader, prefix, input, index).Chunk?
    requires run in runs && Delivers(run, reader, prefix, index, text)
    ensures Delivers(run, reader, prefix, index + 1, text + ParseRecord(reader, prefix, input, index).text)
  {
    var same := ParsedRecord(reader, runs, prefix, input, index);
    FlattenSnoc(Chunks(run.message.payload), index);
  }

  lemma {:induction false} DeliveredRecords(reader: Reader, runs: set<Run>, run: Run, prefix: Bytes, input: Bytes, index: nat, text: Bytes)
    returns (last: nat)
    requires reader.cipher.Ideal() && DistinctPrefixes(runs) && reader.produced == Produced(runs)
    requires |prefix| == PREFIX_SIZE && index <= MAX_INDEX
    requires run in runs && Delivers(run, reader, prefix, index, text)
    ensures Delivers(run, reader, prefix, last, DecodeRecords(reader, prefix, input, index, text).text)
    decreases |input|
  {
    hide DecodeRecords, ParseRecord, Delivers, DistinctPrefixes;
    var parsed := ParseRecord(reader, prefix, input, index);
    DecodeStep(reader, prefix, input, index, text);
    last := index;
    if parsed.Chunk? {
      DeliveredNext(reader, runs, run, prefix, input, index, text);
      last := index + 1;
      if index < MAX_INDEX {
        last := DeliveredRecords(reader, runs, run, prefix, parsed.rest, index + 1, text + parsed.text);
      }
    }
  }

  lemma DecodeStep(reader: Reader, prefix: Bytes, input: Bytes, index: nat, text: Bytes)
    requires reader.cipher.Ideal() && index <= MAX_INDEX
    ensures var parsed, decoded := ParseRecord(reader, prefix, input, index), DecodeRecords(reader, prefix, input, index, text);
            if parsed.Chunk? && index < MAX_INDEX
            then decoded == DecodeRecords(reader, prefix, parsed.rest, index + 1, text + parsed.text)
            else decoded.text == if parsed.Chunk? then text + parsed.text else text
  {
  }

  /** Whatever the stream, the plaintext delivered before a verdict is a prefix of
      one genuine payload of the expected identity. */
  lemma DeliveredIsGenuine(reader: Reader, runs: set<Run>, input: Bytes)
    requires reader.cipher.Ideal() && DistinctPrefixes(runs) && reader.produced == Produced(runs)
    ensures FromOneRun(runs, reader, Decode(reader, input).text)
  {
    var header := |MAGIC| + PREFIX_SIZE;
    if |input| >= header && input[..|MAGIC|] == MAGIC {
      var prefix, body := input[|MAGIC|..header], input[header..];
      if ParseRecord(reader, prefix, body, 0).Chunk? {
        var run := ParsedRecord(reader, runs, prefix, body, 0);
        assert Chunks(run.message.payload)[..0] == [];
        var last := DeliveredRecords(reader, runs, run, prefix, body, 0, []);
        FlattenPrefix(Chunks(run.message.payload), last);
      }
    }
  }
}
