/** The loops that write and read a framed payload through a reader and a writer
    that may fail at any byte. */
module PayloadCipher {
  import opened Basics
  import opened Aead
  import opened Payload

  /** A writer. Each call takes at most the next planned number of bytes and may
      report an error; once the plan is used up it takes everything. */
  class Sink {
    var contents: Bytes
    var plan: seq<(nat, bool)>

    constructor (plan: seq<(nat, bool)>)
      ensures contents == [] && this.plan == plan
    {
      contents := [];
      this.plan := plan;
    }

    method Write(value: Bytes) returns (written: nat, failed: bool)
      modifies this
      ensures written <= |value| && contents == old(contents) + value[..written]
      ensures old(plan) == [] ==> written == |value| && !failed && plan == []
    {
      if plan == [] {
        contents := contents + value;
        assert value[..|value|] == value;
        return |value|, false;
      }
      written := if plan[0].0 < |value| then plan[0].0 else |value|;
      failed := plan[0].1;
      contents := contents + value[..written];
      plan := plan[1..];
    }
  }

  /** A reader over `rest`. When `broken`, reaching the end is a read error. */
  class Source {
    var rest: Bytes
    const broken: bool

    constructor (rest: Bytes, broken: bool)
      ensures this.rest == rest && this.broken == broken
    {
      this.rest, this.broken := rest, broken;
    }

    /** Fills a buffer of `size` bytes; a short result is the end of the input
        or, when the reader is broken, an error. */
    method ReadFull(size: nat) returns (chunk: Bytes, ended: bool, failed: bool)
      modifies this
      ensures chunk == old(rest)[..Min(size, |old(rest)|)] && rest == old(rest)[|chunk|..]
      ensures ended == (|chunk| < size && !broken) && failed == (|chunk| < size && broken)
    {
      var count := if size < |rest| then size else |rest|;
      chunk, rest := rest[..count], rest[count..];
      ended, failed := count < size && !broken, count < size && broken;
    }
  }

  /** Writes all of `value`, whatever the sizes of the partial writes. */
  method WriteAll(sink: Sink, value: Bytes) returns (ok: bool)
    modifies sink
    ensures ok ==> sink.contents == old(sink.contents) + value
    ensures old(sink.contents) <= sink.contents <= old(sink.contents) + value
    ensures old(sink.plan) == [] ==> ok && sink.plan == []
  {
    var done := 0;
    assert old(sink.contents) + value[..0] == old(sink.contents);
    while done < |value|
      invariant done <= |value| && sink.contents == old(sink.contents) + value[..done]
      invariant old(sink.plan) == [] ==> sink.plan == []
      decreases |value| - done
    {
      var written, failed := sink.Write(value[done..]);
      assert value[..done] + value[done..][..written] == value[..done + written];
      done := done + written;
      if failed || written == 0 {
        return false;
      }
    }
    assert value[..done] == value;
    return true;
  }

  datatype EncryptError = KeyClosed | RandomFailed | WriteError | ReadError | TooManyChunks
  datatype DecryptError = ClosedKey | Corrupt | OutputError

  /** The file after the header and the first `k` chunks of a message. */
  ghost function Leading(cipher: Cipher, message: Message, k: nat): Bytes
    requires k <= |Chunks(message.payload)| && k <= MAX_INDEX
  {
    if k == 0 then MAGIC + message.prefix
    else Leading(cipher, message, k - 1) + Framed(cipher, message.Record(k - 1))
  }

  /** All a run can write: the whole encoding, or as many chunks as have an index. */
  ghost function Output(cipher: Cipher, message: Message): Bytes {
    if message.Fits() then Encoded(cipher, message) else Leading(cipher, message, MAX_INDEX)
  }

  lemma LeadingUnfolds(cipher: Cipher, message: Message, k: nat)
    requires k < |Chunks(message.payload)| && k < MAX_INDEX
    ensures Leading(cipher, message, k + 1) == Leading(cipher, message, k) + Framed(cipher, message.Record(k))
  {
  }

  lemma LeadingNothing(cipher: Cipher, message: Message)
    requires message.Fits()
    ensures Leading(cipher, message, 0) + Records(cipher, message, 0) == Encoded(cipher, message)
  {
  }

  lemma {:induction false} LeadingThenRest(cipher: Cipher, message: Message, k: nat)
    requires message.Fits() && k <= |Chunks(message.payload)|
    ensures Leading(cipher, message, k) + Records(cipher, message, k) == Encoded(cipher, message)
  {
    hide Leading, Records, Encoded, Framed, Chunks;
    if k == 0 {
      LeadingNothing(cipher, message);
    } else {
      LeadingThenRest(cipher, message, k - 1);
      LeadingUnfolds(cipher, message, k - 1);
      RecordsUnfold(cipher, message, k - 1);
      Shift(Leading(cipher, message, k - 1), Framed(cipher, message.Record(k - 1)), Records(cipher, message, k),
            Leading(cipher, message, k), Records(cipher, message, k - 1), Encoded(cipher, message));
    }
  }

  lemma RecordsUnfold(cipher: Cipher, message: Message, k: nat)
    requires message.Fits() && k < |Chunks(message.payload)|
    ensures Records(cipher, message, k) == Framed(cipher, message.Record(k)) + Records(cipher, message, k + 1)
  {
  }

  lemma Shift(front: Bytes, piece: Bytes, back: Bytes, longer: Bytes, rest: Bytes, all: Bytes)
    requires longer == front + piece && rest == piece + back && front + rest == all
    ensures longer + back == all
  {
  }

  lemma {:induction false} LeadingGrows(cipher: Cipher, message: Message, j: nat, k: nat)
    requires j <= k <= |Chunks(message.payload)| && k <= MAX_INDEX
    ensures Leading(cipher, message, j) <= Leading(cipher, message, k)
    decreases k
  {
    if j < k {
      LeadingGrows(cipher, message, j, k - 1);
    }
  }

  /** Every point the writer can reach lies on the way to the run's output. */
  lemma LeadingWithin(cipher: Cipher, message: Message, k: nat)
    requires k <= |Chunks(message.payload)| && k <= MAX_INDEX
    ensures Leading(cipher, message, k) <= Output(cipher, message)
    ensures (if message.Fits() then k <= |Chunks(message.payload)| else k < MAX_INDEX) ==>
              Leading(cipher, message, k) + Framed(cipher, message.Record(k)) <= Output(cipher, message)
  {
    if message.Fits() {
      LeadingThenRest(cipher, message, k);
      assert Records(cipher, message, k) == Framed(cipher, message.Record(k)) + Records(cipher, message, k)[|Framed(cipher, message.Record(k))|..];
    } else {
      LeadingGrows(cipher, message, k, MAX_INDEX);
      if k < MAX_INDEX {
        LeadingGrows(cipher, message, k + 1, MAX_INDEX);
      }
    }
  }

  /** One buffer of input is the next chunk. */
  lemma NextChunk(rest: Bytes)
    ensures var chunk := rest[..Min(CHUNK_SIZE, |rest|)];
            Chunks(rest) == if rest == [] then [] else [chunk] + Chunks(rest[|chunk|..])
  {
    if 0 < |rest| <= CHUNK_SIZE {
      assert rest[..|rest|] == rest;
    }
  }

  class PayloadCipher {
    const cipher: Cipher
    const identity: Identity
    const contract: Contract
    var closed: bool
    /** Everything sealed under this key so far. */
    var produced: set<Sealing>

    constructor (cipher: Cipher, identity: Identity, contract: Contract, produced: set<Sealing>)
      ensures this.cipher == cipher && this.identity == identity && this.contract == contract
      ensures this.produced == produced && !closed
    {
      this.cipher, this.identity, this.contract := cipher, identity, contract;
      this.produced, closed := produced, false;
    }

    function View(): Reader
      reads this
    {
      Reader(cipher, produced, identity, contract)
    }

    method WriteRecord(sink: Sink, ghost message: Message, prefix: Bytes, index: nat, text: Bytes, final: bool)
      returns (ok: bool, ghost sealed: bool)
      requires index <= |Chunks(message.payload)| && index <= MAX_INDEX && |text| <= CHUNK_SIZE
      requires message.prefix == prefix && message.identity == identity
      requires message.Record(index).text == text && final == (index == |Chunks(message.payload)|)
      modifies sink, `produced
      ensures produced == old(produced) + if sealed then {message.Record(index)} else {}
      ensures ok ==> sealed && sink.contents == old(sink.contents) + Framed(cipher, message.Record(index))
      ensures old(sink.contents) <= sink.contents <= old(sink.contents) + Framed(cipher, message.Record(index))
      ensures old(sink.plan) == [] ==> ok && sink.plan == []
    {
      var length := BigEndian(|text|);
      sealed := false;
      ok := WriteAll(sink, length);
      if ok {
        var record := Sealing(Nonce(prefix, index), RecordData(V2, identity, index, |text|, final), text);
        var ciphertext := cipher.seal(record);
        produced := produced + {record};
        sealed := true;
        ok := WriteAll(sink, ciphertext);
        assert old(sink.contents) + length + ciphertext == old(sink.contents) + (length + ciphertext);
      }
    }

    /** Writes the next record of a run: `start` is what the sink held and `base`
        what had been sealed before the run. */
    method NextRecord(sink: Sink, ghost run: Run, ghost start: Bytes, ghost base: set<Sealing>,
                      prefix: Bytes, index: nat, text: Bytes, final: bool)
      returns (ok: bool, ghost next: Run)
      requires |text| <= CHUNK_SIZE && run.Valid() && Run(run.message, index + 1).Valid() && run.records == index
      requires run.message.prefix == prefix && run.message.identity == identity
      requires run.message.Record(index).text == text && final == (index == |Chunks(run.message.payload)|)
      requires produced == base + run.Sealed()
      requires sink.contents == start + Leading(cipher, run.message, index)
      modifies sink, `produced
      ensures next.Valid() && produced == base + next.Sealed()
      ensures next == run || next == Run(run.message, index + 1)
      ensures ok ==> next != run
      ensures ok ==> sink.contents == start + (Leading(cipher, run.message, index) + Framed(cipher, run.message.Record(index)))
      ensures start <= sink.contents <= start + Output(cipher, run.message)
      ensures old(sink.plan) == [] ==> ok && sink.plan == []
    {
      ghost var message, sealed := run.message, false;
      ok, sealed := WriteRecord(sink, message, prefix, index, text, final);
      next := if sealed then Run(message, index + 1) else run;
      SealedGrows(message, index);
      LeadingWithin(cipher, message, index);
      Between(start, Leading(cipher, message, index), Framed(cipher, message.Record(index)),
              Output(cipher, message), sink.contents);
    }

    method WriteHeader(sink: Sink, ghost message: Message, prefix: Bytes) returns (ok: bool)
      requires message.prefix == prefix
      modifies sink
      ensures ok ==> sink.contents == old(sink.contents) + Leading(cipher, message, 0)
      ensures old(sink.contents) <= sink.contents <= old(sink.contents) + Output(cipher, message)
      ensures old(sink.plan) == [] ==> ok && sink.plan == []
    {
      LeadingWithin(cipher, message, 0);
      assert old(sink.contents) + MAGIC + prefix == old(sink.contents) + Leading(cipher, message, 0);
      ok := WriteAll(sink, MAGIC);
      if ok {
        ok := WriteAll(sink, prefix);
      }
    }

    /** A run in progress: what has been sealed and written so far. */
    ghost predicate Underway(sink: Sink, run: Run, start: Bytes, base: set<Sealing>)
      reads this, sink
    {
      && run.Valid() && produced == base + run.Sealed()
      && start <= sink.contents <= start + Output(cipher, run.message)
    }

    /** The run stands exactly after its first `count` chunks. */
    ghost predicate After(sink: Sink, run: Run, start: Bytes, base: set<Sealing>, count: nat)
      reads this, sink
    {
      && run.Valid() && produced == base + run.Sealed() && run.message.identity == identity
      && run.records == count <= |Chunks(run.message.payload)|
      && sink.contents == start + Leading(cipher, run.message, count)
    }

    lemma AfterIsUnderway(sink: Sink, run: Run, start: Bytes, base: set<Sealing>, count: nat)
      requires After(sink, run, start, base, count)
      ensures Underway(sink, run, start, base)
    {
      LeadingWithin(cipher, run.message, count);
    }

    /** Reads one buffer and writes it as the next chunk. */
    method EncryptChunk(sink: Sink, source: Source, prefix: Bytes, ghost run: Run,
                        ghost start: Bytes, ghost base: set<Sealing>, count: nat)
      returns (error: Option<EncryptError>, ended: bool, ghost next: Run)
      requires After(sink, run, start, base, count) && prefix == run.message.prefix
      requires Chunks(run.message.payload)[count..] == Chunks(source.rest)
      modifies sink, source, `produced
      ensures next.message == run.message && Underway(sink, next, start, base)
      ensures error.None? ==> After(sink, next, start, base, next.records)
      ensures error.None? ==> Chunks(run.message.payload)[next.records..] == Chunks(source.rest)
      ensures error.None? ==> next.records == if old(source.rest) == [] then count else count + 1
      ensures error.None? ==> ended == (|old(source.rest)| < CHUNK_SIZE)
      ensures error.None? && ended ==> source.rest == []
      ensures error.None? && !ended ==> |source.rest| < |old(source.rest)|
      ensures old(sink.plan) == [] ==> sink.plan == []
      ensures old(sink.plan) == [] && !source.broken && error.Some? ==> old(source.rest) != [] && count == MAX_INDEX
    {
      AfterIsUnderway(sink, run, start, base, count);
      NextChunk(source.rest);
      next := run;
      var chunk, last, failed := source.ReadFull(CHUNK_SIZE);
      ended := last;
      if failed {
        return Some(ReadError), ended, run;
      }
      if |chunk| > 0 {
        if count == MAX_INDEX {
          return Some(TooManyChunks), ended, run;
        }
        var ok;
        ok, next := NextRecord(sink, run, start, base, prefix, count, chunk, false);
        if !ok {
          return Some(WriteError), ended, next;
        }
      }
      return None, ended, next;
    }

    /** The loop over the chunks, after the header has been written. */
    method EncryptChunks(sink: Sink, source: Source, prefix: Bytes, ghost first: Run,
                         ghost start: Bytes, ghost base: set<Sealing>)
      returns (error: Option<EncryptError>, ghost run: Run, count: nat)
      requires After(sink, first, start, base, 0) && prefix == first.message.prefix
      requires first.message.payload == source.rest
      modifies sink, source, `produced
      ensures run.message == first.message && Underway(sink, run, start, base)
      ensures error.None? ==> After(sink, run, start, base, count) && count == |Chunks(run.message.payload)|
      ensures old(sink.plan) == [] ==> sink.plan == []
      ensures old(sink.plan) == [] && !source.broken && error.Some? ==> !first.message.Fits()
    {
      run, count := first, 0;
      var ended := false;
      while true
        invariant run.message == first.message && After(sink, run, start, base, count)
        invariant Chunks(run.message.payload)[count..] == Chunks(source.rest)
        invariant old(sink.plan) == [] ==> sink.plan == []
        decreases |source.rest|
      {
        var more := source.rest != [];
        error, ended, run := EncryptChunk(sink, source, prefix, run, start, base, count);
        if error.Some? {
          return;
        }
        count := if more then count + 1 else count;
        if ended {
          AfterIsUnderway(sink, run, start, base, count);
          return;
        }
      }
    }

    /** Encrypts everything `source` holds under the nonce prefix drawn for this
        run, if drawing it succeeded. The ghost result is the run, with as many
        records as were sealed. */
    method Encrypt(sink: Sink, source: Source, random: Option<Bytes>)
      returns (error: Option<EncryptError>, ghost run: Option<Run>)
      requires random.Some? ==> |random.value| == PREFIX_SIZE
      modifies sink, source, `produced
      ensures run.Some? <==> !closed && random.Some?
      ensures run.None? ==> produced == old(produced) && sink.contents == old(sink.contents)
      ensures run.Some? ==>
                && run.value.Valid() && run.value.message == Message(random.value, identity, old(source.rest))
                && produced == old(produced) + run.value.Sealed()
                && old(sink.contents) <= sink.contents <= old(sink.contents) + Output(cipher, run.value.message)
      ensures error.None? ==>
                && run.Some? && run.value.Complete()
                && sink.contents == old(sink.contents) + Encoded(cipher, run.value.message)
      ensures run.Some? && old(sink.plan) == [] && !source.broken ==>
                (error.None? <==> run.value.message.Fits())
    {
      run := None;
      if closed {
        return Some(KeyClosed), run;
      }
      if random.None? {
        return Some(RandomFailed), run;
      }
      var prefix := random.value;
      ghost var start, base, message := sink.contents, produced, Message(prefix, identity, source.rest);
      var ok := WriteHeader(sink, message, prefix);
      if !ok {
        return Some(WriteError), Some(Run(message, 0));
      }
      ghost var now;
      var count;
      error, now, count := EncryptChunks(sink, source, prefix, Run(message, 0), start, base);
      if error.Some? {
        return error, Some(now);
      }
      LeadingThenRest(cipher, message, count);
      ok, now := NextRecord(sink, now, start, base, prefix, count, [], true);
      return if ok then None else Some(WriteError), Some(now);
    }

    /** The loop over the records, after the header has been read. */
    method DecryptRecords(sink: Sink, prefix: Bytes, body: Bytes) returns (error: Option<DecryptError>)
      requires cipher.Ideal()
      modifies sink
      ensures Explains(DecodeRecords(View(), prefix, body, 0, []), error, old(sink.contents), sink.contents)
      ensures old(sink.plan) == [] ==> error != Some(OutputError)
    {
      var reader := View();
      ghost var decoded := DecodeRecords(reader, prefix, body, 0, []);
      ghost var text: Bytes := [];
      var rest, index, ended := body, 0, false;
      while true
        invariant index <= MAX_INDEX && sink.contents == old(sink.contents) + text
        invariant DecodeRecords(reader, prefix, rest, index, text) == decoded
        invariant old(sink.plan) == [] ==> sink.plan == []
        decreases |rest|
      {
        ended, error, rest, text := DecryptRecord(sink, reader, prefix, rest, index, old(sink.contents), text, decoded);
        if ended {
          return;
        }
        index := index + 1;
      }
    }

    /** Decrypts `input`, writing each chunk as it is authenticated. */
    method Decrypt(sink: Sink, input: Bytes) returns (error: Option<DecryptError>)
      requires cipher.Ideal()
      modifies sink
      ensures closed ==> error == Some(ClosedKey) && sink.contents == old(sink.contents)
      ensures !closed ==> Explains(Decode(View(), input), error, old(sink.contents), sink.contents)
      ensures !closed && old(sink.plan) == [] ==> error != Some(OutputError)
    {
      if closed {
        return Some(ClosedKey);
      }
      var header := |MAGIC| + PREFIX_SIZE;
      if |input| < header || input[..|MAGIC|] != MAGIC {
        return Some(Corrupt);
      }
      error := DecryptRecords(sink, input[|MAGIC|..header], input[header..]);
    }
  }

  /** Writes the next authenticated piece of the text `all`. */
  method Deliver(sink: Sink, ghost start: Bytes, ghost text: Bytes, piece: Bytes, ghost all: Bytes) returns (ok: bool)
    requires sink.contents == start + text && text + piece <= all
    modifies sink
    ensures ok ==> sink.contents == start + (text + piece)
    ensures start <= sink.contents <= start + all
    ensures old(sink.plan) == [] ==> ok && sink.plan == []
  {
    Between(start, text, piece, all, sink.contents);
    ok := WriteAll(sink, piece);
    PrefixWithin(start, text + piece, all, sink.contents);
  }

  /** Authenticates and delivers one record. */
  method DecryptRecord(sink: Sink, reader: Reader, prefix: Bytes, input: Bytes, index: nat,
                       ghost start: Bytes, ghost text: Bytes, ghost decoded: Decoded)
    returns (ended: bool, error: Option<DecryptError>, rest: Bytes, ghost delivered: Bytes)
    requires reader.cipher.Ideal() && index <= MAX_INDEX && sink.contents == start + text
    requires DecodeRecords(reader, prefix, input, index, text) == decoded
    modifies sink
    ensures ended ==> Explains(decoded, error, start, sink.contents)
    ensures !ended ==>
              && index < MAX_INDEX && |rest| < |input| && sink.contents == start + delivered
              && DecodeRecords(reader, prefix, rest, index + 1, delivered) == decoded
    ensures old(sink.plan) == [] ==> error != Some(OutputError) && sink.plan == []
  {
    error, rest, delivered := Some(Corrupt), input, text;
    var parsed := ParseRecord(reader, prefix, input, index);
    if parsed.BadRecord? {
      return true, error, rest, delivered;
    }
    if parsed.Terminator? {
      return true, if parsed.rest == [] then None else error, rest, delivered;
    }
    DecodedExtends(reader, prefix, input, index, text);
    var ok := Deliver(sink, start, text, parsed.text, decoded.text);
    rest, delivered := parsed.rest, text + parsed.text;
    if !ok {
      error := Some(OutputError);
    }
    ended := !ok || index == MAX_INDEX;
  }

  /** How the outcome of a decryption relates to the stream's meaning: the error
      says whether the stream is whole, and the output is all of the delivered
      text, or a prefix of it if the writer failed. */
  ghost predicate Explains(decoded: Decoded, error: Option<DecryptError>, before: Bytes, after: Bytes) {
    match error
    case None => decoded.Accepted? && after == before + decoded.text
    case Some(Corrupt) => decoded.Rejected? && after == before + decoded.text
    case Some(OutputError) => before <= after <= before + decoded.text
    case Some(ClosedKey) => false
  }

  lemma SealedGrows(message: Message, index: nat)
    requires Run(message, index).Valid() && Run(message, index + 1).Valid()
    ensures Run(message, index + 1).Sealed() == Run(message, index).Sealed() + {message.Record(index)}
  {
  }

  lemma PrefixWithin(start: Bytes, part: Bytes, all: Bytes, now: Bytes)
    requires part <= all && start <= now <= start + part
    ensures now <= start + all
  {
  }

  lemma Between(start: Bytes, done: Bytes, piece: Bytes, all: Bytes, now: Bytes)
    requires done + piece <= all && start + done <= now <= start + done + piece
    ensures start <= now <= start + all
    ensures start + done + piece == start + (done + piece)
  {
  }

  lemma {:induction false} DecodedExtends(reader: Reader, prefix: Bytes, input: Bytes, index: nat, text: Bytes)
    requires reader.cipher.Ideal() && index <= MAX_INDEX
    ensures var decoded := DecodeRecords(reader, prefix, input, index, text);
            var parsed := ParseRecord(reader, prefix, input, index);
            && text <= decoded.text && (parsed.Chunk? ==> text + parsed.text <= decoded.text)
            && (parsed.Chunk? && index < MAX_INDEX ==>
                  decoded == DecodeRecords(reader, prefix, parsed.rest, index + 1, text + parsed.text))
    decreases |input|
  {
    var parsed := ParseRecord(reader, prefix, input, index);
    if parsed.Chunk? && index < MAX_INDEX {
      DecodedExtends(reader, prefix, parsed.rest, index + 1, text + parsed.text);
    }
  }
}
