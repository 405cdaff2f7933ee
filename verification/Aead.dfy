/** An ideal authenticated cipher for one key: Open succeeds exactly on what
    Seal produced for the same nonce and associated data. */
module Aead {
  import opened Basics

  type Bytes = seq<byte>

  datatype Contract = V1 | V2

  datatype Identity = Identity(agent: string, principal: string, slot: string, generation: nat)

  /** The associated data of a payload record; its JSON encoding is injective. */
  datatype RecordData = RecordData(contract: Contract, identity: Identity, index: nat, length: nat, final: bool)

  datatype Sealing = Sealing(nonce: Bytes, data: RecordData, text: Bytes)

  const OVERHEAD := 16

  /** The cipher as a function of its inputs. */
  datatype Cipher = Cipher(seal: Sealing -> Bytes)
  {
    ghost predicate Ideal() {
      && (forall s: Sealing {:trigger seal(s)} :: |seal(s)| == |s.text| + OVERHEAD)
      && (forall s: Sealing, t: Sealing {:trigger seal(s), seal(t)} ::
            s.nonce == t.nonce && s.data == t.data && seal(s) == seal(t) ==> s.text == t.text)
    }

    /** `produced` holds every sealing ever made under the key. */
    function Open(produced: set<Sealing>, nonce: Bytes, data: RecordData, sealed: Bytes): (text: Option<Bytes>)
      requires Ideal()
      ensures text.Some? <==>
              exists s :: s in produced && s.nonce == nonce && s.data == data && seal(s) == sealed
      ensures text.Some? ==>
              Sealing(nonce, data, text.value) in produced && seal(Sealing(nonce, data, text.value)) == sealed
    {
      if exists s :: s in produced && s.nonce == nonce && s.data == data && seal(s) == sealed then
        var s :| s in produced && s.nonce == nonce && s.data == data && seal(s) == sealed;
        assert s == Sealing(nonce, data, s.text);
        Some(s.text)
      else None
    }
  }

  lemma OpenOfProduced(cipher: Cipher, produced: set<Sealing>, s: Sealing)
    requires cipher.Ideal() && s in produced
    ensures cipher.Open(produced, s.nonce, s.data, cipher.seal(s)) == Some(s.text)
  {
    var text := cipher.Open(produced, s.nonce, s.data, cipher.seal(s));
    assert text.Some?;
    var t := Sealing(s.nonce, s.data, text.value);
    assert cipher.seal(t) == cipher.seal(s);
  }
}
