/**
 Sealed chunks. The cipher is ideal: a sealed value is a term, it opens only under its own key and
 nonce, and nobody without the key can build another one.
 */
module Sealing {
  import opened Wrappers

  type byte = x: int | 0 <= x < 256

  const NONCE_LEN: nat := 12
  const SEQ_LIMIT: nat := 0x1_0000_0000_0000_0000_0000_0000

  function Pow256(n: nat): (p: nat)
    ensures p > 0
  {
    if n == 0 then 1 else 256 * Pow256(n - 1)
  }

  function BigEndian(n: nat, len: nat): (b: seq<byte>)
    requires n < Pow256(len)
    ensures |b| == len
  {
    if len == 0 then [] else BigEndian(n / 256, len - 1) + [n % 256]
  }

  function FromBigEndian(b: seq<byte>): nat {
    if b == [] then 0 else 256 * FromBigEndian(b[..|b| - 1]) + b[|b| - 1]
  }

  lemma {:induction false} BigEndianReads(n: nat, len: nat)
    requires n < Pow256(len)
    ensures FromBigEndian(BigEndian(n, len)) == n
  {
    if len > 0 {
      BigEndianReads(n / 256, len - 1);
      assert BigEndian(n, len)[..len - 1] == BigEndian(n / 256, len - 1);
    }
  }

  lemma NonceRange()
    ensures Pow256(NONCE_LEN) == SEQ_LIMIT
  {
    assert Pow256(4) == 0x1_0000_0000;
    assert Pow256(8) == 0x1_0000_0000_0000_0000;
  }

  /** A counter nonce, refused outside the range of twelve bytes. */
  function ChunkNonce(n: nat): Option<seq<byte>> {
    NonceRange();
    if n >= SEQ_LIMIT then None else Some(BigEndian(n, NONCE_LEN))
  }

  /** No two sequence numbers share a nonce. */
  lemma NoncesDiffer(m: nat, n: nat)
    requires ChunkNonce(m).Some? && ChunkNonce(m) == ChunkNonce(n)
    ensures m == n
  {
    NonceRange();
    BigEndianReads(m, NONCE_LEN);
    BigEndianReads(n, NONCE_LEN);
  }

  datatype Purpose = ForRequest | ForResponse

  datatype Key = Key(master: nat, purpose: Purpose)

  datatype Cipher = Sealed(key: Key, nonce: seq<byte>, data: string) | Junk(id: nat)

  function Seal(key: Key, n: nat, data: string): Option<Cipher> {
    match ChunkNonce(n)
    case None => None
    case Some(nonce) => Some(Sealed(key, nonce, data))
  }

  function Unseal(c: Cipher, key: Key, n: nat): Option<string> {
    if c.Sealed? && c.key == key && ChunkNonce(n) == Some(c.nonce) then Some(c.data) else None
  }

  function SealChunk(data: string, master: nat, n: nat): Option<Cipher> {
    Seal(Key(master, ForResponse), n, data)
  }

  function UnsealChunk(c: Cipher, master: nat, n: nat): Option<string> {
    Unseal(c, Key(master, ForResponse), n)
  }

  /** A chunk opens at one position of one response only: a reordered or repeated one fails to open. */
  lemma OpensInPlaceOnly(data: string, master: nat, n: nat, other: nat, place: nat)
    requires SealChunk(data, master, n).Some?
    ensures UnsealChunk(SealChunk(data, master, n).value, other, place) ==
            if other == master && place == n then Some(data) else None
  {
    if ChunkNonce(place) == ChunkNonce(n) {
      NoncesDiffer(n, place);
    }
  }

  /** The sealed request, which the relay also carries, opens as no chunk of any response. */
  lemma RequestIsNoChunk(payload: string, master: nat, iv: seq<byte>, other: nat, place: nat)
    ensures UnsealChunk(Sealed(Key(master, ForRequest), iv, payload), other, place) == None
  {
  }
}
