/** The byte string that identifies an entry (entry.go), and what it determines. */
module EntryHash {
  import opened HexTypes
  import opened Chains

  /** Big-endian encoding of `n` on `width` bytes. */
  function BigEndian(n: nat, width: nat): (b: Bytes)
    ensures |b| == width
  {
    if width == 0 then [] else BigEndian(n / 0x100, width - 1) + [n % 0x100]
  }

  function FromBigEndian(b: Bytes): nat {
    if b == [] then 0 else FromBigEndian(b[..|b| - 1]) * 0x100 + b[|b| - 1]
  }

  function Pow256(width: nat): nat {
    if width == 0 then 1 else Pow256(width - 1) * 0x100
  }

  lemma {:induction false} BigEndianRoundTrip(n: nat, width: nat)
    requires n < Pow256(width)
    ensures FromBigEndian(BigEndian(n, width)) == n
  {
    if width > 0 {
      BigEndianRoundTrip(n / 0x100, width - 1);
      assert BigEndian(n, width)[..width - 1] == BigEndian(n / 0x100, width - 1);
    }
  }

  lemma WordSizes()
    ensures Pow256(4) == 0x1_0000_0000
    ensures Pow256(8) == 0x1_0000_0000_0000_0000
  {
    assert Pow256(2) == 0x1_0000;
    assert Pow256(4) == Pow256(3) * 0x100;
    assert Pow256(6) == Pow256(5) * 0x100;
    assert Pow256(8) == Pow256(7) * 0x100;
  }

  /** What Entry.Hash writes to the hash function, in order. */
  function Preimage(e: Entry): Bytes {
    e.previous.bytes + BigEndian(e.timestamp, 8) + BigEndian(e.ltime, 8) + BigEndian(e.height, 4) + e.key.bytes + e.data
  }

  /** A hash function fed by successive writes, as Go's hash.Hash. */
  class HashFunc {
    const digest: Bytes -> Id
    var written: Bytes

    constructor (digest: Bytes -> Id)
      ensures this.digest == digest && written == []
    {
      this.digest, written := digest, [];
    }

    method Write(b: Bytes)
      modifies this
      ensures written == old(written) + b
    {
      written := written + b;
    }

    /** Entry.Hash: a used hash function would hash its earlier input as well. */
    method Hash(e: Entry) returns (id: Id)
      modifies this
      ensures id == digest(old(written) + Preimage(e))
    {
      Write(e.previous.bytes);
      Write(BigEndian(e.timestamp, 8));
      Write(BigEndian(e.ltime, 8));
      Write(BigEndian(e.height, 4));
      Write(e.key.bytes);
      Write(e.data);
      assert written == old(written) + Preimage(e);
      id := digest(written);
    }
  }

  /** Reads an entry back from its pre-image, given the lengths of its id and key fields. */
  function Decode(b: Bytes, idLength: nat, keyLength: nat): Option<Entry> {
    if |b| < idLength + 20 + keyLength then None
    else
      var timestamp, ltime, height :=
        FromBigEndian(b[idLength..idLength + 8]),
        FromBigEndian(b[idLength + 8..idLength + 16]),
        FromBigEndian(b[idLength + 16..idLength + 20]);
      if timestamp < 0x1_0000_0000_0000_0000 && ltime < 0x1_0000_0000_0000_0000 && height < 0x1_0000_0000 then
        Some(Entry(Key(b[idLength + 20..idLength + 20 + keyLength]), Id(b[..idLength]), height, timestamp, ltime,
                   b[idLength + 20 + keyLength..]))
      else None
  }

  /** The pre-image decodes back to the entry, for data of any length. */
  lemma PreimageRoundTrip(e: Entry)
    ensures Decode(Preimage(e), |e.previous.bytes|, |e.key.bytes|) == Some(e)
  {
    WordSizes();
    BigEndianRoundTrip(e.timestamp, 8);
    BigEndianRoundTrip(e.ltime, 8);
    BigEndianRoundTrip(e.height, 4);
    var b, n, k := Preimage(e), |e.previous.bytes|, |e.key.bytes|;
    assert b[..n] == e.previous.bytes;
    assert b[n..n + 8] == BigEndian(e.timestamp, 8);
    assert b[n + 8..n + 16] == BigEndian(e.ltime, 8);
    assert b[n + 16..n + 20] == BigEndian(e.height, 4);
    assert b[n + 20..n + 20 + k] == e.key.bytes;
    assert b[n + 20 + k..] == e.data;
  }

  /** `n` without its last `i` bytes. */
  function Shifted(n: nat, i: nat): nat {
    if i == 0 then n else Shifted(n / 0x100, i - 1)
  }

  /** The most significant byte comes first. */
  lemma {:induction false} BigEndianByte(n: nat, width: nat, i: nat)
    requires i < width
    ensures BigEndian(n, width)[width - 1 - i] == Shifted(n, i) % 0x100
  {
    if i > 0 {
      BigEndianByte(n / 0x100, width - 1, i - 1);
    }
  }

  /** Where each field lies in the pre-image. */
  lemma PreimageLayout(e: Entry)
    ensures
      var (b, n, k) := (Preimage(e), |e.previous.bytes|, |e.key.bytes|);
      && |b| == n + 20 + k + |e.data| && b[..n] == e.previous.bytes
      && (forall i :: 0 <= i < 8 ==> b[n + 7 - i] == Shifted(e.timestamp, i) % 0x100)
      && (forall i :: 0 <= i < 8 ==> b[n + 15 - i] == Shifted(e.ltime, i) % 0x100)
      && (forall i :: 0 <= i < 4 ==> b[n + 19 - i] == Shifted(e.height, i) % 0x100)
      && b[n + 20..n + 20 + k] == e.key.bytes && b[n + 20 + k..] == e.data
  {
    var n := |e.previous.bytes|;
    hide BigEndian, Shifted;
    forall i | 0 <= i < 8
      ensures BigEndian(e.timestamp, 8)[7 - i] == Shifted(e.timestamp, i) % 0x100
      ensures BigEndian(e.ltime, 8)[7 - i] == Shifted(e.ltime, i) % 0x100
    {
      BigEndianByte(e.timestamp, 8, i);
      BigEndianByte(e.ltime, 8, i);
    }
    forall i | 0 <= i < 4
      ensures BigEndian(e.height, 4)[3 - i] == Shifted(e.height, i) % 0x100
    {
      BigEndianByte(e.height, 4, i);
    }
  }

  /** Exactly what two entries with the same pre-image share, ids being of one length: only the border
      between key and data is open. */
  lemma SamePreimage(a: Entry, b: Entry)
    requires |a.previous.bytes| == |b.previous.bytes|
    ensures Preimage(a) == Preimage(b) <==>
            a.previous == b.previous && a.timestamp == b.timestamp && a.ltime == b.ltime && a.height == b.height
            && a.key.bytes + a.data == b.key.bytes + b.data
    ensures |a.key.bytes| == |b.key.bytes| ==> (Preimage(a) == Preimage(b) <==> a == b)
  {
    // moving the whole of key and data into the data keeps the pre-image
    var a', b' := a.(key := Key([]), data := a.key.bytes + a.data), b.(key := Key([]), data := b.key.bytes + b.data);
    assert Preimage(a') == Preimage(a);
    assert Preimage(b') == Preimage(b);
    PreimageRoundTrip(a');
    PreimageRoundTrip(b');
    PreimageRoundTrip(a);
    PreimageRoundTrip(b);
  }

  /** Two entries of different keys, both fit to be first in their logs, can share a pre-image, whatever the length of
      ids; so no hash function tells them apart. */
  lemma KeysCanCollide(size: nat) returns (a: Entry, b: Entry)
    ensures a.key != b.key && Preimage(a) == Preimage(b)
    ensures a.previous == b.previous == ZeroId(size) && a.height == b.height == 1
  {
    a := Entry(Key([1]), ZeroId(size), 1, 0, 0, [2, 3]);
    b := Entry(Key([1, 2]), ZeroId(size), 1, 0, 0, [3]);
    assert a.key.bytes + a.data == b.key.bytes + b.data;
    SamePreimage(a, b);
  }

  /** Entry ids computed from pre-images by a digest. */
  function HashingOf(digest: Bytes -> Id, size: nat): Hashing {
    Hashing(e => digest(Preimage(e)), size)
  }

  /** A digest that has no collision among the pre-images in use gives ids as the other layers need them, provided
      no two keys share a pre-image. */
  lemma DigestIsSound(digest: Bytes -> Id, size: nat, u: iset<Entry>)
    requires forall e :: e in u ==>
               |e.previous.bytes| == size && |digest(Preimage(e)).bytes| == size && !IsZero(digest(Preimage(e)))
    requires forall a, b :: a in u && b in u && digest(Preimage(a)) == digest(Preimage(b)) ==>
               Preimage(a) == Preimage(b)
    requires forall a, b :: a in u && b in u && Preimage(a) == Preimage(b) ==> a.key == b.key
    ensures Sound(HashingOf(digest, size), u)
  {
    var h := HashingOf(digest, size);
    forall a, b | a in u && b in u && SameId(h, a, b)
      ensures a == b
    {
      SamePreimage(a, b);
    }
  }
}
