/** The content-addressed blob directory (src/reduce/storage.rs).  SHA-256 is
    an ideal hash: a digest stands for the bytes it was computed from.  Text is
    identified with its UTF-8 encoding.  Writes and deletes are atomic. */
module ContentStore {
  import opened Wrappers

  type Bytes = string

  datatype Digest = Sha256(preimage: Bytes)

  type Blobs = map<Digest, Bytes>

  /** An upstream response as it is stored and replayed. */
  datatype Response = Response(status: nat, body: Bytes)

  /** Every file holds the bytes its name was computed from. */
  ghost predicate Addressed(blobs: Blobs) {
    forall h :: h in blobs ==> blobs[h] == h.preimage
  }

  function Stored(blobs: Blobs, raw: Bytes): Blobs {
    blobs[Sha256(raw) := raw]
  }

  // ---- Bytes on disk ----

  ghost function DiskBytes(blobs: Blobs): nat
    decreases |blobs|
  {
    if blobs == map[] then 0
    else
      var h :| h in blobs;
      |blobs[h]| + DiskBytes(blobs - {h})
  }

  /** Any file may be counted first. */
  lemma {:induction false} DiskBytesPick(blobs: Blobs, h: Digest)
    requires h in blobs
    ensures DiskBytes(blobs) == |blobs[h]| + DiskBytes(blobs - {h})
    decreases |blobs|
  {
    var g :| g in blobs && DiskBytes(blobs) == |blobs[g]| + DiskBytes(blobs - {g});
    if g != h {
      DiskBytesPick(blobs - {g}, h);
      DiskBytesPick(blobs - {h}, g);
      assert blobs - {g} - {h} == blobs - {h} - {g};
    }
  }

  lemma DiskBytesStored(blobs: Blobs, raw: Bytes)
    requires Addressed(blobs)
    ensures Sha256(raw) in blobs ==> Stored(blobs, raw) == blobs
    ensures Sha256(raw) !in blobs ==> DiskBytes(Stored(blobs, raw)) == DiskBytes(blobs) + |raw|
  {
    var h := Sha256(raw);
    if h !in blobs {
      DiskBytesPick(Stored(blobs, raw), h);
      assert Stored(blobs, raw) - {h} == blobs;
    }
  }

  lemma {:induction false} DiskBytesRemoved(blobs: Blobs, gone: set<Digest>)
    ensures DiskBytes(blobs - gone) <= DiskBytes(blobs)
    decreases |blobs|
  {
    if h :| h in blobs && h in gone {
      DiskBytesPick(blobs, h);
      DiskBytesRemoved(blobs - {h}, gone);
      assert blobs - {h} - gone == blobs - gone;
    } else {
      assert blobs - gone == blobs;
    }
  }

  // ---- The directory ----

  class CasStore {
    var blobs: Blobs

    constructor ()
      ensures blobs == map[]
    {
      blobs := map[];
    }

    method Store(raw: Bytes) returns (hash: Digest)
      modifies this
      ensures hash == Sha256(raw) && blobs == Stored(old(blobs), raw)
    {
      hash := Sha256(raw);
      blobs := blobs[hash := raw];
    }

    /** Writes nothing when a file of that name exists. */
    method StoreNew(raw: Bytes) returns (hash: Digest, created: bool)
      modifies this
      ensures hash == Sha256(raw) && (created <==> hash !in old(blobs))
      ensures blobs == if created then Stored(old(blobs), raw) else old(blobs)
    {
      hash := Sha256(raw);
      created := hash !in blobs;
      if created {
        blobs := blobs[hash := raw];
      }
    }

    method Retrieve(hash: Digest) returns (r: Option<Bytes>)
      ensures r == if hash in blobs then Some(blobs[hash]) else None
    {
      r := if hash in blobs then Some(blobs[hash]) else None;
    }

    method Delete(hash: Digest) returns (removed: bool)
      modifies this
      ensures removed <==> hash in old(blobs)
      ensures blobs == old(blobs) - {hash}
    {
      removed := hash in blobs;
      blobs := blobs - {hash};
    }

    /** Adds up the files in whatever order the directory lists them. */
    method CountBytes() returns (total: nat)
      ensures total == DiskBytes(blobs)
    {
      total := 0;
      var rest := blobs;
      while rest != map[]
        invariant rest.Keys <= blobs.Keys && forall h :: h in rest ==> rest[h] == blobs[h]
        invariant total + DiskBytes(rest) == DiskBytes(blobs)
        decreases |rest|
      {
        var h :| h in rest;
        DiskBytesPick(rest, h);
        total := total + |rest[h]|;
        rest := rest - {h};
      }
    }
  }
}
