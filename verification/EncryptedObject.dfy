// The chunk plan of an encrypted object.

module EncryptedObject {
  import opened Arith
  import opened Sequences

  const MAX_CHUNK_BYTES: nat := 8_388_608
  const MAX_CHUNKS: nat := 32767

  function ChunkCount(plainSize: nat): nat {
    ((if plainSize == 0 then 1 else plainSize) + MAX_CHUNK_BYTES - 1) / MAX_CHUNK_BYTES
  }

  lemma ChunkCountFits(plainSize: nat)
    ensures ChunkCount(plainSize) >= 1 && plainSize <= ChunkCount(plainSize) * MAX_CHUNK_BYTES
    ensures plainSize > 0 ==> plainSize > (ChunkCount(plainSize) - 1) * MAX_CHUNK_BYTES
  {
  }

  /**
   * The loop of `encrypt_object`: the chunks it encrypts are exactly the source, their sizes sum to the
   * declared plain size, every chunk but the last is full, and `remaining` always ends at zero.
   */
  method EncryptObject(source: Bytes, plainSize: nat, digestMatches: bool)
    returns (ok: bool, chunks: seq<Bytes>, remaining: nat)
    ensures ok <==> ChunkCount(plainSize) <= MAX_CHUNKS && |source| == plainSize && digestMatches
    ensures ok ==> Joined(chunks) == source && remaining == 0 && |chunks| == ChunkCount(plainSize)
    ensures ok ==> forall i :: 0 <= i < |chunks| ==>
              |chunks[i]| == Min(MAX_CHUNK_BYTES, plainSize - i * MAX_CHUNK_BYTES)
    ensures ok ==> forall i :: 0 <= i < |chunks| - 1 ==> |chunks[i]| == MAX_CHUNK_BYTES
    ensures ChunkCount(plainSize) <= MAX_CHUNKS && |source| >= plainSize ==> remaining == 0
  {
    var chunkCount := ChunkCount(plainSize);
    ChunkCountFits(plainSize);
    chunks, remaining := [], plainSize;
    if chunkCount > MAX_CHUNKS {
      return false, chunks, remaining;
    }
    var offset := 0;
    for index := 0 to chunkCount
      invariant |chunks| == index && offset == plainSize - remaining && offset <= |source|
      invariant remaining == if index * MAX_CHUNK_BYTES <= plainSize then plainSize - index * MAX_CHUNK_BYTES else 0
      invariant Joined(chunks) == source[..offset]
      invariant forall i :: 0 <= i < index ==>
                  i * MAX_CHUNK_BYTES <= plainSize
                  && |chunks[i]| == Min(MAX_CHUNK_BYTES, plainSize - i * MAX_CHUNK_BYTES)
    {
      var size := Min(remaining, MAX_CHUNK_BYTES);
      if offset + size > |source| {
        return false, chunks, remaining;
      }
      JoinedAppend(chunks, source[offset..offset + size]);
      assert source[..offset + size] == source[..offset] + source[offset..offset + size];
      chunks := chunks + [source[offset..offset + size]];
      offset := offset + size;
      remaining := remaining - size;
    }
    assert remaining == 0;
    if remaining != 0 || offset < |source| || !digestMatches {
      return false, chunks, remaining;
    }
    assert source[..offset] == source;
    ok := true;
  }
}
