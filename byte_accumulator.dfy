/** The `ByteAccumulator` class of the beginner async/await chapter: a
    pre-sized byte buffer filled front to back, with a per-batch counter that
    tells the download loop when to publish progress. */
module BatchByteAccumulator {
  import opened Common

  /** `max(Int(Double(size) / 20), 1)`: a twentieth of the size, truncated,
      and at least one byte. */
  function ChunkCount(size: int): (c: int)
    requires size >= 0
    ensures c >= 1
    ensures size >= 20 ==> c == size / 20
    ensures size < 20 ==> c == 1
  {
    if size / 20 >= 1 then size / 20 else 1
  }

  class ByteAccumulator {
    var offset: int
    var counter: int
    const name: string
    const size: int
    const chunkCount: int
    const bytes: array<bv8>
    /** The bytes appended so far, in order. */
    ghost var appended: seq<bv8>

    /** The buffer holds the appended bytes in front of `offset` and its
        initial zeros behind it. */
    ghost predicate Valid()
      reads this, bytes
    {
      && size >= 0 && bytes.Length == size
      && chunkCount == ChunkCount(size)
      && 0 <= offset <= size && |appended| == offset
      && bytes[..offset] == appended
      && forall i :: offset <= i < size ==> bytes[i] == 0
    }

    /** `init(name:size:)`. A negative `size` would trap when the buffer is
        allocated. */
    constructor (name: string, size: int)
      requires size >= 0
      ensures Valid() && fresh(bytes)
      ensures this.name == name && this.size == size
      ensures offset == 0 && counter == 0 && appended == []
      ensures bytes[..] == seq(size, _ => 0)
    {
      this.name := name;
      this.size := size;
      chunkCount := ChunkCount(size);
      bytes := new bv8[size](_ => 0);
      offset, counter := 0, 0;
      appended := [];
    }

    /** `append(_:)`: writes the byte at `offset`; past the end of the buffer
        the write would trap. */
    method Append(b: bv8)
      requires Valid() && offset < size
      modifies this, bytes
      ensures Valid()
      ensures bytes[..] == old(bytes[..])[old(offset) := b]
      ensures appended == old(appended) + [b]
      ensures offset == old(offset) + 1 && counter == old(counter) + 1
    {
      bytes[offset] := b;
      counter := counter + 1;
      offset := offset + 1;
      appended := appended + [b];
      assert bytes[..offset] == old(bytes[..offset]) + [b];
    }

    /** `batch(_:)`: resets the batch counter and runs the block, which here
        appends `block` in order and then, when `thrown` is given, throws it.
        The result says whether the block appended anything. */
    method Batch(block: seq<bv8>, thrown: Option<Error>) returns (r: Result<bool>)
      requires Valid() && offset + |block| <= size
      modifies this, bytes
      ensures Valid()
      ensures appended == old(appended) + block && offset == old(offset) + |block|
      ensures counter == |block|
      ensures thrown.Some? ==> r == Err(thrown.value)
      ensures thrown.None? ==> r == Ok(|block| > 0)
    {
      counter := 0;
      for i := 0 to |block|
        invariant Valid() && offset == old(offset) + i && counter == i
        invariant appended == old(appended) + block[..i]
      {
        Append(block[i]);
        assert block[..i + 1] == block[..i] + [block[i]];
      }
      assert block[..|block|] == block;
      if thrown.Some? {
        return Err(thrown.value);
      }
      r := Ok(counter > 0);
    }

    /** `isBatchCompleted`: the current batch holds `chunkCount` bytes. */
    predicate IsBatchCompleted()
      reads this
    {
      counter >= chunkCount
    }
  }
}
