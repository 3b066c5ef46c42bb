/** The `ByteAccumulator` struct of the async-sequence chapter: the same
    pre-sized buffer, whose batch counter starts at -1 and is reset by
    `checkCompleted` instead of by a `batch` wrapper. */
module StreamByteAccumulator {
  import opened BatchByteAccumulator

  class ByteAccumulator {
    var offset: int
    var counter: int
    const name: string
    const size: int
    const chunkCount: int
    var bytes: seq<bv8>
    /** The bytes appended so far, in order. */
    ghost var appended: seq<bv8>
    /** Whether `checkCompleted` has run yet. */
    ghost var checked: bool
    /** The bytes appended since the last `checkCompleted`, or since the
        start before the first one. */
    ghost var sinceCheck: nat

    /** The buffer holds the appended bytes in front of `offset` and zeros
        behind it; the counter trails the bytes since the last check by one
        until the first check. */
    ghost predicate Valid()
      reads this
    {
      && size >= 0 && |bytes| == size
      && chunkCount == ChunkCount(size)
      && 0 <= offset <= size && |appended| == offset
      && bytes[..offset] == appended
      && (forall i :: offset <= i < size ==> bytes[i] == 0)
      && counter == sinceCheck - (if checked then 0 else 1)
    }

    /** `init(name:size:)`; the counter starts at -1. A negative `size`
        would trap when the buffer is allocated. */
    constructor (name: string, size: int)
      requires size >= 0
      ensures Valid() && this.name == name && this.size == size
      ensures offset == 0 && counter == -1 && appended == []
      ensures !checked && sinceCheck == 0
      ensures bytes == seq(size, _ => 0)
    {
      this.name := name;
      this.size := size;
      chunkCount := ChunkCount(size);
      bytes := seq(size, _ => 0);
      offset, counter := 0, -1;
      appended, checked, sinceCheck := [], false, 0;
    }

    /** `data`: the bytes appended so far, in order. */
    function Data(): (d: seq<bv8>)
      requires Valid()
      reads this
      ensures d == appended && |d| == offset
    {
      bytes[..offset]
    }

    /** `append(_:)`: writes the byte at `offset`; past the end of the buffer
        the write would trap. */
    method Append(b: bv8)
      requires Valid() && offset < size
      modifies this
      ensures Valid()
      ensures bytes == old(bytes)[old(offset) := b]
      ensures appended == old(appended) + [b] && Data() == old(Data()) + [b]
      ensures offset == old(offset) + 1 && counter == old(counter) + 1
      ensures checked == old(checked) && sinceCheck == old(sinceCheck) + 1
    {
      bytes := bytes[offset := b];
      counter := counter + 1;
      offset := offset + 1;
      appended, sinceCheck := appended + [b], sinceCheck + 1;
      assert bytes[..offset] == old(bytes[..offset]) + [b];
    }

    /** `isBatchCompleted`: the counter has reached `chunkCount`. Because
        the counter starts at -1, the first batch needs one byte more than
        the later ones. */
    function IsBatchCompleted(): (done: bool)
      requires Valid()
      reads this
      ensures done <==> sinceCheck >= chunkCount + (if checked then 0 else 1)
    {
      counter >= chunkCount
    }

    /** `checkCompleted`: whether the counter read 0, after which (`defer`)
        it is reset to 0. So it is false on a fresh accumulator, true after
        exactly one byte before the first check, and afterwards true exactly
        when nothing was appended since the previous check. */
    method CheckCompleted() returns (r: bool)
      requires Valid()
      modifies this
      ensures Valid() && counter == 0 && checked && sinceCheck == 0
      ensures r <==> old(sinceCheck) == (if old(checked) then 0 else 1)
      ensures r == (old(counter) == 0)
      ensures bytes == old(bytes) && offset == old(offset) && appended == old(appended)
    {
      r := counter == 0;
      counter := 0;
      checked, sinceCheck := true, 0;
    }
  }
}
