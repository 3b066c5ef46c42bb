/** The split arithmetic of SuperStorage's multi-connection download: the
    four parts `partInfo` computes in the beginner chapter, and the batch
    count `multiDownloadWithProgress` settles on in the async-sequence
    chapter. The `Double` arithmetic is done on integers, which agrees with
    it for every size a `Double` represents exactly. */
module Multipart {
  import opened Common

  /** `DownloadFile`: the name and size the server lists; its date is not
      modelled. */
  datatype DownloadFile = DownloadFile(name: string, size: int)

  /** One part of a download: where it starts, how many bytes, its name. */
  datatype Part = Part(offset: int, size: int, name: string)

  /** `Int((Double(a) / Double(b)).rounded(.up))`, for a positive `b`: the
      least multiple count of `b` that reaches `a`. */
  function CeilDiv(a: int, b: int): (q: int)
    requires b > 0
    ensures b * q >= a && b * (q - 1) < a
  {
    var f := (-a) / b;
    assert -a == b * f + (-a) % b;
    -f
  }

  /** `partInfo(index:of:)`: parts of the rounded-up standard size, one after
      another from offset 0, the last one cut at the end of the file. */
  function PartInfo(file: DownloadFile, index: int, count: int): (p: Part)
    requires count > 0
    ensures p.offset == index * CeilDiv(file.size, count)
    ensures p.size <= CeilDiv(file.size, count) && p.offset + p.size <= file.size
    ensures p.size == CeilDiv(file.size, count) || p.offset + p.size == file.size
  {
    var standardPartSize := CeilDiv(file.size, count);
    var partOffset := index * standardPartSize;
    var partSize := if standardPartSize <= file.size - partOffset then standardPartSize
                    else file.size - partOffset;
    Part(partOffset, partSize, file.name + " (part " + IntToString(index + 1) + ")")
  }

  /** `total`: the number of parts. */
  const PartCount: int := 4

  /** `(0..<total).map { partInfo(index: $0, of: total) }`. */
  function Parts(file: DownloadFile): (parts: seq<Part>)
    ensures |parts| == PartCount
    ensures forall i :: 0 <= i < PartCount ==> parts[i] == PartInfo(file, i, PartCount)
  {
    seq(PartCount, i => PartInfo(file, i, PartCount))
  }

  /** The parts follow one another: each starts where the previous standard
      part ends, each is named after its 1-based index, and together the
      parts reach the end of the file, none past it. */
  lemma PartsTile(file: DownloadFile)
    ensures forall i :: 0 < i < PartCount ==>
              Parts(file)[i].offset == Parts(file)[i - 1].offset + CeilDiv(file.size, PartCount)
    ensures forall i :: 0 <= i < PartCount ==>
              Parts(file)[i].name == file.name + " (part " + IntToString(i + 1) + ")"
    ensures Parts(file)[PartCount - 1].offset + CeilDiv(file.size, PartCount) >= file.size
    ensures forall i :: 0 <= i < PartCount ==> Parts(file)[i].offset + Parts(file)[i].size <= file.size
  {
    var s := CeilDiv(file.size, PartCount);
    forall i | 0 < i < PartCount
      ensures Parts(file)[i].offset == Parts(file)[i - 1].offset + s
    {
      assert i * s == (i - 1) * s + s;
    }
    assert 3 * s + s == 4 * s;
  }

  /** A file smaller than the parts leaves a part with a negative size:
      one byte split four ways gives the third part offset 2 and size -1. */
  lemma TinyFileNegativePart()
    ensures Parts(DownloadFile("a", 1))[2].offset == 2
    ensures Parts(DownloadFile("a", 1))[2].size == -1
  {
    assert CeilDiv(1, 4) == 1;
  }

  /** `numBatches` in `multiDownloadWithProgress`: six batches, and one more
      when `Double(size) / 6` is not a whole number, that is when rounding it
      down loses something. */
  function NumBatches(size: int): (n: int)
    ensures n == 6 || n == 7
  {
    var roundedBatchSize := size / 6;
    if 6 * roundedBatchSize < size then 7 else 6
  }

  /** The extra batch is added exactly when `size` is not a multiple of 6. */
  lemma NumBatchesRule(size: int)
    ensures NumBatches(size) == 7 <==> size % 6 != 0
  {
    assert size == 6 * (size / 6) + size % 6;
  }
}
