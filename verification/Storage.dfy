/** The output files of a torrent and the two operations that cross file boundaries. */
module StorageFiles {
  import opened Bytes
  import opened FileMapping

  /** Files that were there keep their content; the others are new and empty. */
  ghost predicate Created(d0: Disk, d1: Disk) {
    && d0.Keys <= d1.Keys
    && forall p :: p in d1 ==> d1[p] == if p in d0 then d0[p] else []
  }

  lemma CreatedNone(d: Disk)
    ensures Created(d, d)
  {
  }

  lemma CreatedMore(d0: Disk, d1: Disk, path: Path)
    requires Created(d0, d1)
    ensures path !in d1 ==> Created(d0, d1[path := []])
  {
  }

  class Storage {
    var files: seq<OutputFile>
    var disk: Disk

    ghost predicate Valid()
      reads this
    {
      Contiguous(files, disk)
    }

    /** The content as one flat byte array, which the operations below refine. */
    ghost function Content(): (s: seq<byte>)
      reads this
      requires Valid()
      ensures |s| == TotalLength(files)
    {
      Flat(files, disk)
    }

    constructor (disk: Disk)
      ensures Valid() && files == [] && this.disk == disk
    {
      this.files := [];
      this.disk := disk;
    }

    method InitFiles(entries: seq<FileEntry>) returns (total: nat)
      requires forall j, k :: 0 <= j < k < |entries| ==> entries[j].path != entries[k].path
      modifies this
      ensures Valid()
      ensures |files| == |entries|
      ensures forall k :: 0 <= k < |files| ==> files[k].path == entries[k].path && files[k].length == entries[k].length
      ensures total == TotalLength(files) == SumLengths(entries)
      ensures Created(old(disk), disk)
    {
      hide Contiguous, Created;
      CreatedNone(disk);
      files := [];
      NoFiles(disk);
      var offset := 0;
      for k := 0 to |entries|
        invariant |files| == k
        invariant offset == TotalLength(files) == SumLengths(entries[..k])
        invariant forall j :: 0 <= j < k ==> files[j].path == entries[j].path && files[j].length == entries[j].length
        invariant Contiguous(files, disk)
        invariant Created(old(disk), disk)
      {
        FileAppended(files, disk, entries[k]);
        CreatedMore(old(disk), disk, entries[k].path);
        files := files + [OutputFile(entries[k].path, offset, entries[k].length)];
        if entries[k].path !in disk {
          disk := disk[entries[k].path := []];
        }
        offset := offset + entries[k].length;
        assert entries[..k + 1][..k] == entries[..k];
      }
      assert entries[..|entries|] == entries;
      total := offset;
    }

    /** Spreads `data` over the files from content offset `offset` on. */
    method WritePiece(offset: nat, data: seq<byte>)
      requires Valid()
      modifies `disk
      ensures Valid()
      ensures Content() == Overlay(old(Content()), offset, data)
      ensures SameOutside(files, old(disk), disk)
    {
      hide SameOutside, Contiguous, Overlay;
      SameOutsideReflexive(files, disk);
      ghost var before := Content();
      var pieceOffset, remaining, dataOffset := offset, |data|, 0;
      for k := 0 to |files|
        invariant 0 <= dataOffset <= |data|
        invariant pieceOffset == offset + dataOffset && remaining == |data| - dataOffset
        invariant k > 0 ==> files[k - 1].End() <= pieceOffset
        invariant Contiguous(files, disk)
        invariant Flat(files, disk) == Overlay(before, offset, data[..dataOffset])
        invariant SameOutside(files, old(disk), disk)
      {
        var f := files[k];
        ConsecutiveFiles(files, disk, k);
        if pieceOffset >= f.start + f.length { continue; }
        if pieceOffset + remaining <= f.start { break; }

        var fileOffset := if pieceOffset > f.start then pieceOffset - f.start else 0;
        var writeSize := if remaining < f.length - fileOffset then remaining else f.length - fileOffset;

        WriteRound(files, old(disk), before, disk, k, offset, data, dataOffset, fileOffset, writeSize);
        disk := disk[f.path := WriteAt(disk[f.path], fileOffset, data[dataOffset..dataOffset + writeSize])];

        remaining := remaining - writeSize;
        dataOffset := dataOffset + writeSize;
        pieceOffset := pieceOffset + writeSize;
        if remaining == 0 { break; }
      }
      OverlayCut(before, offset, data, dataOffset);
    }

    /** Gathers `length` bytes of content from content offset `offset` on; what lies past the content reads as zero. */
    method FetchBlock(offset: nat, length: nat) returns (out: seq<byte>)
      requires Valid()
      ensures out == Window(Content(), offset, length)
    {
      out := Zeros(length);
      ghost var flat := Content();
      var pieceOffset, remaining, dataOffset := offset, length, 0;
      assert out == Window(flat, offset, 0) + Zeros(length);
      for k := 0 to |files|
        invariant 0 <= dataOffset <= length
        invariant pieceOffset == offset + dataOffset && remaining == length - dataOffset
        invariant k > 0 ==> files[k - 1].End() <= pieceOffset
        invariant out == Window(flat, offset, dataOffset) + Zeros(length - dataOffset)
      {
        var f := files[k];
        ConsecutiveFiles(files, disk, k);
        if pieceOffset >= f.start + f.length { continue; }
        if pieceOffset + remaining <= f.start { break; }

        var fileOffset := if pieceOffset > f.start then pieceOffset - f.start else 0;
        var readSize := if remaining < f.length - fileOffset then remaining else f.length - fileOffset;

        ReadRound(files, disk, k, offset, length, dataOffset, fileOffset, readSize);
        out := Overlay(out, dataOffset, ReadAt(disk[f.path], fileOffset, readSize));

        remaining := remaining - readSize;
        dataOffset := dataOffset + readSize;
        pieceOffset := pieceOffset + readSize;
        if remaining == 0 { break; }
      }
      WindowCut(flat, offset, length, dataOffset);
    }
  }
}
