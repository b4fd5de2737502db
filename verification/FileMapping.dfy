/** The mapping from the linear content of a torrent to its list of files, as a value. */
module FileMapping {
  import opened Bytes

  type Path = seq<byte>

  /** What the metadata says about a file. */
  datatype FileEntry = FileEntry(path: Path, length: nat)

  datatype OutputFile = OutputFile(path: Path, start: nat, length: nat) {
    function End(): nat { start + length }
  }

  function SumLengths(entries: seq<FileEntry>): nat {
    if entries == [] then 0 else SumLengths(entries[..|entries| - 1]) + entries[|entries| - 1].length
  }

  type Disk = map<Path, seq<byte>>

  function TotalLength(files: seq<OutputFile>): nat {
    if files == [] then 0 else files[|files| - 1].End()
  }

  /** The table lays distinct existing files end to end, from offset 0; zero-length files are allowed. */
  ghost predicate Contiguous(files: seq<OutputFile>, disk: Disk) {
    && (forall k :: 0 <= k < |files| ==> files[k].path in disk)
    && (files != [] ==> files[0].start == 0)
    && (forall j, k :: 0 <= j < k < |files| && k == j + 1 ==> files[k].start == files[j].End())
    && (forall j, k :: 0 <= j < k < |files| ==> files[j].path != files[k].path)
  }

  /** The content of the torrent: the files one after the other, each read as its declared number of bytes. */
  ghost function Flat(files: seq<OutputFile>, disk: Disk): (s: seq<byte>)
    requires Contiguous(files, disk)
    ensures |s| == TotalLength(files)
  {
    if files == [] then []
    else
      var n := |files| - 1;
      assert Contiguous(files[..n], disk);
      Flat(files[..n], disk) + Window(disk[files[n].path], 0, files[n].length)
  }

  /** Seek to `at` and write `chunk`: a gap past the end of the file is filled with zeros. */
  function WriteAt(content: seq<byte>, at: nat, chunk: seq<byte>): (r: seq<byte>) {
    if chunk == [] then content
    else
      var size := if |content| < at + |chunk| then at + |chunk| else |content|;
      Overlay(Resize(content, size, 0), at, chunk)
  }

  /** What a file holds after a write, byte by byte. */
  lemma WrittenBytes(content: seq<byte>, at: nat, chunk: seq<byte>)
    ensures var r := WriteAt(content, at, chunk);
            && |r| == (if chunk == [] || at + |chunk| <= |content| then |content| else at + |chunk|)
            && forall x :: 0 <= x < |r| ==>
                 r[x] == if at <= x < at + |chunk| then chunk[x - at] else if x < |content| then content[x] else 0
  {
  }

  lemma ReadBytes(content: seq<byte>, at: nat, n: nat)
    ensures var r := ReadAt(content, at, n);
            && |r| == (if at >= |content| then 0 else if n <= |content| - at then n else |content| - at)
            && forall x :: 0 <= x < |r| ==> r[x] == content[at + x]
  {
  }

  /** Seek to `at` and read up to `n` bytes: fewer when the file ends first. */
  function ReadAt(content: seq<byte>, at: nat, n: nat): (r: seq<byte>)
    ensures |r| <= n
  {
    if at >= |content| then [] else if at + n <= |content| then content[at..at + n] else content[at..]
  }

  /** What a file holds beyond its declared length. */
  function Tail(content: seq<byte>, length: nat): seq<byte> {
    if length < |content| then content[length..] else []
  }

  /** Nothing but the flat content differs: no other file, and no byte past a file's declared length. */
  ghost predicate SameOutside(files: seq<OutputFile>, d0: Disk, d1: Disk) {
    && d0.Keys == d1.Keys
    && (forall p :: p in d0 && (forall k :: 0 <= k < |files| ==> files[k].path != p) ==> d1[p] == d0[p])
    && (forall k :: 0 <= k < |files| && files[k].path in d0 ==>
          Tail(d1[files[k].path], files[k].length) == Tail(d0[files[k].path], files[k].length))
  }

  lemma ConsecutiveFiles(files: seq<OutputFile>, disk: Disk, k: nat)
    requires Contiguous(files, disk) && k < |files|
    ensures files[k].path in disk
    ensures files[k].start == if k == 0 then 0 else files[k - 1].End()
    ensures k == |files| - 1 ==> files[k].End() == TotalLength(files)
  {
  }

  lemma ContiguousPrefix(files: seq<OutputFile>, disk: Disk)
    requires Contiguous(files, disk) && files != []
    ensures var n := |files| - 1;
            && Contiguous(files[..n], disk)
            && files[n].start == TotalLength(files[..n])
            && Flat(files, disk) == Flat(files[..n], disk) + Window(disk[files[n].path], 0, files[n].length)
  {
  }

  lemma ContiguousUpdate(files: seq<OutputFile>, disk: Disk, k: nat, content: seq<byte>)
    requires Contiguous(files, disk) && k < |files|
    ensures Contiguous(files, disk[files[k].path := content])
    ensures forall j :: 0 <= j < |files| && j != k ==>
              files[j].path in disk && disk[files[k].path := content][files[j].path] == disk[files[j].path]
  {
  }

  lemma NoFiles(disk: Disk)
    ensures Contiguous([], disk)
  {
  }

  /** One more file, placed behind the others and created if it is not there. */
  lemma FileAppended(files: seq<OutputFile>, disk: Disk, e: FileEntry)
    requires Contiguous(files, disk) && forall k :: 0 <= k < |files| ==> files[k].path != e.path
    ensures var d := if e.path in disk then disk else disk[e.path := []];
            Contiguous(files + [OutputFile(e.path, TotalLength(files), e.length)], d)
  {
  }

  /** Only the listed files matter. */
  lemma {:induction false} FlatFrame(files: seq<OutputFile>, d0: Disk, d1: Disk)
    requires Contiguous(files, d0) && Contiguous(files, d1)
    requires forall k :: 0 <= k < |files| ==> d0[files[k].path] == d1[files[k].path]
    ensures Flat(files, d0) == Flat(files, d1)
  {
    if files == [] {
    } else {
      FlatFrame(files[..|files| - 1], d0, d1);
    }
  }

  /** File `k` supplies exactly the bytes from its start to its end. */
  lemma {:induction false} FlatAt(files: seq<OutputFile>, disk: Disk, k: nat)
    requires Contiguous(files, disk) && k < |files|
    ensures files[k].End() <= TotalLength(files)
    ensures Flat(files, disk)[files[k].start..files[k].End()] == Window(disk[files[k].path], 0, files[k].length)
  {
    var n := |files| - 1;
    if k < n {
      FlatAt(files[..n], disk, k);
      assert files[..n][k] == files[k];
    }
  }

  lemma WriteAtWithin(content: seq<byte>, length: nat, at: nat, chunk: seq<byte>)
    requires at + |chunk| <= length
    ensures Window(WriteAt(content, at, chunk), 0, length) == Overlay(Window(content, 0, length), at, chunk)
    ensures Tail(WriteAt(content, at, chunk), length) == Tail(content, length)
  {
  }

  lemma OverlayLeft(a: seq<byte>, b: seq<byte>, at: nat, d: seq<byte>)
    requires at + |d| <= |a|
    ensures Overlay(a + b, at, d) == Overlay(a, at, d) + b
  {
  }

  lemma OverlayRight(a: seq<byte>, b: seq<byte>, at: nat, d: seq<byte>)
    ensures Overlay(a + b, |a| + at, d) == a + Overlay(b, at, d)
  {
  }

  lemma SameOutsideAfterWrite(files: seq<OutputFile>, disk: Disk, k: nat, at: nat, chunk: seq<byte>)
    requires Contiguous(files, disk) && k < |files|
    requires at + |chunk| <= files[k].length
    ensures SameOutside(files, disk, disk[files[k].path := WriteAt(disk[files[k].path], at, chunk)])
  {
    WriteAtWithin(disk[files[k].path], files[k].length, at, chunk);
  }

  /** Writing a chunk inside the declared length of file `k` lays it over the flat content at the file's start. */
  lemma {:induction false} FlatWrite(files: seq<OutputFile>, disk: Disk, k: nat, at: nat, chunk: seq<byte>)
    requires Contiguous(files, disk) && k < |files|
    requires at + |chunk| <= files[k].length
    ensures var d := disk[files[k].path := WriteAt(disk[files[k].path], at, chunk)];
            && Contiguous(files, d)
            && Flat(files, d) == Overlay(Flat(files, disk), files[k].start + at, chunk)
  {
    hide Window, Overlay, WriteAt, Tail, Contiguous, Flat;
    var n := |files| - 1;
    ConsecutiveFiles(files, disk, k);
    ConsecutiveFiles(files, disk, n);
    var d := disk[files[k].path := WriteAt(disk[files[k].path], at, chunk)];
    ContiguousUpdate(files, disk, k, WriteAt(disk[files[k].path], at, chunk));
    ContiguousPrefix(files, disk);
    ContiguousPrefix(files, d);
    var base := Flat(files[..n], disk);
    var last := Window(disk[files[n].path], 0, files[n].length);
    if k == n {
      FlatFrame(files[..n], disk, d);
      WriteAtWithin(disk[files[n].path], files[n].length, at, chunk);
      OverlayRight(base, last, at, chunk);
    } else {
      FlatWrite(files[..n], disk, k, at, chunk);
      FlatAt(files[..n], disk, k);
      OverlayLeft(base, last, files[k].start + at, chunk);
    }
  }

  lemma SameOutsideReflexive(files: seq<OutputFile>, d: Disk)
    ensures SameOutside(files, d, d)
  {
  }

  lemma SameOutsideTransitive(files: seq<OutputFile>, d0: Disk, d1: Disk, d2: Disk)
    requires SameOutside(files, d0, d1) && SameOutside(files, d1, d2)
    ensures SameOutside(files, d0, d2)
  {
  }

  /** One round of the write loop: the next `n` bytes of `data` go to file `k` at `at`. */
  lemma WriteRound(files: seq<OutputFile>, first: Disk, before: seq<byte>, disk: Disk, k: nat,
                   offset: nat, data: seq<byte>, done: nat, at: nat, n: nat)
    requires Contiguous(files, disk) && k < |files|
    requires at + n <= files[k].length && done + n <= |data|
    requires files[k].start + at == offset + done
    requires Flat(files, disk) == Overlay(before, offset, data[..done])
    requires SameOutside(files, first, disk)
    ensures var d := disk[files[k].path := WriteAt(disk[files[k].path], at, data[done..done + n])];
            && Contiguous(files, d)
            && Flat(files, d) == Overlay(before, offset, data[..done + n])
            && SameOutside(files, first, d)
  {
    hide Contiguous, SameOutside, WriteAt, Overlay;
    ConsecutiveFiles(files, disk, k);
    var chunk := data[done..done + n];
    FlatWrite(files, disk, k, at, chunk);
    OverlayTwice(before, offset, data[..done], chunk);
    assert data[..done] + chunk == data[..done + n];
    assert |data[..done]| == done;
    SameOutsideAfterWrite(files, disk, k, at, chunk);
    SameOutsideTransitive(files, first, disk, disk[files[k].path := WriteAt(disk[files[k].path], at, chunk)]);
  }

  /** What is left of `data` past the end of the content changes nothing. */
  lemma OverlayCut(before: seq<byte>, offset: nat, data: seq<byte>, n: nat)
    requires n <= |data|
    requires n == |data| || offset + n >= |before|
    ensures Overlay(before, offset, data[..n]) == Overlay(before, offset, data)
  {
  }

  /** A chunk read inside file `k` is the flat content there, cut short only where it is zero. */
  lemma FlatRead(files: seq<OutputFile>, disk: Disk, k: nat, at: nat, n: nat, x: nat)
    requires Contiguous(files, disk) && k < |files| && at + n <= files[k].length && x < n
    ensures files[k].End() <= TotalLength(files)
    ensures var chunk := ReadAt(disk[files[k].path], at, n);
            Flat(files, disk)[files[k].start + at + x] == if x < |chunk| then chunk[x] else 0
  {
    FlatAt(files, disk, k);
    assert Flat(files, disk)[files[k].start + at + x] == Flat(files, disk)[files[k].start..files[k].End()][at + x];
  }

  /** One round of the read loop: the next `n` bytes of the result come from file `k` at `at`. */
  lemma ReadRound(files: seq<OutputFile>, disk: Disk, k: nat, offset: nat, length: nat, done: nat, at: nat, n: nat)
    requires Contiguous(files, disk) && k < |files|
    requires at + n <= files[k].length && done + n <= length
    requires files[k].start + at == offset + done
    ensures var flat := Flat(files, disk);
            Overlay(Window(flat, offset, done) + Zeros(length - done), done, ReadAt(disk[files[k].path], at, n))
            == Window(flat, offset, done + n) + Zeros(length - (done + n))
  {
    var flat := Flat(files, disk);
    var l := Overlay(Window(flat, offset, done) + Zeros(length - done), done, ReadAt(disk[files[k].path], at, n));
    var r := Window(flat, offset, done + n) + Zeros(length - (done + n));
    forall x | 0 <= x < length
      ensures l[x] == r[x]
    {
      if done <= x < done + n {
        FlatRead(files, disk, k, at, n, x - done);
        assert files[k].start + at + (x - done) == offset + x;
      }
    }
    assert l == r;
  }

  /** What is asked for past the end of the content reads as zero. */
  lemma WindowCut(flat: seq<byte>, offset: nat, length: nat, n: nat)
    requires n <= length
    requires n == length || offset + n >= |flat|
    ensures Window(flat, offset, n) + Zeros(length - n) == Window(flat, offset, length)
  {
  }
}
