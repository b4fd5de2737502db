/** Reading a .torrent file: the fields the piece engine needs, and the hash that identifies the torrent. */
module TorrentFiles {
  import opened Bytes
  import opened Layout
  import opened FileMapping
  import opened Bencode
  import opened BencodeInfo
  import opened BencodeParsers
  import opened BencodeValues

  // "announce", "announce-list", "name", "piece length", "pieces", "files", "path", "length"
  const ANNOUNCE: Text := [97, 110, 110, 111, 117, 110, 99, 101]
  const ANNOUNCE_LIST: Text := ANNOUNCE + [45, 108, 105, 115, 116]
  const NAME: Text := [110, 97, 109, 101]
  const PIECE_LENGTH: Text := [112, 105, 101, 99, 101, 32, 108, 101, 110, 103, 116, 104]
  const PIECES: Text := [112, 105, 101, 99, 101, 115]
  const FILES: Text := [102, 105, 108, 101, 115]
  const PATH: Text := [112, 97, 116, 104]
  const LENGTH: Text := [108, 101, 110, 103, 116, 104]
  const SLASH: byte := 47

  /** The keys, in characters. */
  lemma KeyNames()
    ensures ANNOUNCE == Ascii("announce") && ANNOUNCE_LIST == Ascii("announce-list") && INFO == Ascii("info")
    ensures NAME == Ascii("name") && PIECE_LENGTH == Ascii("piece length") && PIECES == Ascii("pieces")
    ensures FILES == Ascii("files") && PATH == Ascii("path") && LENGTH == Ascii("length")
  {
  }

  type Fields = map<Text, Value>

  datatype TorrentError = Malformed(error: ParseError) | TopNotDict | TrackerNotString | MissingInfo | PathNotStrings

  datatype Metadata = Metadata(
    announce: Text,
    announceList: seq<seq<Text>>,
    name: Text,
    pieceLength: nat,
    pieceHashes: seq<Digest>,
    files: seq<FileEntry>,
    totalSize: nat,
    infoHash: Digest)

  datatype Outcome<+T> = Read(value: T) | Rejected(error: TorrentError)

  /** `static_cast<uint64_t>` of a signed 64-bit integer. */
  function AsUnsigned(n: int): (u: nat)
    ensures u < 0x1_0000_0000_0000_0000
    ensures 0 <= n < 0x1_0000_0000_0000_0000 ==> u == n
    ensures -0x1_0000_0000_0000_0000 <= n < 0 ==> u == n + 0x1_0000_0000_0000_0000
  {
    n % TWO_64
  }

  function IntField(m: Fields, key: Text): Option<int> {
    if key in m && m[key].Int? then Some(m[key].n) else None
  }

  function StrField(m: Fields, key: Text): Option<Text> {
    if key in m && m[key].Str? then Some(m[key].s) else None
  }

  predicate AllStrings(parts: seq<Value>) {
    forall k :: 0 <= k < |parts| ==> parts[k].Str?
  }

  // ---------------------------------------------------------------- the announce list

  /** Every tracker of every tier is printed as a string, which a tracker of another kind does not survive. */
  predicate TiersReadable(tiers: seq<Value>) {
    forall k :: 0 <= k < |tiers| && tiers[k].List? ==> AllStrings(tiers[k].items)
  }

  function Strings(parts: seq<Value>): (texts: seq<Text>)
    requires AllStrings(parts)
    ensures |texts| == |parts|
  {
    seq(|parts|, k requires 0 <= k < |parts| => parts[k].s)
  }

  /** The tiers with their trackers, in order; a tier that is empty or not a list is skipped. */
  function TiersOf(tiers: seq<Value>): seq<seq<Text>>
    requires TiersReadable(tiers)
  {
    if tiers == [] then []
    else
      var n := |tiers| - 1;
      var last := tiers[n];
      TiersOf(tiers[..n]) + if last.List? && last.items != [] then [Strings(last.items)] else []
  }

  predicate Counted(v: Value) {
    v.List? && v.items != []
  }

  /** How many of the first `n` elements are tiers that count. */
  ghost function TiersUpTo(tiers: seq<Value>, n: nat): nat
    requires n <= |tiers|
  {
    if n == 0 then 0 else TiersUpTo(tiers, n - 1) + if Counted(tiers[n - 1]) then 1 else 0
  }

  /** The announce list has the trackers of each non-empty list, in order, and no other tier. */
  ghost predicate TierTable(tiers: seq<Value>, list: seq<seq<Text>>) {
    && |list| == TiersUpTo(tiers, |tiers|)
    && forall m :: 0 <= m < |tiers| && Counted(tiers[m]) ==>
         TiersUpTo(tiers, m) < |list| && TrackersOf(tiers[m].items, list[TiersUpTo(tiers, m)])
  }

  ghost predicate TrackersOf(items: seq<Value>, tier: seq<Text>) {
    |tier| == |items| && forall x :: 0 <= x < |items| ==> items[x].Str? && items[x].s == tier[x]
  }

  lemma {:induction false} TiersPrefix(tiers: seq<Value>, n: nat, k: nat)
    requires k <= n <= |tiers|
    ensures TiersUpTo(tiers[..n], k) == TiersUpTo(tiers, k)
  {
    if k == 0 {
    } else {
      TiersPrefix(tiers, n, k - 1);
    }
  }

  lemma {:induction false} TiersInOrder(tiers: seq<Value>)
    requires TiersReadable(tiers)
    ensures TierTable(tiers, TiersOf(tiers))
  {
    if tiers == [] {
    } else {
      var n := |tiers| - 1;
      TiersInOrder(tiers[..n]);
      TiersPrefix(tiers, n, n);
      forall m | 0 <= m < |tiers| && Counted(tiers[m])
        ensures TiersUpTo(tiers, m) < |TiersOf(tiers)| && TrackersOf(tiers[m].items, TiersOf(tiers)[TiersUpTo(tiers, m)])
      {
        if m < n {
          assert tiers[..n][m] == tiers[m];
          TiersPrefix(tiers, n, m);
        }
      }
    }
  }

  method ReadTier(items: seq<Value>) returns (r: Option<seq<Text>>)
    ensures r == if AllStrings(items) then Some(Strings(items)) else None
  {
    var tier: seq<Text> := [];
    for k := 0 to |items|
      invariant AllStrings(items[..k]) && tier == Strings(items[..k])
    {
      if items[k].Str? {
        tier := tier + [items[k].s];
      }
      if !items[k].Str? {   // the line that reports the URL takes it for a string in any case
        return None;
      }
    }
    assert items[..|items|] == items;
    r := Some(tier);
  }

  method ReadAnnounceList(tiers: seq<Value>) returns (r: Option<seq<seq<Text>>>)
    ensures r == if TiersReadable(tiers) then Some(TiersOf(tiers)) else None
    ensures r.Some? ==> TierTable(tiers, r.value)
  {
    hide TierTable;
    if TiersReadable(tiers) {
      TiersInOrder(tiers);
    }
    var list: seq<seq<Text>> := [];
    for k := 0 to |tiers|
      invariant TiersReadable(tiers[..k]) && list == TiersOf(tiers[..k])
    {
      assert tiers[..k + 1][..k] == tiers[..k];
      var tier: seq<Text> := [];
      if tiers[k].List? {
        var read := ReadTier(tiers[k].items);
        if read.None? {
          return None;
        }
        tier := read.value;
      }
      if tier != [] {
        list := list + [tier];
      }
    }
    assert tiers[..|tiers|] == tiers;
    r := Some(list);
  }

  // ---------------------------------------------------------------- piece hashes

  /** The digests are the consecutive twenty-byte parts of `text`; a shorter rest is dropped. */
  ghost predicate CutInto(text: Text, hashes: seq<Digest>) {
    && |hashes| == |text| / 20
    && forall i :: 0 <= i < |hashes| ==> hashes[i] == text[20 * i..20 * i + 20]
  }

  method SplitHashes(pieces: Text) returns (hashes: seq<Digest>)
    ensures CutInto(pieces, hashes)
  {
    var n := |pieces| / 20;
    hashes := [];
    for i := 0 to n
      invariant |hashes| == i
      invariant forall k :: 0 <= k < i ==> hashes[k] == pieces[20 * k..20 * k + 20]
    {
      hashes := hashes + [pieces[i * 20..i * 20 + 20]];
    }
  }

  // ---------------------------------------------------------------- files

  /** Where the `k`-th component starts in a path: after the earlier ones and a slash behind each. */
  ghost function ComponentStart(parts: seq<Value>, k: nat): nat
    requires AllStrings(parts) && k <= |parts|
  {
    if k == 0 then 0 else ComponentStart(parts, k - 1) + |parts[k - 1].s| + 1
  }

  /** The path is the components in order, with one slash between any two and nothing else. */
  ghost predicate PathOf(parts: seq<Value>, path: Path)
    requires AllStrings(parts)
  {
    && |path| == (if parts == [] then 0 else ComponentStart(parts, |parts|) - 1)
    && forall k :: 0 <= k < |parts| ==> ComponentAt(path, ComponentStart(parts, k), parts[k].s, k == 0)
  }

  /** The component stands at `at`, behind a slash unless it is the first. */
  ghost predicate ComponentAt(path: Path, at: nat, component: Text, first: bool) {
    && at + |component| <= |path| && path[at..at + |component|] == component
    && (!first ==> 0 < at && path[at - 1] == '/' as int)
  }

  lemma ComponentKept(path: Path, at: nat, component: Text, first: bool, more: Path)
    requires ComponentAt(path, at, component, first)
    ensures ComponentAt(path + more, at, component, first)
  {
    assert (path + more)[at..at + |component|] == path[at..at + |component|];
  }

  lemma ComponentAdded(path: Path, component: Text)
    ensures ComponentAt(path + [SLASH] + component, |path| + 1, component, false)
  {
  }

  lemma {:induction false} StartPrefix(parts: seq<Value>, n: nat, k: nat)
    requires AllStrings(parts) && k <= n <= |parts|
    ensures ComponentStart(parts[..n], k) == ComponentStart(parts, k)
  {
    if k == 0 {
    } else {
      StartPrefix(parts, n, k - 1);
    }
  }

  lemma StartNext(parts: seq<Value>, k: nat)
    requires AllStrings(parts) && k < |parts|
    ensures ComponentStart(parts, k + 1) == ComponentStart(parts, k) + |parts[k].s| + 1
  {
  }

  /** One more component behind a path. */
  lemma PathMore(parts: seq<Value>, init: Path)
    requires AllStrings(parts) && |parts| > 1 && PathOf(parts[..|parts| - 1], init)
    ensures PathOf(parts, init + [SLASH] + parts[|parts| - 1].s)
  {
    hide ComponentAt, ComponentStart;
    var n := |parts| - 1;
    var last := parts[n].s;
    var path := init + [SLASH] + last;
    StartPrefix(parts, n, n);
    StartNext(parts, n);
    assert path == init + ([SLASH] + last);
    forall k | 0 <= k < |parts|
      ensures ComponentAt(path, ComponentStart(parts, k), parts[k].s, k == 0)
    {
      if k < n {
        StartPrefix(parts, n, k);
        assert parts[..n][k] == parts[k];
        ComponentKept(init, ComponentStart(parts, k), parts[k].s, k == 0, [SLASH] + last);
      } else {
        ComponentAdded(init, last);
      }
    }
  }

  lemma OnePart(part: Value)
    requires part.Str?
    ensures PathOf([part], part.s)
  {
    assert ComponentStart([part], 0) == 0 && ComponentStart([part], 1) == |part.s| + 1;
    assert part.s[0..|part.s|] == part.s;
  }

  lemma {:induction false} JoinInOrder(parts: seq<Value>)
    requires AllStrings(parts)
    ensures PathOf(parts, Join(parts))
  {
    if parts == [] {
    } else {
      hide PathOf;
      if |parts| == 1 {
        OnePart(parts[0]);
        assert parts == [parts[0]];
      } else {
        JoinInOrder(parts[..|parts| - 1]);
        PathMore(parts, Join(parts[..|parts| - 1]));
      }
    }
  }

  /** The path components with slashes between them. */
  function Join(parts: seq<Value>): Path
    requires AllStrings(parts)
  {
    if parts == [] then []
    else if |parts| == 1 then parts[0].s
    else Join(parts[..|parts| - 1]) + [SLASH] + parts[|parts| - 1].s
  }

  /** What the uninitialised length fields hold: for each place in the list, some number. */
  type Indeterminate = nat -> nat

  /** A file entry; `unset` is what an absent length leaves in its field. */
  function FileOf(m: Fields, unset: nat): Outcome<FileEntry> {
    var length := match IntField(m, LENGTH) case Some(n) => AsUnsigned(n) case None => unset;
    if PATH in m && m[PATH].List? then
      if AllStrings(m[PATH].items) then Read(FileEntry(Join(m[PATH].items), length)) else Rejected(PathNotStrings)
    else Read(FileEntry([], length))
  }

  /** What a list element adds to the total. */
  function Added(v: Value): nat {
    if v.Dict? && IntField(v.entries, LENGTH).Some? then AsUnsigned(IntField(v.entries, LENGTH).value) else 0
  }

  /** The files of the first elements, in order; elements that are not dictionaries are skipped. */
  function FilesOf(items: seq<Value>, indeterminate: Indeterminate): Outcome<seq<FileEntry>> {
    if items == [] then Read([])
    else
      var n := |items| - 1;
      match FilesOf(items[..n], indeterminate)
      case Rejected(e) => Rejected(e)
      case Read(files) =>
        if !items[n].Dict? then Read(files)
        else
          match FileOf(items[n].entries, indeterminate(n))
          case Rejected(e) => Rejected(e)
          case Read(f) => Read(files + [f])
  }

  /** How many of the first `n` elements are dictionaries. */
  ghost function DictsUpTo(items: seq<Value>, n: nat): nat
    requires n <= |items|
  {
    if n == 0 then 0 else DictsUpTo(items, n - 1) + if items[n - 1].Dict? then 1 else 0
  }

  /** What an entry of the file table says of the dictionary `m` it was made from. */
  ghost predicate FileFrom(f: FileEntry, m: Fields, unset: nat) {
    && (if PATH in m && m[PATH].List? then AllStrings(m[PATH].items) && PathOf(m[PATH].items, f.path) else f.path == [])
    && (if LENGTH in m && m[LENGTH].Int? then f.length == AsUnsigned(m[LENGTH].n) else f.length == unset)
  }

  /** The file table has an entry for each dictionary of the list, in order, and no other. */
  ghost predicate TableOf(items: seq<Value>, files: seq<FileEntry>, indeterminate: Indeterminate) {
    && |files| == DictsUpTo(items, |items|)
    && forall m :: 0 <= m < |items| && items[m].Dict? ==>
         DictsUpTo(items, m) < |files| && FileFrom(files[DictsUpTo(items, m)], items[m].entries, indeterminate(m))
  }

  lemma {:induction false} DictsPrefix(items: seq<Value>, n: nat, k: nat)
    requires k <= n <= |items|
    ensures DictsUpTo(items[..n], k) == DictsUpTo(items, k)
  {
    if k == 0 {
    } else {
      DictsPrefix(items, n, k - 1);
    }
  }

  lemma FileIsFrom(m: Fields, unset: nat)
    requires FileOf(m, unset).Read?
    ensures FileFrom(FileOf(m, unset).value, m, unset)
  {
    if PATH in m && m[PATH].List? {
      JoinInOrder(m[PATH].items);
    }
  }

  lemma {:induction false} FilesInOrder(items: seq<Value>, indeterminate: Indeterminate)
    requires FilesOf(items, indeterminate).Read?
    ensures TableOf(items, FilesOf(items, indeterminate).value, indeterminate)
  {
    hide FileFrom, FileOf;
    if items == [] {
    } else {
      var n := |items| - 1;
      FilesInOrder(items[..n], indeterminate);
      DictsPrefix(items, n, n);
      var init, files := FilesOf(items[..n], indeterminate).value, FilesOf(items, indeterminate).value;
      if items[n].Dict? {
        FileIsFrom(items[n].entries, indeterminate(n));
      }
      forall m | 0 <= m < |items| && items[m].Dict?
        ensures DictsUpTo(items, m) < |files| && FileFrom(files[DictsUpTo(items, m)], items[m].entries, indeterminate(m))
      {
        if m < n {
          assert items[..n][m] == items[m];
          DictsPrefix(items, n, m);
        }
      }
    }
  }

  /** `total_size`, a 64-bit counter. */
  function TotalOf(items: seq<Value>): nat {
    if items == [] then 0 else (TotalOf(items[..|items| - 1]) + Added(items[|items| - 1])) % TWO_64
  }

  /** Some dictionary of the list has a path with a component that is not a string. */
  ghost predicate OddPath(items: seq<Value>) {
    exists m :: 0 <= m < |items| && OddPathIn(items[m])
  }

  predicate OddPathIn(v: Value) {
    v.Dict? && PATH in v.entries && v.entries[PATH].List? && !AllStrings(v.entries[PATH].items)
  }

  lemma {:induction false} OddPathRejects(items: seq<Value>, indeterminate: Indeterminate)
    ensures FilesOf(items, indeterminate).Rejected? <==> OddPath(items)
  {
    if items == [] {
    } else {
      var n := |items| - 1;
      OddPathRejects(items[..n], indeterminate);
      if OddPath(items[..n]) {
        var m :| 0 <= m < n && OddPathIn(items[..n][m]);
        assert OddPathIn(items[m]);
      }
      if OddPath(items) {
        var m :| 0 <= m < |items| && OddPathIn(items[m]);
        assert m < n ==> OddPathIn(items[..n][m]);
      }
    }
  }

  /** Failures stay failures as more elements are read. */
  lemma {:induction false} FilesOfPrefix(items: seq<Value>, indeterminate: Indeterminate, k: nat)
    requires k <= |items| && FilesOf(items[..k], indeterminate).Rejected?
    ensures FilesOf(items, indeterminate) == FilesOf(items[..k], indeterminate)
  {
    var n := |items| - 1;
    if k <= n {
      assert items[..n][..k] == items[..k];
      FilesOfPrefix(items[..n], indeterminate, k);
    } else {
      assert items[..k] == items;
    }
  }

  lemma FilesNext(items: seq<Value>, indeterminate: Indeterminate, k: nat)
    requires k < |items| && FilesOf(items[..k], indeterminate).Read?
    ensures var files := FilesOf(items[..k], indeterminate).value;
            FilesOf(items[..k + 1], indeterminate)
            == if !items[k].Dict? then Read(files)
               else match FileOf(items[k].entries, indeterminate(k))
                    case Rejected(e) => Rejected(e)
                    case Read(f) => Read(files + [f])
    ensures TotalOf(items[..k + 1]) == (TotalOf(items[..k]) + Added(items[k])) % TWO_64
    ensures TotalOf(items[..k]) < TWO_64
  {
    assert items[..k + 1][..k] == items[..k];
  }

  /** One file entry. */
  method ReadFile(fdict: Fields, unset: nat) returns (r: Outcome<FileEntry>)
    ensures r == FileOf(fdict, unset)
  {
    hide PathOf, Join;
    var path: Path := [];
    if PATH in fdict && fdict[PATH].List? {
      var joined := JoinPath(fdict[PATH].items);
      if joined.None? {
        return Rejected(PathNotStrings);
      }
      path := joined.value;
    }
    var length := unset;
    if IntField(fdict, LENGTH).Some? {
      length := AsUnsigned(IntField(fdict, LENGTH).value);
    }
    r := Read(FileEntry(path, length));
  }

  method ReadFiles(items: seq<Value>, indeterminate: Indeterminate) returns (r: Outcome<seq<FileEntry>>, total: nat)
    ensures r == FilesOf(items, indeterminate)
    ensures r.Read? ==> total == TotalOf(items) && TableOf(items, r.value, indeterminate)
    ensures r.Rejected? <==> OddPath(items)
  {
    hide TableOf, OddPath, FilesOf, TotalOf, FileOf;
    if FilesOf(items, indeterminate).Read? {
      FilesInOrder(items, indeterminate);
    }
    OddPathRejects(items, indeterminate);
    var files: seq<FileEntry> := [];
    total := 0;
    NoFilesYet(items, indeterminate);
    for k := 0 to |items|
      invariant FilesOf(items[..k], indeterminate) == Read(files)
      invariant total == TotalOf(items[..k])
    {
      FilesNext(items, indeterminate, k);
      if !items[k].Dict? {
        continue;
      }
      var file := ReadFile(items[k].entries, indeterminate(k));
      if file.Rejected? {
        FilesOfPrefix(items, indeterminate, k + 1);
        return Rejected(file.error), 0;
      }
      if IntField(items[k].entries, LENGTH).Some? {
        total := (total + file.value.length) % TWO_64;
      }
      files := files + [file.value];
      LengthAdded(items[k].entries, indeterminate(k));
    }
    assert items[..|items|] == items;
    r := Read(files);
  }

  lemma NoFilesYet(items: seq<Value>, indeterminate: Indeterminate)
    ensures FilesOf(items[..0], indeterminate) == Read([]) && TotalOf(items[..0]) == 0
  {
  }

  lemma LengthAdded(m: Fields, unset: nat)
    requires FileOf(m, unset).Read?
    ensures Added(Dict(m)) == if IntField(m, LENGTH).Some? then FileOf(m, unset).value.length else 0
  {
  }

  method JoinPath(parts: seq<Value>) returns (r: Option<Path>)
    ensures r == if AllStrings(parts) then Some(Join(parts)) else None
    ensures r.Some? ==> PathOf(parts, r.value)
  {
    hide PathOf;
    if AllStrings(parts) {
      JoinInOrder(parts);
    }
    var path: Path := [];
    for k := 0 to |parts|
      invariant AllStrings(parts[..k]) && path == Join(parts[..k])
    {
      if !parts[k].Str? {
        return None;
      }
      assert parts[..k + 1][..k] == parts[..k];
      path := if k == 0 then parts[k].s else path + [SLASH] + parts[k].s;
    }
    assert parts[..|parts|] == parts;
    r := Some(path);
  }

  /** The sum of the lengths the dictionaries of the list give; one without a length gives none. */
  ghost function GivenLengths(items: seq<Value>): nat {
    if items == [] then 0
    else
      var last := items[|items| - 1];
      GivenLengths(items[..|items| - 1])
      + if last.Dict? && LENGTH in last.entries && last.entries[LENGTH].Int? then AsUnsigned(last.entries[LENGTH].n) else 0
  }

  lemma {:induction false} TotalIsGiven(items: seq<Value>)
    ensures TotalOf(items) == GivenLengths(items) % TWO_64
  {
    if items == [] {
    } else {
      TotalIsGiven(items[..|items| - 1]);
      WrapSum(TotalOf(items[..|items| - 1]), GivenLengths(items[..|items| - 1]), Added(items[|items| - 1]));
    }
  }

  /** When every file entry has a length, the total is the sum of the files' lengths, as a 64-bit counter holds it. */
  lemma {:induction false} TotalIsSum(items: seq<Value>, indeterminate: Indeterminate)
    requires FilesOf(items, indeterminate).Read?
    requires forall k :: 0 <= k < |items| && items[k].Dict? ==> IntField(items[k].entries, LENGTH).Some?
    ensures TotalOf(items) == SumLengths(FilesOf(items, indeterminate).value) % TWO_64
  {
    if items == [] {
    } else {
      var n := |items| - 1;
      TotalIsSum(items[..n], indeterminate);
      var files := FilesOf(items[..n], indeterminate).value;
      if items[n].Dict? {
        var f := FileOf(items[n].entries, indeterminate(n)).value;
        assert (files + [f])[..|files|] == files;
        WrapSum(TotalOf(items[..n]), SumLengths(files), Added(items[n]));
      } else {
        WrapSum(TotalOf(items[..n]), SumLengths(files), 0);
      }
    }
  }

  lemma WrapSum(a: nat, b: nat, c: nat)
    requires a == b % TWO_64
    ensures (a + c) % TWO_64 == (b + c) % TWO_64
  {
  }

  // ---------------------------------------------------------------- the whole file

  /** The announce list of a top-level dictionary, if it has one. */
  function AnnounceTiers(m: Fields): seq<Value> {
    if ANNOUNCE_LIST in m && m[ANNOUNCE_LIST].List? then m[ANNOUNCE_LIST].items else []
  }

  /** The info dictionary of a parsed top-level value; the announce list is read before it. */
  function InfoOf(v: Value): Outcome<Fields> {
    if !v.Dict? then Rejected(TopNotDict)
    else if !TiersReadable(AnnounceTiers(v.entries)) then Rejected(TrackerNotString)
    else if INFO !in v.entries || !v.entries[INFO].Dict? then Rejected(MissingInfo)
    else Read(v.entries[INFO].entries)
  }

  /** The info dictionary of a file, or the first reason there is none. */
  function InfoRead(input: Text): (r: Outcome<Fields>)
    ensures r.Read? ==> ParseValue(input, 0).Done? && Denote(ParseValue(input, 0).value).Dict?
    ensures r.Read? ==> TiersReadable(AnnounceTiers(Denote(ParseValue(input, 0).value).entries))
  {
    match YieldValue(ParseValue(input, 0))
    case Err(e) => Rejected(Malformed(e))
    case Ok(v) => InfoOf(v)
  }

  /** No file of the list has a path with a component that is not a string. */
  ghost predicate PathsAreStrings(info: Fields) {
    FILES in info && info[FILES].List? ==> !OddPath(info[FILES].items)
  }

  /** A tracker of some tier is not a string. */
  ghost predicate OddTracker(tiers: seq<Value>) {
    exists k, x :: 0 <= k < |tiers| && tiers[k].List? && 0 <= x < |tiers[k].items| && !tiers[k].items[x].Str?
  }

  lemma OddIsUnreadable(tiers: seq<Value>)
    ensures OddTracker(tiers) <==> !TiersReadable(tiers)
  {
    if !TiersReadable(tiers) {
      var k :| 0 <= k < |tiers| && tiers[k].List? && !AllStrings(tiers[k].items);
      var x :| 0 <= x < |tiers[k].items| && !tiers[k].items[x].Str?;
    }
  }

  /** The dictionary a file parses to at the top. */
  function TopDict(input: Text): Option<Fields> {
    match YieldValue(ParseValue(input, 0))
    case Err(_) => None
    case Ok(v) => if v.Dict? then Some(v.entries) else None
  }

  /** A top-level dictionary with an "info" key has set the span, to bytes inside the input. */
  lemma SpanInside(d: Text)
    requires ParseValue(d, 0).Done?
    requires var v := Denote(ParseValue(d, 0).value);
             v.Dict? && INFO in v.entries
    ensures var sp := SpanValue(d, 0, Span(0, 0));
            sp.start <= sp.end <= |d|
  {
    KeysOccur(ParseValue(d, 0).value.entries, INFO);
    ValueSpan(d, 0, Span(0, 0));
  }

  /** The primary tracker and the announce list. */
  method ReadTrackers(dict: Fields) returns (announce: Text, list: Option<seq<seq<Text>>>)
    ensures announce == if ANNOUNCE in dict && dict[ANNOUNCE].Str? then dict[ANNOUNCE].s else []
    ensures list == if TiersReadable(AnnounceTiers(dict)) then Some(TiersOf(AnnounceTiers(dict))) else None
    ensures list.Some? ==> TierTable(AnnounceTiers(dict), list.value)
  {
    announce := if StrField(dict, ANNOUNCE).Some? then StrField(dict, ANNOUNCE).value else [];
    list := Some([]);
    if ANNOUNCE_LIST in dict && dict[ANNOUNCE_LIST].List? {
      list := ReadAnnounceList(dict[ANNOUNCE_LIST].items);
    }
  }

  /** The info dictionary: everything in the metadata but the trackers and the hash. */
  method ReadInfo(info: Fields, indeterminate: Indeterminate) returns (r: Outcome<Metadata>)
    ensures r.Read? <==> PathsAreStrings(info)
    ensures r.Read? ==> DescribedBy(r.value, info, indeterminate)
    ensures r.Rejected? ==> r == Rejected(PathNotStrings)
  {
    hide FilesOf, TotalOf;
    var name := if StrField(info, NAME).Some? then StrField(info, NAME).value else [];
    var pieceLength := if IntField(info, PIECE_LENGTH).Some? then AsUnsigned(IntField(info, PIECE_LENGTH).value) else 0;
    var hashes: seq<Digest> := [];
    if StrField(info, PIECES).Some? {
      hashes := SplitHashes(StrField(info, PIECES).value);
    }

    var files: seq<FileEntry> := [];
    var total := 0;
    if FILES in info && info[FILES].List? {
      var read, sum := ReadFiles(info[FILES].items, indeterminate);
      if read.Rejected? {
        OnlyPathsReject(info[FILES].items, indeterminate);
        return Rejected(PathNotStrings);
      }
      files, total := read.value, sum;
      TotalIsGiven(info[FILES].items);
    } else if IntField(info, LENGTH).Some? {
      var length := AsUnsigned(IntField(info, LENGTH).value);
      files, total := [FileEntry(name, length)], length;
    }
    r := Read(Metadata([], [], name, pieceLength, hashes, files, total, []));
  }

  /** `parse_torrent`, without the comment, creator and creation date. */
  method ParseTorrent(input: Text, sha1: Text -> Digest, indeterminate: Indeterminate) returns (r: Outcome<Metadata>)
    ensures (exists e :: r == Rejected(Malformed(e))) <==> ParseValue(input, 0).Fail?
    ensures r == Rejected(TopNotDict) <==> ParseValue(input, 0).Done? && TopDict(input).None?
    ensures r == Rejected(TrackerNotString) <==> TopDict(input).Some? && OddTracker(AnnounceTiers(TopDict(input).value))
    ensures r == Rejected(MissingInfo) <==>
              && TopDict(input).Some? && !OddTracker(AnnounceTiers(TopDict(input).value))
              && (INFO in TopDict(input).value ==> !TopDict(input).value[INFO].Dict?)
    ensures r == Rejected(PathNotStrings) <==>
              && TopDict(input).Some? && !OddTracker(AnnounceTiers(TopDict(input).value))
              && INFO in TopDict(input).value && TopDict(input).value[INFO].Dict?
              && !PathsAreStrings(TopDict(input).value[INFO].entries)
    ensures InfoRead(input).Rejected? ==> r == Rejected(InfoRead(input).error)
    ensures r.Read? ==>
              && TopDict(input).Some? && INFO in TopDict(input).value && TopDict(input).value[INFO].Dict?
              && DescribedBy(r.value, TopDict(input).value[INFO].entries, indeterminate)
              && AnnouncedBy(r.value, TopDict(input).value)
              && var sp := SpanValue(input, 0, Span(0, 0));
              && sp.start <= sp.end <= |input|
              && r.value.infoHash == sha1(input[sp.start..sp.end])
  {
    hide ParseValue, SpanValue, Denote, PathsAreStrings, OddTracker, TiersReadable, TiersOf, DescribedBy, FilesOf, TotalOf;
    var parser := new BEncodeParser(input);
    var v := parser.Parse();
    if v.Err? {
      return Rejected(Malformed(v.error));
    }
    if !v.value.Dict? {
      return Rejected(TopNotDict);
    }
    var dict := v.value.entries;
    var announce, list := ReadTrackers(dict);
    OddIsUnreadable(AnnounceTiers(dict));
    if list.None? {
      return Rejected(TrackerNotString);
    }
    if INFO !in dict || !dict[INFO].Dict? {
      return Rejected(MissingInfo);
    }
    var read := ReadInfo(dict[INFO].entries, indeterminate);
    if read.Rejected? {
      return read;
    }
    SpanInside(input);
    var infoHash := sha1(input[parser.infoStart..parser.infoEnd]);
    r := Read(read.value.(announce := announce, announceList := list.value, infoHash := infoHash));
    OnlyInfo(read.value, r.value, dict[INFO].entries, indeterminate);
  }

  lemma OnlyInfo(m: Metadata, m': Metadata, info: Fields, indeterminate: Indeterminate)
    requires DescribedBy(m, info, indeterminate)
    requires m' == m.(announce := m'.announce, announceList := m'.announceList, infoHash := m'.infoHash)
    ensures DescribedBy(m', info, indeterminate)
  {
  }

  lemma {:induction false} OnlyPathsReject(items: seq<Value>, indeterminate: Indeterminate)
    ensures FilesOf(items, indeterminate).Rejected? ==> FilesOf(items, indeterminate) == Rejected(PathNotStrings)
  {
    if items == [] {
    } else {
      OnlyPathsReject(items[..|items| - 1], indeterminate);
    }
  }

  /** The metadata names the trackers the top-level dictionary names. */
  ghost predicate AnnouncedBy(m: Metadata, dict: Fields) {
    && m.announce == (if ANNOUNCE in dict && dict[ANNOUNCE].Str? then dict[ANNOUNCE].s else [])
    && TiersReadable(AnnounceTiers(dict)) && m.announceList == TiersOf(AnnounceTiers(dict))
    && TierTable(AnnounceTiers(dict), m.announceList)
  }

  /** The metadata says what the info dictionary says. */
  ghost predicate DescribedBy(m: Metadata, info: Fields, indeterminate: Indeterminate) {
    && m.name == (if NAME in info && info[NAME].Str? then info[NAME].s else [])
    && m.pieceLength
       == (if PIECE_LENGTH in info && info[PIECE_LENGTH].Int? then AsUnsigned(info[PIECE_LENGTH].n) else 0)
    && (if PIECES in info && info[PIECES].Str? then CutInto(info[PIECES].s, m.pieceHashes) else m.pieceHashes == [])
    && if FILES in info && info[FILES].List? then
         && FilesOf(info[FILES].items, indeterminate) == Read(m.files) && TableOf(info[FILES].items, m.files, indeterminate)
         && m.totalSize == TotalOf(info[FILES].items)
         && m.totalSize == GivenLengths(info[FILES].items) % 0x1_0000_0000_0000_0000
       else if LENGTH in info && info[LENGTH].Int? then
         m.files == [FileEntry(m.name, AsUnsigned(info[LENGTH].n))] && m.totalSize == AsUnsigned(info[LENGTH].n)
       else
         m.files == [] && m.totalSize == 0
  }

  ghost predicate LengthsPresent(info: Fields) {
    FILES in info && info[FILES].List? ==>
      forall k :: 0 <= k < |info[FILES].items| && info[FILES].items[k].Dict? ==>
        LENGTH in info[FILES].items[k].entries && info[FILES].items[k].entries[LENGTH].Int?
  }

  /** The total the piece manager is built with is the one `init_files` will arrive at, as long as it fits 64 bits. */
  lemma TotalMatchesFiles(m: Metadata, info: Fields, indeterminate: Indeterminate)
    requires DescribedBy(m, info, indeterminate) && LengthsPresent(info)
    ensures m.totalSize == SumLengths(m.files) % TWO_64
    ensures m.totalSize == SumLengths(m.files) <==> SumLengths(m.files) < TWO_64
  {
    hide FilesOf, TotalOf, TableOf, GivenLengths, CutInto;
    if FILES in info && info[FILES].List? {
      TotalIsSum(info[FILES].items, indeterminate);
    } else if LENGTH in info && info[LENGTH].Int? {
      assert m.files[..0] == [];
    }
  }
}
