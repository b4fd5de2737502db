/** Two .torrent files on which the program does not do what it seems to promise. */
module TorrentWitnesses {
  import opened Bencode
  import opened BencodeRoundTrip
  import opened BencodeInfo
  import opened TorrentFiles

  // ---------------------------------------------------------------- an info hash over the wrong bytes

  const INNER: seq<Entry> := [Entry([97], IntNode(1))]
  const TWICE: seq<Entry> := [Entry(INFO, DictNode([])), Entry(INFO, DictNode(INNER))]

  lemma InnerDenotes()
    ensures Denote(DictNode(INNER)) == Dict(map[[97] := Int(1)])
  {
    assert INNER[..0] == [];
    assert DenoteEntries(INNER) == map[[97] := Int(1)];
  }

  lemma NotEmptyDict(key: Text, v: Value)
    ensures Dict(map[key := v]) != Dict(map[])
  {
    assert key in map[key := v];
  }

  lemma TwiceDenotes()
    ensures Denote(DictNode(TWICE)) == Dict(map[INFO := Dict(map[])])
  {
    assert TWICE[..1] == [TWICE[0]] && TWICE[..1][..0] == [];
    assert DenoteEntries(TWICE[..1]) == map[INFO := Dict(map[])];
  }

  lemma TwiceEncodable()
    ensures Encodable(DictNode(TWICE))
  {
    assert Encodable(DictNode(INNER));
  }

  /**
   * The file d4:infode4:infod1:ai1eee has "info" twice. It is accepted with the first, empty, info dictionary, but
   * the bytes that are hashed are those of the second.
   */
  lemma RepeatedInfoMisses()
    ensures var d := Encode(DictNode(TWICE));
            && ParseValue(d, 0) == Done(DictNode(TWICE), |d|)
            && InfoRead(d) == Read(map[])
            && var sp := SpanValue(d, 0, Span(0, 0));
            && sp.start <= sp.end <= |d|
            && ParseValue(d[sp.start..sp.end], 0) == Done(DictNode(INNER), sp.end - sp.start)
            && Denote(DictNode(INNER)) != Dict(InfoRead(d).value)
  {
    hide Encode, Denote, Encodable, MentionsInfo, SpanEntries, ParseEntries;
    var d := Encode(DictNode(TWICE));
    TwiceDenotes();
    InnerDenotes();
    NotEmptyDict([97], Int(1));
    TwiceEncodable();
    RoundTrip([], DictNode(TWICE), []);
    assert [] + d + [] == d;
    SpanOfEntry(d, 1, Span(0, 0), 1);
    NothingMentioned();
    assert TWICE[2..] == [];
    EntryValue(d, 1, 1);
    SpanAlone(d, ValueStart(d, 1, 1));
  }

  // ---------------------------------------------------------------- a tracker that is not a string

  const ODD_TRACKER: seq<Entry> :=
    [Entry(ANNOUNCE_LIST, ListNode([ListNode([IntNode(1)])])), Entry(INFO, DictNode([]))]

  lemma OddTrackerDenotes()
    ensures Denote(DictNode(ODD_TRACKER))
         == Dict(map[ANNOUNCE_LIST := List([List([Int(1)])]), INFO := Dict(map[])])
  {
    var first := ODD_TRACKER[..1];
    assert first == [ODD_TRACKER[0]] && first[..0] == [];
    assert DenoteItems([IntNode(1)]) == [Int(1)];
    assert DenoteItems([ListNode([IntNode(1)])]) == [List([Int(1)])];
    assert DenoteEntries(first) == map[ANNOUNCE_LIST := List([List([Int(1)])])];
    assert |ANNOUNCE_LIST| != |INFO|;
    var m := DenoteEntries(first);
    assert DenoteEntries(ODD_TRACKER) == Emplace(m, INFO, Dict(map[]));
    assert DenoteEntries(ODD_TRACKER) == map[ANNOUNCE_LIST := List([List([Int(1)])]), INFO := Dict(map[])];
  }

  lemma OddTrackerEncodable()
    ensures Encodable(DictNode(ODD_TRACKER))
  {
    assert Encodable(ListNode([IntNode(1)]));
    assert Encodable(ListNode([ListNode([IntNode(1)])]));
  }

  /** The file d13:announce-listlli1eee4:infodee has an info dictionary and parses, but is rejected for its tracker. */
  lemma OddTrackerRejected()
    ensures var d := Encode(DictNode(ODD_TRACKER));
            && ParseValue(d, 0) == Done(DictNode(ODD_TRACKER), |d|)
            && InfoRead(d) == Rejected(TrackerNotString)
  {
    hide Encode, Denote, Encodable, ParseValue;
    var d := Encode(DictNode(ODD_TRACKER));
    OddTrackerDenotes();
    OddTrackerEncodable();
    RoundTrip([], DictNode(ODD_TRACKER), []);
    assert [] + d + [] == d;
    var tiers := AnnounceTiers(Denote(DictNode(ODD_TRACKER)).entries);
    assert tiers[0].items[0] == Int(1);
    OddIsUnreadable(tiers);
  }
}
