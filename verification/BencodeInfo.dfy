/** Dictionaries as maps, and which bytes the parser's info span ends up covering. */
module BencodeInfo {
  import opened Bytes
  import opened Bencode
  import opened BencodeRoundTrip

  // ---------------------------------------------------------------- dictionaries

  predicate FirstUnder(entries: seq<Entry>, k: nat)
    requires k < |entries|
  {
    forall x :: 0 <= x < k ==> entries[x].key != entries[k].key
  }

  predicate UniqueKeys(entries: seq<Entry>) {
    forall x, y :: 0 <= x < y < |entries| ==> entries[x].key != entries[y].key
  }

  lemma {:induction false} AbsentKey(entries: seq<Entry>, key: Text)
    requires forall k :: 0 <= k < |entries| ==> entries[k].key != key
    ensures key !in DenoteEntries(entries)
  {
    if entries == [] {
    } else {
      AbsentKey(entries[..|entries| - 1], key);
    }
  }

  /** Under a repeated key the map holds the value of the first entry. */
  lemma {:induction false} FirstWins(entries: seq<Entry>, k: nat)
    requires k < |entries| && FirstUnder(entries, k)
    ensures entries[k].key in DenoteEntries(entries)
    ensures DenoteEntries(entries)[entries[k].key] == Denote(entries[k].value)
  {
    var n := |entries| - 1;
    if k < n {
      FirstWins(entries[..n], k);
    } else {
      AbsentKey(entries[..n], entries[k].key);
    }
  }

  lemma KeysOccur(entries: seq<Entry>, key: Text)
    requires key in DenoteEntries(entries)
    ensures exists k :: 0 <= k < |entries| && entries[k].key == key
  {
    if forall k :: 0 <= k < |entries| ==> entries[k].key != key {
      AbsentKey(entries, key);
    }
  }

  /** The same key over a value that means the same. */
  predicate Twins(e: Entry, f: Entry) {
    e.key == f.key && Denote(e.value) == Denote(f.value)
  }

  ghost predicate HasTwin(entries: seq<Entry>, e: Entry) {
    exists y :: 0 <= y < |entries| && Twins(e, entries[y])
  }

  /** Every entry of `a` has its twin in `b`. */
  ghost predicate Covered(a: seq<Entry>, b: seq<Entry>) {
    forall x :: 0 <= x < |a| ==> HasTwin(b, a[x])
  }

  /** With unique keys neither the order of the entries matters nor how their values are written. */
  lemma OrderIrrelevant(a: seq<Entry>, b: seq<Entry>)
    requires UniqueKeys(a) && UniqueKeys(b) && Covered(a, b) && Covered(b, a)
    ensures DenoteEntries(a) == DenoteEntries(b)
  {
    forall key | key in DenoteEntries(a)
      ensures key in DenoteEntries(b) && DenoteEntries(b)[key] == DenoteEntries(a)[key]
    {
      SameUnder(a, b, key);
    }
    forall key | key in DenoteEntries(b)
      ensures key in DenoteEntries(a)
    {
      SameUnder(b, a, key);
    }
  }

  lemma SameUnder(a: seq<Entry>, b: seq<Entry>, key: Text)
    requires UniqueKeys(a) && UniqueKeys(b) && Covered(a, b) && key in DenoteEntries(a)
    ensures key in DenoteEntries(b) && DenoteEntries(b)[key] == DenoteEntries(a)[key]
  {
    KeysOccur(a, key);
    var x :| 0 <= x < |a| && a[x].key == key;
    assert HasTwin(b, a[x]);
    var y :| 0 <= y < |b| && Twins(a[x], b[y]);
    FirstWins(a, x);
    FirstWins(b, y);
  }

  ghost predicate HasKey(entries: seq<Entry>, key: Text) {
    exists y :: 0 <= y < |entries| && entries[y].key == key
  }

  /** Every key of `a` is in `b`. */
  ghost predicate KeysIn(a: seq<Entry>, b: seq<Entry>) {
    forall x :: 0 <= x < |a| ==> HasKey(b, a[x].key)
  }

  /** `b` is `a` with the entries of its dictionaries, at any depth, in another order. */
  ghost predicate Reordered(a: Node, b: Node)
    decreases a
  {
    match a
    case IntNode(n) => b == a
    case StrNode(s) => b == a
    case ListNode(items) =>
      b.ListNode? && |b.items| == |items| && forall k :: 0 <= k < |items| ==> Reordered(items[k], b.items[k])
    case DictNode(entries) =>
      && b.DictNode? && UniqueKeys(entries) && UniqueKeys(b.entries)
      && KeysIn(entries, b.entries) && KeysIn(b.entries, entries)
      && forall x, y :: 0 <= x < |entries| && 0 <= y < |b.entries| && entries[x].key == b.entries[y].key ==>
           Reordered(entries[x].value, b.entries[y].value)
  }

  /** Such a value means the same to the program. */
  lemma {:induction false} ReorderedSame(a: Node, b: Node)
    requires Reordered(a, b)
    ensures Denote(a) == Denote(b)
    decreases a
  {
    hide KeysIn, UniqueKeys, Covered;
    match a
    case IntNode(_) =>
    case StrNode(_) =>
    case ListNode(items) =>
      forall k | 0 <= k < |items|
        ensures Denote(items[k]) == Denote(b.items[k])
      {
        ReorderedSame(items[k], b.items[k]);
      }
      assert DenoteItems(items) == DenoteItems(b.items);
    case DictNode(entries) =>
      forall x, y | 0 <= x < |entries| && 0 <= y < |b.entries| && entries[x].key == b.entries[y].key
        ensures Twins(entries[x], b.entries[y]) && Twins(b.entries[y], entries[x])
      {
        ReorderedSame(entries[x].value, b.entries[y].value);
      }
      KeysCovered(entries, b.entries);
      KeysCovered(b.entries, entries);
      OrderIrrelevant(entries, b.entries);
  }

  lemma KeysCovered(a: seq<Entry>, b: seq<Entry>)
    requires KeysIn(a, b)
    requires forall x, y :: 0 <= x < |a| && 0 <= y < |b| && a[x].key == b[y].key ==> Twins(a[x], b[y])
    ensures Covered(a, b)
  {
    hide Twins;
    forall x | 0 <= x < |a|
      ensures HasTwin(b, a[x])
    {
      assert HasKey(b, a[x].key);
      var y :| 0 <= y < |b| && b[y].key == a[x].key;
      assert Twins(a[x], b[y]);
    }
  }

  /** So a value printed with its dictionaries in any order, in any context, is read as that value. */
  lemma AnyOrderRead(before: Text, a: Node, b: Node, after: Text)
    requires Reordered(a, b) && Encodable(b)
    ensures YieldValue(ParseValue(before + Encode(b) + after, |before|)) == Ok(Denote(a))
    ensures ParseValue(before + Encode(b) + after, |before|).Done?
    ensures ParseValue(before + Encode(b) + after, |before|).next == |before| + |Encode(b)|
  {
    hide Reordered, Denote, ParseValue, Encode, Encodable;
    RoundTrip(before, b, after);
    ReorderedSame(a, b);
  }

  // ---------------------------------------------------------------- where "info" keys occur

  predicate HasInfo(node: Node)
    decreases node, 0
  {
    match node
    case IntNode(_) => false
    case StrNode(_) => false
    case ListNode(items) => exists k :: 0 <= k < |items| && HasInfo(items[k])
    case DictNode(entries) => MentionsInfo(entries)
  }

  /** Some entry, or some dictionary inside an entry's value, has the key "info". */
  predicate MentionsInfo(entries: seq<Entry>)
    decreases entries, 1
  {
    exists k :: 0 <= k < |entries| && (entries[k].key == INFO || HasInfo(entries[k].value))
  }

  /** A parse that meets no "info" key leaves the span alone; one that does leaves it strictly inside itself. */
  lemma {:induction false} ValueSpan(d: Text, p: nat, sp: Span)
    requires ParseValue(d, p).Done?
    ensures !HasInfo(ParseValue(d, p).value) ==> SpanValue(d, p, sp) == sp
    ensures HasInfo(ParseValue(d, p).value) ==>
              p < SpanValue(d, p, sp).start < SpanValue(d, p, sp).end <= ParseValue(d, p).next
    decreases |d| - p, 0
  {
    if d[p] == CHAR_L {
      ItemsSpan(d, p + 1, sp);
    } else if d[p] == CHAR_D {
      EntriesSpan(d, p + 1, sp);
    }
  }

  lemma {:induction false} ItemsSpan(d: Text, p: nat, sp: Span)
    requires ParseItems(d, p).Done?
    ensures var items := ParseItems(d, p).value;
            && (!HasInfo(ListNode(items)) ==> SpanItems(d, p, sp) == sp)
            && (HasInfo(ListNode(items)) ==>
                  p < SpanItems(d, p, sp).start < SpanItems(d, p, sp).end <= ParseItems(d, p).next)
    decreases |d| - p, 1
  {
    if d[p] == CHAR_E {
    } else {
      var v := ParseValue(d, p);
      var rest := ParseItems(d, v.next);
      ValueSpan(d, p, sp);
      ItemsSpan(d, v.next, SpanValue(d, p, sp));
      HeadItem(v.value, rest.value);
    }
  }

  lemma HeadItem(v: Node, rest: seq<Node>)
    ensures HasInfo(ListNode([v] + rest)) <==> HasInfo(v) || HasInfo(ListNode(rest))
  {
    var items := [v] + rest;
    if HasInfo(ListNode(items)) {
      var k :| 0 <= k < |items| && HasInfo(items[k]);
      assert k > 0 ==> rest[k - 1] == items[k];
    }
    if HasInfo(v) {
      assert items[0] == v;
    }
    if HasInfo(ListNode(rest)) {
      var k :| 0 <= k < |rest| && HasInfo(rest[k]);
      assert items[k + 1] == rest[k];
    }
  }

  lemma HeadEntry(e: Entry, rest: seq<Entry>)
    ensures MentionsInfo([e] + rest) <==> e.key == INFO || HasInfo(e.value) || MentionsInfo(rest)
  {
    var entries := [e] + rest;
    if MentionsInfo(entries) {
      var k :| 0 <= k < |entries| && (entries[k].key == INFO || HasInfo(entries[k].value));
      assert k > 0 ==> rest[k - 1] == entries[k];
    }
    if e.key == INFO || HasInfo(e.value) {
      assert entries[0] == e;
    }
    if MentionsInfo(rest) {
      var k :| 0 <= k < |rest| && (rest[k].key == INFO || HasInfo(rest[k].value));
      assert entries[k + 1] == rest[k];
    }
  }

  lemma {:induction false} EntriesSpan(d: Text, p: nat, sp: Span)
    requires ParseEntries(d, p).Done?
    ensures var entries := ParseEntries(d, p).value;
            && (!MentionsInfo(entries) ==> SpanEntries(d, p, sp) == sp)
            && (MentionsInfo(entries) ==>
                  p < SpanEntries(d, p, sp).start < SpanEntries(d, p, sp).end <= ParseEntries(d, p).next)
    decreases |d| - p, 1
  {
    hide ParseString, MentionsInfo, HasInfo;
    if d[p] == CHAR_E {
      NothingMentioned();
    } else {
      EntriesUnfold(d, p);
      var key := ParseString(d, p);
      var v := ParseValue(d, key.next);
      var inner := SpanValue(d, key.next, sp);
      ValueSpan(d, key.next, sp);
      EntriesSpan(d, v.next, if key.value == INFO then Span(key.next, v.next) else inner);
      HeadEntry(Entry(key.value, v.value), ParseEntries(d, v.next).value);
    }
  }

  lemma NothingMentioned()
    ensures !MentionsInfo([])
  {
  }

  // ---------------------------------------------------------------- the top-level info value

  lemma FirstAndRest(d: Text, p: nat)
    requires ParseEntries(d, p).Done? && ParseEntries(d, p).value != []
    ensures ParseString(d, p).Done?
    ensures var v := ParseString(d, p).next;
            && p < v && ParseValue(d, v).Done? && ParseEntries(d, ParseValue(d, v).next).Done?
            && ParseEntries(d, p).value
               == [Entry(ParseString(d, p).value, ParseValue(d, v).value)] + ParseEntries(d, ParseValue(d, v).next).value
  {
    EntriesUnfold(d, p);
  }

  /** Where the value of the `k`-th entry of the dictionary whose entries start at `p` begins. */
  function ValueStart(d: Text, p: nat, k: nat): (s: nat)
    requires ParseEntries(d, p).Done? && k < |ParseEntries(d, p).value|
    decreases k
  {
    FirstAndRest(d, p);
    var v := ParseString(d, p).next;
    if k == 0 then v else ValueStart(d, ParseValue(d, v).next, k - 1)
  }

  /** That value stands there. */
  lemma {:induction false} EntryValue(d: Text, p: nat, k: nat)
    requires ParseEntries(d, p).Done? && k < |ParseEntries(d, p).value|
    ensures var s := ValueStart(d, p, k);
            p < s && ParseValue(d, s).Done? && ParseValue(d, s).value == ParseEntries(d, p).value[k].value
    decreases k
  {
    hide ParseEntries, ParseValue, ParseString;
    FirstAndRest(d, p);
    if k == 0 {
    } else {
      EntryValue(d, ParseValue(d, ParseString(d, p).next).next, k - 1);
    }
  }

  /** The bytes consumed for the value of the `k`-th entry. */
  function EntrySpan(d: Text, p: nat, k: nat): Span
    requires ParseEntries(d, p).Done? && k < |ParseEntries(d, p).value|
  {
    EntryValue(d, p, k);
    Span(ValueStart(d, p, k), ParseValue(d, ValueStart(d, p, k)).next)
  }

  /** From an "info" entry on, the span is that entry's exactly when nothing later mentions the key. */
  lemma {:induction false} SpanOfEntry(d: Text, p: nat, sp: Span, k: nat)
    requires ParseEntries(d, p).Done? && k < |ParseEntries(d, p).value|
    requires ParseEntries(d, p).value[k].key == INFO
    ensures SpanEntries(d, p, sp) == EntrySpan(d, p, k) <==> !MentionsInfo(ParseEntries(d, p).value[k + 1..])
    decreases k
  {
    hide ParseString, MentionsInfo, HasInfo;
    EntriesUnfold(d, p);
    var key := ParseString(d, p);
    var v := ParseValue(d, key.next);
    var after := if key.value == INFO then Span(key.next, v.next) else SpanValue(d, key.next, sp);
    var rest := ParseEntries(d, v.next).value;
    assert ParseEntries(d, p).value == [Entry(key.value, v.value)] + rest;
    assert ParseEntries(d, p).value[k + 1..] == rest[k..];
    if k == 0 {
      assert rest[0..] == rest;
      EntriesSpan(d, v.next, after);
    } else {
      SpanOfEntry(d, v.next, after, k - 1);
    }
  }

  /** Parsing the span alone gives the same value, to its last byte. */
  lemma SpanAlone(d: Text, p: nat)
    requires ParseValue(d, p).Done?
    ensures var q := ParseValue(d, p).next;
            ParseValue(d[p..q], 0) == Done(ParseValue(d, p).value, q - p)
  {
    var q := ParseValue(d, p).next;
    assert d[p..q][0..q - p] == d[p..q];
    ValueShift(d, p, d[p..q], 0);
  }

  /**
   * The info span, for a file whose top level is a dictionary with an "info" key: it covers exactly the bytes of the
   * value the dictionary holds under that key if and only if no later top-level entry has, or contains a
   * dictionary with, that key again. Then parsing those bytes alone gives that value.
   */
  lemma InfoSpanExact(d: Text, k: nat)
    requires ParseValue(d, 0).Done? && ParseValue(d, 0).value.DictNode?
    requires var entries := ParseValue(d, 0).value.entries;
             k < |entries| && entries[k].key == INFO && FirstUnder(entries, k)
    ensures var entries := ParseValue(d, 0).value.entries;
            && ParseEntries(d, 1).Done? && ParseEntries(d, 1).value == entries
            && (SpanValue(d, 0, Span(0, 0)) == EntrySpan(d, 1, k) <==> !MentionsInfo(entries[k + 1..]))
            && INFO in DenoteEntries(entries)
            && var sp := EntrySpan(d, 1, k);
            && sp.start <= sp.end <= |d|
            && ParseValue(d[sp.start..sp.end], 0) == Done(entries[k].value, sp.end - sp.start)
            && Denote(entries[k].value) == DenoteEntries(entries)[INFO]
  {
    SpanOfEntry(d, 1, Span(0, 0), k);
    FirstWins(ParseValue(d, 0).value.entries, k);
    EntryValue(d, 1, k);
    SpanAlone(d, ValueStart(d, 1, k));
  }
}
