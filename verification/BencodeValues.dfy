/**
 * Bencoding as a relation between values and texts, written down once more from BEP 3 ("bencoding") without the
 * parser's helpers, and what the parser makes of such texts.
 */
module BencodeValues {
  import opened Bytes
  import opened Bencode
  import opened BencodeRoundTrip
  import opened BencodeInfo

  // ---------------------------------------------------------------- the relation

  /** The bytes of ASCII characters. */
  function Ascii(s: string): (t: Text)
    requires forall k :: 0 <= k < |s| ==> s[k] < 128 as char
    ensures |t| == |s| && forall k :: 0 <= k < |s| ==> t[k] == s[k] as int
  {
    seq(|s|, k requires 0 <= k < |s| => s[k] as int)
  }

  /** The decimal digits of a number, without leading zeros. */
  function Digits(n: nat): (t: Text)
    ensures |t| > 0
  {
    var digit: byte := '0' as int + n % 10;
    if n < 10 then [digit] else Digits(n / 10) + [digit]
  }

  /** A string: its length, a colon, its bytes. */
  function StringOf(s: Text): (t: Text)
    ensures |t| > 1
  {
    Digits(|s|) + Ascii(":") + s
  }

  /** An integer: an 'i', a minus sign if it is negative, its digits, an 'e'. */
  function IntegerOf(n: int): (t: Text)
    ensures |t| > 1
  {
    Ascii("i") + (if n < 0 then Ascii("-") + Digits(-n) else Digits(n)) + Ascii("e")
  }

  /** `x` is a text of the value `v`. */
  ghost predicate Prints(v: Value, x: Text)
    decreases |x|, 0
  {
    match v
    case Int(n) =>
      && -0x8000_0000_0000_0000 <= n < 0x8000_0000_0000_0000
      && x == IntegerOf(n)
    case Str(s) => |s| < 0x1_0000_0000_0000_0000 && x == StringOf(s)
    case List(items) => |x| > 1 && x[0] == 'l' as int && PrintsItems(items, x[1..])
    case Dict(entries) => |x| > 1 && x[0] == 'd' as int && PrintsEntries(entries, x[1..])
  }

  /** `x` is texts of the items, in order, and an 'e'. */
  ghost predicate PrintsItems(items: seq<Value>, x: Text)
    decreases |x|, 1
  {
    if items == [] then x == Ascii("e")
    else exists k :: 0 < k < |x| && Prints(items[0], x[..k]) && PrintsItems(items[1..], x[k..])
  }

  /** `x` is the keys with texts of their values, each key once, in any order, and an 'e'. */
  ghost predicate PrintsEntries(m: map<Text, Value>, x: Text)
    decreases |x|, 1
  {
    if m == map[] then x == Ascii("e")
    else exists key, k: nat :: key in m && PrintsFirst(m, x, key, k)
  }

  /** The first entry of the text is `key`, and ends at `k`. */
  ghost predicate PrintsFirst(m: map<Text, Value>, x: Text, key: Text, k: nat)
    requires key in m
    decreases |x|, 0
  {
    && |key| < 0x1_0000_0000_0000_0000
    && |StringOf(key)| < k < |x| && x[..|StringOf(key)|] == StringOf(key)
    && Prints(m[key], x[|StringOf(key)|..k])
    && PrintsEntries(m - {key}, x[k..])
  }

  // ---------------------------------------------------------------- the parser reads it

  lemma {:induction false} DigitsAgree(n: nat)
    ensures Digits(n) == DecimalText(n)
  {
    if n < 10 {
    } else {
      DigitsAgree(n / 10);
    }
  }

  lemma StringsAgree(s: Text)
    ensures StringOf(s) == StringText(s)
  {
    DigitsAgree(|s|);
    assert Ascii(":") == [CHAR_COLON];
  }

  lemma IntegersAgree(n: int)
    ensures IntegerOf(n) == [CHAR_I] + IntText(n) + [CHAR_E]
  {
    DigitsAgree(if n < 0 then -n else n);
    assert Ascii("i") == [CHAR_I] && Ascii("e") == [CHAR_E] && Ascii("-") == [CHAR_MINUS];
  }

  /** The parser reads, at `p`, the value `v`, and stops `n` bytes further on. */
  ghost predicate Reads(d: Text, p: nat, v: Value, n: nat) {
    var r := ParseValue(d, p);
    p < |d| && d[p] != CHAR_E && r.Done? && r.next == p + n && Denote(r.value) == v
  }

  ghost predicate ReadsItems(d: Text, p: nat, vs: seq<Value>, n: nat) {
    var r := ParseItems(d, p);
    r.Done? && r.next == p + n && |r.value| == |vs| && forall k :: 0 <= k < |vs| ==> Denote(r.value[k]) == vs[k]
  }

  ghost predicate ReadsEntries(d: Text, p: nat, m: map<Text, Value>, n: nat) {
    var r := ParseEntries(d, p);
    r.Done? && r.next == p + n && DenoteEntries(r.value) == m
  }

  lemma AtSlice(d: Text, p: nat, x: Text, k: nat, m: nat)
    requires At(d, p, x) && k <= m <= |x|
    ensures At(d, p + k, x[k..m])
  {
    assert x == x[..k] + (x[k..m] + x[m..]);
    AtParts(d, p, x[..k], x[k..m] + x[m..]);
    AtParts(d, p + k, x[k..m], x[m..]);
  }

  lemma {:induction false} PrintedRead(d: Text, p: nat, v: Value, x: Text)
    requires At(d, p, x) && Prints(v, x)
    ensures Reads(d, p, v, |x|)
    decreases |x|, 0
  {
    hide At, IntegerOf, StringOf, IntText, StringText, ParseInt, ParseString, ParseItems, ParseEntries;
    match v
    case Int(n) =>
      IntegersAgree(n);
      IntAt(d, p, n);
    case Str(s) =>
      StringsAgree(s);
      StringAt(d, p, s);
    case List(items) =>
      AtIndex(d, p, x, 0);
      AtSlice(d, p, x, 1, |x|);
      assert x[1..|x|] == x[1..];
      PrintedItems(d, p + 1, items, x[1..]);
      ListRead(d, p, items, |x|);
    case Dict(entries) =>
      AtIndex(d, p, x, 0);
      AtSlice(d, p, x, 1, |x|);
      assert x[1..|x|] == x[1..];
      PrintedEntries(d, p + 1, entries, x[1..]);
      DictRead(d, p, entries, |x|);
  }

  lemma ListRead(d: Text, p: nat, vs: seq<Value>, n: nat)
    requires p < |d| && d[p] == 'l' as int && n > 0 && ReadsItems(d, p + 1, vs, n - 1)
    ensures Reads(d, p, List(vs), n)
  {
    hide ParseItems;
    assert DenoteItems(ParseItems(d, p + 1).value) == vs;
  }

  lemma DictRead(d: Text, p: nat, m: map<Text, Value>, n: nat)
    requires p < |d| && d[p] == 'd' as int && n > 0 && ReadsEntries(d, p + 1, m, n - 1)
    ensures Reads(d, p, Dict(m), n)
  {
    hide ParseEntries;
  }

  lemma {:induction false} PrintedItems(d: Text, p: nat, items: seq<Value>, x: Text)
    requires At(d, p, x) && PrintsItems(items, x)
    ensures ReadsItems(d, p, items, |x|)
    decreases |x|, 1
  {
    hide At, Prints, ParseValue;
    if items == [] {
      AtIndex(d, p, x, 0);
    } else {
      var k :| 0 < k < |x| && Prints(items[0], x[..k]) && PrintsItems(items[1..], x[k..]);
      AtSlice(d, p, x, 0, k);
      AtSlice(d, p, x, k, |x|);
      assert x[0..k] == x[..k] && x[k..|x|] == x[k..];
      PrintedRead(d, p, items[0], x[..k]);
      PrintedItems(d, p + k, items[1..], x[k..]);
      MoreItems(d, p, items, k, |x|);
    }
  }

  lemma MoreItems(d: Text, p: nat, vs: seq<Value>, k: nat, n: nat)
    requires vs != [] && k <= n && Reads(d, p, vs[0], k) && ReadsItems(d, p + k, vs[1..], n - k)
    ensures ReadsItems(d, p, vs, n)
  {
    hide ParseValue;
    var rest := ParseItems(d, p + k).value;
    assert ParseItems(d, p).value == [ParseValue(d, p).value] + rest;
    forall j | 0 <= j < |vs|
      ensures Denote(ParseItems(d, p).value[j]) == vs[j]
    {
      if j > 0 {
        assert ParseItems(d, p).value[j] == rest[j - 1] && vs[1..][j - 1] == vs[j];
      }
    }
  }

  lemma {:induction false} PrintedEntries(d: Text, p: nat, m: map<Text, Value>, x: Text)
    requires At(d, p, x) && PrintsEntries(m, x)
    ensures ReadsEntries(d, p, m, |x|)
    decreases |x|, 1
  {
    hide At, Prints, ParseValue, ParseString, StringOf;
    if m == map[] {
      AtIndex(d, p, x, 0);
    } else {
      var key, k: nat :| key in m && PrintsFirst(m, x, key, k);
      var e := |StringOf(key)|;
      AtSlice(d, p, x, 0, e);
      AtSlice(d, p, x, e, k);
      AtSlice(d, p, x, k, |x|);
      assert x[0..e] == x[..e] && x[k..|x|] == x[k..];
      StringsAgree(key);
      StringAt(d, p, key);
      PrintedRead(d, p + e, m[key], x[e..k]);
      PrintedEntries(d, p + k, m - {key}, x[k..]);
      MoreEntries(d, p, m, key, e, k, |x|);
    }
  }

  /** An entry in front of others keeps its key for itself. */
  lemma {:induction false} DenoteFirst(e: Entry, rest: seq<Entry>)
    ensures DenoteEntries([e] + rest) == DenoteEntries(rest)[e.key := Denote(e.value)]
  {
    var all := [e] + rest;
    if rest == [] {
      assert all[..0] == [] && DenoteEntries(all[..0]) == map[];
    } else {
      var n := |rest| - 1;
      assert all[..n + 1] == [e] + rest[..n];
      DenoteFirst(e, rest[..n]);
    }
  }

  lemma MoreEntries(d: Text, p: nat, m: map<Text, Value>, key: Text, e: nat, k: nat, n: nat)
    requires key in m && e <= k <= n && p < |d| && IsDigit(d[p])
    requires ParseString(d, p) == Done(key, p + e)
    requires Reads(d, p + e, m[key], k - e) && ReadsEntries(d, p + k, m - {key}, n - k)
    ensures ReadsEntries(d, p, m, n)
  {
    hide ParseValue, ParseString;
    EntriesUnfold(d, p);
    var rest := ParseEntries(d, p + k).value;
    DenoteFirst(Entry(key, ParseValue(d, p + e).value), rest);
    assert (m - {key})[key := m[key]] == m;
  }

  /**
   * The round trip on values: a text of a value, in any context, is read as that value, and the parser stops right
   * behind it. Lists keep their order; the keys of a dictionary may stand in any.
   */
  lemma ValueRoundTrip(before: Text, v: Value, x: Text, after: Text)
    requires Prints(v, x)
    ensures var d := before + x + after;
            && YieldValue(ParseValue(d, |before|)) == Ok(v)
            && ParseValue(d, |before|).Done? && ParseValue(d, |before|).next == |before| + |x|
  {
    hide Prints;
    var d := before + x + after;
    assert d[|before|..|before| + |x|] == x;
    PrintedRead(d, |before|, v, x);
  }

  /** No text is the text of two values, nor the beginning of the text of another. */
  lemma TextsDecide(v: Value, x: Text, v': Value, x': Text)
    requires Prints(v, x) && Prints(v', x') && x <= x'
    ensures v == v' && x == x'
  {
    hide Prints;
    ValueRoundTrip([], v, x, x'[|x|..]);
    ValueRoundTrip([], v', x', []);
    assert [] + x + x'[|x|..] == x' == [] + x' + [];
  }

  // ---------------------------------------------------------------- every value has a text

  /** The keys of every dictionary are distinct. */
  ghost predicate Proper(node: Node)
    decreases node
  {
    match node
    case IntNode(_) => true
    case StrNode(_) => true
    case ListNode(items) => forall k :: 0 <= k < |items| ==> Proper(items[k])
    case DictNode(entries) => UniqueKeys(entries) && forall k :: 0 <= k < |entries| ==> Proper(entries[k].value)
  }

  lemma EncodeLong(node: Node)
    ensures |Encode(node)| > 1
  {
    match node
    case IntNode(_) =>
    case StrNode(_) =>
    case ListNode(items) =>
      if items != [] {
        EncodeLong(items[0]);
      }
    case DictNode(entries) =>
      if entries != [] {
        EncodeLong(entries[0].value);
      }
  }

  /** So the printer's text of a value is a text of it. */
  lemma {:induction false} EncodePrints(node: Node)
    requires Proper(node) && Encodable(node)
    ensures Prints(Denote(node), Encode(node))
    decreases node, 0
  {
    EncodeLong(node);
    hide IntegerOf, StringOf, IntText, StringText, EncodeItems, EncodeEntries, PrintsItems, PrintsEntries, DenoteEntries;
    match node
    case IntNode(n) => IntegersAgree(n);
    case StrNode(s) => StringsAgree(s);
    case ListNode(items) =>
      EncodeItemsPrints(items);
      assert Encode(node)[1..] == EncodeItems(items);
    case DictNode(entries) =>
      EncodeEntriesPrints(entries);
      assert Encode(node)[1..] == EncodeEntries(entries);
  }

  lemma {:induction false} EncodeItemsPrints(items: seq<Node>)
    requires forall k :: 0 <= k < |items| ==> Proper(items[k]) && Encodable(items[k])
    ensures PrintsItems(DenoteItems(items), EncodeItems(items))
    decreases items, 1
  {
    hide Prints, Encode, Denote, Proper, Encodable;
    if items == [] {
      assert Ascii("e") == [CHAR_E];
    } else {
      EncodePrints(items[0]);
      EncodeItemsPrints(items[1..]);
      EncodeLong(items[0]);
      var x, k := EncodeItems(items), |Encode(items[0])|;
      assert x[..k] == Encode(items[0]) && x[k..] == EncodeItems(items[1..]);
      assert DenoteItems(items)[1..] == DenoteItems(items[1..]);
      ItemsEnd(items[1..]);
    }
  }

  lemma ItemsEnd(items: seq<Node>)
    ensures |EncodeItems(items)| > 0
  {
    if items != [] {
      EncodeLong(items[0]);
    }
  }

  lemma EntriesFollow(entries: seq<Entry>)
    ensures |EncodeEntries(entries)| > 0
  {
    if entries != [] {
      EncodeLong(entries[0].value);
    }
  }

  lemma {:induction false} EncodeEntriesPrints(entries: seq<Entry>)
    requires UniqueKeys(entries)
    requires forall k :: 0 <= k < |entries| ==>
               |entries[k].key| < TWO_64 && Proper(entries[k].value) && Encodable(entries[k].value)
    ensures PrintsEntries(DenoteEntries(entries), EncodeEntries(entries))
    decreases entries, 1
  {
    hide Prints, Encode, Denote, Proper, Encodable, StringText, StringOf;
    if entries == [] {
      assert Ascii("e") == [CHAR_E];
    } else {
      var key, value, rest := entries[0].key, entries[0].value, entries[1..];
      EncodePrints(value);
      EncodeEntriesPrints(rest);
      EncodeLong(value);
      EntriesFollow(rest);
      StringsAgree(key);
      AbsentKey(rest, key);
      DenoteFirst(entries[0], rest);
      assert entries == [entries[0]] + rest;
      var m, x := DenoteEntries(entries), EncodeEntries(entries);
      var e := |StringOf(key)|;
      var k := e + |Encode(value)|;
      assert x == StringOf(key) + Encode(value) + EncodeEntries(rest);
      assert x[..e] == StringOf(key) && x[e..k] == Encode(value) && x[k..] == EncodeEntries(rest);
      assert m - {key} == DenoteEntries(rest);
      assert PrintsFirst(m, x, key, k);
    }
  }
}
