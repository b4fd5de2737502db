/** The printer of BEP 3 ("bencoding"), and what it and the parser do to each other. */
module BencodeRoundTrip {
  import opened Bytes
  import opened Bencode

  // ---------------------------------------------------------------- the printer

  function DecimalText(n: nat): (s: Text)
    ensures |s| > 0
    ensures forall x :: 0 <= x < |s| ==> IsDigit(s[x])
  {
    var digit: byte := 48 + n % 10;
    if n < 10 then [digit] else DecimalText(n / 10) + [digit]
  }

  function IntText(n: int): Text {
    if n < 0 then [CHAR_MINUS] + DecimalText(-n) else DecimalText(n)
  }

  function StringText(s: Text): Text {
    DecimalText(|s|) + [CHAR_COLON] + s
  }

  function Encode(node: Node): (s: Text)
    decreases node, 0
  {
    match node
    case IntNode(n) => [CHAR_I] + IntText(n) + [CHAR_E]
    case StrNode(s) => StringText(s)
    case ListNode(items) => [CHAR_L] + EncodeItems(items)
    case DictNode(entries) => [CHAR_D] + EncodeEntries(entries)
  }

  /** The items of a list and the 'e' after them. */
  function EncodeItems(items: seq<Node>): Text
    decreases items, 1
  {
    if items == [] then [CHAR_E] else Encode(items[0]) + EncodeItems(items[1..])
  }

  /** The entries of a dictionary, in the given order, and the 'e' after them. */
  function EncodeEntries(entries: seq<Entry>): Text
    decreases entries, 1
  {
    if entries == [] then [CHAR_E]
    else StringText(entries[0].key) + Encode(entries[0].value) + EncodeEntries(entries[1..])
  }

  /** Integers fit 64 bits, lengths fit `size_t`. */
  predicate Encodable(node: Node)
    decreases node, 0
  {
    match node
    case IntNode(n) => -TWO_63 <= n < TWO_63
    case StrNode(s) => |s| < TWO_64
    case ListNode(items) => forall k :: 0 <= k < |items| ==> Encodable(items[k])
    case DictNode(entries) =>
      forall k :: 0 <= k < |entries| ==> |entries[k].key| < TWO_64 && Encodable(entries[k].value)
  }

  // ---------------------------------------------------------------- numbers

  lemma {:induction false} DecimalRoundTrip(n: nat)
    ensures Decimal(DecimalText(n)) == n
  {
    var s := DecimalText(n);
    if n < 10 {
      assert s[..0] == [];
    } else {
      DecimalRoundTrip(n / 10);
      assert s[..|s| - 1] == DecimalText(n / 10);
    }
  }

  lemma {:induction false} AllDigits(s: Text, k: nat)
    requires k <= |s| && forall x :: k <= x < |s| ==> IsDigit(s[x])
    ensures DigitsEnd(s, k) == |s|
    decreases |s| - k
  {
    if k == |s| {
    } else {
      AllDigits(s, k + 1);
    }
  }

  lemma NumberRoundTrip(n: int)
    ensures ReadNumber(IntText(n)) == Number(n < 0, if n < 0 then -n else n)
  {
    var s := IntText(n);
    var m := if n < 0 then -n else n;
    var b := if n < 0 then 1 else 0;
    assert IsDigit(DecimalText(m)[0]);
    assert SpacesEnd(s, 0) == 0;
    AllDigits(s, b);
    assert s[b..] == DecimalText(m);
    assert s[b..|s|] == s[b..];
    DecimalRoundTrip(m);
  }

  // ---------------------------------------------------------------- text at a place

  /** `text` stands in `d` at `p`. */
  predicate At(d: Text, p: nat, text: Text) {
    p + |text| <= |d| && d[p..p + |text|] == text
  }

  lemma AtParts(d: Text, p: nat, a: Text, b: Text)
    requires At(d, p, a + b)
    ensures At(d, p, a) && At(d, p + |a|, b)
  {
    assert (a + b)[..|a|] == a && (a + b)[|a|..] == b;
    assert d[p..p + |a|] == d[p..p + |a + b|][..|a|];
    assert d[p + |a|..p + |a| + |b|] == d[p..p + |a + b|][|a|..];
  }

  lemma AtIndex(d: Text, p: nat, text: Text, k: nat)
    requires At(d, p, text) && k < |text|
    ensures p + k < |d| && d[p + k] == text[k]
  {
    assert d[p + k] == d[p..p + |text|][k];
  }

  /** A byte that does not occur before `e` is found at `e`. */
  lemma {:induction false} FindAt(d: Text, c: byte, p: nat, e: nat)
    requires p <= e < |d| && d[e] == c && forall x :: p <= x < e ==> d[x] != c
    ensures Find(d, c, p) == Some(e)
    decreases e - p
  {
    if p == e {
    } else {
      FindAt(d, c, p + 1, e);
    }
  }

  // ---------------------------------------------------------------- round trip

  lemma EntriesEnd(d: Text, p: nat)
    requires p < |d| && d[p] == CHAR_E
    ensures ParseEntries(d, p) == Done([], p + 1)
  {
  }

  /** One entry at a time. */
  lemma EntriesUnfold(d: Text, p: nat)
    requires p < |d| && d[p] != CHAR_E
    ensures var key := ParseString(d, p);
            ParseEntries(d, p)
            == match key
               case Fail(x) => Fail(x)
               case Done(name, k) =>
                 match ParseValue(d, k)
                 case Fail(x) => Fail(x)
                 case Done(v, q) => Prepend([Entry(name, v)], ParseEntries(d, q))
  {
  }

  lemma StringAt(d: Text, p: nat, s: Text)
    requires At(d, p, StringText(s)) && |s| < TWO_64
    ensures ParseString(d, p) == Done(s, p + |StringText(s)|)
    ensures IsDigit(d[p])
  {
    hide ReadNumber, DecimalText, At;
    var n := DecimalText(|s|);
    AtParts(d, p, n + [CHAR_COLON], s);
    AtParts(d, p, n, [CHAR_COLON]);
    forall x | p <= x < p + |n|
      ensures IsDigit(d[x]) && d[x] != CHAR_COLON
    {
      AtIndex(d, p, n, x - p);
    }
    AtIndex(d, p + |n|, [CHAR_COLON], 0);
    FindAt(d, CHAR_COLON, p, p + |n|);
    NumberRoundTrip(|s|);
  }

  lemma NoEndInside(n: int, k: nat)
    requires k < |IntText(n)|
    ensures IntText(n)[k] != CHAR_E
  {
  }

  lemma IntAt(d: Text, p: nat, n: int)
    requires At(d, p, [CHAR_I] + IntText(n) + [CHAR_E]) && -TWO_63 <= n < TWO_63
    ensures p < |d| && d[p] == CHAR_I && ParseInt(d, p) == Done(n, p + |IntText(n)| + 2)
  {
    hide IntText, ReadNumber;
    var s := IntText(n);
    AtParts(d, p, [CHAR_I] + s, [CHAR_E]);
    AtParts(d, p, [CHAR_I], s);
    AtIndex(d, p, [CHAR_I], 0);
    forall x | p + 1 <= x < p + 1 + |s|
      ensures d[x] != CHAR_E
    {
      AtIndex(d, p + 1, s, x - (p + 1));
      NoEndInside(n, x - (p + 1));
    }
    AtIndex(d, p + 1 + |s|, [CHAR_E], 0);
    FindAt(d, CHAR_E, p + 1, p + 1 + |s|);
    NumberRoundTrip(n);
  }

  /** Wherever a printed value stands, the parser reads that value and stops right behind it. */
  lemma {:induction false} ValueAt(d: Text, p: nat, node: Node)
    requires At(d, p, Encode(node)) && Encodable(node)
    ensures ParseValue(d, p) == Done(node, p + |Encode(node)|)
    ensures p < |d| && d[p] != CHAR_E
    decreases node, 0
  {
    hide At, ParseInt, ParseString, ParseItems, ParseEntries, IntText, StringText, EncodeItems, EncodeEntries;
    match node
    case IntNode(n) => IntAt(d, p, n);
    case StrNode(s) => StringAt(d, p, s);
    case ListNode(items) =>
      AtParts(d, p, [CHAR_L], EncodeItems(items));
      AtIndex(d, p, [CHAR_L], 0);
      ItemsAt(d, p + 1, items);
    case DictNode(entries) =>
      AtParts(d, p, [CHAR_D], EncodeEntries(entries));
      AtIndex(d, p, [CHAR_D], 0);
      EntriesAt(d, p + 1, entries);
  }

  lemma {:induction false} ItemsAt(d: Text, p: nat, items: seq<Node>)
    requires At(d, p, EncodeItems(items)) && forall k :: 0 <= k < |items| ==> Encodable(items[k])
    ensures ParseItems(d, p) == Done(items, p + |EncodeItems(items)|)
    decreases items, 1
  {
    hide Encode, ParseValue, At, Encodable;
    if items == [] {
      AtIndex(d, p, [CHAR_E], 0);
    } else {
      AtParts(d, p, Encode(items[0]), EncodeItems(items[1..]));
      ValueAt(d, p, items[0]);
      ItemsAt(d, p + |Encode(items[0])|, items[1..]);
      assert [items[0]] + items[1..] == items;
    }
  }

  lemma {:induction false} EntriesAt(d: Text, p: nat, entries: seq<Entry>)
    requires At(d, p, EncodeEntries(entries))
    requires forall k :: 0 <= k < |entries| ==> |entries[k].key| < TWO_64 && Encodable(entries[k].value)
    ensures ParseEntries(d, p) == Done(entries, p + |EncodeEntries(entries)|)
    decreases entries, 1
  {
    hide Encode, StringText, ParseValue, ParseString, At, Encodable;
    if entries == [] {
      AtIndex(d, p, [CHAR_E], 0);
    } else {
      var key, value := StringText(entries[0].key), Encode(entries[0].value);
      AtParts(d, p, key + value, EncodeEntries(entries[1..]));
      AtParts(d, p, key, value);
      StringAt(d, p, entries[0].key);
      ValueAt(d, p + |key|, entries[0].value);
      EntriesAt(d, p + |key + value|, entries[1..]);
      EntriesUnfold(d, p);
      assert [entries[0]] + entries[1..] == entries;
    }
  }

  /** The round trip inside any context. */
  lemma RoundTrip(before: Text, node: Node, after: Text)
    requires Encodable(node)
    ensures ParseValue(before + Encode(node) + after, |before|) == Done(node, |before| + |Encode(node)|)
  {
    var d := before + Encode(node) + after;
    assert d[|before|..|before| + |Encode(node)|] == Encode(node);
    ValueAt(d, |before|, node);
  }

  /** So no printed value is a prefix of another, and printing is injective. */
  lemma PrefixFree(a: Node, b: Node, after: Text)
    requires Encodable(a) && Encodable(b)
    requires Encode(a) + after == Encode(b)
    ensures a == b && after == []
  {
    hide Encode, Encodable, ParseValue;
    RoundTrip([], a, after);
    RoundTrip([], b, []);
    assert [] + Encode(a) + after == [] + Encode(b) + [];
  }

  // ---------------------------------------------------------------- locality

  /** The `n` bytes of `d` from `p` on stand in `d'` at `q`. */
  predicate Agree(d: Text, p: nat, n: nat, d': Text, q: nat) {
    p + n <= |d| && q + n <= |d'| && d[p..p + n] == d'[q..q + n]
  }

  lemma AgreePart(d: Text, p: nat, n: nat, d': Text, q: nat, k: nat, m: nat)
    requires Agree(d, p, n, d', q) && k + m <= n
    ensures Agree(d, p + k, m, d', q + k)
  {
    SubSlice(d, p, n, k, m);
    SubSlice(d', q, n, k, m);
  }

  lemma SubSlice(s: Text, p: nat, n: nat, k: nat, m: nat)
    requires p + n <= |s| && k + m <= n
    ensures s[p..p + n][k..k + m] == s[p + k..p + k + m]
  {
    var l, r := s[p..p + n][k..k + m], s[p + k..p + k + m];
    assert |l| == |r|;
    assert forall x :: 0 <= x < m ==> l[x] == r[x];
  }

  lemma AgreeSlices(d: Text, p: nat, n: nat, d': Text, q: nat)
    requires Agree(d, p, n, d', q)
    ensures p + n <= |d| && q + n <= |d'| && d[p..p + n] == d'[q..q + n]
  {
  }

  lemma AgreeIndex(d: Text, p: nat, n: nat, d': Text, q: nat, k: nat)
    requires Agree(d, p, n, d', q) && k < n
    ensures p + k < |d| && q + k < |d'| && d[p + k] == d'[q + k]
  {
    assert d[p + k] == d[p..p + n][k] && d'[q + k] == d'[q..q + n][k];
  }

  lemma FindShift(d: Text, c: byte, p: nat, n: nat, d': Text, q: nat)
    requires Agree(d, p, n, d', q) && Find(d, c, p).Some? && Find(d, c, p).value < p + n
    ensures Find(d', c, q) == Some(q + (Find(d, c, p).value - p))
  {
    var e := Find(d, c, p).value;
    AgreeIndex(d, p, n, d', q, e - p);
    forall x | q <= x < q + (e - p)
      ensures d'[x] != c
    {
      AgreeIndex(d, p, n, d', q, x - q);
    }
    FindAt(d', c, q, q + (e - p));
  }

  lemma StringShift(d: Text, p: nat, d': Text, q: nat)
    requires ParseString(d, p).Done? && Agree(d, p, ParseString(d, p).next - p, d', q)
    ensures ParseString(d', q) == Done(ParseString(d, p).value, q + (ParseString(d, p).next - p))
  {
    hide Agree, Stoull, Find;
    var n := ParseString(d, p).next - p;
    var k := Find(d, CHAR_COLON, p).value - p;
    FindShift(d, CHAR_COLON, p, n, d', q);
    AgreePart(d, p, n, d', q, 0, k);
    AgreeSlices(d, p, k, d', q);
    AgreePart(d, p, n, d', q, k + 1, n - (k + 1));
    AgreeSlices(d, p + k + 1, n - (k + 1), d', q + k + 1);
  }

  lemma IntShift(d: Text, p: nat, d': Text, q: nat)
    requires p < |d| && q < |d'|
    requires ParseInt(d, p).Done? && Agree(d, p, ParseInt(d, p).next - p, d', q)
    ensures ParseInt(d', q) == Done(ParseInt(d, p).value, q + (ParseInt(d, p).next - p))
  {
    hide Agree, Stoll, Find;
    var n := ParseInt(d, p).next - p;
    var k := Find(d, CHAR_E, p + 1).value - (p + 1);
    AgreePart(d, p, n, d', q, 1, n - 1);
    FindShift(d, CHAR_E, p + 1, n - 1, d', q + 1);
    AgreePart(d, p, n, d', q, 1, k);
    AgreeSlices(d, p + 1, k, d', q + 1);
  }

  /**
   * Locality: a successful parse depends only on the bytes it consumed. Any input that has those bytes, at any
   * place, parses there to the same value and stops right behind them.
   */
  lemma {:induction false} ValueShift(d: Text, p: nat, d': Text, q: nat)
    requires ParseValue(d, p).Done? && Agree(d, p, ParseValue(d, p).next - p, d', q)
    ensures ParseValue(d', q) == Done(ParseValue(d, p).value, q + (ParseValue(d, p).next - p))
    decreases |d| - p, 0
  {
    hide Agree, ParseInt, ParseString;
    var n := ParseValue(d, p).next - p;
    AgreeIndex(d, p, n, d', q, 0);
    if d[p] == CHAR_I {
      IntShift(d, p, d', q);
    } else if d[p] == CHAR_L {
      AgreePart(d, p, n, d', q, 1, n - 1);
      ItemsShift(d, p + 1, d', q + 1);
    } else if d[p] == CHAR_D {
      AgreePart(d, p, n, d', q, 1, n - 1);
      EntriesShift(d, p + 1, d', q + 1);
    } else {
      StringShift(d, p, d', q);
    }
  }

  lemma {:induction false} ItemsShift(d: Text, p: nat, d': Text, q: nat)
    requires ParseItems(d, p).Done? && Agree(d, p, ParseItems(d, p).next - p, d', q)
    ensures ParseItems(d', q) == Done(ParseItems(d, p).value, q + (ParseItems(d, p).next - p))
    decreases |d| - p, 1
  {
    hide Agree, ParseInt, ParseString;
    var n := ParseItems(d, p).next - p;
    AgreeIndex(d, p, n, d', q, 0);
    if d[p] == CHAR_E {
    } else {
      var k := ParseValue(d, p).next - p;
      AgreePart(d, p, n, d', q, 0, k);
      ValueShift(d, p, d', q);
      AgreePart(d, p, n, d', q, k, n - k);
      ItemsShift(d, p + k, d', q + k);
    }
  }

  lemma {:induction false} EntriesShift(d: Text, p: nat, d': Text, q: nat)
    requires ParseEntries(d, p).Done? && Agree(d, p, ParseEntries(d, p).next - p, d', q)
    ensures ParseEntries(d', q) == Done(ParseEntries(d, p).value, q + (ParseEntries(d, p).next - p))
    decreases |d| - p, 1
  {
    hide Agree, ParseString, ParseValue, ParseEntries;
    var n := ParseEntries(d, p).next - p;
    AgreeIndex(d, p, n, d', q, 0);
    if d[p] == CHAR_E {
      EntriesEnd(d, p);
      EntriesEnd(d', q);
    } else {
      EntriesUnfold(d, p);
      var j := ParseString(d, p).next - p;
      var k := ParseValue(d, p + j).next - p;
      AgreePart(d, p, n, d', q, 0, j);
      StringShift(d, p, d', q);
      AgreePart(d, p, n, d', q, j, k - j);
      ValueShift(d, p + j, d', q + j);
      AgreePart(d, p, n, d', q, k, n - k);
      EntriesShift(d, p + k, d', q + k);
      EntriesUnfold(d', q);
    }
  }

  /** The inputs the parser accepts in full are prefix-free. */
  lemma AcceptedPrefixFree(d: Text, d': Text)
    requires d <= d'
    requires ParseValue(d, 0).Done? && ParseValue(d, 0).next == |d|
    requires ParseValue(d', 0).Done? && ParseValue(d', 0).next == |d'|
    ensures d == d'
  {
    hide ParseValue;
    assert d[0..|d|] == d == d'[0..|d|];
    ValueShift(d, 0, d', 0);
  }
}
