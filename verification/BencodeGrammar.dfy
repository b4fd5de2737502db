/**
 * Exactly which texts the parser accepts, and as what: the grammar it really reads, with the liberties of `std::stoll`
 * and `std::stoull` and with repeated keys, on the input itself.
 */
module BencodeGrammar {
  import opened Bytes
  import opened Bencode
  import opened BencodeRoundTrip
  import opened BencodeValues

  // ---------------------------------------------------------------- numbers

  predicate Digit(c: byte) {
    '0' as int <= c <= '9' as int
  }

  /** What a run of digits spells. */
  ghost function Spelled(digits: Text): int {
    if digits == [] then 0
    else
      var last: int := digits[|digits| - 1];
      10 * Spelled(digits[..|digits| - 1]) + (last - '0' as int)
  }

  /** Spaces up to `a`, a sign up to `b`, digits up to `e`, and then no digit. */
  ghost predicate Parts(x: Text, a: nat, b: nat, e: nat, negative: bool, m: nat) {
    && a <= b < e <= |x|
    && (forall k :: 0 <= k < a ==> x[k] == ' ' as int || '\t' as int <= x[k] <= '\r' as int)
    && (if b == a then !negative else b == a + 1 && x[a] == if negative then '-' as int else '+' as int)
    && (forall k :: b <= k < e ==> Digit(x[k])) && (e < |x| ==> !Digit(x[e]))
    && Spelled(x[b..e]) == m
  }

  ghost predicate Numeral(x: Text, negative: bool, m: nat) {
    exists a: nat, b: nat, e: nat :: Parts(x, a, b, e, negative, m)
  }

  lemma {:induction false} SpelledIsDecimal(digits: Text)
    requires forall k :: 0 <= k < |digits| ==> IsDigit(digits[k])
    ensures Spelled(digits) == Decimal(digits)
  {
    if digits == [] {
    } else {
      SpelledIsDecimal(digits[..|digits| - 1]);
    }
  }

  lemma {:induction false} SpacesEndAt(s: Text, k: nat, a: nat)
    requires k <= a <= |s| && (forall x :: k <= x < a ==> IsSpace(s[x])) && (a < |s| ==> !IsSpace(s[a]))
    ensures SpacesEnd(s, k) == a
    decreases a - k
  {
    if k == a {
    } else {
      SpacesEndAt(s, k + 1, a);
    }
  }

  lemma {:induction false} SpacesSkipped(s: Text, k: nat)
    requires k <= |s|
    ensures var a := SpacesEnd(s, k);
            (forall x :: k <= x < a ==> IsSpace(s[x])) && (a < |s| ==> !IsSpace(s[a]))
    decreases |s| - k
  {
    if k == |s| {
    } else if IsSpace(s[k]) {
      SpacesSkipped(s, k + 1);
    }
  }

  lemma {:induction false} DigitsEndAt(s: Text, k: nat, e: nat)
    requires k <= e <= |s| && (forall x :: k <= x < e ==> IsDigit(s[x])) && (e < |s| ==> !IsDigit(s[e]))
    ensures DigitsEnd(s, k) == e
    decreases e - k
  {
    if k == e {
    } else {
      DigitsEndAt(s, k + 1, e);
    }
  }

  lemma ReadParts(x: Text, a: nat, b: nat, e: nat, negative: bool, m: nat)
    requires Parts(x, a, b, e, negative, m)
    ensures ReadNumber(x) == Number(negative, m)
  {
    SpacesEndAt(x, 0, a);
    DigitsEndAt(x, b, e);
    assert forall k :: 0 <= k < e - b ==> x[b..e][k] == x[b + k] && IsDigit(x[b + k]);
    SpelledIsDecimal(x[b..e]);
  }

  lemma PartsRead(x: Text)
    requires ReadNumber(x).Number?
    ensures Numeral(x, ReadNumber(x).negative, ReadNumber(x).magnitude)
  {
    SpacesSkipped(x, 0);
    var a := SpacesEnd(x, 0);
    var b := if a < |x| && (x[a] == CHAR_MINUS || x[a] == CHAR_PLUS) then a + 1 else a;
    var e := DigitsEnd(x, b);
    assert forall k :: 0 <= k < e - b ==> x[b..e][k] == x[b + k] && IsDigit(x[b + k]);
    SpelledIsDecimal(x[b..e]);
    assert Parts(x, a, b, e, ReadNumber(x).negative, ReadNumber(x).magnitude);
  }

  lemma NumeralExact(x: Text, negative: bool, m: nat)
    ensures Numeral(x, negative, m) <==> ReadNumber(x) == Number(negative, m)
  {
    if Numeral(x, negative, m) {
      var a: nat, b: nat, e: nat :| Parts(x, a, b, e, negative, m);
      ReadParts(x, a, b, e, negative, m);
    }
    if ReadNumber(x).Number? {
      PartsRead(x);
    }
  }

  // ---------------------------------------------------------------- integers and strings

  /** From `p` to `q`: an 'i', a numeral of 64 bits, and the first 'e'. */
  ghost predicate IntegerAt(d: Text, p: nat, q: nat, n: int)
    requires p <= q <= |d|
  {
    && q - p >= 2 && d[p] == 'i' as int && d[q - 1] == 'e' as int && (forall k :: p < k < q - 1 ==> d[k] != 'e' as int)
    && -0x8000_0000_0000_0000 <= n < 0x8000_0000_0000_0000
    && ((n >= 0 && Numeral(d[p + 1..q - 1], false, n)) || (n <= 0 && Numeral(d[p + 1..q - 1], true, -n)))
  }

  /** From `p` to `q`: a numeral, the first colon, and as many bytes as it says; a negative one wraps at 64 bits. */
  ghost predicate BytesAt(d: Text, p: nat, q: nat, s: Text)
    requires p <= q <= |d|
  {
    exists c: nat, negative, m: nat :: ColonAt(d, p, q, s, c, negative, m)
  }

  ghost predicate ColonAt(d: Text, p: nat, q: nat, s: Text, c: nat, negative: bool, m: nat)
    requires p <= q <= |d|
  {
    && p <= c < q && d[c] == ':' as int && (forall k :: p <= k < c ==> d[k] != ':' as int)
    && Numeral(d[p..c], negative, m) && m < 0x1_0000_0000_0000_0000
    && d[c + 1..q] == s && |s| == if negative && m > 0 then 0x1_0000_0000_0000_0000 - m else m
  }

  lemma FindExact(d: Text, c: byte, p: nat, e: nat)
    ensures Find(d, c, p) == Some(e) <==> p <= e < |d| && d[e] == c && forall x :: p <= x < e ==> d[x] != c
  {
    if p <= e < |d| && d[e] == c && forall x :: p <= x < e ==> d[x] != c {
      FindAt(d, c, p, e);
    }
  }

  lemma IntegerExact(d: Text, p: nat, q: nat, n: int)
    requires p < |d| && d[p] == 'i' as int
    ensures ParseInt(d, p) == Done(n, q) <==> p <= q <= |d| && IntegerAt(d, p, q, n)
  {
    hide Numeral, ReadNumber;
    if p + 1 < q {
      FindExact(d, CHAR_E, p + 1, q - 1);
      if q <= |d| {
        var size := if n < 0 then -n else n;
        NumeralExact(d[p + 1..q - 1], false, size);
        NumeralExact(d[p + 1..q - 1], true, size);
      }
    }
  }

  lemma StringSound(d: Text, p: nat)
    requires ParseString(d, p).Done?
    ensures var r := ParseString(d, p);
            p <= r.next <= |d| && BytesAt(d, p, r.next, r.value)
  {
    hide Numeral, ReadNumber;
    var r := ParseString(d, p);
    var c := Find(d, CHAR_COLON, p).value;
    var number := ReadNumber(d[p..c]);
    NumeralExact(d[p..c], number.negative, number.magnitude);
    assert ColonAt(d, p, r.next, r.value, c, number.negative, number.magnitude);
  }

  lemma StringComplete(d: Text, p: nat, q: nat, s: Text)
    requires p <= q <= |d| && BytesAt(d, p, q, s)
    ensures ParseString(d, p) == Done(s, q) && p < q && d[p] != 'e' as int
  {
    hide Numeral, ReadNumber;
    var c: nat, negative, m: nat :| ColonAt(d, p, q, s, c, negative, m);
    FindExact(d, CHAR_COLON, p, c);
    NumeralExact(d[p..c], negative, m);
    NumeralStarts(d[p..c], negative, m);
  }

  lemma NumeralStarts(x: Text, negative: bool, m: nat)
    requires Numeral(x, negative, m)
    ensures x != [] && x[0] != 'e' as int
  {
    var a: nat, b: nat, e: nat :| Parts(x, a, b, e, negative, m);
  }

  // ---------------------------------------------------------------- values

  /** The bytes from `p` to `q` are a value, and the value is `v`. */
  ghost predicate Spells(d: Text, p: nat, q: nat, v: Value)
    requires p <= q <= |d|
    decreases q - p, 0
  {
    match v
    case Int(n) => IntegerAt(d, p, q, n)
    case Str(s) => p < q && Digit(d[p]) && BytesAt(d, p, q, s)
    case List(items) => q - p >= 2 && d[p] == 'l' as int && SpellsItems(d, p + 1, q, items)
    case Dict(m) => q - p >= 2 && d[p] == 'd' as int && SpellsEntries(d, p + 1, q, m)
  }

  ghost predicate SpellsItems(d: Text, p: nat, q: nat, items: seq<Value>)
    requires p <= q <= |d|
    decreases q - p, 1
  {
    if items == [] then q == p + 1 && d[p] == 'e' as int
    else exists k: nat :: p < k < q && Spells(d, p, k, items[0]) && SpellsItems(d, k, q, items[1..])
  }

  /** Under a repeated key the first entry counts. */
  ghost predicate SpellsEntries(d: Text, p: nat, q: nat, m: map<Text, Value>)
    requires p <= q <= |d|
    decreases q - p, 1
  {
    || (q == p + 1 && d[p] == 'e' as int && m == map[])
    || exists key: Text, v: Value, rest: map<Text, Value>, a: nat, k: nat :: SpellsFirst(d, p, q, m, key, v, rest, a, k)
  }

  ghost predicate SpellsFirst(d: Text, p: nat, q: nat, m: map<Text, Value>, key: Text, v: Value, rest: map<Text, Value>, a: nat, k: nat)
    requires p <= q <= |d|
    decreases q - p, 0
  {
    && p < a < k < q && BytesAt(d, p, a, key) && Spells(d, a, k, v) && SpellsEntries(d, k, q, rest)
    && m == rest[key := v]
  }

  // ---------------------------------------------------------------- the parser accepts nothing else

  lemma {:induction false} ValueSound(d: Text, p: nat)
    requires ParseValue(d, p).Done?
    ensures var r := ParseValue(d, p);
            p < r.next <= |d| && Spells(d, p, r.next, Denote(r.value))
    decreases |d| - p, 0
  {
    hide ParseInt, ParseString, IntegerAt, BytesAt, ParseItems, ParseEntries, SpellsItems, SpellsEntries, DenoteEntries;
    var r := ParseValue(d, p);
    if d[p] == CHAR_I {
      IntegerExact(d, p, r.next, ParseInt(d, p).value);
    } else if d[p] == CHAR_L {
      ItemsSound(d, p + 1);
    } else if d[p] == CHAR_D {
      EntriesSound(d, p + 1);
    } else {
      StringSound(d, p);
    }
  }

  lemma {:induction false} ItemsSound(d: Text, p: nat)
    requires ParseItems(d, p).Done?
    ensures var r := ParseItems(d, p);
            p < r.next <= |d| && SpellsItems(d, p, r.next, DenoteItems(r.value))
    decreases |d| - p, 1
  {
    hide ParseValue, Spells, Denote;
    var r := ParseItems(d, p);
    if d[p] == CHAR_E {
      assert DenoteItems(r.value) == [];
    } else {
      var v := ParseValue(d, p);
      var rest := ParseItems(d, v.next);
      ValueSound(d, p);
      ItemsSound(d, v.next);
      var items := DenoteItems(r.value);
      assert r.value == [v.value] + rest.value;
      assert items[0] == Denote(v.value) && items[1..] == DenoteItems(rest.value);
    }
  }

  lemma {:induction false} EntriesSound(d: Text, p: nat)
    requires ParseEntries(d, p).Done?
    ensures var r := ParseEntries(d, p);
            p < r.next <= |d| && SpellsEntries(d, p, r.next, DenoteEntries(r.value))
    decreases |d| - p, 1
  {
    hide ParseValue, ParseString, Spells, Denote, BytesAt, ParseEntries;
    var r := ParseEntries(d, p);
    EntriesStart(d, p);
    if d[p] == CHAR_E {
      EntriesEnd(d, p);
    } else {
      EntriesUnfold(d, p);
      var key := ParseString(d, p);
      var v := ParseValue(d, key.next);
      var rest := ParseEntries(d, v.next);
      StringSound(d, p);
      ValueSound(d, key.next);
      EntriesSound(d, v.next);
      DenoteFirst(Entry(key.value, v.value), rest.value);
      assert SpellsFirst(d, p, r.next, DenoteEntries(r.value), key.value, Denote(v.value), DenoteEntries(rest.value), key.next, v.next);
    }
  }

  lemma EntriesStart(d: Text, p: nat)
    requires ParseEntries(d, p).Done?
    ensures p < |d|
  {
  }

  // ---------------------------------------------------------------- and all of it

  lemma {:induction false} ValueComplete(d: Text, p: nat, q: nat, v: Value)
    requires p <= q <= |d| && Spells(d, p, q, v)
    ensures Reads(d, p, v, q - p)
    decreases q - p, 0
  {
    hide ParseInt, ParseString, BytesAt, ParseItems, ParseEntries, SpellsItems, SpellsEntries, DenoteEntries;
    match v
    case Int(n) => IntegerExact(d, p, q, n);
    case Str(s) => StringComplete(d, p, q, s);
    case List(items) =>
      ItemsComplete(d, p + 1, q, items);
      ListRead(d, p, items, q - p);
    case Dict(m) =>
      EntriesComplete(d, p + 1, q, m);
      DictRead(d, p, m, q - p);
  }

  lemma {:induction false} ItemsComplete(d: Text, p: nat, q: nat, items: seq<Value>)
    requires p <= q <= |d| && SpellsItems(d, p, q, items)
    ensures ReadsItems(d, p, items, q - p)
    decreases q - p, 1
  {
    hide ParseValue, Spells;
    if items == [] {
    } else {
      var k: nat :| p < k < q && Spells(d, p, k, items[0]) && SpellsItems(d, k, q, items[1..]);
      ValueComplete(d, p, k, items[0]);
      ItemsComplete(d, k, q, items[1..]);
      MoreItems(d, p, items, k - p, q - p);
    }
  }

  lemma {:induction false} EntriesComplete(d: Text, p: nat, q: nat, m: map<Text, Value>)
    requires p <= q <= |d| && SpellsEntries(d, p, q, m)
    ensures ReadsEntries(d, p, m, q - p)
    decreases q - p, 1
  {
    hide ParseValue, ParseString, Spells, BytesAt, ParseEntries;
    if q == p + 1 && d[p] == CHAR_E && m == map[] {
      EntriesEnd(d, p);
    } else {
      var key, v, rest, a: nat, k: nat :| SpellsFirst(d, p, q, m, key, v, rest, a, k);
      StringComplete(d, p, a, key);
      ValueComplete(d, a, k, v);
      EntriesComplete(d, k, q, rest);
      EntriesUnfold(d, p);
      DenoteFirst(Entry(key, ParseValue(d, a).value), ParseEntries(d, k).value);
    }
  }

  /** The parser, at any place of any input, reads the value `v` up to `q` if and only if those bytes spell it. */
  lemma ParserExact(d: Text, p: nat, q: nat, v: Value)
    ensures (var r := ParseValue(d, p); r.Done? && r.next == q && YieldValue(r) == Ok(v))
       <==> p <= q <= |d| && Spells(d, p, q, v)
  {
    hide ParseValue, Spells, Denote;
    if ParseValue(d, p).Done? {
      ValueSound(d, p);
    }
    if p <= q <= |d| && Spells(d, p, q, v) {
      ValueComplete(d, p, q, v);
    }
  }
}
