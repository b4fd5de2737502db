/** Bencoding: what the parser accepts, as a function of the input and a position, and what it makes of it. */
module Bencode {
  import opened Bytes

  type Text = seq<byte>

  const CHAR_I: byte := 105      // 'i'
  const CHAR_L: byte := 108      // 'l'
  const CHAR_D: byte := 100      // 'd'
  const CHAR_E: byte := 101      // 'e'
  const CHAR_COLON: byte := 58   // ':'
  const CHAR_MINUS: byte := 45   // '-'
  const CHAR_PLUS: byte := 43    // '+'

  /** The key "info". */
  const INFO: Text := [105, 110, 102, 111]

  predicate IsDigit(c: byte) {
    48 <= c <= 57
  }

  /** `isspace` in the default locale. */
  predicate IsSpace(c: byte) {
    c == 32 || 9 <= c <= 13
  }

  // ---------------------------------------------------------------- values

  datatype Value = Int(n: int) | Str(s: Text) | List(items: seq<Value>) | Dict(entries: map<Text, Value>)

  /** The parsed text with its dictionary entries still in input order, repeated keys included. */
  datatype Node = IntNode(n: int) | StrNode(s: Text) | ListNode(items: seq<Node>) | DictNode(entries: seq<Entry>)

  datatype Entry = Entry(key: Text, value: Node)

  /** `std::map::emplace`: the first value under a key stays. */
  function Emplace(m: map<Text, Value>, key: Text, v: Value): map<Text, Value> {
    if key in m then m else m[key := v]
  }

  /** The value the parser builds for a node. */
  function Denote(node: Node): Value
    decreases node, 0
  {
    match node
    case IntNode(n) => Int(n)
    case StrNode(s) => Str(s)
    case ListNode(items) => List(DenoteItems(items))
    case DictNode(entries) => Dict(DenoteEntries(entries))
  }

  function DenoteItems(items: seq<Node>): (vs: seq<Value>)
    ensures |vs| == |items|
    decreases items, 1
  {
    seq(|items|, k requires 0 <= k < |items| => Denote(items[k]))
  }

  function DenoteEntries(entries: seq<Entry>): map<Text, Value>
    decreases entries, 1
  {
    if entries == [] then map[]
    else
      var n := |entries| - 1;
      Emplace(DenoteEntries(entries[..n]), entries[n].key, Denote(entries[n].value))
  }

  // ---------------------------------------------------------------- numbers

  /** How many of the bytes of `s` from `k` on are digits, up to the first that is not. */
  function DigitsEnd(s: Text, k: nat): (e: nat)
    requires k <= |s|
    ensures k <= e <= |s|
    ensures forall x :: k <= x < e ==> IsDigit(s[x])
    ensures e < |s| ==> !IsDigit(s[e])
    decreases |s| - k
  {
    if k < |s| && IsDigit(s[k]) then DigitsEnd(s, k + 1) else k
  }

  /** The number a run of digits spells. */
  function Decimal(digits: Text): nat
    requires forall x :: 0 <= x < |digits| ==> IsDigit(digits[x])
  {
    if digits == [] then 0
    else
      var n := |digits| - 1;
      var last: int := digits[n];
      assert IsDigit(digits[n]);
      10 * Decimal(digits[..n]) + (last - 48)
  }

  function SpacesEnd(s: Text, k: nat): (e: nat)
    requires k <= |s|
    ensures k <= e <= |s|
    decreases |s| - k
  {
    if k < |s| && IsSpace(s[k]) then SpacesEnd(s, k + 1) else k
  }

  datatype Signed = NoNumber | Number(negative: bool, magnitude: nat)

  /** The prefix `strtoll` and `strtoull` read: spaces, a sign, digits; what follows is ignored. */
  function ReadNumber(s: Text): Signed {
    var a := SpacesEnd(s, 0);
    var negative := a < |s| && s[a] == CHAR_MINUS;
    var b := if a < |s| && (s[a] == CHAR_MINUS || s[a] == CHAR_PLUS) then a + 1 else a;
    var e := DigitsEnd(s, b);
    if e == b then NoNumber else Number(negative, Decimal(s[b..e]))
  }

  datatype ParseError =
    | UnexpectedEnd | InvalidToken | MissingIntEnd | MissingColon | BadNumber | NumberOutOfRange
    | StringTooLong | MissingListEnd | MissingDictEnd

  datatype Result<+T> = Ok(value: T) | Err(error: ParseError)

  /** `std::stoll`. */
  function Stoll(s: Text): Result<int> {
    match ReadNumber(s)
    case NoNumber => Err(BadNumber)
    case Number(negative, m) =>
      var v: int := m;
      var n := if negative then -v else v;
      if -TWO_63 <= n < TWO_63 then Ok(n) else Err(NumberOutOfRange)
  }

  /** `std::stoull`: a negative number comes back modulo 2^64. */
  function Stoull(s: Text): Result<nat> {
    match ReadNumber(s)
    case NoNumber => Err(BadNumber)
    case Number(negative, m) =>
      if m >= TWO_64 then Err(NumberOutOfRange)
      else Ok(if negative && m > 0 then TWO_64 - m else m)
  }

  // ---------------------------------------------------------------- parsing

  /** The first `c` in `d` from `p` on. */
  function Find(d: Text, c: byte, p: nat): (r: Option<nat>)
    ensures r.Some? ==> p <= r.value < |d| && d[r.value] == c && forall x :: p <= x < r.value ==> d[x] != c
    ensures r.None? ==> forall x :: p <= x < |d| ==> d[x] != c
    decreases |d| - p
  {
    if p >= |d| then None else if d[p] == c then Some(p) else Find(d, c, p + 1)
  }

  datatype Parsed<+T> = Fail(error: ParseError) | Done(value: T, next: nat)

  /** What a parse yields, without where it stopped. */
  function Yield<T>(r: Parsed<T>): Result<T> {
    match r case Fail(x) => Err(x) case Done(v, _) => Ok(v)
  }

  function YieldValue(r: Parsed<Node>): Result<Value> {
    match r case Fail(x) => Err(x) case Done(v, _) => Ok(Denote(v))
  }

  function YieldItems(r: Parsed<seq<Node>>): Result<seq<Value>> {
    match r case Fail(x) => Err(x) case Done(v, _) => Ok(DenoteItems(v))
  }

  function YieldEntries(r: Parsed<seq<Entry>>): Result<map<Text, Value>> {
    match r case Fail(x) => Err(x) case Done(v, _) => Ok(DenoteEntries(v))
  }

  function Prepend<T>(before: seq<T>, r: Parsed<seq<T>>): Parsed<seq<T>> {
    match r case Fail(x) => Fail(x) case Done(rest, next) => Done(before + rest, next)
  }

  lemma PrependMore<T>(a: seq<T>, b: T, r: Parsed<seq<T>>)
    ensures Prepend(a, Prepend([b], r)) == Prepend(a + [b], r)
    ensures Prepend([], r) == r
  {
    if r.Done? {
      assert a + ([b] + r.value) == a + [b] + r.value;
      assert [] + r.value == r.value;
    }
  }

  /** At an 'i'. */
  function ParseInt(d: Text, p: nat): (r: Parsed<int>)
    requires p < |d|
    ensures r.Done? ==> p < r.next <= |d|
  {
    match Find(d, CHAR_E, p + 1)
    case None => Fail(MissingIntEnd)
    case Some(e) =>
      match Stoll(d[p + 1..e])
      case Err(x) => Fail(x)
      case Ok(n) => Done(n, e + 1)
  }

  function ParseString(d: Text, p: nat): (r: Parsed<Text>)
    ensures r.Done? ==> p < r.next <= |d|
  {
    match Find(d, CHAR_COLON, p)
    case None => Fail(MissingColon)
    case Some(colon) =>
      match Stoull(d[p..colon])
      case Err(x) => Fail(x)
      case Ok(len) =>
        if colon + 1 + len > |d| then Fail(StringTooLong)
        else Done(d[colon + 1..colon + 1 + len], colon + 1 + len)
  }

  function ParseValue(d: Text, p: nat): (r: Parsed<Node>)
    ensures r.Done? ==> p < r.next <= |d|
    decreases |d| - p, 0
  {
    if p >= |d| then Fail(UnexpectedEnd)
    else if d[p] == CHAR_I then
      match ParseInt(d, p)
      case Fail(x) => Fail(x)
      case Done(n, next) => Done(IntNode(n), next)
    else if d[p] == CHAR_L then
      match ParseItems(d, p + 1)
      case Fail(x) => Fail(x)
      case Done(items, next) => Done(ListNode(items), next)
    else if d[p] == CHAR_D then
      match ParseEntries(d, p + 1)
      case Fail(x) => Fail(x)
      case Done(entries, next) => Done(DictNode(entries), next)
    else if IsDigit(d[p]) then
      match ParseString(d, p)
      case Fail(x) => Fail(x)
      case Done(s, next) => Done(StrNode(s), next)
    else Fail(InvalidToken)
  }

  /** The rest of a list, through its 'e'. */
  function ParseItems(d: Text, p: nat): (r: Parsed<seq<Node>>)
    ensures r.Done? ==> p < r.next <= |d|
    decreases |d| - p, 1
  {
    if p >= |d| then Fail(MissingListEnd)
    else if d[p] == CHAR_E then Done([], p + 1)
    else
      match ParseValue(d, p)
      case Fail(x) => Fail(x)
      case Done(v, q) =>
        Prepend([v], ParseItems(d, q))
  }

  /** The rest of a dictionary, through its 'e'. */
  function ParseEntries(d: Text, p: nat): (r: Parsed<seq<Entry>>)
    ensures r.Done? ==> p < r.next <= |d|
    decreases |d| - p, 1
  {
    if p >= |d| then Fail(MissingDictEnd)
    else if d[p] == CHAR_E then Done([], p + 1)
    else
      match ParseString(d, p)
      case Fail(x) => Fail(x)
      case Done(key, k) =>
        match ParseValue(d, k)
        case Fail(x) => Fail(x)
        case Done(v, q) =>
          Prepend([Entry(key, v)], ParseEntries(d, q))
  }

  // ---------------------------------------------------------------- the info span

  datatype Span = Span(start: nat, end: nat)

  /** The span fields after parsing the value at `p`, when they were `sp` before: the last "info" to finish wins. */
  function SpanValue(d: Text, p: nat, sp: Span): Span
    requires ParseValue(d, p).Done?
    decreases |d| - p, 0
  {
    if d[p] == CHAR_I then sp
    else if d[p] == CHAR_L then SpanItems(d, p + 1, sp)
    else if d[p] == CHAR_D then SpanEntries(d, p + 1, sp)
    else sp
  }

  function SpanItems(d: Text, p: nat, sp: Span): Span
    requires ParseItems(d, p).Done?
    decreases |d| - p, 1
  {
    if d[p] == CHAR_E then sp else SpanItems(d, ParseValue(d, p).next, SpanValue(d, p, sp))
  }

  function SpanEntries(d: Text, p: nat, sp: Span): Span
    requires ParseEntries(d, p).Done?
    decreases |d| - p, 1
  {
    if d[p] == CHAR_E then sp
    else
      var key := ParseString(d, p);
      var inner := SpanValue(d, key.next, sp);
      var q := ParseValue(d, key.next).next;
      SpanEntries(d, q, if key.value == INFO then Span(key.next, q) else inner)
  }
}
