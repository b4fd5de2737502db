/** The recursive-descent parser as the program has it: one object advancing a position over the input. */
module BencodeParsers {
  import opened Bytes
  import opened Bencode

  class BEncodeParser {
    const data: Text
    var pos: nat
    var infoStart: nat
    var infoEnd: nat

    constructor (input: Text)
      ensures data == input && pos == 0 && infoStart == 0 && infoEnd == 0
    {
      data := input;
      pos, infoStart, infoEnd := 0, 0, 0;
    }

    function InfoSpan(): Span
      reads this
    {
      Span(infoStart, infoEnd)
    }

    method Parse() returns (r: Result<Value>)
      requires pos <= |data|
      modifies this
      ensures r == YieldValue(Bencode.ParseValue(data, old(pos)))
      ensures r.Ok? ==> pos == Bencode.ParseValue(data, old(pos)).next
      ensures r.Ok? ==> InfoSpan() == SpanValue(data, old(pos), old(InfoSpan()))
    {
      r := ParseValue();
    }

    method ParseValue() returns (r: Result<Value>)
      requires pos <= |data|
      modifies this
      ensures r == YieldValue(Bencode.ParseValue(data, old(pos)))
      ensures r.Ok? ==> pos == Bencode.ParseValue(data, old(pos)).next
      ensures r.Ok? ==> InfoSpan() == SpanValue(data, old(pos), old(InfoSpan()))
      decreases |data| - pos, 0
    {
      if pos >= |data| {
        return Err(UnexpectedEnd);
      }
      var c := data[pos];
      if c == CHAR_I {
        var n := ParseInt();
        r := match n case Ok(v) => Ok(Int(v)) case Err(x) => Err(x);
      } else if c == CHAR_L {
        pos := pos + 1;
        var items := ParseList();
        r := match items case Ok(v) => Ok(List(v)) case Err(x) => Err(x);
      } else if c == CHAR_D {
        pos := pos + 1;
        var entries := ParseDict();
        r := match entries case Ok(v) => Ok(Dict(v)) case Err(x) => Err(x);
      } else if IsDigit(c) {
        var s := ParseString();
        r := match s case Ok(v) => Ok(Str(v)) case Err(x) => Err(x);
      } else {
        r := Err(InvalidToken);
      }
    }

    method ParseInt() returns (r: Result<int>)
      requires pos < |data|
      modifies `pos
      ensures r == Yield(Bencode.ParseInt(data, old(pos)))
      ensures r.Ok? ==> pos == Bencode.ParseInt(data, old(pos)).next
    {
      pos := pos + 1;
      var end := Find(data, CHAR_E, pos);
      if end.None? {
        return Err(MissingIntEnd);
      }
      var number := data[pos..end.value];
      pos := end.value + 1;
      r := Stoll(number);
    }

    method ParseString() returns (r: Result<Text>)
      modifies `pos
      ensures r == Yield(Bencode.ParseString(data, old(pos)))
      ensures r.Ok? ==> pos == Bencode.ParseString(data, old(pos)).next
    {
      var colon := Find(data, CHAR_COLON, pos);
      if colon.None? {
        return Err(MissingColon);
      }
      var len := Stoull(data[pos..colon.value]);
      if len.Err? {
        return Err(len.error);
      }
      pos := colon.value + 1;
      if pos + len.value > |data| {
        return Err(StringTooLong);
      }
      r := Ok(data[pos..pos + len.value]);
      pos := pos + len.value;
    }

    /** After the 'l'. */
    method ParseList() returns (r: Result<seq<Value>>)
      requires pos <= |data|
      modifies this
      ensures r == YieldItems(ParseItems(data, old(pos)))
      ensures r.Ok? ==> pos == ParseItems(data, old(pos)).next
      ensures r.Ok? ==> InfoSpan() == SpanItems(data, old(pos), old(InfoSpan()))
      decreases |data| - pos, 1
    {
      hide Bencode.ParseValue, SpanValue, Denote;
      ghost var p0, sp0 := pos, InfoSpan();
      ghost var nodes: seq<Node> := [];
      var list: seq<Value> := [];
      PrependMore([], IntNode(0), ParseItems(data, pos));
      while pos < |data| && data[pos] != CHAR_E
        invariant p0 <= pos <= |data|
        invariant list == DenoteItems(nodes)
        invariant ParseItems(data, p0) == Prepend(nodes, ParseItems(data, pos))
        invariant ParseItems(data, pos).Done? ==> SpanItems(data, p0, sp0) == SpanItems(data, pos, InfoSpan())
        decreases |data| - pos
      {
        ghost var p := pos;
        var v := ParseValue();
        if v.Err? {
          return Err(v.error);
        }
        ghost var node := Bencode.ParseValue(data, p).value;
        PrependMore(nodes, node, ParseItems(data, pos));
        assert DenoteItems(nodes + [node]) == DenoteItems(nodes) + [Denote(node)];
        nodes := nodes + [node];
        list := list + [v.value];
      }
      if pos >= |data| || data[pos] != CHAR_E {
        return Err(MissingListEnd);
      }
      assert nodes + [] == nodes;
      pos := pos + 1;
      r := Ok(list);
    }

    /** After the 'd'. */
    method ParseDict() returns (r: Result<map<Text, Value>>)
      requires pos <= |data|
      modifies this
      ensures r == YieldEntries(ParseEntries(data, old(pos)))
      ensures r.Ok? ==> pos == ParseEntries(data, old(pos)).next
      ensures r.Ok? ==> InfoSpan() == SpanEntries(data, old(pos), old(InfoSpan()))
      decreases |data| - pos, 1
    {
      hide Bencode.ParseString, Bencode.ParseValue, SpanValue, Find, Denote;
      ghost var p0, sp0 := pos, InfoSpan();
      ghost var entries: seq<Entry> := [];
      var dict: map<Text, Value> := map[];
      PrependMore([], Entry([], IntNode(0)), ParseEntries(data, pos));
      while pos < |data| && data[pos] != CHAR_E
        invariant p0 <= pos <= |data|
        invariant dict == DenoteEntries(entries)
        invariant ParseEntries(data, p0) == Prepend(entries, ParseEntries(data, pos))
        invariant ParseEntries(data, pos).Done? ==> SpanEntries(data, p0, sp0) == SpanEntries(data, pos, InfoSpan())
        decreases |data| - pos
      {
        ghost var p := pos;
        var key := ParseString();
        if key.Err? {
          return Err(key.error);
        }
        var valStart := pos;
        var value := ParseValue();
        if value.Err? {
          return Err(value.error);
        }
        var valEnd := pos;
        if key.value == INFO {
          infoStart := valStart;
          infoEnd := valEnd;
        }
        ghost var entry := Entry(key.value, Bencode.ParseValue(data, valStart).value);
        PrependMore(entries, entry, ParseEntries(data, pos));
        assert (entries + [entry])[..|entries|] == entries;
        entries := entries + [entry];
        dict := Emplace(dict, key.value, value.value);
      }
      if pos >= |data| || data[pos] != CHAR_E {
        return Err(MissingDictEnd);
      }
      assert entries + [] == entries;
      pos := pos + 1;
      r := Ok(dict);
    }
  }
}
