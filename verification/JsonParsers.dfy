/** The facade's JSON code: the printer's quoting loop and the parser object, which
    moves a position over its text. Both do what `JsonTexts` says. */
module JsonParsers {
  import opened Wrappers
  import opened JsonTexts

  /** A string with its quotes. */
  method Quote(s: Text) returns (r: Text)
    ensures r == Quoted(s)
  {
    hide Escaped;
    r := [];
    for i := 0 to |s|
      invariant r + EscapedAll(s[i..]) == EscapedAll(s)
    {
      assert s[i..][1..] == s[i + 1..];
      assert (r + Escaped(s[i])) + EscapedAll(s[i + 1..]) == r + (Escaped(s[i]) + EscapedAll(s[i + 1..]));
      r := r + Escaped(s[i]);
    }
    assert r + [] == r;
    r := [QUOTE] + (r + [QUOTE]);
  }

  /** Reads one text. An exception is `None`. */
  class JsonParser {
    const text: Text
    var at: nat

    ghost predicate Valid()
      reads this
    {
      at <= |text|
    }

    ghost function Left(): Text
      requires Valid()
      reads this
    {
      text[at..]
    }

    /** The value is what `p` is, and the position is after it. */
    ghost predicate Took<T(!new)>(p: Parsed<T>, r: Option<T>)
      reads this
    {
      (r.Some? <==> p.Some?) && (r.Some? ==> Valid() && r.value == p.value.0 && Left() == p.value.1)
    }

    constructor (text: Text)
      ensures Valid() && this.text == text && Left() == text
    {
      this.text, at := text, 0;
    }

    method Space()
      requires Valid()
      modifies this
      ensures Valid() && at >= old(at) && Left() == SkipSpace(old(Left()))
    {
      hide WhiteSpace;
      while at < |text| && WhiteSpace(text[at])
        invariant Valid() && at >= old(at) && SkipSpace(Left()) == SkipSpace(old(Left()))
      {
        assert text[at..][1..] == text[at + 1..];
        at := at + 1;
      }
    }

    /** The unit at the position is `c`. */
    predicate Sees(c: unit)
      reads this
    {
      at < |text| && text[at] == c
    }

    method TakeUnit(c: unit) returns (ok: bool)
      requires Valid()
      modifies this
      ensures ok == Take(old(Left()), c).Some?
      ensures ok ==> Valid() && at > old(at) && Left() == Take(old(Left()), c).value
    {
      hide WhiteSpace, SkipSpace;
      Space();
      if !Sees(c) {
        return false;
      }
      assert text[at..][1..] == text[at + 1..];
      at := at + 1;
      ok := true;
    }

    method TakeWord(word: Text, v: Json) returns (r: Option<Json>)
      requires Valid() && word != []
      modifies this
      ensures Took(Word(old(Left()), word, v), r) && (r.Some? ==> at > old(at))
    {
      if |text| - at < |word| || text[at..at + |word|] != word {
        assert !(word <= Left());
        return None;
      }
      assert Left()[..|word|] == word && Left()[|word|..] == text[at + |word|..];
      at := at + |word|;
      r := Some(v);
    }

    /** One unit of a string after a backslash. */
    method Escape() returns (r: Option<unit>)
      requires Valid() && Sees(BACKSLASH)
      modifies this
      ensures Took(ParseUnit(old(Left())), r) && (r.Some? ==> at > old(at))
    {
      at := at + 1;
      if at == |text| {
        return None;
      }
      var e := text[at];
      at := at + 1;
      if e == 0x75 {
        if at + 4 > |text| {
          return None;
        }
        r := EscapedUnit(text[at..at + 4]);
        assert old(Left())[2..6] == text[at..at + 4] && old(Left())[6..] == text[at + 4..];
        at := at + 4;
      } else {
        r := Unescaped(e);
        assert old(Left())[2..] == text[at..];
      }
    }

    method ReadString() returns (r: Option<Text>)
      requires Valid()
      modifies this
      ensures Took(ParseString(old(Left())), r) && (r.Some? ==> at > old(at))
    {
      hide Take, EscapedUnit, Unescaped, ParseUnit;
      var ok := TakeUnit(QUOTE);
      if !ok {
        return None;
      }
      ghost var start := Left();
      var out: Text := [];
      while at < |text|
        invariant Valid() && at > old(at) && ParseUnits(start, []) == ParseUnits(Left(), out)
      {
        var c := text[at];
        assert text[at..][1..] == text[at + 1..];
        if c == QUOTE {
          at := at + 1;
          return Some(out);
        }
        if c == BACKSLASH {
          var e := Escape();
          if e.None? {
            return None;
          }
          out := out + [e.value];
        } else {
          PlainUnit(Left());
          at := at + 1;
          out := out + [c];
        }
      }
      NoUnit();
      r := None;
    }

    method ReadNumber() returns (r: Option<Json>)
      requires Valid()
      modifies this
      ensures Took(ParseNumber(old(Left())), r) && (r.Some? ==> at > old(at))
    {
      hide NumberUnit;
      var start := at;
      while at < |text| && NumberUnit(text[at])
        invariant start <= at <= |text| && NumberLength(text[start..]) == at - start + NumberLength(text[at..])
      {
        assert text[at..][1..] == text[at + 1..];
        at := at + 1;
      }
      assert text[start..][..at - start] == text[start..at] && text[start..][at - start..] == text[at..];
      r := if at > start then Some(Read(text[start..at])) else None;
    }

    method Value() returns (r: Option<Json>)
      requires Valid()
      modifies this
      ensures Took(ParseValue(old(Left())), r) && (r.Some? ==> at > old(at))
      decreases |text| - at, 3
    {
      hide WhiteSpace, SkipSpace, Word, ParseString, ParseList, ParseObject, ParseNumber;
      Space();
      if Sees(NULL[0]) {
        r := TakeWord(NULL, Null);
      } else if Sees(TRUE[0]) {
        r := TakeWord(TRUE, Bool(true));
      } else if Sees(FALSE[0]) {
        r := TakeWord(FALSE, Bool(false));
      } else if Sees(QUOTE) {
        var s := ReadString();
        r := if s.None? then None else Some(Str(s.value));
      } else if Sees(OPEN_LIST) {
        var items := ReadList();
        r := if items.None? then None else Some(List(items.value));
      } else if Sees(OPEN_OBJECT) {
        var members := ReadMap();
        r := if members.None? then None else Some(Object(members.value));
      } else {
        NoNumber();
        r := ReadNumber();
      }
    }

    method ReadList() returns (r: Option<seq<Json>>)
      requires Valid() && Sees(OPEN_LIST)
      modifies this
      ensures Took(ParseList(old(Left())[1..]), r) && (r.Some? ==> at > old(at))
      decreases |text| - at, 2
    {
      hide WhiteSpace, SkipSpace, ParseValue;
      at := at + 1;
      assert old(Left())[1..] == Left();
      Space();
      if Sees(CLOSE_LIST) {
        assert Left()[1..] == text[at + 1..];
        at := at + 1;
        return Some([]);
      }
      ghost var start := Left();
      var out: seq<Json> := [];
      while true
        invariant Valid() && at > old(at) && ParseItems(start, []) == ParseItems(Left(), out)
        decreases |text| - at
      {
        var v := Value();
        if v.None? {
          return None;
        }
        out := out + [v.value];
        Space();
        if at == |text| {
          return None;
        }
        assert Left()[1..] == text[at + 1..];
        var c := text[at];
        at := at + 1;
        if c == CLOSE_LIST {
          return Some(out);
        }
        if c != COMMA {
          return None;
        }
      }
    }

    method ReadMember() returns (r: Option<Member>)
      requires Valid()
      modifies this
      ensures Took(ParseMember(old(Left())), r) && (r.Some? ==> at > old(at))
      decreases |text| - at, 1
    {
      hide Take, ParseString, ParseValue;
      var key := ReadString();
      if key.None? {
        return None;
      }
      var ok := TakeUnit(COLON);
      if !ok {
        return None;
      }
      var v := Value();
      r := if v.None? then None else Some(Member(key.value, v.value));
    }

    method ReadMap() returns (r: Option<seq<Member>>)
      requires Valid() && Sees(OPEN_OBJECT)
      modifies this
      ensures Took(ParseObject(old(Left())[1..]), r) && (r.Some? ==> at > old(at))
      decreases |text| - at, 2
    {
      hide WhiteSpace, SkipSpace, ParseMember, Put;
      at := at + 1;
      assert old(Left())[1..] == Left();
      Space();
      if Sees(CLOSE_OBJECT) {
        assert Left()[1..] == text[at + 1..];
        at := at + 1;
        return Some([]);
      }
      ghost var start := Left();
      var out: seq<Member> := [];
      while true
        invariant Valid() && at > old(at) && ParseMembers(start, []) == ParseMembers(Left(), out)
        decreases |text| - at
      {
        var e := ReadMember();
        if e.None? {
          return None;
        }
        out := Put(out, e.value);
        Space();
        if at == |text| {
          return None;
        }
        assert Left()[1..] == text[at + 1..];
        var c := text[at];
        at := at + 1;
        if c == CLOSE_OBJECT {
          return Some(out);
        }
        if c != COMMA {
          return None;
        }
      }
    }
  }

  lemma PlainUnit(t: Text)
    requires t != [] && t[0] != BACKSLASH
    ensures ParseUnit(t) == Some((t[0], t[1..]))
  {
  }

  lemma NoUnit()
    ensures ParseUnit([]) == None
  {
  }

  lemma NoNumber()
    ensures ParseNumber([]) == None
  {
  }

  /** The value that a whole text stands for. */
  method ParseText(text: Text) returns (r: Option<Json>)
    ensures r == Parse(text)
  {
    hide ParseValue, SkipSpace;
    var parser := new JsonParser(text);
    r := parser.Value();
    if r.Some? {
      parser.Space();
      if parser.at != |text| {
        return None;
      }
    }
  }

  /** The text of a value. */
  method Render(v: Json) returns (r: Text)
    ensures r == Print(v)
    decreases v
  {
    match v
    case Null => r := NULL;
    case Bool(b) => r := if b then TRUE else FALSE;
    case Number(text) => r := text;
    case NonFinite(text) => r := Quote(text);
    case Read(text) => r := READ_OPEN + text + READ_CLOSE;
    case Bytes(bytes) => r := [OPEN_LIST] + (PrintBytes(bytes) + [CLOSE_LIST]);
    case Str(value) => r := Quote(value);
    case List(items) =>
      var inner := RenderItems(items);
      r := [OPEN_LIST] + (inner + [CLOSE_LIST]);
    case Object(members) =>
      var inner := RenderMembers(members);
      r := [OPEN_OBJECT] + (inner + [CLOSE_OBJECT]);
  }

  method RenderItems(items: seq<Json>) returns (r: Text)
    ensures r == PrintItems(items)
    decreases items
  {
    if items == [] {
      return [];
    }
    r := Render(items[0]);
    if |items| > 1 {
      var rest := RenderItems(items[1..]);
      r := r + ([COMMA] + rest);
    }
  }

  method RenderMembers(members: seq<Member>) returns (r: Text)
    ensures r == PrintMembers(members)
    decreases members
  {
    if members == [] {
      return [];
    }
    var key := Quote(members[0].key);
    var value := Render(members[0].value);
    r := key + ([COLON] + value);
    if |members| > 1 {
      var rest := RenderMembers(members[1..]);
      r := r + ([COMMA] + rest);
    }
  }

  /** What is printed is read back, or refused for a number that was read before. */
  method PrintAndParse(v: Json) returns (r: Option<Json>)
    requires Clean(v)
    ensures r == if Plain(v) then Some(AsRead(v)) else None
  {
    hide Parse, Print, AsRead, Plain;
    JsonRoundTrip(v);
    var text := Render(v);
    r := ParseText(text);
  }
}
