/** The facade's JSON: the printer, the grammar its parser follows, and what becomes
    of a value that is printed and parsed. Text is a list of UTF-16 code units. */
module JsonTexts {
  import opened Wrappers
  import opened Sorting

  newtype unit = x: int | 0 <= x < 0x1_0000

  type Text = seq<unit>

  /** What the printer takes and the parser makes. `Number` is a number of the host,
      by its text, and `NonFinite` a double that has no number to print; `Read` is a
      number as the parser returns it. An object keeps the order of its keys. */
  datatype Json =
    | Null
    | Bool(b: bool)
    | Number(text: Text)
    | NonFinite(text: Text)
    | Read(text: Text)
    | Bytes(bytes: seq<byte>)
    | Str(value: Text)
    | List(items: seq<Json>)
    | Object(members: seq<Member>)

  datatype Member = Member(key: Text, value: Json)

  const QUOTE: unit := 0x22
  const BACKSLASH: unit := 0x5C
  const COMMA: unit := 0x2C
  const COLON: unit := 0x3A
  const OPEN_LIST: unit := 0x5B
  const CLOSE_LIST: unit := 0x5D
  const OPEN_OBJECT: unit := 0x7B
  const CLOSE_OBJECT: unit := 0x7D

  /** What the host prints around the text of a number that was read. */
  const READ_OPEN: Text := [0x4A, 0x73, 0x6F, 0x6E, 0x4E, 0x75, 0x6D, 0x62, 0x65, 0x72, 0x28, 0x74, 0x65, 0x78, 0x74, 0x3D]
  const READ_CLOSE: Text := [0x29]

  const NULL: Text := [0x6E, 0x75, 0x6C, 0x6C]
  const TRUE: Text := [0x74, 0x72, 0x75, 0x65]
  const FALSE: Text := [0x66, 0x61, 0x6C, 0x73, 0x65]

  predicate Digit(c: unit) {
    0x30 <= c <= 0x39
  }

  /** One of `-+0123456789.eE`. */
  predicate NumberUnit(c: unit) {
    Digit(c) || c == 0x2D || c == 0x2B || c == 0x2E || c == 0x65 || c == 0x45
  }

  /** What the platform takes for white space. */
  predicate WhiteSpace(c: unit) {
    || 0x09 <= c <= 0x0D || 0x1C <= c <= 0x20 || c == 0xA0 || c == 0x1680 || 0x2000 <= c <= 0x200A || c == 0x2028 || c == 0x2029
    || c == 0x202F || c == 0x205F || c == 0x3000
  }

  // ---- printing ----

  function HexUnit(n: nat): unit
    requires n < 16
  {
    if n < 10 then 0x30 + n as unit else 0x61 + (n - 10) as unit
  }

  function Escaped(c: unit): (r: Text)
    ensures r != []
  {
    if c == QUOTE || c == BACKSLASH then [BACKSLASH, c]
    else if c == 0x08 then [BACKSLASH, 0x62]
    else if c == 0x0C then [BACKSLASH, 0x66]
    else if c == 0x0A then [BACKSLASH, 0x6E]
    else if c == 0x0D then [BACKSLASH, 0x72]
    else if c == 0x09 then [BACKSLASH, 0x74]
    else if c < 0x20 then [BACKSLASH, 0x75, 0x30, 0x30, HexUnit(c as nat / 16), HexUnit(c as nat % 16)]
    else [c]
  }

  function EscapedAll(s: Text): Text {
    if s == [] then [] else Escaped(s[0]) + EscapedAll(s[1..])
  }

  function Quoted(s: Text): Text {
    [QUOTE] + (EscapedAll(s) + [QUOTE])
  }

  /** A number in decimal digits. */
  function Decimal(n: nat): (r: Text)
    ensures r != [] && forall k :: 0 <= k < |r| ==> Digit(r[k])
  {
    var last: unit := 0x30 + (n % 10) as unit;
    if n < 10 then [last] else Decimal(n / 10) + [last]
  }

  /** The bytes in decimal, with commas between them. */
  function PrintBytes(bytes: seq<byte>): Text {
    if bytes == [] then []
    else if |bytes| == 1 then Decimal(bytes[0] as nat)
    else Decimal(bytes[0] as nat) + ([COMMA] + PrintBytes(bytes[1..]))
  }

  function Print(v: Json): Text
    decreases v
  {
    match v
    case Null => NULL
    case Bool(b) => if b then TRUE else FALSE
    case Number(text) => text
    case NonFinite(text) => Quoted(text)
    case Read(text) => READ_OPEN + text + READ_CLOSE
    case Bytes(bytes) => [OPEN_LIST] + (PrintBytes(bytes) + [CLOSE_LIST])
    case Str(value) => Quoted(value)
    case List(items) => [OPEN_LIST] + (PrintItems(items) + [CLOSE_LIST])
    case Object(members) => [OPEN_OBJECT] + (PrintMembers(members) + [CLOSE_OBJECT])
  }

  /** The values, with commas between them. */
  function PrintItems(items: seq<Json>): Text
    decreases items
  {
    if items == [] then []
    else if |items| == 1 then Print(items[0])
    else Print(items[0]) + ([COMMA] + PrintItems(items[1..]))
  }

  function PrintMembers(members: seq<Member>): Text
    decreases members
  {
    if members == [] then []
    else
      var first := Quoted(members[0].key) + ([COLON] + Print(members[0].value));
      if |members| == 1 then first else first + ([COMMA] + PrintMembers(members[1..]))
  }

  // ---- the parser's grammar ----

  /** What was read, and the text after it; `None` is an error. */
  type Parsed<T> = Option<(T, Text)>

  function SkipSpace(t: Text): (r: Text)
    ensures |r| <= |t| && (r == [] || !WhiteSpace(r[0]))
  {
    if t != [] && WhiteSpace(t[0]) then SkipSpace(t[1..]) else t
  }

  function Take(t: Text, c: unit): (r: Option<Text>)
    ensures r.Some? ==> |r.value| < |t|
  {
    var u := SkipSpace(t);
    if u != [] && u[0] == c then Some(u[1..]) else None
  }

  function Word(t: Text, word: Text, v: Json): Parsed<Json> {
    if word <= t then Some((v, t[|word|..])) else None
  }

  function HexValue(c: unit): Option<nat> {
    if Digit(c) then Some(c as nat - 0x30)
    else if 0x61 <= c <= 0x66 then Some(c as nat - 0x57)
    else if 0x41 <= c <= 0x46 then Some(c as nat - 0x37)
    else None
  }

  function HexNumber(s: Text): (r: Option<nat>)
    ensures r.Some? ==> s != []
    decreases |s|
  {
    if s == [] then None
    else
      var last := HexValue(s[|s| - 1]);
      if last.None? || |s| == 1 then last
      else
        var before := HexNumber(s[..|s| - 1]);
        if before.None? then None else Some(before.value * 16 + last.value)
  }

  /** Four units as a hexadecimal int, cut to a unit. The library takes a sign. */
  function EscapedUnit(s: Text): Option<unit>
    requires |s| == 4
  {
    var signed := s[0] == 0x2D || s[0] == 0x2B;
    var n := HexNumber(if signed then s[1..] else s);
    if n.None? then None
    else Some((if s[0] == 0x2D then (0x1_0000 - n.value % 0x1_0000) % 0x1_0000 else n.value % 0x1_0000) as unit)
  }

  /** What a backslash and unit `e` stand for, unless it is a `u`. */
  function Unescaped(e: unit): Option<unit> {
    if e == QUOTE || e == BACKSLASH || e == 0x2F then Some(e)
    else if e == 0x62 then Some(0x08)
    else if e == 0x66 then Some(0x0C)
    else if e == 0x6E then Some(0x0A)
    else if e == 0x72 then Some(0x0D)
    else if e == 0x74 then Some(0x09)
    else None
  }

  /** One unit of a string, escaped or not. */
  function ParseUnit(t: Text): (r: Parsed<unit>)
    ensures r.Some? ==> |r.value.1| < |t|
  {
    if t == [] then None
    else if t[0] != BACKSLASH then Some((t[0], t[1..]))
    else if |t| < 2 then None
    else if t[1] == 0x75 then
      if |t| < 6 then None
      else
        var c := EscapedUnit(t[2..6]);
        if c.None? then None else Some((c.value, t[6..]))
    else
      var c := Unescaped(t[1]);
      if c.None? then None else Some((c.value, t[2..]))
  }

  /** The units up to the closing quote, after those already read. */
  function ParseUnits(t: Text, out: Text): (r: Parsed<Text>)
    ensures r.Some? ==> |r.value.1| < |t|
    decreases |t|
  {
    if t != [] && t[0] == QUOTE then Some((out, t[1..]))
    else
      var c := ParseUnit(t);
      if c.None? then None else ParseUnits(c.value.1, out + [c.value.0])
  }

  function ParseString(t: Text): (r: Parsed<Text>)
    ensures r.Some? ==> |r.value.1| < |t|
  {
    var u := Take(t, QUOTE);
    if u.None? then None else ParseUnits(u.value, [])
  }

  /** How many units at the start of the text belong to a number. */
  function NumberLength(t: Text): (n: nat)
    ensures n <= |t| && (forall k :: 0 <= k < n ==> NumberUnit(t[k])) && (n < |t| ==> !NumberUnit(t[n]))
  {
    if t != [] && NumberUnit(t[0]) then 1 + NumberLength(t[1..]) else 0
  }

  function ParseNumber(t: Text): (r: Parsed<Json>)
    ensures r.Some? ==> |r.value.1| < |t|
  {
    var n := NumberLength(t);
    if n == 0 then None else Some((Read(t[..n]), t[n..]))
  }

  function ParseValue(t: Text): (r: Parsed<Json>)
    ensures r.Some? ==> |r.value.1| < |t|
    decreases |t|, 3
  {
    var u := SkipSpace(t);
    if u == [] then None
    else if u[0] == NULL[0] then Word(u, NULL, Null)
    else if u[0] == TRUE[0] then Word(u, TRUE, Bool(true))
    else if u[0] == FALSE[0] then Word(u, FALSE, Bool(false))
    else if u[0] == QUOTE then
      var s := ParseString(u);
      if s.None? then None else Some((Str(s.value.0), s.value.1))
    else if u[0] == OPEN_LIST then
      var l := ParseList(u[1..]);
      if l.None? then None else Some((List(l.value.0), l.value.1))
    else if u[0] == OPEN_OBJECT then
      var o := ParseObject(u[1..]);
      if o.None? then None else Some((Object(o.value.0), o.value.1))
    else ParseNumber(u)
  }

  /** A list after its opening bracket. */
  function ParseList(t: Text): (r: Parsed<seq<Json>>)
    ensures r.Some? ==> |r.value.1| < |t|
    decreases |t|, 5
  {
    var u := SkipSpace(t);
    if u != [] && u[0] == CLOSE_LIST then Some(([], u[1..])) else ParseItems(u, [])
  }

  function ParseItems(t: Text, out: seq<Json>): (r: Parsed<seq<Json>>)
    ensures r.Some? ==> |r.value.1| < |t|
    decreases |t|, 4
  {
    var v := ParseValue(t);
    if v.None? then None
    else
      var u := SkipSpace(v.value.1);
      if u == [] then None
      else if u[0] == COMMA then ParseItems(u[1..], out + [v.value.0])
      else if u[0] == CLOSE_LIST then Some((out + [v.value.0], u[1..]))
      else None
  }

  /** A key that is there already keeps its place and gets the new value. */
  function Put(members: seq<Member>, e: Member): (r: seq<Member>)
    ensures |r| >= |members|
  {
    if members == [] then [e]
    else if members[0].key == e.key then [e] + members[1..]
    else [members[0]] + Put(members[1..], e)
  }

  function ParseObject(t: Text): (r: Parsed<seq<Member>>)
    ensures r.Some? ==> |r.value.1| < |t|
    decreases |t|, 5
  {
    var u := SkipSpace(t);
    if u != [] && u[0] == CLOSE_OBJECT then Some(([], u[1..])) else ParseMembers(u, [])
  }

  /** A key, a colon and a value. */
  function ParseMember(t: Text): (r: Parsed<Member>)
    ensures r.Some? ==> |r.value.1| < |t|
    decreases |t|, 2
  {
    var key := ParseString(t);
    if key.None? then None
    else
      var u := Take(key.value.1, COLON);
      if u.None? then None
      else
        var v := ParseValue(u.value);
        if v.None? then None else Some((Member(key.value.0, v.value.0), v.value.1))
  }

  function ParseMembers(t: Text, out: seq<Member>): (r: Parsed<seq<Member>>)
    ensures r.Some? ==> |r.value.1| < |t|
    decreases |t|, 4
  {
    var e := ParseMember(t);
    if e.None? then None
    else
      var u := SkipSpace(e.value.1);
      if u == [] then None
      else if u[0] == COMMA then ParseMembers(u[1..], Put(out, e.value.0))
      else if u[0] == CLOSE_OBJECT then Some((Put(out, e.value.0), u[1..]))
      else None
  }

  /** One value, and nothing after it but white space. */
  function Parse(t: Text): Option<Json> {
    var v := ParseValue(t);
    if v.Some? && SkipSpace(v.value.1) == [] then Some(v.value.0) else None
  }

  // ---- what comes back ----

  function Keys(members: seq<Member>): seq<Text> {
    seq(|members|, k requires 0 <= k < |members| => members[k].key)
  }

  /** Host numbers print as texts of number units, and no object has a key twice. */
  ghost predicate Clean(v: Json)
    decreases v
  {
    match v
    case Number(text) => text != [] && forall k :: 0 <= k < |text| ==> NumberUnit(text[k])
    case List(items) => forall k :: 0 <= k < |items| ==> Clean(items[k])
    case Object(members) => NoDup(Keys(members)) && forall k :: 0 <= k < |members| ==> Clean(members[k].value)
    case _ => true
  }

  /** No number in the value came out of the parser. */
  predicate Plain(v: Json)
    decreases v
  {
    match v
    case Read(_) => false
    case List(items) => forall k :: 0 <= k < |items| ==> Plain(items[k])
    case Object(members) => forall k :: 0 <= k < |members| ==> Plain(members[k].value)
    case _ => true
  }

  /** The value as the parser returns it: numbers by their texts, a non-finite
      double as a string, bytes as a list of numbers. */
  function AsRead(v: Json): Json
    decreases v
  {
    match v
    case Number(text) => Read(text)
    case NonFinite(text) => Str(text)
    case Bytes(bytes) => List(BytesAsRead(bytes))
    case List(items) => List(ItemsAsRead(items))
    case Object(members) => Object(MembersAsRead(members))
    case _ => v
  }

  function BytesAsRead(bytes: seq<byte>): seq<Json> {
    if bytes == [] then [] else [Read(Decimal(bytes[0] as nat))] + BytesAsRead(bytes[1..])
  }

  function ItemsAsRead(items: seq<Json>): seq<Json>
    decreases items
  {
    if items == [] then [] else [AsRead(items[0])] + ItemsAsRead(items[1..])
  }

  function MembersAsRead(members: seq<Member>): seq<Member>
    decreases members
  {
    if members == [] then []
    else [Member(members[0].key, AsRead(members[0].value))] + MembersAsRead(members[1..])
  }

  /** A number ends where another unit follows. */
  predicate Ends(v: Json, rest: Text) {
    v.Number? && rest != [] ==> !NumberUnit(rest[0])
  }

  // ---- the parts of a text ----

  lemma PrintStart(v: Json)
    requires Clean(v)
    ensures var p := Print(v);
            p != [] && !WhiteSpace(p[0]) && p[0] != CLOSE_LIST && p[0] != CLOSE_OBJECT
  {
    if v.Number? {
      assert NumberUnit(v.text[0]);
    }
  }

  lemma NotSpace(t: Text)
    requires t != [] && !WhiteSpace(t[0])
    ensures SkipSpace(t) == t
  {
  }

  lemma UnitRound(c: unit, rest: Text)
    ensures ParseUnit(Escaped(c) + rest) == Some((c, rest)) && (Escaped(c) + rest)[0] != QUOTE
  {
    var t := Escaped(c) + rest;
    if |Escaped(c)| == 6 {
      assert t[2..6] == [0x30, 0x30, HexUnit(c as nat / 16), HexUnit(c as nat % 16)] && t[6..] == rest;
      HexRound(c as nat);
    } else if |Escaped(c)| == 2 {
      assert t[2..] == rest;
    } else {
      assert t[1..] == rest;
    }
  }

  lemma HexRound(n: nat)
    requires n < 0x20
    ensures EscapedUnit([0x30, 0x30, HexUnit(n / 16), HexUnit(n % 16)]) == Some(n as unit)
  {
    var s: Text := [0x30, 0x30, HexUnit(n / 16), HexUnit(n % 16)];
    assert s[..3] == [0x30, 0x30, HexUnit(n / 16)] && s[..3][..2] == [0x30, 0x30] && s[..3][..2][..1] == [0x30];
    assert HexNumber(s[..3][..2][..1]) == Some(0) && HexNumber(s[..3][..2]) == Some(0);
    assert HexNumber(s[..3]) == Some(n / 16);
    assert HexNumber(s) == Some(n / 16 * 16 + n % 16);
  }

  lemma {:induction false} UnitsRound(s: Text, rest: Text, out: Text)
    ensures ParseUnits(EscapedAll(s) + ([QUOTE] + rest), out) == Some((out + s, rest))
    decreases |s|
  {
    hide ParseUnit, Escaped;
    if s == [] {
      assert [] + ([QUOTE] + rest) == [QUOTE] + rest && out + [] == out;
    } else {
      var tail := EscapedAll(s[1..]) + ([QUOTE] + rest);
      UnitRound(s[0], tail);
      assert EscapedAll(s) + ([QUOTE] + rest) == Escaped(s[0]) + tail;
      UnitsRound(s[1..], rest, out + [s[0]]);
      assert out + s == (out + [s[0]]) + s[1..];
    }
  }

  lemma StringRound(s: Text, rest: Text)
    ensures ParseString(Quoted(s) + rest) == Some((s, rest))
  {
    var t := Quoted(s) + rest;
    NotSpace(t);
    assert t[1..] == EscapedAll(s) + ([QUOTE] + rest);
    UnitsRound(s, rest, []);
    assert [] + s == s;
  }

  lemma QuotedRound(s: Text, rest: Text)
    ensures ParseValue(Quoted(s) + rest) == Some((Str(s), rest))
  {
    hide ParseString, Quoted;
    QuotedStart(s);
    NotSpace(Quoted(s) + rest);
    StringRound(s, rest);
  }

  lemma QuotedStart(s: Text)
    ensures Quoted(s) != [] && Quoted(s)[0] == QUOTE
  {
  }

  lemma {:induction false} NumberEnds(text: Text, rest: Text)
    requires (forall k :: 0 <= k < |text| ==> NumberUnit(text[k])) && (rest != [] ==> !NumberUnit(rest[0]))
    ensures NumberLength(text + rest) == |text|
    decreases |text|
  {
    if text == [] {
      assert text + rest == rest;
    } else {
      assert (text + rest)[1..] == text[1..] + rest;
      NumberEnds(text[1..], rest);
    }
  }

  lemma NumberRound(text: Text, rest: Text)
    requires text != [] && (forall k :: 0 <= k < |text| ==> NumberUnit(text[k])) && (rest != [] ==> !NumberUnit(rest[0]))
    ensures ParseValue(text + rest) == Some((Read(text), rest))
  {
    var t := text + rest;
    assert NumberUnit(text[0]) && t[0] == text[0];
    NotSpace(t);
    NumberEnds(text, rest);
    assert t[..|text|] == text && t[|text|..] == rest;
  }

  lemma WordRound(word: Text, v: Json, rest: Text)
    requires (word == NULL && v == Null) || (word == TRUE && v == Bool(true)) || (word == FALSE && v == Bool(false))
    ensures ParseValue(word + rest) == Some((v, rest))
  {
    var t := word + rest;
    NotSpace(t);
    assert t[..|word|] == word && t[|word|..] == rest;
  }

  /** What follows a value in a list or an object. */
  lemma CommaIsPlain()
    ensures !WhiteSpace(COMMA) && !WhiteSpace(CLOSE_LIST) && !WhiteSpace(CLOSE_OBJECT)
    ensures !NumberUnit(COMMA) && !NumberUnit(CLOSE_LIST) && !NumberUnit(CLOSE_OBJECT)
  {
  }

  // ---- bytes ----

  lemma {:induction false} BytesRound(bytes: seq<byte>, rest: Text, out: seq<Json>)
    requires bytes != []
    ensures ParseItems(PrintBytes(bytes) + ([CLOSE_LIST] + rest), out) == Some((out + BytesAsRead(bytes), rest))
    decreases |bytes|
  {
    hide ParseValue, Decimal, WhiteSpace;
    CommaIsPlain();
    var first, last := Decimal(bytes[0] as nat), [CLOSE_LIST] + rest;
    if |bytes| == 1 {
      NumberRound(first, last);
      NotSpace(last);
      assert BytesAsRead(bytes) == [Read(first)] + [] == [Read(first)];
    } else {
      var more := PrintBytes(bytes[1..]) + last;
      assert PrintBytes(bytes) + last == first + ([COMMA] + more);
      NumberRound(first, [COMMA] + more);
      NotSpace([COMMA] + more);
      assert ([COMMA] + more)[1..] == more;
      BytesRound(bytes[1..], rest, out + [Read(first)]);
      ConcatAssoc(out, [Read(first)], BytesAsRead(bytes[1..]));
    }
  }

  lemma ByteListRound(bytes: seq<byte>, rest: Text)
    ensures ParseList(PrintBytes(bytes) + ([CLOSE_LIST] + rest)) == Some((BytesAsRead(bytes), rest))
  {
    hide Decimal;
    var t := PrintBytes(bytes) + ([CLOSE_LIST] + rest);
    if bytes == [] {
      assert t == [CLOSE_LIST] + rest;
      NotSpace(t);
    } else {
      assert t[0] == Decimal(bytes[0] as nat)[0] && Digit(t[0]);
      NotSpace(t);
      BytesRound(bytes, rest, []);
      assert [] + BytesAsRead(bytes) == BytesAsRead(bytes);
    }
  }

  /** The number that decimal digits stand for. */
  function DigitsValue(s: Text): (r: Option<nat>)
    decreases |s|
  {
    if s == [] then Some(0)
    else
      var before := DigitsValue(s[..|s| - 1]);
      if before.None? || !Digit(s[|s| - 1]) then None else Some(before.value * 10 + (s[|s| - 1] as nat - 0x30))
  }

  /** A text as an unsigned 32-bit number, with or without a plus sign. */
  function ToUInt(s: Text): Option<nat> {
    var digits := if |s| > 1 && s[0] == 0x2B then s[1..] else s;
    var n := DigitsValue(digits);
    if digits == [] || n.None? || n.value >= 0x1_0000_0000 then None else n
  }

  /** The text of a number: strings count as numbers too. */
  function NumberText(v: Json): Option<Text> {
    match v
    case Read(text) => Some(text)
    case Str(value) => Some(value)
    case _ => None
  }

  /** What the facade takes for bytes: a list of numbers, each cut to a byte. */
  function Data(v: Json): Option<seq<byte>> {
    if v.List? then DataOf(v.items) else None
  }

  function DataOf(items: seq<Json>): Option<seq<byte>>
    decreases |items|
  {
    if items == [] then Some([])
    else
      var text := NumberText(items[0]);
      var n := if text.Some? then ToUInt(text.value) else None;
      var rest := DataOf(items[1..]);
      if n.None? || rest.None? then None else Some([(n.value % 256) as byte] + rest.value)
  }

  lemma {:induction false} DecimalValue(n: nat)
    ensures DigitsValue(Decimal(n)) == Some(n)
  {
    var s, last: unit := Decimal(n), 0x30 + (n % 10) as unit;
    if n < 10 {
      assert s == [last] && s[..0] == [];
    } else {
      DecimalValue(n / 10);
      assert s[..|s| - 1] == Decimal(n / 10) && s[|s| - 1] == last;
    }
  }

  lemma DecimalRound(n: nat)
    requires n < 0x1_0000_0000
    ensures ToUInt(Decimal(n)) == Some(n)
  {
    hide Decimal, DigitsValue;
    DecimalValue(n);
    assert Digit(Decimal(n)[0]);
  }

  /** Bytes that crossed as a list are the same bytes. */
  lemma {:induction false} DataRound(bytes: seq<byte>)
    ensures Data(AsRead(Bytes(bytes))) == Some(bytes)
    decreases |bytes|
  {
    hide ToUInt, Decimal;
    if bytes != [] {
      DecimalRound(bytes[0] as nat);
      DataRound(bytes[1..]);
      assert BytesAsRead(bytes)[1..] == BytesAsRead(bytes[1..]);
      assert (bytes[0] as nat % 256) as byte == bytes[0];
      assert [bytes[0]] + bytes[1..] == bytes;
    }
  }

  // ---- values that come back ----

  /** A plain value is read back, up to where it ends. */
  lemma {:induction false} ValueRound(v: Json, rest: Text)
    requires Clean(v) && Plain(v) && Ends(v, rest)
    ensures ParseValue(Print(v) + rest) == Some((AsRead(v), rest))
    decreases v, 2
  {
    hide ParseList, ParseObject, ParseString, PrintItems, PrintMembers, PrintBytes, Quoted, Keys, ItemsAsRead, MembersAsRead,
      BytesAsRead;
    match v
    case Null => WordRound(NULL, v, rest);
    case Bool(b) => WordRound(if b then TRUE else FALSE, v, rest);
    case Number(text) => NumberRound(text, rest);
    case NonFinite(text) => QuotedRound(text, rest);
    case Str(value) => QuotedRound(value, rest);
    case Bytes(bytes) =>
      var t := Print(v) + rest;
      NotSpace(t);
      assert t[1..] == PrintBytes(bytes) + ([CLOSE_LIST] + rest);
      ByteListRound(bytes, rest);
    case List(items) =>
      var t := Print(v) + rest;
      NotSpace(t);
      assert t[1..] == PrintItems(items) + ([CLOSE_LIST] + rest);
      ListRound(items, rest);
    case Object(members) =>
      var t := Print(v) + rest;
      NotSpace(t);
      assert t[1..] == PrintMembers(members) + ([CLOSE_OBJECT] + rest);
      ObjectRound(members, rest);
  }

  lemma {:induction false} ListRound(items: seq<Json>, rest: Text)
    requires forall k :: 0 <= k < |items| ==> Clean(items[k]) && Plain(items[k])
    ensures ParseList(PrintItems(items) + ([CLOSE_LIST] + rest)) == Some((ItemsAsRead(items), rest))
    decreases items, 1
  {
    var t := PrintItems(items) + ([CLOSE_LIST] + rest);
    if items == [] {
      assert t == [CLOSE_LIST] + rest;
      NotSpace(t);
    } else {
      ListOpens(items, rest);
      ItemsRound(items, rest, []);
      assert [] + ItemsAsRead(items) == ItemsAsRead(items);
    }
  }

  /** A list that is not empty starts with its first value. */
  lemma ListOpens(items: seq<Json>, rest: Text)
    requires items != [] && Clean(items[0])
    ensures var t := PrintItems(items) + ([CLOSE_LIST] + rest); SkipSpace(t) == t && ParseList(t) == ParseItems(t, [])
  {
    var t := PrintItems(items) + ([CLOSE_LIST] + rest);
    PrintStart(items[0]);
    assert t[0] == Print(items[0])[0];
    NotSpace(t);
  }

  lemma ItemsText(items: seq<Json>, last: Text)
    requires |items| > 1
    ensures PrintItems(items) + last == Print(items[0]) + ([COMMA] + (PrintItems(items[1..]) + last))
  {
    hide Print;
    var more := PrintItems(items[1..]);
    ConcatAssoc(Print(items[0]), [COMMA] + more, last);
    ConcatAssoc([COMMA], more, last);
  }

  lemma {:induction false} ItemsRound(items: seq<Json>, rest: Text, out: seq<Json>)
    requires items != [] && forall k :: 0 <= k < |items| ==> Clean(items[k]) && Plain(items[k])
    ensures ParseItems(PrintItems(items) + ([CLOSE_LIST] + rest), out) == Some((out + ItemsAsRead(items), rest))
    decreases items, 0
  {
    hide ParseValue, Print, Clean, Plain, AsRead, WhiteSpace;
    CommaIsPlain();
    var v, last := items[0], [CLOSE_LIST] + rest;
    if |items| == 1 {
      ValueRound(v, last);
      NotSpace(last);
      assert items == [v] && ItemsAsRead(items) == [AsRead(v)] + [] == [AsRead(v)];
    } else {
      var more := PrintItems(items[1..]) + last;
      ItemsText(items, last);
      ValueRound(v, [COMMA] + more);
      NotSpace([COMMA] + more);
      assert ([COMMA] + more)[1..] == more;
      ItemsRound(items[1..], rest, out + [AsRead(v)]);
      ConcatAssoc(out, [AsRead(v)], ItemsAsRead(items[1..]));
    }
  }

  lemma {:induction false} ObjectRound(members: seq<Member>, rest: Text)
    requires NoDup(Keys(members)) && forall k :: 0 <= k < |members| ==> Clean(members[k].value) && Plain(members[k].value)
    ensures ParseObject(PrintMembers(members) + ([CLOSE_OBJECT] + rest)) == Some((MembersAsRead(members), rest))
    decreases members, 1
  {
    var t := PrintMembers(members) + ([CLOSE_OBJECT] + rest);
    if members == [] {
      assert t == [CLOSE_OBJECT] + rest;
      NotSpace(t);
    } else {
      ObjectOpens(members, rest);
      assert [] + members == members && [] + MembersAsRead(members) == MembersAsRead(members);
      MembersRound(members, rest, []);
    }
  }

  lemma ObjectOpens(members: seq<Member>, rest: Text)
    requires members != []
    ensures var t := PrintMembers(members) + ([CLOSE_OBJECT] + rest); ParseObject(t) == ParseMembers(t, [])
  {
    var t := PrintMembers(members) + ([CLOSE_OBJECT] + rest);
    assert t[0] == QUOTE;
    NotSpace(t);
  }

  /** A new key goes last. */
  lemma {:induction false} PutNew(members: seq<Member>, e: Member)
    requires forall k :: 0 <= k < |members| ==> members[k].key != e.key
    ensures Put(members, e) == members + [e]
    decreases |members|
  {
    if members != [] {
      PutNew(members[1..], e);
      assert [members[0]] + (members[1..] + [e]) == members + [e];
    }
  }

  /** The first member has a new key, and the rest have other ones. */
  lemma FirstIsNew(out: seq<Member>, members: seq<Member>, e: Member)
    requires members != [] && NoDup(Keys(out + members)) && e.key == members[0].key
    ensures Put(out, e) == out + [e] && NoDup(Keys((out + [e]) + members[1..]))
  {
    forall k | 0 <= k < |out| ensures out[k].key != e.key {
      assert Keys(out + members)[k] == out[k].key && Keys(out + members)[|out|] == e.key;
    }
    PutNew(out, e);
    assert Keys((out + [e]) + members[1..]) == Keys(out + members);
  }

  lemma MembersText(members: seq<Member>, last: Text)
    requires |members| > 1
    ensures PrintMembers(members) + last
         == Quoted(members[0].key) + ([COLON] + Print(members[0].value)) + ([COMMA] + (PrintMembers(members[1..]) + last))
  {
    hide Print, Quoted;
    var first, more := Quoted(members[0].key) + ([COLON] + Print(members[0].value)), PrintMembers(members[1..]);
    assert first + ([COMMA] + more) + last == first + ([COMMA] + (more + last));
  }

  lemma {:induction false} MembersRound(members: seq<Member>, rest: Text, out: seq<Member>)
    requires members != [] && NoDup(Keys(out + members))
    requires forall k :: 0 <= k < |members| ==> Clean(members[k].value) && Plain(members[k].value)
    ensures ParseMembers(PrintMembers(members) + ([CLOSE_OBJECT] + rest), out) == Some((out + MembersAsRead(members), rest))
    decreases members, 0
  {
    hide ParseMember, Print, Clean, Plain, AsRead, Quoted, WhiteSpace, NoDup, Keys, Put;
    CommaIsPlain();
    var e, last := members[0], [CLOSE_OBJECT] + rest;
    var read := Member(e.key, AsRead(e.value));
    FirstIsNew(out, members, read);
    if |members| == 1 {
      MemberRound(e, last);
      NotSpace(last);
      assert members == [e] && MembersAsRead(members) == [read] + [] == [read];
    } else {
      var more := PrintMembers(members[1..]) + last;
      MembersText(members, last);
      MemberRound(e, [COMMA] + more);
      NotSpace([COMMA] + more);
      assert ([COMMA] + more)[1..] == more;
      MembersRound(members[1..], rest, out + [read]);
      ConcatAssoc(out, [read], MembersAsRead(members[1..]));
    }
  }

  lemma {:induction false} MemberRound(e: Member, rest: Text)
    requires Clean(e.value) && Plain(e.value) && Ends(e.value, rest)
    ensures ParseMember(Quoted(e.key) + ([COLON] + Print(e.value)) + rest) == Some((Member(e.key, AsRead(e.value)), rest))
    decreases e, 3
  {
    hide ParseValue, ParseString, Quoted, Print;
    KeyRound(e, rest);
    ValueRound(e.value, rest);
  }

  /** After its key a member goes on with its value. */
  lemma KeyRound(e: Member, rest: Text)
    ensures var t := Quoted(e.key) + ([COLON] + Print(e.value)) + rest;
            && ParseString(t).Some? && ParseString(t).value.0 == e.key
            && Take(ParseString(t).value.1, COLON) == Some(Print(e.value) + rest)
  {
    hide ParseString, Quoted, Print;
    var tail := [COLON] + (Print(e.value) + rest);
    assert Quoted(e.key) + ([COLON] + Print(e.value)) + rest == Quoted(e.key) + tail;
    StringRound(e.key, tail);
    NotSpace(tail);
    assert tail[1..] == Print(e.value) + rest;
  }

  // ---- values that do not ----

  /** A number that was read before prints as a text that is no value. */
  lemma ReadFails(text: Text, rest: Text)
    ensures ParseValue(Print(Read(text)) + rest) == None
  {
    var t := Print(Read(text)) + rest;
    assert t[0] == READ_OPEN[0];
    NotSpace(t);
  }

  lemma {:induction false} ValueFails(v: Json, rest: Text)
    requires Clean(v) && !Plain(v)
    ensures ParseValue(Print(v) + rest) == None
    decreases v, 2
  {
    hide ParseList, ParseObject, PrintItems, PrintMembers, Keys;
    match v
    case Read(text) => ReadFails(text, rest);
    case List(items) =>
      var t := Print(v) + rest;
      NotSpace(t);
      assert t[1..] == PrintItems(items) + ([CLOSE_LIST] + rest);
      ListOpens(items, rest);
      ItemsFail(items, rest, []);
    case Object(members) =>
      var t := Print(v) + rest;
      NotSpace(t);
      assert t[1..] == PrintMembers(members) + ([CLOSE_OBJECT] + rest);
      ObjectOpens(members, rest);
      MembersFail(members, rest, []);
  }

  lemma {:induction false} ItemsFail(items: seq<Json>, rest: Text, out: seq<Json>)
    requires (forall k :: 0 <= k < |items| ==> Clean(items[k])) && !(forall k :: 0 <= k < |items| ==> Plain(items[k]))
    ensures ParseItems(PrintItems(items) + ([CLOSE_LIST] + rest), out) == None
    decreases items, 0
  {
    hide ParseValue, Print, Clean, Plain, AsRead, WhiteSpace;
    CommaIsPlain();
    var v, last := items[0], [CLOSE_LIST] + rest;
    if |items| == 1 {
      ValueFails(v, last);
      assert items == [v];
    } else {
      var more := PrintItems(items[1..]) + last;
      ItemsText(items, last);
      if Plain(v) {
        ValueRound(v, [COMMA] + more);
        NotSpace([COMMA] + more);
        assert ([COMMA] + more)[1..] == more;
        ItemsFail(items[1..], rest, out + [AsRead(v)]);
      } else {
        ValueFails(v, [COMMA] + more);
      }
    }
  }

  lemma {:induction false} MembersFail(members: seq<Member>, rest: Text, out: seq<Member>)
    requires forall k :: 0 <= k < |members| ==> Clean(members[k].value)
    requires !(forall k :: 0 <= k < |members| ==> Plain(members[k].value))
    ensures ParseMembers(PrintMembers(members) + ([CLOSE_OBJECT] + rest), out) == None
    decreases members, 0
  {
    hide ParseMember, Print, Clean, Plain, AsRead, Quoted, WhiteSpace, Put;
    CommaIsPlain();
    var e, last := members[0], [CLOSE_OBJECT] + rest;
    if |members| == 1 {
      MemberFails(e, last);
      assert members == [e];
    } else {
      var more := PrintMembers(members[1..]) + last;
      MembersText(members, last);
      if Plain(e.value) {
        MemberRound(e, [COMMA] + more);
        NotSpace([COMMA] + more);
        assert ([COMMA] + more)[1..] == more;
        MembersFail(members[1..], rest, Put(out, Member(e.key, AsRead(e.value))));
      } else {
        MemberFails(e, [COMMA] + more);
      }
    }
  }

  lemma {:induction false} MemberFails(e: Member, rest: Text)
    requires Clean(e.value) && !Plain(e.value)
    ensures ParseMember(Quoted(e.key) + ([COLON] + Print(e.value)) + rest) == None
    decreases e, 3
  {
    hide ParseValue, ParseString, Quoted, Print;
    KeyRound(e, rest);
    ValueFails(e.value, rest);
  }

  // ---- the round trip ----

  /** A printed value is read back, with all the text consumed, exactly if it holds
      no number that the parser once returned; one that does is refused. */
  lemma JsonRoundTrip(v: Json)
    requires Clean(v)
    ensures Parse(Print(v)) == if Plain(v) then Some(AsRead(v)) else None
    ensures Parse(Print(v)) == Some(AsRead(v)) <==> Plain(v)
  {
    hide ParseValue, Print, AsRead;
    assert Print(v) + [] == Print(v);
    if Plain(v) {
      ValueRound(v, []);
    } else {
      ValueFails(v, []);
    }
  }

  /** The number 42, once it was parsed, can be printed but not parsed again. */
  lemma ReadNumberIsLost()
    ensures Parse([0x34, 0x32]) == Some(Read([0x34, 0x32])) && Parse(Print(Read([0x34, 0x32]))) == None
  {
    var text: Text := [0x34, 0x32];
    NumberRound(text, []);
    assert text + [] == text;
    ReadFails(text, []);
    assert Print(Read(text)) + [] == Print(Read(text));
  }
}
