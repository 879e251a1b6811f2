/** The row codec of backend/app/core/sqlite_capture.py: a row becomes JSON objects of at most forty
    columns whose interiors are spliced into one, and `decode` reads them back. JSON is RFC 8259:
    objects are its section 4 and strings its section 7. */
module RowImage {
  import opened Prelude
  import opened Texts

  newtype Byte = x: int | 0 <= x < 256

  datatype Value = Null | Int(n: int) | Text(s: string) | Blob(bytes: seq<Byte>)

  datatype Column = Column(name: string, value: Value)

  type Row = seq<Column>

  const CHUNK: nat := 40
  const WRAPPER: string := "$lg_blob"

  /* ---- What SQLite writes ---- */

  const HEX: string := "0123456789ABCDEF"
  const hex: string := "0123456789abcdef"

  function EscapeChar(c: char): string {
    if c == '\"' then ['\\', '\"']
    else if c == '\\' then ['\\', '\\']
    else if c as int == 8 then ['\\', 'b']
    else if c as int == 12 then ['\\', 'f']
    else if c == '\n' then ['\\', 'n']
    else if c == '\r' then ['\\', 'r']
    else if c == '\t' then ['\\', 't']
    else if c as int < 32 then ['\\', 'u', '0', '0', hex[c as int / 16], hex[c as int % 16]]
    else [c]
  }

  function Escape(s: string): string {
    if s == [] then [] else EscapeChar(s[0]) + Escape(s[1..])
  }

  function Quote(s: string): string { ['\"'] + Escape(s) + ['\"'] }

  function IntText(n: int): string { if n < 0 then ['-'] + NatText(-n) else NatText(n) }

  function HexText(b: seq<Byte>): string {
    if b == [] then [] else [HEX[b[0] as int / 16], HEX[b[0] as int % 16]] + HexText(b[1..])
  }

  function ValueText(v: Value): string {
    match v
    case Null => "null"
    case Int(n) => IntText(n)
    case Text(s) => Quote(s)
    case Blob(b) => ['{'] + Quote(WRAPPER) + [':'] + Quote(HexText(b)) + ['}']
  }

  function Member(c: Column): string { Quote(c.name) + [':'] + ValueText(c.value) }

  function Join(items: seq<string>): string {
    if items == [] then "" else if |items| == 1 then items[0] else items[0] + [','] + Join(items[1..])
  }

  function Members(row: Row): string {
    if row == [] then "" else if |row| == 1 then Member(row[0]) else Member(row[0]) + [','] + Members(row[1..])
  }

  /** `json_object` over all columns at once. */
  function Encode(row: Row): string { ['{'] + Members(row) + ['}'] }

  /** `substr(item, 2, length(item) - 2)`. */
  function Interior(item: string): string
    requires |item| >= 2
  {
    item[1..|item| - 1]
  }

  function Interiors(row: Row): seq<string>
    decreases |row|
  {
    if |row| <= CHUNK then [Interior(Encode(row))]
    else [Interior(Encode(row[..CHUNK]))] + Interiors(row[CHUNK..])
  }

  lemma InteriorOfEncode(row: Row)
    ensures Interior(Encode(row)) == Members(row)
  {
  }

  lemma {:induction false} MembersConcat(a: Row, b: Row)
    requires a != [] && b != []
    ensures Members(a + b) == Members(a) + [','] + Members(b)
    decreases |a|
  {
    hide Member;
    assert (a + b)[0] == a[0] && (a + b)[1..] == a[1..] + b;
    if |a| == 1 {
      assert a[1..] + b == b;
    } else {
      MembersConcat(a[1..], b);
    }
  }

  lemma {:induction false} SplicedMembers(row: Row)
    requires row != []
    ensures Join(Interiors(row)) == Members(row)
    decreases |row|
  {
    if |row| <= CHUNK {
      InteriorOfEncode(row);
    } else {
      InteriorOfEncode(row[..CHUNK]);
      SplicedMembers(row[CHUNK..]);
      MembersConcat(row[..CHUNK], row[CHUNK..]);
      assert row == row[..CHUNK] + row[CHUNK..];
      assert Interiors(row)[1..] == Interiors(row[CHUNK..]);
    }
  }

  /** Main result 1. For every width, the text spliced from chunks is the text of one object. */
  method Image(row: Row) returns (text: string)
    requires row != []
    ensures text == Encode(row)
  {
    hide Members, Interior;
    var objects: seq<string> := [];
    var interiors: seq<string> := [];
    var offset := 0;
    while offset < |row|
      invariant 0 <= offset && |objects| == |interiors|
      invariant offset < |row| ==> interiors + Interiors(row[offset..]) == Interiors(row)
      invariant offset >= |row| ==> interiors == Interiors(row)
      invariant |objects| == 1 ==> objects[0] == Encode(row[..if |row| <= CHUNK then |row| else CHUNK])
      invariant |objects| <= 1 <==> offset <= CHUNK
      invariant objects == [] <==> offset == 0
      decreases |row| - offset
    {
      var end := if offset + CHUNK <= |row| then offset + CHUNK else |row|;
      assert row[offset..][..end - offset] == row[offset..end];
      if offset + CHUNK < |row| {
        assert row[offset..][CHUNK..] == row[offset + CHUNK..];
      } else {
        assert row[offset..end] == row[offset..];
      }
      objects := objects + [Encode(row[offset..end])];
      interiors := interiors + [Interior(Encode(row[offset..end]))];
      offset := offset + CHUNK;
    }
    if |objects| == 1 {
      assert row[..|row|] == row;
      return objects[0];
    }
    SplicedMembers(row);
    return ['{'] + Join(interiors) + ['}'];
  }

  /* ---- What Python reads ---- */

  datatype Json = JNull | JInt(n: int) | JString(s: string) | JObject(members: seq<(string, Json)>)

  function SkipSpace(s: string): (r: string)
    ensures |r| <= |s|
  {
    if s != [] && (s[0] == ' ' || s[0] == '\t' || s[0] == '\n' || s[0] == '\r') then SkipSpace(s[1..]) else s
  }

  function HexValue(c: char): Option<nat> {
    if '0' <= c <= '9' then Some(c as int - '0' as int)
    else if 'A' <= c <= 'F' then Some(c as int - 'A' as int + 10)
    else if 'a' <= c <= 'f' then Some(c as int - 'a' as int + 10)
    else None
  }

  function Prepend(c: char, r: Option<(string, string)>): Option<(string, string)> {
    if r.Some? then Some(([c] + r.value.0, r.value.1)) else None
  }

  function ShortEscape(c: char): Option<char> {
    if c == '\"' || c == '\\' || c == '/' then Some(c)
    else if c == 'b' then Some(8 as char)
    else if c == 'f' then Some(12 as char)
    else if c == 'n' then Some('\n')
    else if c == 'r' then Some('\r')
    else if c == 't' then Some('\t')
    else None
  }

  /** Four hexadecimal digits, outside the surrogates. */
  function LongEscape(s: string): Option<char>
    requires |s| >= 4
  {
    var a, b, c, d := HexValue(s[0]), HexValue(s[1]), HexValue(s[2]), HexValue(s[3]);
    if a.None? || b.None? || c.None? || d.None? then None
    else
      var code := a.value * 4096 + b.value * 256 + c.value * 16 + d.value;
      if code < 0xD800 || 0xE000 <= code <= 0xFFFF then Some(code as char) else None
  }

  /** The rest of a string after its opening quote. */
  function ParseChars(s: string): (r: Option<(string, string)>)
    ensures r.Some? ==> |r.value.1| < |s|
    decreases |s|
  {
    if s == [] then None
    else if s[0] == '\"' then Some(([], s[1..]))
    else if s[0] == '\\' then
      if |s| < 2 then None
      else if s[1] == 'u' then
        if |s| < 6 || LongEscape(s[2..6]).None? then None else Prepend(LongEscape(s[2..6]).value, ParseChars(s[6..]))
      else if ShortEscape(s[1]).None? then None
      else Prepend(ShortEscape(s[1]).value, ParseChars(s[2..]))
    else if s[0] as int < 32 then None
    else Prepend(s[0], ParseChars(s[1..]))
  }

  /** A JSON integer; a fraction or an exponent makes it something else. */
  function ParseNat(s: string): (r: Option<(nat, string)>)
    ensures r.Some? ==> |r.value.1| < |s|
  {
    if s == [] || !IsDigit(s[0]) then None
    else
      var k := if s[0] == '0' then 1 else Span(s);
      var (n, rest) := (if s[0] == '0' then 0 else Number(s[..k]), s[k..]);
      if rest != [] && (rest[0] == '.' || rest[0] == 'e' || rest[0] == 'E') then None else Some((n, rest))
  }

  function ParseInt(s: string): (r: Option<(Json, string)>)
    ensures r.Some? ==> |r.value.1| < |s|
  {
    if s != [] && s[0] == '-' then
      var r := ParseNat(s[1..]);
      if r.Some? then Some((JInt(0 - r.value.0), r.value.1)) else None
    else
      var r := ParseNat(s);
      if r.Some? then Some((JInt(r.value.0), r.value.1)) else None
  }

  function ParseValue(s: string): (r: Option<(Json, string)>)
    ensures r.Some? ==> |r.value.1| < |s|
    decreases |s|, 1
  {
    var t := SkipSpace(s);
    if t == [] then None
    else if t[0] == 'n' then (if |t| >= 4 && t[..4] == "null" then Some((JNull, t[4..])) else None)
    else if t[0] == '\"' then
      var r := ParseChars(t[1..]);
      if r.Some? then Some((JString(r.value.0), r.value.1)) else None
    else if t[0] == '{' then
      var u := SkipSpace(t[1..]);
      if u != [] && u[0] == '}' then Some((JObject([]), u[1..]))
      else
        var r := ParseMembers(u);
        if r.Some? then Some((JObject(r.value.0), r.value.1)) else None
    else ParseInt(t)
  }

  /** One member and what follows it, up to the closing brace. */
  function ParseMembers(s: string): (r: Option<(seq<(string, Json)>, string)>)
    ensures r.Some? ==> |r.value.1| < |s|
    decreases |s|, 0
  {
    if s == [] || s[0] != '\"' then None
    else
      var key := ParseChars(s[1..]);
      if key.None? then None
      else
        var t := SkipSpace(key.value.1);
        if t == [] || t[0] != ':' then None
        else
          var v := ParseValue(t[1..]);
          if v.None? then None
          else
            var u := SkipSpace(v.value.1);
            if u == [] then None
            else if u[0] == '}' then Some(([(key.value.0, v.value.0)], u[1..]))
            else if u[0] == ',' then
              var r := ParseMembers(SkipSpace(u[1..]));
              if r.Some? then Some(([(key.value.0, v.value.0)] + r.value.0, r.value.1)) else None
            else None
  }

  /** `bytes.fromhex` on text without blanks. */
  function FromHex(s: string): Option<seq<Byte>>
    decreases |s|
  {
    if s == [] then Some([])
    else if |s| < 2 || HexValue(s[0]).None? || HexValue(s[1]).None? then None
    else
      var r := FromHex(s[2..]);
      var n := HexValue(s[0]).value * 16 + HexValue(s[1]).value;
      if r.Some? && n < 256 then Some([n as Byte] + r.value) else None
  }

  function ReadValue(j: Json): Option<Value> {
    match j
    case JNull => Some(Null)
    case JInt(n) => Some(Int(n))
    case JString(s) => Some(Text(s))
    case JObject(ms) =>
      if |ms| == 1 && ms[0].0 == WRAPPER && ms[0].1.JString? then
        var b := FromHex(ms[0].1.s);
        if b.Some? then Some(Blob(b.value)) else None
      else None
  }

  function ReadMembers(ms: seq<(string, Json)>): Option<Row> {
    if ms == [] then Some([])
    else
      var v, r := ReadValue(ms[0].1), ReadMembers(ms[1..]);
      if v.Some? && r.Some? then Some([Column(ms[0].0, v.value)] + r.value) else None
  }

  /** `decode`: the columns in the order in which they are read. */
  function Decode(text: string): Option<Row> {
    var j := ParseValue(text);
    if j.Some? && SkipSpace(j.value.1) == [] && j.value.0.JObject? then ReadMembers(j.value.0.members) else None
  }

  /** A Python dict keeps the last value of each key. */
  function Dict(row: Row): map<string, Value> {
    if row == [] then map[] else map[row[0].name := row[0].value] + Dict(row[1..])
  }

  /* ---- Reading back what was written ---- */

  lemma EscapedChar(c: char, rest: string)
    ensures ParseChars(EscapeChar(c) + rest) == Prepend(c, ParseChars(rest))
  {
    var e := EscapeChar(c);
    var s := e + rest;
    if |e| == 1 {
      assert s[0] == c && s[1..] == rest;
    } else if |e| == 2 {
      assert s[0] == '\\' && s[1] == e[1] && s[2..] == rest;
      assert ShortEscape(e[1]) == Some(c);
    } else {
      assert s[0] == '\\' && s[1] == 'u' && s[2..6] == e[2..6] && s[6..] == rest;
      HexDigits(c as int / 16);
      HexDigits(c as int % 16);
      assert LongEscape(e[2..6]) == Some(c);
    }
  }

  lemma HexDigits(n: nat)
    requires n < 16
    ensures HexValue(HEX[n]) == Some(n) && HexValue(hex[n]) == Some(n)
  {
  }

  lemma {:induction false} StringReads(s: string, rest: string)
    ensures ParseChars(Escape(s) + ['\"'] + rest) == Some((s, rest))
    decreases |s|
  {
    if s == [] {
      assert Escape(s) + ['\"'] + rest == ['\"'] + rest;
    } else {
      var tail := Escape(s[1..]) + ['\"'] + rest;
      assert Escape(s) + ['\"'] + rest == EscapeChar(s[0]) + tail;
      EscapedChar(s[0], tail);
      StringReads(s[1..], rest);
      assert [s[0]] + s[1..] == s;
    }
  }

  lemma QuoteReads(s: string, rest: string)
    ensures var t := Quote(s) + rest; t != [] && t[0] == '\"' && ParseChars(t[1..]) == Some((s, rest))
  {
    StringReads(s, rest);
    hide Escape, ParseChars;
    assert (Quote(s) + rest)[1..] == Escape(s) + ['\"'] + rest;
  }

  /* One step of the reader on each kind of value. */

  lemma StringStarts(t: string)
    requires t != [] && t[0] == '\"' && ParseChars(t[1..]).Some?
    ensures ParseValue(t) == Some((JString(ParseChars(t[1..]).value.0), ParseChars(t[1..]).value.1))
  {
    hide ParseChars, ParseMembers, ParseInt;
    assert SkipSpace(t) == t;
  }

  lemma IntStarts(t: string)
    requires t != [] && (t[0] == '-' || IsDigit(t[0]))
    ensures ParseValue(t) == ParseInt(t)
  {
    hide ParseChars, ParseMembers, ParseInt;
    assert SkipSpace(t) == t;
  }

  lemma ObjectStarts(t: string)
    requires |t| >= 2 && t[0] == '{' && t[1] == '\"' && ParseMembers(t[1..]).Some?
    ensures ParseValue(t) == Some((JObject(ParseMembers(t[1..]).value.0), ParseMembers(t[1..]).value.1))
  {
    hide ParseChars, ParseMembers, ParseInt;
    assert SkipSpace(t) == t && SkipSpace(t[1..]) == t[1..];
  }

  /** A member whose value ends at `u`, where the brace or the comma stands. */
  lemma MemberReads(s: string, key: string, value: string, v: Json, u: string)
    requires s != [] && s[0] == '\"' && ParseChars(s[1..]) == Some((key, [':'] + value))
    requires ParseValue(value) == Some((v, u)) && u != []
    ensures u[0] == '}' ==> ParseMembers(s) == Some(([(key, v)], u[1..]))
    ensures u[0] == ',' && |u| > 1 && u[1] == '\"' && ParseMembers(u[1..]).Some? ==>
              ParseMembers(s) == Some(([(key, v)] + ParseMembers(u[1..]).value.0, ParseMembers(u[1..]).value.1))
  {
    hide ParseChars, ParseValue;
    var t := [':'] + value;
    assert SkipSpace(t) == t && t[1..] == value;
    if u[0] == '}' || u[0] == ',' { assert SkipSpace(u) == u; }
    if u[0] == ',' && |u| > 1 && u[1] == '\"' { assert SkipSpace(u[1..]) == u[1..]; }
  }

  predicate Ends(rest: string) { rest != [] && (rest[0] == ',' || rest[0] == '}') }

  lemma NatReads(n: nat, rest: string)
    requires Ends(rest)
    ensures ParseNat(NatText(n) + rest) == Some((n, rest))
  {
    var t := NatText(n);
    NatTextReads(n);
    SpanOfDigits(t, rest);
    assert (t + rest)[0] == t[0] && (t + rest)[..|t|] == t && (t + rest)[|t|..] == rest;
    if n == 0 { assert t == ['0']; }
  }

  lemma IntReads(n: int, rest: string)
    requires Ends(rest)
    ensures ParseValue(IntText(n) + rest) == Some((JInt(n), rest))
  {
    hide ParseNat, ParseValue, NatText;
    var s := IntText(n) + rest;
    if n < 0 {
      NatReads(-n, rest);
      assert s[0] == '-' && s[1..] == NatText(-n) + rest;
    } else {
      NatTextReads(n);
      NatReads(n, rest);
      assert s[0] == NatText(n)[0];
    }
    IntStarts(s);
  }

  lemma {:induction false} HexReads(b: seq<Byte>)
    ensures FromHex(HexText(b)) == Some(b)
    decreases |b|
  {
    hide HexValue;
    if b != [] {
      HexReads(b[1..]);
      HexDigits(b[0] as int / 16);
      HexDigits(b[0] as int % 16);
      ByteReads(HexText(b), HexText(b[1..]), b[0] as int / 16, b[0] as int % 16);
      assert [b[0]] + b[1..] == b;
    }
  }

  lemma ByteReads(s: string, tail: string, high: nat, low: nat)
    requires |s| >= 2 && s[2..] == tail && HexValue(s[0]) == Some(high) && HexValue(s[1]) == Some(low) && FromHex(tail).Some?
    requires high < 16 && low < 16
    ensures FromHex(s) == Some([(high * 16 + low) as Byte] + FromHex(tail).value)
  {
    hide HexValue;
  }

  function ToJson(v: Value): Json {
    match v
    case Null => JNull
    case Int(n) => JInt(n)
    case Text(s) => JString(s)
    case Blob(b) => JObject([(WRAPPER, JString(HexText(b)))])
  }

  lemma TextReads(s: string, rest: string)
    ensures ParseValue(Quote(s) + rest) == Some((JString(s), rest))
  {
    hide Quote, ParseChars, ParseValue;
    QuoteReads(s, rest);
    StringStarts(Quote(s) + rest);
  }

  lemma BlobReads(b: seq<Byte>, rest: string)
    ensures ParseValue(ValueText(Blob(b)) + rest) == Some((ToJson(Blob(b)), rest))
  {
    hide Quote, ParseChars, ParseValue, ParseMembers, HexText;
    var s := ValueText(Blob(b)) + rest;
    var value := Quote(HexText(b)) + (['}'] + rest);
    var inner := Quote(WRAPPER) + ([':'] + value);
    QuoteReads(WRAPPER, [':'] + value);
    TextReads(HexText(b), ['}'] + rest);
    MemberReads(inner, WRAPPER, value, JString(HexText(b)), ['}'] + rest);
    assert (['}'] + rest)[1..] == rest;
    assert s == ['{'] + inner && s[1..] == inner;
    ObjectStarts(s);
  }

  lemma ValueReads(v: Value, rest: string)
    requires Ends(rest)
    ensures ParseValue(ValueText(v) + rest) == Some((ToJson(v), rest))
  {
    match v
    case Null =>
      var s := "null" + rest;
      assert SkipSpace(s) == s && s[..4] == "null" && s[4..] == rest;
    case Int(n) => IntReads(n, rest);
    case Text(s) => TextReads(s, rest);
    case Blob(b) => BlobReads(b, rest);
  }

  function JsonMembers(row: Row): seq<(string, Json)> {
    seq(|row|, i requires 0 <= i < |row| => (row[i].name, ToJson(row[i].value)))
  }

  lemma FirstMember(row: Row, rest: string, more: string)
    requires row != [] && more == if |row| == 1 then ['}'] + rest else [','] + (Members(row[1..]) + (['}'] + rest))
    ensures Members(row) + (['}'] + rest) == Quote(row[0].name) + ([':'] + (ValueText(row[0].value) + more))
    ensures Members(row) != [] && Members(row)[0] == '\"'
  {
    var c := row[0];
    Reassociate(Quote(c.name), ':', ValueText(c.value), more);
    if |row| > 1 { Reassociate(Member(c), ',', Members(row[1..]), ['}'] + rest); }
    assert Members(row) == if |row| == 1 then Member(c) else Member(c) + [','] + Members(row[1..]);
    hide ValueText, Members, Escape;
  }

  lemma Reassociate(a: string, sep: char, b: string, x: string)
    ensures (a + [sep] + b) + x == a + ([sep] + (b + x))
  {
  }

  lemma LastMember(c: Column, rest: string)
    ensures ParseMembers(Quote(c.name) + ([':'] + (ValueText(c.value) + (['}'] + rest)))) ==
            Some(([(c.name, ToJson(c.value))], rest))
  {
    hide Quote, ParseChars, ParseValue, ParseMembers, ValueText, ToJson;
    var more := ['}'] + rest;
    var value := ValueText(c.value) + more;
    QuoteReads(c.name, [':'] + value);
    ValueReads(c.value, more);
    assert more[1..] == rest;
    MemberReads(Quote(c.name) + ([':'] + value), c.name, value, ToJson(c.value), more);
  }

  lemma NextMember(c: Column, tail: string)
    requires tail != [] && tail[0] == '\"' && ParseMembers(tail).Some?
    ensures ParseMembers(Quote(c.name) + ([':'] + (ValueText(c.value) + ([','] + tail)))) ==
            Some(([(c.name, ToJson(c.value))] + ParseMembers(tail).value.0, ParseMembers(tail).value.1))
  {
    hide Quote, ParseChars, ParseValue, ParseMembers, ValueText, ToJson;
    var more := [','] + tail;
    var value := ValueText(c.value) + more;
    QuoteReads(c.name, [':'] + value);
    ValueReads(c.value, more);
    assert more[1..] == tail;
    MemberReads(Quote(c.name) + ([':'] + value), c.name, value, ToJson(c.value), more);
  }

  lemma JsonMembersStep(row: Row)
    requires row != []
    ensures JsonMembers(row) == [(row[0].name, ToJson(row[0].value))] + JsonMembers(row[1..])
  {
  }

  lemma {:induction false} MembersRead(row: Row, rest: string)
    requires row != []
    ensures Members(row) != [] && Members(row)[0] == '\"'
    ensures ParseMembers(Members(row) + (['}'] + rest)) == Some((JsonMembers(row), rest))
    decreases |row|
  {
    hide Quote, ParseMembers, ValueText, ToJson, Members;
    var more := if |row| == 1 then ['}'] + rest else [','] + (Members(row[1..]) + (['}'] + rest));
    FirstMember(row, rest, more);
    JsonMembersStep(row);
    if |row| == 1 {
      LastMember(row[0], rest);
      assert JsonMembers(row) == [(row[0].name, ToJson(row[0].value))];
    } else {
      MembersRead(row[1..], rest);
      NextMember(row[0], Members(row[1..]) + (['}'] + rest));
    }
  }

  lemma {:induction false} MembersDecode(row: Row)
    ensures ReadMembers(JsonMembers(row)) == Some(row)
    decreases |row|
  {
    if row != [] {
      MembersDecode(row[1..]);
      assert JsonMembers(row)[1..] == JsonMembers(row[1..]);
      if row[0].value.Blob? { HexReads(row[0].value.bytes); }
      assert [row[0]] + row[1..] == row;
    }
  }

  /** Main result 2. Reading back the image of any row gives that row, whatever its width, whatever
      its text, and with every blob a blob again. */
  lemma DecodeInvertsEncode(row: Row)
    requires row != []
    ensures Decode(Encode(row)) == Some(row)
  {
    hide Members, ParseMembers, ParseValue, ReadMembers;
    var s := Encode(row);
    MembersRead(row, []);
    assert s[1..] == Members(row) + (['}'] + []);
    ObjectStarts(s);
    MembersDecode(row);
  }

  /** So no two rows share an image; in particular a text never reads back as a blob, not even a
      text that spells the blob wrapper. */
  lemma ImagesAreUnambiguous(a: Row, b: Row)
    requires a != [] && b != [] && Encode(a) == Encode(b)
    ensures a == b
  {
    DecodeInvertsEncode(a);
    DecodeInvertsEncode(b);
  }

  lemma {:induction false} DictHolds(row: Row, k: nat)
    requires k < |row| && (forall i, j :: 0 <= i < j < |row| ==> row[i].name != row[j].name)
    ensures row[k].name in Dict(row) && Dict(row)[row[k].name] == row[k].value
    decreases |row|
  {
    if k > 0 {
      DictHolds(row[1..], k - 1);
    } else {
      DictOnly(row[1..], row[0].name);
    }
  }

  lemma {:induction false} DictOnly(row: Row, name: string)
    requires forall i :: 0 <= i < |row| ==> row[i].name != name
    ensures name !in Dict(row)
    decreases |row|
  {
    if row != [] { DictOnly(row[1..], name); }
  }
}
