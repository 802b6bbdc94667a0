/**
 JSON text (RFC 8259): the compact printer and the parser behind payload columns. A text is the
 sequence of its UTF-8 bytes, one `char` below 256 each. A number is its text. Objects are sorted by key,
 and a later duplicate of a key replaces an earlier one.
 */
module Json {
  import opened Wrappers
  import Base64

  type Text = string

  datatype Value =
    | Null
    | Bool(b: bool)
    | Number(digits: Text)
    | Str(text: Text)
    | Arr(items: Items)
    | Obj(fields: Fields)

  datatype Items = End | Item(head: Value, tail: Items)

  datatype Fields = Done | Field(key: Text, value: Value, rest: Fields)

  // ---- values -------------------------------------------------------------------------------------------

  predicate IsDigit(c: char) {
    '0' <= c <= '9'
  }

  /** The characters a number may hold; one that follows a number never continues a JSON text. */
  predicate InNumber(c: char) {
    IsDigit(c) || c == '-' || c == '+' || c == '.' || c == 'e' || c == 'E'
  }

  function DigitRun(s: Text): (n: nat)
    ensures n <= |s|
  {
    if s == [] || !IsDigit(s[0]) then 0 else 1 + DigitRun(s[1..])
  }

  predicate IsExponent(s: Text) {
    || s == ""
    || (&& |s| > 1 && (s[0] == 'e' || s[0] == 'E')
        && var d := if s[1] == '+' || s[1] == '-' then s[2..] else s[1..];
           |d| > 0 && DigitRun(d) == |d|)
  }

  predicate IsFraction(s: Text) {
    if s != "" && s[0] == '.' then DigitRun(s[1..]) > 0 && IsExponent(s[1..][DigitRun(s[1..])..]) else IsExponent(s)
  }

  /** [ minus ] int [ frac ] [ exp ], section 6 of RFC 8259. */
  predicate IsNumber(s: Text) {
    var u := if s != "" && s[0] == '-' then s[1..] else s;
    && DigitRun(u) > 0 && (DigitRun(u) == 1 || u[0] != '0')
    && IsFraction(u[DigitRun(u)..])
    && forall i :: 0 <= i < |s| ==> InNumber(s[i])
  }

  predicate Less(a: Text, b: Text) {
    if b == "" then false
    else if a == "" then true
    else a[0] < b[0] || (a[0] == b[0] && Less(a[1..], b[1..]))
  }

  /** A `serde_json::Value`: numbers are numbers and keys increase. */
  predicate Valid(v: Value) {
    match v
    case Number(digits) => IsNumber(digits)
    case Str(text) => Base64.IsBytes(text)
    case Arr(items) => ValidItems(items)
    case Obj(fields) => ValidFields(fields)
    case _ => true
  }

  predicate ValidItems(xs: Items) {
    xs.Item? ==> Valid(xs.head) && ValidItems(xs.tail)
  }

  predicate ValidFields(fs: Fields) {
    fs.Field? ==>
      && Base64.IsBytes(fs.key) && Valid(fs.value) && ValidFields(fs.rest)
      && (fs.rest.Field? ==> Less(fs.key, fs.rest.key))
  }

  /** How deep arrays and objects are nested. */
  function Depth(v: Value): nat {
    match v
    case Arr(items) => 1 + DepthItems(items)
    case Obj(fields) => 1 + DepthFields(fields)
    case _ => 0
  }

  function Max(a: nat, b: nat): nat {
    if a <= b then b else a
  }

  function DepthItems(xs: Items): nat {
    if xs.End? then 0 else Max(Depth(xs.head), DepthItems(xs.tail))
  }

  function DepthFields(fs: Fields): nat {
    if fs.Done? then 0 else Max(Depth(fs.value), DepthFields(fs.rest))
  }

  // ---- printer ------------------------------------------------------------------------------------------

  function HexDigit(n: nat): char
    requires n < 16
  {
    if n < 10 then (n + 48) as char else (n + 87) as char
  }

  function Escape(c: char): Text {
    if c == '\"' then "\\\""
    else if c == '\\' then "\\\\"
    else if c as int == 8 then "\\b"
    else if c as int == 12 then "\\f"
    else if c as int == 10 then "\\n"
    else if c as int == 13 then "\\r"
    else if c as int == 9 then "\\t"
    else if c as int < 32 then "\\u00" + [HexDigit(c as int / 16), HexDigit(c as int % 16)]
    else [c]
  }

  function Escaped(s: Text): Text {
    if s == "" then "" else Escape(s[0]) + Escaped(s[1..])
  }

  function Quote(s: Text): Text {
    "\"" + Escaped(s) + "\""
  }

  /** `serde_json::to_string`. */
  function Print(v: Value): Text {
    match v
    case Null => "null"
    case Bool(b) => if b then "true" else "false"
    case Number(digits) => digits
    case Str(text) => Quote(text)
    case Arr(items) => "[" + PrintItems(items)
    case Obj(fields) => "{" + PrintFields(fields)
  }

  /** The rest of an array, its bracket included. */
  function PrintItems(xs: Items): Text {
    if xs.End? then "]"
    else Print(xs.head) + (if xs.tail.End? then "]" else "," + PrintItems(xs.tail))
  }

  function PrintFields(fs: Fields): Text {
    if fs.Done? then "}"
    else Quote(fs.key) + ":" + Print(fs.value) + (if fs.rest.Done? then "}" else "," + PrintFields(fs.rest))
  }

  // ---- parser -------------------------------------------------------------------------------------------

  predicate IsSpace(c: char) {
    c == ' ' || c == '\t' || c == '\n' || c == '\r'
  }

  function SkipSpace(s: Text): (r: Text)
    ensures |r| <= |s|
    ensures r != "" ==> !IsSpace(r[0])
  {
    if s != "" && IsSpace(s[0]) then SkipSpace(s[1..]) else s
  }

  function NumberRun(s: Text): (n: nat)
    ensures n <= |s|
  {
    if s == "" || !InNumber(s[0]) then 0 else 1 + NumberRun(s[1..])
  }

  function HexValue(c: char): Option<nat> {
    if IsDigit(c) then Some(c as int - 48)
    else if 'a' <= c <= 'f' then Some(c as int - 87)
    else if 'A' <= c <= 'F' then Some(c as int - 55)
    else None
  }

  /** The code unit of four hexadecimal digits. */
  function HexUnit(s: Text): Option<nat>
    requires |s| >= 4
  {
    var a, b, c, d := HexValue(s[0]), HexValue(s[1]), HexValue(s[2]), HexValue(s[3]);
    if a.Some? && b.Some? && c.Some? && d.Some?
    then Some(((a.value * 16 + b.value) * 16 + c.value) * 16 + d.value)
    else None
  }

  function Byte(n: int): char {
    (if 0 <= n < 256 then n else 0) as char
  }

  /** The UTF-8 bytes of a code point. */
  function Utf8(p: nat): Text {
    if p < 0x80 then [Byte(p)]
    else if p < 0x800 then [Byte(0xC0 + p / 64), Byte(0x80 + p % 64)]
    else if p < 0x10000 then [Byte(0xE0 + p / 4096), Byte(0x80 + p / 64 % 64), Byte(0x80 + p % 64)]
    else [Byte(0xF0 + p / 262144), Byte(0x80 + p / 4096 % 64), Byte(0x80 + p / 64 % 64), Byte(0x80 + p % 64)]
  }

  /** The escape after a backslash: its bytes and how long it is. Surrogates must come in pairs. */
  function Unescape(s: Text): (r: Option<(Text, nat)>)
    requires s != ""
    ensures r.Some? ==> 0 < r.value.1 <= |s|
  {
    match s[0]
    case '\"' => Some(("\"", 1))
    case '\\' => Some(("\\", 1))
    case '/' => Some(("/", 1))
    case 'b' => Some(([8 as char], 1))
    case 'f' => Some(([12 as char], 1))
    case 'n' => Some(([10 as char], 1))
    case 'r' => Some(([13 as char], 1))
    case 't' => Some(([9 as char], 1))
    case 'u' =>
      if |s| < 5 || HexUnit(s[1..]).None? then None
      else
        var u := HexUnit(s[1..]).value;
        if u < 0xD800 || u > 0xDFFF then Some((Utf8(u), 5))
        else if u > 0xDBFF || |s| < 11 || s[5] != '\\' || s[6] != 'u' || HexUnit(s[7..]).None? then None
        else
          var low := HexUnit(s[7..]).value;
          if low < 0xDC00 || low > 0xDFFF then None
          else Some((Utf8(0x10000 + (u - 0xD800) * 1024 + (low - 0xDC00)), 11))
    case _ => None
  }

  /** The rest of a string after its opening quote. */
  function ParseString(s: Text): (r: Option<(Text, Text)>)
    ensures r.Some? ==> |r.value.1| < |s|
    decreases |s|
  {
    if s == "" then None
    else if s[0] == '\"' then Some(("", s[1..]))
    else if s[0] == '\\' then
      if |s| == 1 then None
      else
        var e := Unescape(s[1..]);
        if e.None? then None
        else
          var more := ParseString(s[1 + e.value.1..]);
          if more.None? then None else Some((e.value.0 + more.value.0, more.value.1))
    else if s[0] as int < 32 then None
    else
      var more := ParseString(s[1..]);
      if more.None? then None else Some(([s[0]] + more.value.0, more.value.1))
  }

  /** A field parsed before `fs`: a later duplicate wins. */
  function InsertField(key: Text, value: Value, fs: Fields): Fields {
    if fs.Done? then Field(key, value, Done)
    else if key == fs.key then fs
    else if Less(key, fs.key) then Field(key, value, fs)
    else Field(fs.key, fs.value, InsertField(key, value, fs.rest))
  }

  function ParseLiteral(s: Text, literal: Text, v: Value): (r: Option<(Value, Text)>)
    requires literal != ""
    ensures r.Some? ==> |r.value.1| < |s|
  {
    if literal <= s then Some((v, s[|literal|..])) else None
  }

  /** A key and the text after its colon. */
  function ParseKey(s: Text): (r: Option<(Text, Text)>)
    ensures r.Some? ==> |r.value.1| < |s|
  {
    var t := SkipSpace(s);
    if t == "" || t[0] != '\"' then None
    else
      var key := ParseString(t[1..]);
      if key.None? then None
      else
        var u := SkipSpace(key.value.1);
        if u == "" || u[0] != ':' then None else Some((key.value.0, u[1..]))
  }

  /** A value nested at most `d` deep, and the text after it. */
  function ParseValue(s: Text, d: nat): (r: Option<(Value, Text)>)
    ensures r.Some? ==> |r.value.1| < |s|
    decreases |s|, 1
  {
    var t := SkipSpace(s);
    if t == "" then None
    else match t[0]
      case 'n' => ParseLiteral(t, "null", Null)
      case 't' => ParseLiteral(t, "true", Bool(true))
      case 'f' => ParseLiteral(t, "false", Bool(false))
      case '\"' =>
        var text := ParseString(t[1..]);
        if text.None? then None else Some((Str(text.value.0), text.value.1))
      case '[' =>
        if d == 0 then None
        else
          var u := SkipSpace(t[1..]);
          if u != "" && u[0] == ']' then Some((Arr(End), u[1..]))
          else
            var items := ParseItems(u, d - 1);
            if items.None? then None else Some((Arr(items.value.0), items.value.1))
      case '{' =>
        if d == 0 then None
        else
          var u := SkipSpace(t[1..]);
          if u != "" && u[0] == '}' then Some((Obj(Done), u[1..]))
          else
            var fields := ParseFields(u, d - 1);
            if fields.None? then None else Some((Obj(fields.value.0), fields.value.1))
      case c =>
        var n := NumberRun(t);
        if (c == '-' || IsDigit(c)) && n > 0 && IsNumber(t[..n]) then Some((Number(t[..n]), t[n..])) else None
  }

  /** One or more items and the closing bracket. */
  function ParseItems(s: Text, d: nat): (r: Option<(Items, Text)>)
    ensures r.Some? ==> |r.value.1| < |s|
    decreases |s|, 2
  {
    var v := ParseValue(s, d);
    if v.None? then None
    else
      var t := SkipSpace(v.value.1);
      if t == "" then None
      else if t[0] == ']' then Some((Item(v.value.0, End), t[1..]))
      else if t[0] != ',' then None
      else
        var more := ParseItems(t[1..], d);
        if more.None? then None else Some((Item(v.value.0, more.value.0), more.value.1))
  }

  /** One or more fields and the closing brace. */
  function ParseFields(s: Text, d: nat): (r: Option<(Fields, Text)>)
    ensures r.Some? ==> |r.value.1| < |s|
    decreases |s|, 2
  {
    var key := ParseKey(s);
    if key.None? then None
    else
      var v := ParseValue(key.value.1, d);
      if v.None? then None
      else
        var t := SkipSpace(v.value.1);
        if t == "" then None
        else if t[0] == '}' then Some((Field(key.value.0, v.value.0, Done), t[1..]))
        else if t[0] != ',' then None
        else
          var more := ParseFields(t[1..], d);
          if more.None? then None else Some((InsertField(key.value.0, v.value.0, more.value.0), more.value.1))
  }

  /** `serde_json::from_str`, which refuses values nested deeper than `d`. */
  function Parse(s: Text, d: nat): Option<Value> {
    var r := ParseValue(s, d);
    if r.Some? && SkipSpace(r.value.1) == "" then Some(r.value.0) else None
  }
}
