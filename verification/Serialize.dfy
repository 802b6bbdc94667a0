/**
 Payload columns: compact JSON, base64 of it, and the best-effort decoding of a column whose
 format was not recorded.
 */
module Serialize {
  import opened Wrappers
  import opened Json
  import opened JsonProofs
  import Base64
  import Tables

  const NIL_MARKER := "__DBOS_NIL"
  const DBOS_JSON := "DBOS_JSON"
  const SUPERJSON := "js_superjson"
  const PY_PICKLE := "py_pickle"
  const SUPERJSON_MARKER := "\"__dbos_serializer\":\"superjson\""

  datatype Format = Portable | DbosJson

  datatype DecodeError = BadJson | BadBase64 | NotAnObject | NotPortable | UnknownFormat(name: string)

  // ---- encoding -------------------------------------------------------------------------------------------

  function EncodeJson(v: Value, format: Format): Text
    requires Valid(v)
  {
    match format
    case Portable => Print(v)
    case DbosJson => if v.Null? then NIL_MARKER else PrintBytes(v); Base64.Encode(Print(v))
  }

  // ---- legacy type wrappers -------------------------------------------------------------------------------

  function Get(fs: Fields, key: Text): Option<Value> {
    if fs.Done? then None else if fs.key == key then Some(fs.value) else Get(fs.rest, key)
  }

  function NatOf(s: Text): nat
    requires DigitRun(s) == |s|
  {
    if s == "" then 0
    else
      RunHasDigits(s);
      NatOf(s[..|s| - 1]) * 10 + (s[|s| - 1] as int - 48)
  }

  lemma {:induction false} RunHasDigits(s: Text)
    requires DigitRun(s) == |s|
    ensures forall i :: 0 <= i < |s| ==> IsDigit(s[i])
    ensures s != "" ==> DigitRun(s[..|s| - 1]) == |s| - 1
  {
    if s != "" {
      RunHasDigits(s[1..]);
      forall i | 0 <= i < |s| ensures IsDigit(s[i]) {
        assert i > 0 ==> s[i] == s[1..][i - 1];
      }
      if |s| > 1 {
        assert s[..|s| - 1][1..] == s[1..][..|s| - 2];
      }
    }
  }

  /** `parse::<i64>()`, else `parse::<u64>()`: an optional sign and digits, within range. */
  function ParseInteger(s: Text): Option<int> {
    var signed := s != "" && (s[0] == '-' || s[0] == '+');
    var d := if signed then s[1..] else s;
    if d == "" || DigitRun(d) != |d| then None
    else
      var n: int := if signed && s[0] == '-' then 0 - NatOf(d) else NatOf(d);
      if -0x8000_0000_0000_0000 <= n <= 0xFFFF_FFFF_FFFF_FFFF then Some(n) else None
  }

  function NatText(n: nat): Text {
    if n < 10 then [(n + 48) as char] else NatText(n / 10) + [(n % 10 + 48) as char]
  }

  function IntText(n: int): Text {
    if n < 0 then "-" + NatText(-n) else NatText(n)
  }

  lemma {:induction false} DigitsThenOne(s: Text, c: char)
    requires DigitRun(s) == |s| && IsDigit(c)
    ensures DigitRun(s + [c]) == |s| + 1
  {
    if s == "" {
      assert (s + [c])[1..] == "";
    } else {
      assert (s + [c])[1..] == s[1..] + [c];
      DigitsThenOne(s[1..], c);
    }
  }

  /** Decimal text reads back as its number, and has no leading zero. */
  lemma {:induction false} NatReadsBack(n: nat)
    ensures var s := NatText(n);
      DigitRun(s) == |s| > 0 && NatOf(s) == n && (s[0] == '0' <==> n == 0) && (n == 0 ==> |s| == 1)
  {
    var s := NatText(n);
    if n < 10 {
      assert s[1..] == "" && s[..0] == "";
    } else {
      NatReadsBack(n / 10);
      DigitsThenOne(NatText(n / 10), (n % 10 + 48) as char);
      assert s[..|s| - 1] == NatText(n / 10);
    }
  }

  lemma PlainDigitsParse(u: Text)
    requires u != "" && DigitRun(u) == |u| && NatOf(u) <= 0xFFFF_FFFF_FFFF_FFFF
    ensures ParseInteger(u) == Some(NatOf(u))
  {
    RunHasDigits(u);
  }

  lemma SignedDigitsParse(s: Text, u: Text)
    requires u != "" && DigitRun(u) == |u| && NatOf(u) <= 0x8000_0000_0000_0000
    requires s != "" && s[0] == '-' && s[1..] == u
    ensures ParseInteger(s) == Some(0 - NatOf(u))
  {
    assert DigitRun(s[1..]) == |s[1..]| && NatOf(s[1..]) == NatOf(u);
  }

  /** Integers of 64 bits survive: their text is a JSON number and reads back as the integer. */
  lemma IntegerReadsBack(n: int)
    requires -0x8000_0000_0000_0000 <= n <= 0xFFFF_FFFF_FFFF_FFFF
    ensures ParseInteger(IntText(n)) == Some(n) && IsNumber(IntText(n))
  {
    var u := NatText(if n < 0 then -n else n);
    NatReadsBack(if n < 0 then -n else n);
    RunHasDigits(u);
    if n < 0 {
      assert IntText(n) == "-" + u && ("-" + u)[1..] == u;
      SignedDigitsParse(IntText(n), u);
    } else {
      PlainDigitsParse(u);
    }
    DigitsAreNumber(u, IntText(n));
  }

  lemma DigitsAreNumber(u: Text, s: Text)
    requires DigitRun(u) == |u| > 0 && (u[0] == '0' ==> |u| == 1) && forall i :: 0 <= i < |u| ==> IsDigit(u[i])
    requires s == u || (s == "-" + u && s[0] == '-' && s[1..] == u)
    ensures IsNumber(s)
  {
    assert u[DigitRun(u)..] == "";
    forall i | 0 <= i < |s| ensures InNumber(s[i]) {
      assert s == u || i == 0 || s[i] == u[i - 1];
    }
  }

  /** What an object with a type wrapper stands for. */
  function Wrapped(fs: Fields): Option<Value> {
    var t, data := Get(fs, "dbos_type"), Get(fs, "dbos_data");
    if t == Some(Str("dbos_Date")) then data
    else if t == Some(Str("dbos_BigInt")) && data.Some? && data.value.Str? && ParseInteger(data.value.text).Some?
    then Some(Number(IntText(ParseInteger(data.value.text).value)))
    else None
  }

  /** `apply_legacy_revival`. */
  function Revive(v: Value): Value {
    match v
    case Obj(fs) => if Wrapped(fs).Some? then Wrapped(fs).value else Obj(ReviveFields(fs))
    case Arr(xs) => Arr(ReviveItems(xs))
    case _ => v
  }

  function ReviveItems(xs: Items): Items {
    if xs.End? then End else Item(Revive(xs.head), ReviveItems(xs.tail))
  }

  function ReviveFields(fs: Fields): Fields {
    if fs.Done? then Done else Field(fs.key, Revive(fs.value), ReviveFields(fs.rest))
  }

  predicate HasWrapper(v: Value) {
    match v
    case Obj(fs) => Wrapped(fs).Some? || FieldsHaveWrapper(fs)
    case Arr(xs) => ItemsHaveWrapper(xs)
    case _ => false
  }

  predicate ItemsHaveWrapper(xs: Items) {
    xs.Item? && (HasWrapper(xs.head) || ItemsHaveWrapper(xs.tail))
  }

  predicate FieldsHaveWrapper(fs: Fields) {
    fs.Field? && (HasWrapper(fs.value) || FieldsHaveWrapper(fs.rest))
  }

  // ---- decoding -------------------------------------------------------------------------------------------

  predicate Contains(s: Text, part: Text) {
    part <= s || (s != "" && Contains(s[1..], part))
  }

  function FromText(s: Text, d: nat): Result<Value, DecodeError> {
    var v := Parse(s, d);
    if v.Some? then Ok(v.value) else Err(BadJson)
  }

  /** `decode_superjson`; `lower` applies the envelope's annotations to its payload. */
  function DecodeSuperjson(s: Text, d: nat, lower: (Value, Option<Value>) -> Value): Result<Value, DecodeError> {
    var outer := FromText(s, d);
    if outer.Err? then outer
    else if !Contains(s, SUPERJSON_MARKER) then Ok(Revive(outer.value))
    else if !outer.value.Obj? then Err(NotAnObject)
    else
      var json := Get(outer.value.fields, "json");
      Ok(lower(if json.Some? then json.value else Null, Get(outer.value.fields, "meta")))
  }

  function DecodeBase64(s: Text, d: nat): Result<Value, DecodeError> {
    var bytes := Base64.Decode(s);
    if bytes.Some? then FromText(bytes.value, d) else Err(BadBase64)
  }

  /** `decode_to_json`: a column and its recorded format, if any. The parser refuses values nested deeper than `d`. */
  function DecodeToJson(data: Option<Text>, format: Option<string>, d: nat, lower: (Value, Option<Value>) -> Value)
    : Result<Value, DecodeError>
  {
    match format
    case Some(f) =>
      if f == Tables.PORTABLE then if data.None? || data == Some("null") then Ok(Null) else FromText(data.value, d)
      else if f == DBOS_JSON || f == "" then
        if data.None? || data == Some(NIL_MARKER) then Ok(Null) else DecodeBase64(data.value, d)
      else if f == SUPERJSON then if data.None? then Ok(Null) else DecodeSuperjson(data.value, d, lower)
      else if f == PY_PICKLE then Err(NotPortable)
      else Err(UnknownFormat(f))
    case None =>
      if data.None? || data == Some("null") || data == Some(NIL_MARKER) then Ok(Null)
      else
        var r := DecodeSuperjson(data.value, d, lower);
        if r.Ok? then r else DecodeBase64(data.value, d)
  }

  // ---- compact texts --------------------------------------------------------------------------------------

  lemma {:induction false} EscapedBytes(s: Text)
    requires Base64.IsBytes(s)
    ensures Base64.IsBytes(Escaped(s))
  {
    if s != "" {
      EscapedBytes(s[1..]);
    }
  }

  lemma {:induction false} PrintBytes(v: Value)
    requires Valid(v)
    ensures Base64.IsBytes(Print(v))
    decreases v
  {
    match v
    case Str(text) => EscapedBytes(text);
    case Arr(items) => ItemsBytes(items);
    case Obj(fields) => FieldsBytes(fields);
    case _ =>
  }

  lemma {:induction false} ItemsBytes(xs: Items)
    requires ValidItems(xs)
    ensures Base64.IsBytes(PrintItems(xs))
    decreases xs
  {
    if xs.Item? {
      PrintBytes(xs.head);
      ItemsBytes(xs.tail);
    }
  }

  lemma {:induction false} FieldsBytes(fs: Fields)
    requires ValidFields(fs)
    ensures Base64.IsBytes(PrintFields(fs))
    decreases fs
  {
    if fs.Field? {
      EscapedBytes(fs.key);
      PrintBytes(fs.value);
      FieldsBytes(fs.rest);
    }
  }

  /** User values are always JSON text, so none collides with the stream close sentinel. */
  lemma CompactIsNotSentinel(v: Value)
    requires Valid(v)
    ensures Print(v) != Tables.SENTINEL && Print(v) != NIL_MARKER
  {
    PrintStart(v);
  }

  // ---- base64 texts are no JSON texts -----------------------------------------------------------------------

  lemma {:induction false} ContainedChars(s: Text, part: Text, c: char)
    requires Contains(s, part) && c in part
    ensures c in s
  {
    if !(part <= s) {
      ContainedChars(s[1..], part, c);
    }
  }

  lemma NoMarkerInBase64(s: Text)
    requires Base64.IsBytes(s)
    ensures !Contains(Base64.Encode(s), SUPERJSON_MARKER)
  {
    if Contains(Base64.Encode(s), SUPERJSON_MARKER) {
      assert SUPERJSON_MARKER[0] == '\"';
      ContainedChars(Base64.Encode(s), SUPERJSON_MARKER, '\"');
      Base64.EncodeSymbols(s);
    }
  }

  /** What the first symbol of the base64 of a compact text is not. */
  lemma FirstSymbol(c: char)
    requires c == 't' || c == 'f' || c == '\"' || c == '[' || c == '{' || c == '-' || IsDigit(c)
    ensures var b := Base64.Symbol(c as int / 4);
      && !IsSpace(b) && b != 'n' && b != 't' && b != 'f' && b != '\"' && b != '[' && b != '{' && b != '-'
      && !IsDigit(b) && b != '_'
  {
  }

  /** No base64 of compact JSON starts like a JSON text, or looks like a marker. */
  lemma Base64IsNotJson(v: Value, d: nat)
    requires Valid(v) && !v.Null?
    ensures var s := EncodeJson(v, DbosJson);
      Parse(s, d) == None && s != "null" && s != NIL_MARKER && !Contains(s, SUPERJSON_MARKER)
  {
    PrintStart(v);
    PrintBytes(v);
    Base64.EncodeStart(Print(v));
    FirstSymbol(Print(v)[0]);
    NoValueStarts(Base64.Encode(Print(v)), d);
    NoMarkerInBase64(Print(v));
  }

  // ---- revival --------------------------------------------------------------------------------------------

  function Size(v: Value): nat {
    match v
    case Obj(fs) => 1 + FieldsSize(fs)
    case _ => 0
  }

  function FieldsSize(fs: Fields): nat {
    if fs.Done? then 0 else Size(fs.value) + FieldsSize(fs.rest)
  }

  lemma {:induction false} GetIsSmaller(fs: Fields, key: Text)
    ensures Get(fs, key).Some? ==> Size(Get(fs, key).value) <= FieldsSize(fs)
  {
    if fs.Field? {
      GetIsSmaller(fs.rest, key);
    }
  }

  /** Revival changes exactly the values that hold a type wrapper it understands. */
  lemma {:induction false} RevivesWrappers(v: Value)
    ensures Revive(v) == v <==> !HasWrapper(v)
    decreases v
  {
    match v
    case Obj(fs) =>
      GetIsSmaller(fs, "dbos_data");
      FieldsRevive(fs);
    case Arr(xs) => ItemsRevive(xs);
    case _ =>
  }

  lemma {:induction false} ItemsRevive(xs: Items)
    ensures ReviveItems(xs) == xs <==> !ItemsHaveWrapper(xs)
    decreases xs
  {
    if xs.Item? {
      RevivesWrappers(xs.head);
      ItemsRevive(xs.tail);
    }
  }

  lemma {:induction false} FieldsRevive(fs: Fields)
    ensures ReviveFields(fs) == fs <==> !FieldsHaveWrapper(fs)
    decreases fs
  {
    if fs.Field? {
      RevivesWrappers(fs.value);
      FieldsRevive(fs.rest);
    }
  }

  // ---- theorems -------------------------------------------------------------------------------------------

  /** What is written with its format is read back, unless the parser finds it nested too deep. */
  lemma TaggedRoundTrip(v: Value, d: nat, lower: (Value, Option<Value>) -> Value)
    requires Valid(v)
    ensures DecodeToJson(Some(EncodeJson(v, Portable)), Some(Tables.PORTABLE), d, lower)
         == if Depth(v) <= d then Ok(v) else Err(BadJson)
    ensures DecodeToJson(Some(EncodeJson(v, DbosJson)), Some(DBOS_JSON), d, lower)
         == if Depth(v) <= d then Ok(v) else Err(BadJson)
  {
    PrintParses(v, d);
    PrintStart(v);
    if !v.Null? {
      Base64IsNotJson(v, d);
      PrintBytes(v);
      Base64.EncodeDecodes(Print(v));
    }
  }

  /** Without a recorded format, the base64 form or the nil marker still decodes to its value. */
  lemma UntaggedBase64(v: Value, d: nat, lower: (Value, Option<Value>) -> Value)
    requires Valid(v)
    ensures DecodeToJson(Some(EncodeJson(v, DbosJson)), None, d, lower) == if Depth(v) <= d then Ok(v) else Err(BadJson)
  {
    if !v.Null? {
      Base64IsNotJson(v, d);
      PrintParses(v, d);
      PrintBytes(v);
      Base64.EncodeDecodes(Print(v));
    }
  }

  lemma NestedIsNotBase64(v: Value)
    requires Depth(v) > 0
    ensures Base64.Decode(Print(v)) == None
  {
    assert Print(v)[0] == '[' || Print(v)[0] == '{';
  }

  /** Without a recorded format, compact JSON without the SuperJSON marker decodes to its value exactly when
      it is not nested too deep and holds no legacy type wrapper. */
  lemma UntaggedPlain(v: Value, d: nat, lower: (Value, Option<Value>) -> Value)
    requires Valid(v) && !Contains(Print(v), SUPERJSON_MARKER)
    ensures DecodeToJson(Some(EncodeJson(v, Portable)), None, d, lower) == Ok(v) <==> Depth(v) <= d && !HasWrapper(v)
  {
    PrintParses(v, d);
    PrintStart(v);
    RevivesWrappers(v);
    if Depth(v) > d {
      NestedIsNotBase64(v);
    }
  }

  /** A pickled value, or one in a format nobody knows, is refused whatever its text. */
  lemma ForeignFormatIsRefused(data: Option<Text>, format: string, d: nat, lower: (Value, Option<Value>) -> Value)
    requires format !in {"", "portable_json", "DBOS_JSON", "js_superjson"}
    ensures DecodeToJson(data, Some(format), d, lower)
         == Err(if format == "py_pickle" then NotPortable else UnknownFormat(format))
  {
  }

  predicate NeedsNoEscape(s: Text) {
    forall i :: 0 <= i < |s| ==> 32 <= s[i] as int < 256 && s[i] != '\"' && s[i] != '\\'
  }

  predicate IsPlain(s: Text) {
    forall i :: 0 <= i < |s| ==> 32 <= s[i] as int < 256 && s[i] != '\"' && s[i] != '\\' && s[i] != 'z'
  }

  lemma {:induction false} PlainEscapes(s: Text)
    requires NeedsNoEscape(s)
    ensures Escaped(s) == s
  {
    if s != "" {
      PlainEscapes(s[1..]);
    }
  }

  lemma DataBeforeType()
    ensures Less("dbos_data", "dbos_type")
  {
    assert Less("data", "type");
    SharedPrefix("dbos_", "data", "type");
    assert "dbos_" + "data" == "dbos_data" && "dbos_" + "type" == "dbos_type";
  }

  lemma {:induction false} SharedPrefix(p: Text, a: Text, b: Text)
    requires Less(a, b)
    ensures Less(p + a, p + b)
  {
    if p == "" {
      assert p + a == a && p + b == b;
    } else {
      SharedPrefix(p[1..], a, b);
      assert (p + a)[1..] == p[1..] + a && (p + b)[1..] == p[1..] + b;
    }
  }

  /** Objects of plain texts. */
  predicate IsPlainRecord(fs: Fields) {
    fs.Field? ==> IsPlain(fs.key) && fs.value.Str? && IsPlain(fs.value.text) && IsPlainRecord(fs.rest)
  }

  lemma {:induction false} PlainRecordText(fs: Fields)
    requires IsPlainRecord(fs)
    ensures 'z' !in PrintFields(fs)
  {
    if fs.Field? {
      PlainEscapes(fs.key);
      PlainEscapes(fs.value.text);
      PlainRecordText(fs.rest);
      assert 'z' !in Quote(fs.key) && 'z' !in Quote(fs.value.text);
    }
  }

  /** No `z`, hence no SuperJSON marker. */
  lemma PlainRecordHasNoMarker(fs: Fields)
    requires IsPlainRecord(fs)
    ensures !Contains(Print(Obj(fs)), SUPERJSON_MARKER)
  {
    PlainRecordText(fs);
    assert SUPERJSON_MARKER[15] == 'z';
    if Contains(Print(Obj(fs)), SUPERJSON_MARKER) {
      ContainedChars(Print(Obj(fs)), SUPERJSON_MARKER, 'z');
    }
  }

  /** Without a recorded format, compact JSON is revived. */
  lemma PlainIsRevived(v: Value, d: nat, lower: (Value, Option<Value>) -> Value)
    requires Valid(v) && !v.Null? && Depth(v) <= d && !Contains(Print(v), SUPERJSON_MARKER)
    ensures DecodeToJson(Some(EncodeJson(v, Portable)), None, d, lower) == Ok(Revive(v))
  {
    PrintParses(v, d);
    PrintStart(v);
  }

  lemma DateIsWrapped(date: Text)
    ensures var fs := Field("dbos_data", Str(date), Field("dbos_type", Str("dbos_Date"), Done));
      Wrapped(fs) == Some(Str(date)) && Less("dbos_data", "dbos_type")
  {
    DataBeforeType();
    LessIsStrict("dbos_data", "dbos_type");
    var last := Field("dbos_type", Str("dbos_Date"), Done);
    assert Get(last, "dbos_type") == Some(Str("dbos_Date"));
    assert Get(Field("dbos_data", Str(date), last), "dbos_type") == Get(last, "dbos_type");
  }

  lemma PlainWords()
    ensures IsPlain("dbos_data") && IsPlain("dbos_type") && IsPlain("dbos_Date")
  {
  }

  lemma WrapperShape(date: Text, data: Text, type_: Text, name: Text)
    requires IsPlain(date) && IsPlain(data) && IsPlain(type_) && IsPlain(name) && Less(data, type_)
    ensures var fs := Field(data, Str(date), Field(type_, Str(name), Done));
      ValidFields(fs) && IsPlainRecord(fs) && DepthFields(fs) == 0
  {
    var last := Field(type_, Str(name), Done);
    FlatField(type_, name, Done);
    FlatField(data, date, last);
  }

  lemma FlatField(key: Text, text: Text, fs: Fields)
    requires IsPlain(key) && IsPlain(text) && ValidFields(fs) && IsPlainRecord(fs) && DepthFields(fs) == 0
    requires fs.Field? ==> Less(key, fs.key)
    ensures var gs := Field(key, Str(text), fs); ValidFields(gs) && IsPlainRecord(gs) && DepthFields(gs) == 0
  {
    var gs := Field(key, Str(text), fs);
    assert Depth(gs.value) == 0;
    assert DepthFields(gs) == Max(Depth(gs.value), DepthFields(gs.rest));
  }

  /** Values that are not read back: the wrapper of a date comes back as the date's text. */
  lemma WrapperIsNotReadBack(date: Text, d: nat, lower: (Value, Option<Value>) -> Value)
    requires IsPlain(date) && d > 0
    ensures var v := Obj(Field("dbos_data", Str(date), Field("dbos_type", Str("dbos_Date"), Done)));
      && Valid(v) && Depth(v) <= d && !Contains(Print(v), SUPERJSON_MARKER)
      && DecodeToJson(Some(EncodeJson(v, Portable)), None, d, lower) == Ok(Str(date))
  {
    var fs := Field("dbos_data", Str(date), Field("dbos_type", Str("dbos_Date"), Done));
    DateIsWrapped(date);
    PlainWords();
    WrapperShape(date, "dbos_data", "dbos_type", "dbos_Date");
    PlainRecordHasNoMarker(fs);
    PlainIsRevived(Obj(fs), d, lower);
  }

  lemma IntTextIsPlain(n: int)
    requires -0x8000_0000_0000_0000 <= n <= 0xFFFF_FFFF_FFFF_FFFF
    ensures IsPlain(IntText(n))
  {
    var u := NatText(if n < 0 then -n else n);
    NatReadsBack(if n < 0 then -n else n);
    RunHasDigits(u);
    assert IntText(n) == u || IntText(n) == "-" + u;
  }

  lemma BigIntIsWrapped(text: Text, n: int)
    requires ParseInteger(text) == Some(n)
    ensures var fs := Field("dbos_data", Str(text), Field("dbos_type", Str("dbos_BigInt"), Done));
      Wrapped(fs) == Some(Number(IntText(n)))
  {
    DataBeforeType();
    LessIsStrict("dbos_data", "dbos_type");
    var last := Field("dbos_type", Str("dbos_BigInt"), Done);
    assert Get(last, "dbos_type") == Some(Str("dbos_BigInt"));
    assert Get(Field("dbos_data", Str(text), last), "dbos_type") == Get(last, "dbos_type");
    assert "dbos_BigInt" != "dbos_Date";
  }

  /** The wrapper of an integer comes back as the number with exactly that decimal text. */
  lemma BigIntIsRevived(n: int, d: nat, lower: (Value, Option<Value>) -> Value)
    requires -0x8000_0000_0000_0000 <= n <= 0xFFFF_FFFF_FFFF_FFFF && d > 0
    ensures var v := Obj(Field("dbos_data", Str(IntText(n)), Field("dbos_type", Str("dbos_BigInt"), Done)));
      && Valid(v) && Depth(v) <= d && !Contains(Print(v), SUPERJSON_MARKER)
      && DecodeToJson(Some(EncodeJson(v, Portable)), None, d, lower) == Ok(Number(IntText(n)))
  {
    var fs := Field("dbos_data", Str(IntText(n)), Field("dbos_type", Str("dbos_BigInt"), Done));
    IntegerReadsBack(n);
    IntTextIsPlain(n);
    BigIntIsWrapped(IntText(n), n);
    DataBeforeType();
    BigIntIsPlain();
    WrapperShape(IntText(n), "dbos_data", "dbos_type", "dbos_BigInt");
    PlainRecordHasNoMarker(fs);
    PlainIsRevived(Obj(fs), d, lower);
  }

  lemma BigIntIsPlain()
    ensures IsPlain("dbos_data") && IsPlain("dbos_type") && IsPlain("dbos_BigInt")
  {
  }

  /** The envelope SuperJSON puts around a value and its annotations. */
  function Envelope(json: Value, meta: Value): Value {
    Obj(Field("__dbos_serializer", Str("superjson"), Field("json", json, Field("meta", meta, Done))))
  }

  lemma EnvelopeIsValid(json: Value, meta: Value)
    requires Valid(json) && Valid(meta)
    ensures Valid(Envelope(json, meta)) && NeedsNoEscape("__dbos_serializer") && NeedsNoEscape("superjson")
  {
    assert Less("__dbos_serializer", "json") && Less("json", "meta");
    assert ValidFields(Field("meta", meta, Done));
    assert ValidFields(Field("json", json, Field("meta", meta, Done)));
  }

  lemma ContainedAfterOne(s: Text, part: Text, rest: Text)
    requires s != "" && s[1..] == part + rest
    ensures Contains(s, part)
  {
    assert part <= s[1..];
    assert Contains(s[1..], part);
  }

  lemma QuotedPair(key: Text, name: Text)
    requires NeedsNoEscape(key) && NeedsNoEscape(name)
    ensures Quote(key) + ":" + Quote(name) == "\"" + key + "\":\"" + name + "\""
  {
    PlainEscapes(key);
    PlainEscapes(name);
    assert "\"" + ":" + "\"" == "\":\"";
  }

  lemma FirstFieldText(key: Text, name: Text, fs: Fields, marker: Text, s: Text)
    requires NeedsNoEscape(key) && NeedsNoEscape(name) && fs.Field? && s == Print(Obj(Field(key, Str(name), fs)))
    requires marker == "\"" + key + "\":\"" + name + "\""
    ensures s != "" && s[1..] == marker + ("," + PrintFields(fs))
  {
    QuotedPair(key, name);
    assert PrintFields(Field(key, Str(name), fs)) == Quote(key) + ":" + Quote(name) + ("," + PrintFields(fs));
    assert s == "{" + PrintFields(Field(key, Str(name), fs));
  }

  lemma FirstFieldIsContained(key: Text, name: Text, fs: Fields, marker: Text)
    requires NeedsNoEscape(key) && NeedsNoEscape(name) && fs.Field?
    requires marker == "\"" + key + "\":\"" + name + "\""
    ensures Contains(Print(Obj(Field(key, Str(name), fs))), marker)
  {
    var s := Print(Obj(Field(key, Str(name), fs)));
    FirstFieldText(key, name, fs, marker, s);
    ContainedAfterOne(s, marker, "," + PrintFields(fs));
  }

  lemma MarkerText()
    ensures "\"" + "__dbos_serializer" + "\":\"" + "superjson" + "\"" == SUPERJSON_MARKER
  {
  }

  lemma EnvelopeHasMarker(json: Value, meta: Value)
    requires Valid(json) && Valid(meta)
    ensures Contains(Print(Envelope(json, meta)), SUPERJSON_MARKER)
  {
    EnvelopeIsValid(json, meta);
    MarkerText();
    FirstFieldIsContained("__dbos_serializer", "superjson", Field("json", json, Field("meta", meta, Done)),
                          SUPERJSON_MARKER);
  }

  lemma EnvelopeFields(json: Value, meta: Value)
    ensures Get(Envelope(json, meta).fields, "json") == Some(json)
    ensures Get(Envelope(json, meta).fields, "meta") == Some(meta)
  {
    var last := Field("meta", meta, Done);
    assert Get(Field("json", json, last), "meta") == Get(last, "meta") == Some(meta);
    assert Get(Field("json", json, last), "json") == Some(json);
  }

  /** What decoding makes of any marked object. */
  lemma MarkedIsLowered(v: Value, json: Value, meta: Value, d: nat, lower: (Value, Option<Value>) -> Value)
    requires Valid(v) && v.Obj? && Depth(v) <= d && Contains(Print(v), SUPERJSON_MARKER)
    requires Get(v.fields, "json") == Some(json) && Get(v.fields, "meta") == Some(meta)
    ensures DecodeToJson(Some(EncodeJson(v, Portable)), Some("js_superjson"), d, lower) == Ok(lower(json, Some(meta)))
  {
    PrintParses(v, d);
    assert SUPERJSON == "js_superjson" != DBOS_JSON;
  }

  lemma EnvelopeIsMarked(json: Value, meta: Value) returns (v: Value)
    requires Valid(json) && Valid(meta)
    ensures v == Envelope(json, meta) && Valid(v) && v.Obj? && Contains(Print(v), SUPERJSON_MARKER)
    ensures Get(v.fields, "json") == Some(json) && Get(v.fields, "meta") == Some(meta)
  {
    v := Envelope(json, meta);
    EnvelopeIsValid(json, meta);
    EnvelopeHasMarker(json, meta);
    EnvelopeFields(json, meta);
  }

  /** A SuperJSON envelope decodes to its value, lowered by its annotations. */
  lemma EnvelopeIsLowered(json: Value, meta: Value, d: nat, lower: (Value, Option<Value>) -> Value) returns (v: Value)
    requires Valid(json) && Valid(meta) && Depth(Envelope(json, meta)) <= d
    ensures v == Envelope(json, meta) && Valid(v)
    ensures DecodeToJson(Some(EncodeJson(v, Portable)), Some("js_superjson"), d, lower) == Ok(lower(json, Some(meta)))
  {
    v := EnvelopeIsMarked(json, meta);
    MarkedIsLowered(v, json, meta, d, lower);
  }
}
