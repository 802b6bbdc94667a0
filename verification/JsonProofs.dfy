/** Compact JSON parses back to the value it was printed from, exactly when it is not nested too deep. */
module JsonProofs {
  import opened Wrappers
  import opened Json

  /** What may follow a value: nothing that continues a number. */
  predicate Ends(rest: Text) {
    rest == "" || !InNumber(rest[0])
  }

  // ---- strings --------------------------------------------------------------------------------------------

  lemma HexParses(n: nat)
    requires n < 16
    ensures HexValue(HexDigit(n)) == Some(n)
  {
  }

  lemma ControlParses(c: char, rest: Text)
    requires c as int < 32
    ensures Unescape("u00" + [HexDigit(c as int / 16), HexDigit(c as int % 16)] + rest) == Some(([c], 5))
  {
    var s := "u00" + [HexDigit(c as int / 16), HexDigit(c as int % 16)] + rest;
    HexParses(c as int / 16);
    HexParses(c as int % 16);
    assert s[1..][0] == '0' && s[1..][1] == '0';
    assert s[1..][2] == HexDigit(c as int / 16) && s[1..][3] == HexDigit(c as int % 16);
    assert HexUnit(s[1..]) == Some(c as int);
  }

  lemma PlainParses(c: char, rest: Text)
    requires Escape(c) == [c]
    ensures var more := ParseString(rest);
      ParseString(Escape(c) + rest) == if more.None? then None else Some(([c] + more.value.0, more.value.1))
  {
    var s := [c] + rest;
    assert s[0] == c && s[1..] == rest;
  }

  /** An escape sequence `\\x...` that stands for `c`. */
  lemma SequenceParses(c: char, e: Text, rest: Text)
    requires e != "" && Unescape(e + rest) == Some(([c], |e|))
    ensures var more := ParseString(rest);
      ParseString("\\" + e + rest) == if more.None? then None else Some(([c] + more.value.0, more.value.1))
  {
    var s := "\\" + e + rest;
    assert s[1..] == e + rest;
    assert s[1 + |e|..] == rest;
  }

  lemma ShortParses(c: char, rest: Text)
    requires |Escape(c)| == 2
    ensures Escape(c) == "\\" + [Escape(c)[1]] && Unescape([Escape(c)[1]] + rest) == Some(([c], 1))
  {
  }

  lemma ControlEscape(c: char)
    requires |Escape(c)| > 2
    ensures c as int < 32 && Escape(c) == "\\" + ("u00" + [HexDigit(c as int / 16), HexDigit(c as int % 16)])
  {
  }

  lemma ControlEscapeParses(c: char, rest: Text)
    requires |Escape(c)| > 2
    ensures var more := ParseString(rest);
      ParseString(Escape(c) + rest) == if more.None? then None else Some(([c] + more.value.0, more.value.1))
  {
    var e := "u00" + [HexDigit(c as int / 16), HexDigit(c as int % 16)];
    ControlParses(c, rest);
    ControlEscape(c);
    assert |e| == 5;
    SequenceParses(c, e, rest);
  }

  /** One escaped character reads back as itself. */
  lemma EscapeParses(c: char, rest: Text)
    ensures var more := ParseString(rest);
      ParseString(Escape(c) + rest) == if more.None? then None else Some(([c] + more.value.0, more.value.1))
  {
    if |Escape(c)| == 1 {
      PlainParses(c, rest);
    } else if |Escape(c)| == 2 {
      ShortParses(c, rest);
      SequenceParses(c, [Escape(c)[1]], rest);
    } else {
      ControlEscapeParses(c, rest);
    }
  }

  lemma FirstEscaped(s: Text, rest: Text)
    requires s != ""
    ensures Escaped(s) + "\"" + rest == Escape(s[0]) + (Escaped(s[1..]) + "\"" + rest) && [s[0]] + s[1..] == s
  {
    Associate(Escape(s[0]), Escaped(s[1..]), "\"" + rest);
    assert Escaped(s) + "\"" + rest == Escaped(s) + ("\"" + rest);
    assert Escaped(s[1..]) + "\"" + rest == Escaped(s[1..]) + ("\"" + rest);
  }

  lemma Associate(a: Text, b: Text, c: Text)
    ensures (a + b) + c == a + (b + c)
  {
  }

  lemma {:induction false} StringParses(s: Text, rest: Text)
    ensures ParseString(Escaped(s) + "\"" + rest) == Some((s, rest))
  {
    if s == "" {
      assert Escaped(s) + "\"" + rest == "\"" + rest;
    } else {
      StringParses(s[1..], rest);
      EscapeParses(s[0], Escaped(s[1..]) + "\"" + rest);
      FirstEscaped(s, rest);
    }
  }

  // ---- numbers --------------------------------------------------------------------------------------------

  lemma {:induction false} RunOf(s: Text, rest: Text)
    requires (forall i :: 0 <= i < |s| ==> InNumber(s[i])) && Ends(rest)
    ensures NumberRun(s + rest) == |s|
  {
    if s == "" {
      assert s + rest == rest;
    } else {
      RunOf(s[1..], rest);
      assert (s + rest)[1..] == s[1..] + rest;
    }
  }

  lemma NumberStart(s: Text)
    requires IsNumber(s)
    ensures s != "" && (s[0] == '-' || IsDigit(s[0]))
  {
  }

  // ---- values ---------------------------------------------------------------------------------------------

  /** What a compact text starts with. */
  lemma PrintStart(v: Value)
    requires Valid(v)
    ensures Print(v) != ""
    ensures var c := Print(v)[0];
      c == 'n' || c == 't' || c == 'f' || c == '\"' || c == '[' || c == '{' || c == '-' || IsDigit(c)
    ensures Print(v)[0] == 'n' <==> v.Null?
  {
    if v.Number? {
      NumberStart(v.digits);
    }
  }

  lemma SkipNothing(v: Value, rest: Text)
    requires Valid(v)
    ensures SkipSpace(Print(v) + rest) == Print(v) + rest
  {
    PrintStart(v);
  }

  lemma NumberParses(digits: Text, rest: Text, d: nat)
    requires IsNumber(digits) && Ends(rest)
    ensures ParseValue(digits + rest, d) == Some((Number(digits), rest))
  {
    var t := digits + rest;
    RunOf(digits, rest);
    NumberStart(digits);
    assert t[..|digits|] == digits && t[|digits|..] == rest && t[0] == digits[0] && SkipSpace(t) == t;
  }

  lemma ScalarParses(v: Value, rest: Text, d: nat)
    requires Valid(v) && Ends(rest) && !v.Arr? && !v.Obj?
    ensures ParseValue(Print(v) + rest, d) == Some((v, rest))
  {
    var t := Print(v) + rest;
    SkipNothing(v, rest);
    PrintStart(v);
    assert t[|Print(v)|..] == rest;
    match v
    case Str(text) =>
      StringParses(text, rest);
      assert t[1..] == Escaped(text) + "\"" + rest;
    case Number(digits) => NumberParses(digits, rest, d);
    case Null => assert t[..4] == "null";
    case Bool(b) => assert b ==> t[..4] == "true"; assert !b ==> t[..5] == "false";
  }

  lemma {:induction false} ValueParses(v: Value, rest: Text, d: nat)
    requires Valid(v) && Ends(rest)
    ensures ParseValue(Print(v) + rest, d) == if Depth(v) <= d then Some((v, rest)) else None
    decreases v, 1
  {
    match v
    case Arr(_) => ArrayParses(v, rest, d);
    case Obj(_) => ObjectParses(v, rest, d);
    case _ => ScalarParses(v, rest, d);
  }

  /** An array with items. */
  lemma BracketOpens(u: Text, d: nat)
    requires u != "" && !IsSpace(u[0]) && u[0] != ']'
    ensures ParseValue("[" + u, d) ==
      if d == 0 || ParseItems(u, d - 1).None? then None
      else Some((Arr(ParseItems(u, d - 1).value.0), ParseItems(u, d - 1).value.1))
  {
    var t := "[" + u;
    assert t[0] == '[' && t[1..] == u && SkipSpace(t) == t && SkipSpace(u) == u;
  }

  lemma EmptyArray(rest: Text, d: nat)
    ensures ParseValue("[]" + rest, d) == if d == 0 then None else Some((Arr(End), rest))
  {
    var t := "[]" + rest;
    assert t[0] == '[' && t[1..][0] == ']' && t[1..][1..] == rest && SkipSpace(t) == t && SkipSpace(t[1..]) == t[1..];
  }

  lemma ArrayText(v: Value, rest: Text)
    requires v.Arr?
    ensures Print(v) + rest == "[" + (PrintItems(v.items) + rest) && Depth(v) == 1 + DepthItems(v.items)
    ensures v.items.End? ==> Print(v) + rest == "[]" + rest
  {
  }

  lemma FullArray(items: Items, u: Text, rest: Text, d: nat)
    requires u != "" && !IsSpace(u[0]) && u[0] != ']'
    requires d > 0 ==> ParseItems(u, d - 1) == if DepthItems(items) <= d - 1 then Some((items, rest)) else None
    ensures ParseValue("[" + u, d) == if 1 + DepthItems(items) <= d then Some((Arr(items), rest)) else None
  {
    BracketOpens(u, d);
  }

  lemma {:induction false} ArrayParses(v: Value, rest: Text, d: nat)
    requires Valid(v) && v.Arr?
    ensures ParseValue(Print(v) + rest, d) == if Depth(v) <= d then Some((v, rest)) else None
    decreases v, 0
  {
    ArrayText(v, rest);
    if v.items.End? {
      EmptyArray(rest, d);
    } else {
      if d > 0 {
        ItemsParse(v.items, rest, d - 1);
      }
      ItemsStart(v.items, rest);
      FullArray(v.items, PrintItems(v.items) + rest, rest, d);
    }
  }

  lemma ItemsStart(xs: Items, rest: Text)
    requires xs.Item? && ValidItems(xs)
    ensures var u := PrintItems(xs) + rest; u != "" && !IsSpace(u[0]) && u[0] != ']'
  {
    PrintStart(xs.head);
  }

  /** An object with fields. */
  lemma BraceOpens(u: Text, d: nat)
    requires u != "" && u[0] == '\"'
    ensures ParseValue("{" + u, d) ==
      if d == 0 || ParseFields(u, d - 1).None? then None
      else Some((Obj(ParseFields(u, d - 1).value.0), ParseFields(u, d - 1).value.1))
  {
    var t := "{" + u;
    assert t[0] == '{' && t[1..] == u && SkipSpace(t) == t && SkipSpace(u) == u;
  }

  lemma EmptyObject(rest: Text, d: nat)
    ensures ParseValue("{}" + rest, d) == if d == 0 then None else Some((Obj(Done), rest))
  {
    var t := "{}" + rest;
    assert t[0] == '{' && t[1..][0] == '}' && t[1..][1..] == rest && SkipSpace(t) == t && SkipSpace(t[1..]) == t[1..];
  }

  lemma ObjectText(v: Value, rest: Text)
    requires v.Obj?
    ensures Print(v) + rest == "{" + (PrintFields(v.fields) + rest) && Depth(v) == 1 + DepthFields(v.fields)
    ensures v.fields.Done? ==> Print(v) + rest == "{}" + rest
  {
  }

  lemma {:induction false} ObjectParses(v: Value, rest: Text, d: nat)
    requires Valid(v) && v.Obj?
    ensures ParseValue(Print(v) + rest, d) == if Depth(v) <= d then Some((v, rest)) else None
    decreases v, 0
  {
    ObjectText(v, rest);
    if v.fields.Done? {
      EmptyObject(rest, d);
    } else {
      if d > 0 {
        FieldsParse(v.fields, rest, d - 1);
      }
      FullObject(v.fields, PrintFields(v.fields) + rest, rest, d);
    }
  }

  lemma FullObject(fields: Fields, u: Text, rest: Text, d: nat)
    requires u != "" && u[0] == '\"'
    requires d > 0 ==> ParseFields(u, d - 1) == if DepthFields(fields) <= d - 1 then Some((fields, rest)) else None
    ensures ParseValue("{" + u, d) == if 1 + DepthFields(fields) <= d then Some((Obj(fields), rest)) else None
  {
    BraceOpens(u, d);
  }

  lemma {:induction false} ItemsParse(xs: Items, rest: Text, d: nat)
    requires ValidItems(xs) && xs.Item?
    ensures ParseItems(PrintItems(xs) + rest, d) == if DepthItems(xs) <= d then Some((xs, rest)) else None
    decreases xs, 2
  {
    var after := if xs.tail.End? then "]" + rest else "," + (PrintItems(xs.tail) + rest);
    assert PrintItems(xs) + rest == Print(xs.head) + after;
    ValueParses(xs.head, after, d);
    if xs.tail.Item? {
      ItemsParse(xs.tail, rest, d);
      assert after[1..] == PrintItems(xs.tail) + rest;
    } else {
      assert after[1..] == rest;
    }
  }

  lemma KeyParses(key: Text, s: Text)
    ensures ParseKey(Quote(key) + ":" + s) == Some((key, s))
  {
    var t := Quote(key) + ":" + s;
    assert t[1..] == Escaped(key) + "\"" + (":" + s);
    StringParses(key, ":" + s);
    assert (":" + s)[1..] == s;
  }

  lemma FieldText(fs: Fields, rest: Text, after: Text)
    requires fs.Field? && after == if fs.rest.Done? then "}" + rest else "," + (PrintFields(fs.rest) + rest)
    ensures PrintFields(fs) + rest == Quote(fs.key) + ":" + (Print(fs.value) + after)
  {
  }

  lemma InsertFirst(key: Text, value: Value, fs: Fields)
    requires fs.Field? ==> Less(key, fs.key)
    ensures InsertField(key, value, fs) == Field(key, value, fs)
  {
    if fs.Field? {
      LessIsStrict(key, fs.key);
    }
  }

  lemma {:induction false} FieldsParse(fs: Fields, rest: Text, d: nat)
    requires ValidFields(fs) && fs.Field?
    ensures ParseFields(PrintFields(fs) + rest, d) == if DepthFields(fs) <= d then Some((fs, rest)) else None
    decreases fs, 2
  {
    var after := if fs.rest.Done? then "}" + rest else "," + (PrintFields(fs.rest) + rest);
    FieldText(fs, rest, after);
    KeyParses(fs.key, Print(fs.value) + after);
    ValueParses(fs.value, after, d);
    assert SkipSpace(after) == after;
    if fs.rest.Field? {
      FieldsParse(fs.rest, rest, d);
      assert after[1..] == PrintFields(fs.rest) + rest;
      InsertFirst(fs.key, fs.value, fs.rest);
    } else {
      assert after[1..] == rest;
    }
  }

  lemma {:induction false} LessIsStrict(a: Text, b: Text)
    requires Less(a, b)
    ensures a != b
  {
    if a != "" && a[0] == b[0] {
      LessIsStrict(a[1..], b[1..]);
    }
  }

  /** The whole text. */
  lemma PrintParses(v: Value, d: nat)
    requires Valid(v)
    ensures Parse(Print(v), d) == if Depth(v) <= d then Some(v) else None
  {
    ValueParses(v, "", d);
    assert Print(v) + "" == Print(v);
  }

  /** A text that starts like no JSON text does not parse. */
  lemma NoValueStarts(s: Text, d: nat)
    requires s != "" && !IsSpace(s[0]) && s[0] != 'n' && s[0] != 't' && s[0] != 'f' && s[0] != '\"' && s[0] != '['
    requires s[0] != '{' && s[0] != '-' && !IsDigit(s[0])
    ensures Parse(s, d) == None
  {
  }
}
