/** Base64 with the standard alphabet and padding (section 4 of RFC 4648), over bytes held one per `char`. */
module Base64 {
  import opened Wrappers

  /** The character of a six-bit group. */
  function Symbol(n: nat): char
    requires n < 64
  {
    if n < 26 then (n + 65) as char
    else if n < 52 then (n + 71) as char
    else if n < 62 then (n - 4) as char
    else if n == 62 then '+'
    else '/'
  }

  function Sextet(c: char): (r: Option<nat>)
    ensures r.Some? ==> r.value < 64
  {
    if 'A' <= c <= 'Z' then Some(c as int - 65)
    else if 'a' <= c <= 'z' then Some(c as int - 71)
    else if '0' <= c <= '9' then Some(c as int + 4)
    else if c == '+' then Some(62)
    else if c == '/' then Some(63)
    else None
  }

  predicate IsBytes(s: string) {
    forall i :: 0 <= i < |s| ==> s[i] as int < 256
  }

  /** Three bytes as four symbols. */
  function Group(a: nat, b: nat, c: nat): string
    requires a < 256 && b < 256 && c < 256
  {
    [Symbol(a / 4), Symbol(a % 4 * 16 + b / 16), Symbol(b % 16 * 4 + c / 64), Symbol(c % 64)]
  }

  function Encode(s: string): string
    requires IsBytes(s)
  {
    if s == "" then ""
    else if |s| == 1 then Group(s[0] as int, 0, 0)[..2] + "=="
    else if |s| == 2 then Group(s[0] as int, s[1] as int, 0)[..3] + "="
    else Group(s[0] as int, s[1] as int, s[2] as int) + Encode(s[3..])
  }

  /** The first, second and third byte of four symbols. */
  function First(p: nat, q: nat): nat {
    p * 4 + q / 16
  }

  function Second(q: nat, r: nat): nat {
    q % 16 * 16 + r / 4
  }

  function Third(r: nat, t: nat): nat {
    r % 4 * 64 + t
  }

  /** Strict decoding: whole groups, padding only at the end, no stray bits before it. */
  function Decode(s: string): Option<string> {
    if s == "" then Some("")
    else if |s| < 4 || Sextet(s[0]).None? || Sextet(s[1]).None? then None
    else
      var p, q := Sextet(s[0]).value, Sextet(s[1]).value;
      if |s| == 4 && s[2] == '=' then
        if s[3] == '=' && q % 16 == 0 then Some([First(p, q) as char]) else None
      else if Sextet(s[2]).None? then None
      else
        var r := Sextet(s[2]).value;
        if |s| == 4 && s[3] == '=' then
          if r % 4 == 0 then Some([First(p, q) as char, Second(q, r) as char]) else None
        else if Sextet(s[3]).None? then None
        else
          var rest := Decode(s[4..]);
          if rest.None? then None
          else Some([First(p, q) as char, Second(q, r) as char, Third(r, Sextet(s[3]).value) as char] + rest.value)
  }

  lemma SymbolDecodes(n: nat)
    requires n < 64
    ensures Sextet(Symbol(n)) == Some(n) && Symbol(n) != '='
  {
  }

  lemma SextetEncodes(c: char)
    requires Sextet(c).Some?
    ensures Symbol(Sextet(c).value) == c
  {
  }

  lemma GroupDecodes(a: nat, b: nat, c: nat)
    requires a < 256 && b < 256 && c < 256
    ensures a / 4 < 64 && a % 4 * 16 + b / 16 < 64 && b % 16 * 4 + c / 64 < 64 && c % 64 < 64
    ensures First(a / 4, a % 4 * 16 + b / 16) == a
    ensures Second(a % 4 * 16 + b / 16, b % 16 * 4 + c / 64) == b
    ensures Third(b % 16 * 4 + c / 64, c % 64) == c
  {
  }

  lemma SymbolsDecode(a: nat, b: nat, c: nat)
    requires a < 256 && b < 256 && c < 256
    ensures forall i :: 0 <= i < 4 ==> Sextet(Group(a, b, c)[i]).Some? && Group(a, b, c)[i] != '='
    ensures var g := Group(a, b, c);
      && First(Sextet(g[0]).value, Sextet(g[1]).value) == a
      && Second(Sextet(g[1]).value, Sextet(g[2]).value) == b
      && Third(Sextet(g[2]).value, Sextet(g[3]).value) == c
      && Sextet(g[1]).value % 16 == b / 16 && Sextet(g[2]).value % 4 == c / 64
  {
    GroupDecodes(a, b, c);
    SymbolDecodes(a / 4);
    SymbolDecodes(a % 4 * 16 + b / 16);
    SymbolDecodes(b % 16 * 4 + c / 64);
    SymbolDecodes(c % 64);
  }

  /** A last group of one byte. */
  lemma OneDecodes(a: nat, s: string)
    requires a < 256 && s == Group(a, 0, 0)[..2] + "=="
    ensures Decode(s) == Some([a as char])
  {
    SymbolsDecode(a, 0, 0);
    var g := Group(a, 0, 0);
    assert s[0] == g[0] && s[1] == g[1] && s[2] == '=' && s[3] == '=';
    assert Sextet(g[1]).value % 16 == 0;
    assert First(Sextet(s[0]).value, Sextet(s[1]).value) == a;
  }

  /** A last group of two bytes. */
  lemma TwoDecode(a: nat, b: nat, s: string)
    requires a < 256 && b < 256 && s == Group(a, b, 0)[..3] + "="
    ensures Decode(s) == Some([a as char, b as char])
  {
    SymbolsDecode(a, b, 0);
    var g := Group(a, b, 0);
    assert s == [g[0], g[1], g[2], '='];
    assert Sextet(g[2]).value % 4 == 0;
  }

  /** A whole group, then the rest. */
  lemma ThreeDecode(a: nat, b: nat, c: nat, s: string, rest: string, bytes: string)
    requires a < 256 && b < 256 && c < 256 && s == Group(a, b, c) + rest && Decode(rest) == Some(bytes)
    ensures Decode(s) == Some([a as char, b as char, c as char] + bytes)
  {
    SymbolsDecode(a, b, c);
    assert s[4..] == rest;
  }

  lemma LongDecodes(s: string, rest: string)
    requires IsBytes(s) && |s| >= 3 && rest == s[3..] && Decode(Encode(rest)) == Some(rest)
    ensures Decode(Encode(s)) == Some(s)
  {
    ThreeDecode(s[0] as int, s[1] as int, s[2] as int, Encode(s), Encode(rest), rest);
    assert s == [s[0], s[1], s[2]] + rest;
  }

  lemma ShortDecodes(s: string)
    requires IsBytes(s) && |s| < 3
    ensures Decode(Encode(s)) == Some(s)
  {
    if |s| == 1 {
      OneDecodes(s[0] as int, Encode(s));
      assert s == [s[0]];
    } else if |s| == 2 {
      TwoDecode(s[0] as int, s[1] as int, Encode(s));
      assert s == [s[0], s[1]];
    }
  }

  lemma {:induction false} EncodeDecodes(s: string)
    requires IsBytes(s)
    ensures Decode(Encode(s)) == Some(s)
  {
    if |s| < 3 {
      ShortDecodes(s);
    } else {
      EncodeDecodes(s[3..]);
      LongDecodes(s, s[3..]);
    }
  }

  // ---- the decoder accepts nothing else -----------------------------------------------------------------

  lemma ByFour(x: nat, y: nat)
    requires y < 4
    ensures (x * 4 + y) / 4 == x && (x * 4 + y) % 4 == y
  {
  }

  lemma BySixteen(x: nat, y: nat)
    requires y < 16
    ensures (x * 16 + y) / 16 == x && (x * 16 + y) % 16 == y
  {
  }

  lemma BySixtyFour(x: nat, y: nat)
    requires y < 64
    ensures (x * 64 + y) / 64 == x && (x * 64 + y) % 64 == y
  {
  }

  lemma GroupEncodes(p: nat, q: nat, r: nat, t: nat)
    requires p < 64 && q < 64 && r < 64 && t < 64
    ensures First(p, q) < 256 && Second(q, r) < 256 && Third(r, t) < 256
    ensures Group(First(p, q), Second(q, r), Third(r, t)) == [Symbol(p), Symbol(q), Symbol(r), Symbol(t)]
  {
    ByFour(p, q / 16);
    BySixteen(q % 16, r / 4);
    BySixtyFour(r % 4, t);
    var a, b, c := First(p, q), Second(q, r), Third(r, t);
    assert a < 256 && b < 256 && c < 256;
    assert a / 4 == p && a % 4 * 16 + b / 16 == q && b % 16 * 4 + c / 64 == r && c % 64 == t;
  }

  lemma GroupThenRest(s: string, rest: string, a: nat, b: nat, c: nat)
    requires IsBytes(rest) && |s| == 3 + |rest| && s[3..] == rest && a < 256 && b < 256 && c < 256
    requires s[0] as int == a && s[1] as int == b && s[2] as int == c
    ensures IsBytes(s) && Encode(s) == Group(a, b, c) + Encode(rest)
  {
    assert forall i :: 3 <= i < |s| ==> s[i] == rest[i - 3];
  }

  lemma GroupDecodesTo(s: string, p: nat, q: nat, r: nat, t: nat, rest: string)
    requires |s| >= 4 && Sextet(s[0]) == Some(p) && Sextet(s[1]) == Some(q) && Sextet(s[2]) == Some(r)
    requires Sextet(s[3]) == Some(t)
    requires First(p, q) < 256 && Second(q, r) < 256 && Third(r, t) < 256 && Decode(s[4..]) == Some(rest)
    ensures Decode(s).Some? && |Decode(s).value| == 3 + |rest| && Decode(s).value[3..] == rest
    ensures var b := Decode(s).value;
      b[0] as int == First(p, q) && b[1] as int == Second(q, r) && b[2] as int == Third(r, t)
  {
  }

  lemma FourAndRest(s: string)
    requires |s| >= 4
    ensures s == [s[0], s[1], s[2], s[3]] + s[4..]
  {
  }

  lemma WholeGroup(s: string, p: nat, q: nat, r: nat, t: nat)
    requires |s| >= 4 && Sextet(s[0]) == Some(p) && Sextet(s[1]) == Some(q) && Sextet(s[2]) == Some(r)
    requires Sextet(s[3]) == Some(t)
    requires Decode(s[4..]).Some? && IsBytes(Decode(s[4..]).value) && Encode(Decode(s[4..]).value) == s[4..]
    ensures Decode(s).Some? && IsBytes(Decode(s).value) && Encode(Decode(s).value) == s
  {
    SextetEncodes(s[0]);
    SextetEncodes(s[1]);
    SextetEncodes(s[2]);
    SextetEncodes(s[3]);
    GroupEncodes(p, q, r, t);
    var rest := Decode(s[4..]).value;
    GroupDecodesTo(s, p, q, r, t, rest);
    GroupThenRest(Decode(s).value, rest, First(p, q), Second(q, r), Third(r, t));
    FourAndRest(s);
  }

  /** A text that decodes is the encoding of what it decodes to. */
  lemma {:induction false} DecodeEncodes(s: string)
    requires Decode(s).Some?
    ensures IsBytes(Decode(s).value) && Encode(Decode(s).value) == s
  {
    if s != "" {
      var p, q := Sextet(s[0]).value, Sextet(s[1]).value;
      SextetEncodes(s[0]);
      SextetEncodes(s[1]);
      if |s| == 4 && s[2] == '=' {
        GroupEncodes(p, q, 0, 0);
      } else {
        var r := Sextet(s[2]).value;
        SextetEncodes(s[2]);
        if |s| == 4 && s[3] == '=' {
          GroupEncodes(p, q, r, 0);
        } else {
          DecodeEncodes(s[4..]);
          WholeGroup(s, p, q, r, Sextet(s[3]).value);
        }
      }
    }
  }

  /** Only symbols and padding occur. */
  lemma {:induction false} EncodeSymbols(s: string)
    requires IsBytes(s)
    ensures forall i :: 0 <= i < |Encode(s)| ==> Sextet(Encode(s)[i]).Some? || Encode(s)[i] == '='
  {
    if |s| == 1 {
      SymbolsDecode(s[0] as int, 0, 0);
    } else if |s| == 2 {
      SymbolsDecode(s[0] as int, s[1] as int, 0);
    } else if |s| >= 3 {
      SymbolsDecode(s[0] as int, s[1] as int, s[2] as int);
      EncodeSymbols(s[3..]);
    }
  }

  lemma EncodeStart(s: string)
    requires IsBytes(s) && s != ""
    ensures Encode(s) != "" && Encode(s)[0] == Symbol(s[0] as int / 4)
  {
  }

  lemma FiveBytes(s: string, a: nat, b: nat, c: nat, d: nat, e: nat)
    requires a < 256 && b < 256 && c < 256 && d < 256 && e < 256
    requires |s| == 5 && s[0] as int == a && s[1] as int == b && s[2] as int == c
    requires s[3] as int == d && s[4] as int == e
    ensures IsBytes(s) && Encode(s) == Group(a, b, c) + (Group(d, e, 0)[..3] + "=")
  {
    var t := s[3..];
    assert |t| == 2 && t[0] == s[3] && t[1] == s[4];
    assert Encode(t) == Group(d, e, 0)[..3] + "=";
  }

  /** A test vector of section 10 of RFC 4648. */
  lemma KnownText()
    ensures IsBytes("fooba") && Encode("fooba") == "Zm9vYmE="
  {
    FiveBytes("fooba", 102, 111, 111, 98, 97);
    assert Group(102, 111, 111) == "Zm9v" && Group(98, 97, 0)[..3] == "YmE";
    assert "Zm9v" + ("YmE" + "=") == "Zm9vYmE=";
  }
}
