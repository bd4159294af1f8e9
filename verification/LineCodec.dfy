/** The line a spool entry is written as, src/spool.rs: compact JSON with the fields
    in order, as `serde_json` writes it. Every law the spool uses of its lines is
    proved of this form, whatever the fields hold. The reader is taken to accept
    these lines and nothing else. */
module LineCodec {
  import opened Basics
  import opened Spool

  // ----------------------------------------------------------------- strings --

  function Hex(n: nat): char
    requires n < 16
  {
    "0123456789abcdef"[n]
  }

  // A character inside a JSON string.
  function Escape(c: char): (r: string)
    ensures r != [] && r[0] != '"' && '\n' !in r && '\r' !in r
    ensures r == [c] || (|r| >= 2 && r[0] == '\\')
  {
    var n := c as int;
    if c == '"' then "\\\""
    else if c == '\\' then "\\\\"
    else if n == 8 then "\\b"
    else if n == 9 then "\\t"
    else if n == 10 then "\\n"
    else if n == 12 then "\\f"
    else if n == 13 then "\\r"
    else if n < 32 then ['\\', 'u', '0', '0', Hex(n / 16), Hex(n % 16)]
    else [c]
  }

  lemma HexIsInjective(m: nat, n: nat)
    requires m < 16 && n < 16 && Hex(m) == Hex(n)
    ensures m == n
  {
  }

  /** Escapes tell themselves apart, whatever follows. */
  lemma EscapeIsPrefixFree(c: char, d: char, u: string, v: string)
    requires Escape(c) + u == Escape(d) + v
    ensures c == d && u == v
  {
    var a, b := Escape(c), Escape(d);
    var s, t := a + u, b + v;
    assert s[0] == a[0] && t[0] == b[0];
    if a[0] == '\\' {
      assert s[1] == a[1] && t[1] == b[1];
      if a[1] == 'u' {
        assert s[4] == a[4] && t[4] == b[4] && s[5] == a[5] && t[5] == b[5];
        HexIsInjective(c as int / 16, d as int / 16);
        HexIsInjective(c as int % 16, d as int % 16);
      }
    }
    assert u == s[|a|..] && v == t[|b|..];
  }

  /** What an escape in a JSON string stands for, by section 7 of RFC 8259. */
  function Unescaped(c: char): Option<char> {
    match c
    case '"' => Some('"')
    case '\\' => Some('\\')
    case 'b' => Some(8 as char)
    case 't' => Some(9 as char)
    case 'n' => Some(10 as char)
    case 'f' => Some(12 as char)
    case 'r' => Some(13 as char)
    case _ => None
  }

  /** A character is written as it is, unless it is a quote, a backslash or below a
      space; then as the escape that stands for it, or by its number. */
  lemma EscapesAre(c: char)
    ensures var r, n := Escape(c), c as int;
            && (r == [c] <==> n >= 32 && c != '"' && c != '\\')
            && (r != [c] ==>
                  || (|r| == 2 && r[0] == '\\' && Unescaped(r[1]) == Some(c))
                  || (n < 32 && r == "\\u00" + [Hex(n / 16), Hex(n % 16)] && n !in {8, 9, 10, 12, 13}))
  {
  }

  // A string from behind its opening quote.
  function Quoted(s: string): (r: string)
    ensures r != [] && '\n' !in r && '\r' !in r
  {
    if s == [] then "\"" else Escape(s[0]) + Quoted(s[1..])
  }

  /** A string ends where it ends, whatever follows. */
  lemma {:induction false} QuotedIsPrefixFree(a: string, b: string, u: string, v: string)
    requires Quoted(a) + u == Quoted(b) + v
    ensures a == b && u == v
    decreases |a|
  {
    var s, t := Quoted(a) + u, Quoted(b) + v;
    hide Escape;
    if a == [] || b == [] {
      assert s[0] == Quoted(a)[0] && t[0] == Quoted(b)[0];
      assert a == [] && b == [];
      assert u == s[1..] && v == t[1..];
    } else {
      assert s == Escape(a[0]) + (Quoted(a[1..]) + u);
      assert t == Escape(b[0]) + (Quoted(b[1..]) + v);
      EscapeIsPrefixFree(a[0], b[0], Quoted(a[1..]) + u, Quoted(b[1..]) + v);
      QuotedIsPrefixFree(a[1..], b[1..], u, v);
    }
  }

  // ----------------------------------------------------------------- numbers --

  predicate Numeral(c: char) { c == '-' || '0' <= c <= '9' }

  function Digits(n: nat): (r: string)
    ensures r != [] && r[0] != '-' && forall i | 0 <= i < |r| :: Numeral(r[i])
  {
    if n < 10 then [Hex(n)] else Digits(n / 10) + [Hex(n % 10)]
  }

  function Number(n: int): (r: string)
    ensures r != [] && forall i | 0 <= i < |r| :: Numeral(r[i])
  {
    if n < 0 then "-" + Digits(-n) else Digits(n)
  }

  lemma {:induction false} DigitsAreInjective(m: nat, n: nat)
    requires Digits(m) == Digits(n)
    ensures m == n
    decreases m
  {
    var a, b := Digits(m), Digits(n);
    assert a[|a| - 1] == Hex(m % 10) && b[|b| - 1] == Hex(n % 10);
    HexIsInjective(m % 10, n % 10);
    hide Hex;
    if m < 10 || n < 10 {
      assert m < 10 && n < 10;
    } else {
      assert a[..|a| - 1] == Digits(m / 10) && b[..|b| - 1] == Digits(n / 10);
      DigitsAreInjective(m / 10, n / 10);
    }
  }

  lemma NumberIsInjective(m: int, n: int)
    requires Number(m) == Number(n)
    ensures m == n
  {
    hide Digits, Numeral;
    assert (m < 0 <==> Number(m)[0] == '-') && (n < 0 <==> Number(n)[0] == '-');
    if m < 0 {
      assert Number(m)[1..] == Digits(-m) && Number(n)[1..] == Digits(-n);
      DigitsAreInjective(-m, -n);
    } else {
      DigitsAreInjective(m, n);
    }
  }

  /** A number ends where something follows that is not part of one. */
  lemma NumberEnds(m: int, n: int, u: string, v: string)
    requires u != [] && v != [] && !Numeral(u[0]) && !Numeral(v[0])
    requires Number(m) + u == Number(n) + v
    ensures m == n && u == v
  {
    var a, b := Number(m), Number(n);
    var s := a + u;
    hide Number, Numeral;
    assert s[|a|] == u[0] && s[|b|] == v[0];
    assert |a| == |b|;
    assert a == s[..|a|] == b && u == s[|a|..] == v;
    NumberIsInjective(m, n);
  }

  // ----------------------------------------------------------------- entries --

  datatype Value = Text(text: string) | Num(number: int) | Flag(flag: bool)

  function Written(v: Value): (r: string)
    ensures r != [] && '\n' !in r && '\r' !in r
  {
    match v
    case Text(text) => "\"" + Quoted(text)
    case Num(number) => Number(number)
    case Flag(flag) => if flag then "true" else "false"
  }

  lemma FlagsAre()
    ensures Written(Flag(true)) == ['t', 'r', 'u', 'e'] && Written(Flag(false)) == ['f', 'a', 'l', 's', 'e']
  {
  }

  predicate Alike(a: Value, b: Value) {
    (a.Text? <==> b.Text?) && (a.Num? <==> b.Num?)
  }

  lemma TextEnds(a: string, b: string, u: string, v: string)
    requires Written(Text(a)) + u == Written(Text(b)) + v
    ensures a == b && u == v
  {
    hide Quoted;
    var s, t := Written(Text(a)) + u, Written(Text(b)) + v;
    assert s[1..] == Quoted(a) + u && t[1..] == Quoted(b) + v;
    QuotedIsPrefixFree(a, b, u, v);
  }

  lemma FlagEnds(a: bool, b: bool, u: string, v: string)
    requires Written(Flag(a)) + u == Written(Flag(b)) + v
    ensures a == b && u == v
  {
    var s, t := Written(Flag(a)) + u, Written(Flag(b)) + v;
    assert s[0] == Written(Flag(a))[0] && t[0] == Written(Flag(b))[0];
    assert u == s[|Written(Flag(a))|..] && v == t[|Written(Flag(b))|..];
  }

  /** Values of a kind tell themselves apart, given what may follow one. */
  lemma ValueEnds(a: Value, b: Value, u: string, v: string)
    requires Alike(a, b) && u != [] && v != [] && !Numeral(u[0]) && !Numeral(v[0])
    requires Written(a) + u == Written(b) + v
    ensures a == b && u == v
  {
    match a
    case Text(s) => TextEnds(s, b.text, u, v);
    case Num(n) => NumberEnds(n, b.number, u, v);
    case Flag(f) => FlagEnds(f, b.flag, u, v);
  }

  const NAMES: seq<string> := [
    "delivery_id", "message_id", "conversation_id", "seq", "from_address", "created_at", "confirmed", "spooled_at"]

  function Fields(e: Entry): (vs: seq<Value>)
    ensures |vs| == |NAMES|
  {
    [Text(e.deliveryId), Text(e.messageId), Text(e.conversationId), Num(e.position), Text(e.fromAddress),
     Text(e.createdAt), Flag(e.confirmed), Text(e.spooledAt)]
  }

  // What stands before a value: a brace or a comma, the field's name, and a colon.
  function Key(first: bool, name: string): (k: string)
    ensures k != [] && !Numeral(k[0]) && '\n' !in k && '\r' !in k
    ensures first ==> k[0] == '{'
  {
    (if first then "{" else ",") + "\"" + Quoted(name) + ":"
  }

  // The object from some field on.
  function Object(first: bool, names: seq<string>, vs: seq<Value>): (r: string)
    requires |names| == |vs|
    ensures r != []
    decreases |names|
  {
    if names == [] then "}" else Key(first, names[0]) + (Written(vs[0]) + Object(false, names[1..], vs[1..]))
  }

  lemma {:induction false} ObjectIsOneLine(first: bool, names: seq<string>, vs: seq<Value>)
    requires |names| == |vs|
    ensures var r := Object(first, names, vs);
            && '\n' !in r && '\r' !in r && !Numeral(r[0])
            && (first && names != [] ==> r[0] == '{')
    decreases |names|
  {
    hide Written, Key;
    if names == [] {
    } else {
      ObjectIsOneLine(false, names[1..], vs[1..]);
      var key, rest := Key(first, names[0]), Written(vs[0]) + Object(false, names[1..], vs[1..]);
      assert '\n' !in rest && '\r' !in rest;
      assert (key + rest)[0] == key[0];
    }
  }

  /** No object begins another of the same names and kinds. */
  lemma {:induction false} ObjectIsPrefixFree(first: bool, names: seq<string>, a: seq<Value>, b: seq<Value>, u: string)
    requires |names| == |a| == |b| && forall i | 0 <= i < |names| :: Alike(a[i], b[i])
    requires Object(first, names, a) + u == Object(first, names, b)
    ensures a == b && u == []
    decreases |names|
  {
    hide Written, Key;
    if names == [] {
      assert |Object(first, names, a) + u| == 1 + |u|;
    } else {
      var key, later := Key(first, names[0]), names[1..];
      var x, y := Object(false, later, a[1..]), Object(false, later, b[1..]);
      ObjectIsOneLine(false, later, a[1..]);
      ObjectIsOneLine(false, later, b[1..]);
      var s := Object(first, names, a) + u;
      assert s[|key|..] == Written(a[0]) + (x + u);
      assert Object(first, names, b)[|key|..] == Written(b[0]) + y;
      assert (x + u)[0] == x[0];
      ValueEnds(a[0], b[0], x + u, y);
      ObjectIsPrefixFree(false, later, a[1..], b[1..], u);
      assert a == [a[0]] + a[1..] && b == [b[0]] + b[1..];
    }
  }

  function Line(e: Entry): string { Object(true, NAMES, Fields(e)) }

  lemma LineIsOne(e: Entry)
    ensures '\n' !in Line(e) && '\r' !in Line(e) && !Blank(Line(e))
  {
    hide Object;
    assert |NAMES| == 8;
    hide NAMES, Fields;
    ObjectIsOneLine(true, NAMES, Fields(e));
    assert Line(e)[0] == '{';
  }

  lemma FieldsAlike(d: Entry, e: Entry)
    ensures forall i | 0 <= i < |NAMES| :: Alike(Fields(d)[i], Fields(e)[i])
  {
  }

  lemma FieldsTell(d: Entry, e: Entry)
    requires Fields(d) == Fields(e)
    ensures d == e
  {
    var f, g := Fields(d), Fields(e);
    assert f[0] == g[0] && f[1] == g[1] && f[2] == g[2] && f[3] == g[3];
    assert f[4] == g[4] && f[5] == g[5] && f[6] == g[6] && f[7] == g[7];
  }

  /** No line begins another: none is a torn form of any. */
  lemma LineIsPrefixFree(d: Entry, e: Entry, u: string)
    ensures Line(d) + u == Line(e) ==> d == e && u == []
  {
    hide Object;
    FieldsAlike(d, e);
    hide NAMES, Fields;
    if Line(d) + u == Line(e) {
      ObjectIsPrefixFree(true, NAMES, Fields(d), Fields(e), u);
      FieldsTell(d, e);
    }
  }

  /** Trailing carriage returns mean nothing. */
  function Trimmed(l: string): (r: string)
    ensures r == [] || r[|r| - 1] != '\r'
    ensures |r| <= |l| && r == l[..|r|]
    ensures '\r' !in l ==> r == l
  {
    if l != [] && l[|l| - 1] == '\r' then Trimmed(l[..|l| - 1]) else l
  }

  ghost function Parse(l: string): Option<Entry> {
    if e: Entry :| Line(e) == Trimmed(l) then Some(e) else None
  }

  ghost function Lines(): Codec { Codec(Line, Parse) }

  lemma ParsesBack(e: Entry)
    ensures Parse(Line(e)) == Some(e)
  {
    LineIsOne(e);
    hide Line;
    assert Trimmed(Line(e)) == Line(e);
    forall d: Entry | Line(d) == Line(e) ensures d == e {
      assert Line(d) + [] == Line(e);
      LineIsPrefixFree(d, e, []);
    }
  }

  lemma TornDoesNotParse(e: Entry, n: nat)
    ensures n < |Line(e)| ==> Parse(Line(e)[..n]) == None
  {
    LineIsOne(e);
    hide Line;
    if n < |Line(e)| {
      var torn := Line(e)[..n];
      assert Trimmed(torn) == torn;
      if d: Entry :| Line(d) == torn {
        assert Line(d) + Line(e)[n..] == Line(e);
        LineIsPrefixFree(d, e, Line(e)[n..]);
      }
    }
  }

  /** What the spool assumes of its lines holds of the JSON form. */
  lemma LinesAreLawful()
    ensures Lawful(Lines())
  {
    hide Line;
    var c := Lines();
    forall e: Entry
      ensures c.dec(c.enc(e)) == Some(e) && '\n' !in c.enc(e) && '\r' !in c.enc(e) && !Blank(c.enc(e))
    {
      ParsesBack(e);
      LineIsOne(e);
    }
    forall e: Entry, n: nat | n < |c.enc(e)| ensures c.dec(c.enc(e)[..n]) == None {
      TornDoesNotParse(e, n);
    }
    forall l: string ensures c.dec(l + "\r") == c.dec(l) {
      assert (l + "\r")[..|l|] == l;
      assert Trimmed(l + "\r") == Trimmed(l);
    }
  }
}
