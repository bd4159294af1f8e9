/** The tokens file, src/admin_cli.rs and src/context.rs: `name=token` lines that
    people also edit by hand. One function sets an entry, another reads one, and
    each splits and trims the lines in its own way. A missing file is the empty
    one. */
module TokenFile {
  import opened Basics

  // ---------------------------------------------------------------- trimming --

  // The characters Unicode calls white space.
  predicate White(c: char) {
    var n := c as int;
    9 <= n <= 13 || n == 0x20 || n == 0x85 || n == 0xA0 || n == 0x1680 || 0x2000 <= n <= 0x200A
    || n == 0x2028 || n == 0x2029 || n == 0x202F || n == 0x205F || n == 0x3000
  }

  function TrimStart(s: string): (r: string)
    ensures r != [] ==> !White(r[0])
    ensures '=' !in s ==> '=' !in r
  {
    if s != [] && White(s[0]) then TrimStart(s[1..]) else s
  }

  function TrimEnd(s: string): (r: string)
    ensures r != [] ==> s != [] && r[0] == s[0]
    ensures '=' !in s ==> '=' !in r
  {
    if s != [] && White(s[|s| - 1]) then TrimEnd(s[..|s| - 1]) else s
  }

  function Trim(s: string): string { TrimEnd(TrimStart(s)) }

  // ------------------------------------------------------------------- lines --

  // The standard library's `lines`.
  function Lines(t: string): (ls: seq<string>)
    ensures forall i | 0 <= i < |ls| :: '\n' !in ls[i]
    decreases |t|
  {
    if t == [] then []
    else
      var n := Find(t, '\n');
      if n == |t| then [t] else [Chomp(t[..n])] + Lines(t[n + 1..])
  }

  function Join(ls: seq<string>): string {
    if ls == [] then [] else if |ls| == 1 then ls[0] else ls[0] + "\n" + Join(ls[1..])
  }

  function Chomped(ls: seq<string>): seq<string> { seq(|ls|, i requires 0 <= i < |ls| => Chomp(ls[i])) }

  lemma LinesFrom(l: string, u: string)
    requires '\n' !in l
    ensures Lines(l + "\n" + u) == [Chomp(l)] + Lines(u)
  {
    var t := l + "\n" + u;
    assert t[..|l|] == l;
    FindIs(t, '\n', |l|);
    assert t[|l| + 1..] == u;
  }

  /** What is written is read back line by line, but for carriage returns. */
  lemma {:induction false} LinesOfJoin(ls: seq<string>)
    requires ls != [] && forall i | 0 <= i < |ls| :: '\n' !in ls[i]
    ensures Lines(Join(ls) + "\n") == Chomped(ls)
    decreases |ls|
  {
    hide Lines;
    if |ls| == 1 {
      LinesFrom(ls[0], "");
      assert Join(ls) + "\n" == ls[0] + "\n" + "";
      NoLines();
      assert Chomped(ls) == [Chomp(ls[0])];
    } else {
      LinesFrom(ls[0], Join(ls[1..]) + "\n");
      assert Join(ls) + "\n" == ls[0] + "\n" + (Join(ls[1..]) + "\n");
      LinesOfJoin(ls[1..]);
      assert Chomped(ls) == [Chomp(ls[0])] + Chomped(ls[1..]);
    }
  }

  lemma NoLines()
    ensures Lines("") == []
  {
  }

  // ----------------------------------------------------------------- entries --

  // The key the writer sees on a line.
  function KeyOf(line: string): Option<string> {
    var n := Find(line, '=');
    if n == |line| then None else Some(Trim(line[..n]))
  }

  /** What the reader takes a line to say of `key`: nothing, or its value, which
      ends the search. */
  function Says(line: string, key: string): Option<string> {
    var l := Trim(line);
    var n := Find(l, '=');
    if l == [] || l[0] == '#' || n == |l| || Trim(l[..n]) != key then None
    else Some(Trim(l[n + 1..]))
  }

  function Ending(v: string): Option<string> { if v == [] then None else Some(v) }

  // `read_token_entry`, on lines; an empty value reads as no entry.
  function ReadLines(ls: seq<string>, key: string): Option<string> {
    if ls == [] then None
    else
      match Says(ls[0], key)
      case Some(v) => Ending(v)
      case None => ReadLines(ls[1..], key)
  }

  function Read(t: string, key: string): Option<string> { ReadLines(Lines(t), key) }

  function EntryLine(name: string, token: string): string { name + "=" + token }

  // `upsert_token_entry`, on lines: the first entry of the name is replaced, the
  // others go, and a missing one is added at the end.
  function UpsertLines(ls: seq<string>, name: string, token: string, replaced: bool): seq<string> {
    var mine := if replaced then [] else [EntryLine(name, token)];
    if ls == [] then mine
    else if KeyOf(ls[0]) == Some(name) then mine + UpsertLines(ls[1..], name, token, true)
    else [ls[0]] + UpsertLines(ls[1..], name, token, replaced)
  }

  function Upsert(t: string, name: string, token: string): string {
    Join(UpsertLines(Lines(t), name, token, false)) + "\n"
  }

  lemma UpsertCons(ls: seq<string>, name: string, token: string, replaced: bool)
    requires ls != []
    ensures var mine := KeyOf(ls[0]) == Some(name);
            var rest := UpsertLines(ls[1..], name, token, replaced || mine);
            UpsertLines(ls, name, token, replaced)
            == if !mine then [ls[0]] + rest else if replaced then rest else [EntryLine(name, token)] + rest
  {
    hide KeyOf, EntryLine;
  }

  lemma UpsertNone(name: string, token: string, replaced: bool)
    ensures UpsertLines([], name, token, replaced) == if replaced then [] else [EntryLine(name, token)]
  {
  }

  lemma OneMore(out: seq<string>, line: string, rest: seq<string>)
    ensures out + ([line] + rest) == out + [line] + rest
  {
  }

  /** The loop of `upsert_token_entry`, and the text it writes. */
  method UpsertTokenEntry(existing: string, name: string, token: string) returns (content: string)
    ensures content == Upsert(existing, name, token)
  {
    var ls := Lines(existing);
    var out: seq<string> := [];
    var replaced := false;
    var entry := EntryLine(name, token);
    hide KeyOf, EntryLine, UpsertLines, Lines, Join;
    for i := 0 to |ls|
      invariant UpsertLines(ls, name, token, false) == out + UpsertLines(ls[i..], name, token, replaced)
    {
      assert ls[i..][0] == ls[i] && ls[i..][1..] == ls[i + 1..];
      UpsertCons(ls[i..], name, token, replaced);
      ghost var was := out;
      if KeyOf(ls[i]) == Some(name) {
        if !replaced {
          out := out + [entry];
          replaced := true;
          OneMore(was, entry, UpsertLines(ls[i + 1..], name, token, true));
        }
      } else {
        out := out + [ls[i]];
        OneMore(was, ls[i], UpsertLines(ls[i + 1..], name, token, replaced));
      }
    }
    assert ls[|ls|..] == [];
    UpsertNone(name, token, replaced);
    if !replaced {
      out := out + [entry];
    }
    assert out == UpsertLines(ls, name, token, false);
    content := Join(out) + "\n";
  }

  /** The loop of `read_token_entry`. */
  method ReadTokenEntry(text: string, key: string) returns (r: Option<string>)
    ensures r == Read(text, key)
  {
    var ls := Lines(text);
    for i := 0 to |ls|
      invariant ReadLines(ls, key) == ReadLines(ls[i..], key)
    {
      assert ls[i..][0] == ls[i] && ls[i..][1..] == ls[i + 1..];
      var line := Trim(ls[i]);
      if line == [] || line[0] == '#' { continue; }
      var n := Find(line, '=');
      if n < |line| && Trim(line[..n]) == key {
        var v := Trim(line[n + 1..]);
        return if v == [] then None else Some(v);
      }
    }
    return None;
  }

  // ------------------------------------------------------------------- names --

  predicate Alnum(c: char) { 'a' <= c <= 'z' || 'A' <= c <= 'Z' || '0' <= c <= '9' }

  predicate ValidName(name: string) {
    || name == "_base"
    || (&& 0 < |name| <= 128 && Alnum(name[0])
        && forall i | 0 <= i < |name| :: Alnum(name[i]) || name[i] in {'-', '_', '.'})
  }

  function ValidateRepoName(raw: string): Option<string> {
    var name := Trim(raw);
    if ValidName(name) then Some(name) else None
  }

  /** What an entry's name must be for the file's two readers to agree on it. */
  predicate PlainName(name: string) {
    name != [] && name[0] != '#' && forall i | 0 <= i < |name| :: !White(name[i]) && name[i] != '='
  }

  predicate NameChar(c: char) {
    var n := c as int;
    48 <= n <= 57 || 65 <= n <= 90 || 97 <= n <= 122 || n == 45 || n == 46 || n == 95
  }

  /** A name passes if and only if, trimmed, it is the fallback's, or has 1 to 128
      letters, digits, dashes, dots and underscores, none of the last three first. */
  lemma ValidIff(raw: string)
    ensures var name := Trim(raw);
            && (ValidateRepoName(raw).Some? ==> ValidateRepoName(raw).value == name)
            && (ValidateRepoName(raw).Some? <==>
                  || name == ['_', 'b', 'a', 's', 'e']
                  || (&& 1 <= |name| && |name| < 129 && name[0] !in {'-', '.', '_'}
                      && forall i | 0 <= i < |name| :: NameChar(name[i])))
  {
    hide Trim;
    var name := Trim(raw);
    assert forall c: char :: NameChar(c) <==> Alnum(c) || c in {'-', '_', '.'};
  }

  /** Every name that passes is one the two readers agree on. */
  lemma ValidIsPlain(raw: string)
    ensures ValidateRepoName(raw).Some? ==> PlainName(ValidateRepoName(raw).value)
  {
    hide Trim;
    var name := Trim(raw);
    if ValidName(name) && name != "_base" {
      forall i | 0 <= i < |name| ensures !White(name[i]) && name[i] != '=' {
      }
    }
  }

  // ---------------------------------------------------------- the two splits --

  lemma {:induction false} TrimStartBefore(a: string, b: string)
    ensures TrimStart(a + "=" + b) == TrimStart(a) + "=" + b
    decreases |a|
  {
    var s := a + "=" + b;
    if a == [] {
      assert s[0] == '=';
    } else {
      assert s[0] == a[0] && s[1..] == a[1..] + "=" + b;
      if White(a[0]) {
        TrimStartBefore(a[1..], b);
      }
    }
  }

  lemma {:induction false} TrimEndAfter(a: string, b: string)
    ensures TrimEnd(a + "=" + b) == a + "=" + TrimEnd(b)
    decreases |b|
  {
    var s := a + "=" + b;
    if b == [] {
      assert s[|s| - 1] == '=';
    } else {
      assert s[|s| - 1] == b[|b| - 1] && s[..|s| - 1] == a + "=" + b[..|b| - 1];
      if White(b[|b| - 1]) {
        TrimEndAfter(a, b[..|b| - 1]);
      }
    }
  }

  lemma TrimAround(a: string, b: string)
    ensures Trim(a + "=" + b) == TrimStart(a) + "=" + TrimEnd(b)
  {
    TrimStartBefore(a, b);
    TrimEndAfter(TrimStart(a), b);
  }

  /** What trimming a line leaves to split. */
  lemma TrimmedSplit(a: string, b: string)
    requires '=' !in a
    ensures var l := Trim(a + "=" + b);
            var n := Find(l, '=');
            n < |l| && l[..n] == TrimStart(a) && l[n + 1..] == TrimEnd(b)
  {
    TrimAround(a, b);
    var start := TrimStart(a);
    var l := start + "=" + TrimEnd(b);
    hide Trim, TrimStart, TrimEnd;
    assert l[..|start|] == start && '=' !in start;
    FindIs(l, '=', |start|);
    assert l[|start| + 1..] == TrimEnd(b);
  }

  lemma TrimTwice(a: string)
    ensures Trim(TrimStart(a)) == Trim(a)
    ensures Trim(a) != [] ==> TrimStart(a) != [] && Trim(a)[0] == TrimStart(a)[0]
  {
    hide White, TrimEnd;
    var s := TrimStart(a);
    assert s != [] ==> !White(s[0]);
    assert TrimStart(s) == s;
  }

  predicate Comment(a: string) { TrimStart(a) != [] && TrimStart(a)[0] == '#' }

  /** What the reader makes of a line in terms of the writer's split. */
  lemma SaysOfSplit(a: string, b: string, key: string)
    requires '=' !in a
    ensures Says(a + "=" + b, key) == if Comment(a) || Trim(a) != key then None else Some(Trim(TrimEnd(b)))
  {
    TrimmedSplit(a, b);
    TrimTwice(a);
    hide Trim, TrimStart, TrimEnd, Find;
    var l := Trim(a + "=" + b);
    var n := Find(l, '=');
    assert n > 0 ==> l[0] == l[..n][0];
  }

  lemma KeyOfSplit(a: string, b: string)
    requires '=' !in a
    ensures KeyOf(a + "=" + b) == Some(Trim(a))
  {
    hide Trim;
    var line := a + "=" + b;
    assert line[..|a|] == a && line[|a|] == '=';
    FindIs(line, '=', |a|);
  }

  /** The writer splits, then trims; the reader trims, then splits. They see the
      same key on every line, except that the reader skips comments. */
  lemma SplitsAgree(line: string, key: string)
    ensures Says(line, key).Some? ==> KeyOf(line) == Some(key)
    ensures KeyOf(line) == Some(key) && PlainName(key) ==> Says(line, key).Some?
  {
    var n := Find(line, '=');
    if n < |line| {
      var a, b := line[..n], line[n + 1..];
      assert line == a + "=" + b;
      KeyOfSplit(a, b);
      SaysOfSplit(a, b, key);
      TrimTwice(a);
      hide KeyOf, Says, Trim, TrimStart, TrimEnd, Find, White;
    } else {
      NoKeyAppears(line);
      hide Trim, PlainName;
    }
  }

  lemma NoKeyAppears(line: string)
    requires '=' !in line
    ensures '=' !in Trim(line)
  {
  }

  lemma PlainIsTrimmed(s: string)
    requires forall i | 0 <= i < |s| :: !White(s[i])
    ensures Trim(s) == s && TrimStart(s) == s
  {
    hide White;
  }

  lemma EntryHasItsKey(name: string, token: string)
    requires PlainName(name)
    ensures KeyOf(EntryLine(name, token)) == Some(name)
    ensures Says(EntryLine(name, token), name) == Some(Trim(TrimEnd(token)))
  {
    PlainIsTrimmed(name);
    KeyOfSplit(name, token);
    SaysOfSplit(name, token, name);
    hide KeyOf, Says, Trim, TrimStart, TrimEnd, White;
  }

  // ---------------------------------------------------------- carriage returns --

  lemma {:induction false} TrimStartReturn(m: string)
    ensures TrimStart(m + "\r") == if TrimStart(m) == [] then [] else TrimStart(m) + "\r"
    decreases |m|
  {
    var s := m + "\r";
    if m == [] {
      assert s[0] == '\r' && s[1..] == [];
    } else {
      assert s[0] == m[0] && s[1..] == m[1..] + "\r";
      TrimStartReturn(m[1..]);
    }
  }

  lemma TrimChomped(l: string)
    ensures Trim(Chomp(l)) == Trim(l)
  {
    var m := Chomp(l);
    if m != l {
      assert l == m + "\r";
      TrimStartReturn(m);
      var s := TrimStart(m);
      assert s + "\r" != [] && (s + "\r")[..|s|] == s;
    }
  }

  lemma SaysChomped(l: string, key: string)
    ensures Says(Chomp(l), key) == Says(l, key)
  {
    TrimChomped(l);
    hide Trim, Chomp;
  }

  lemma {:induction false} ReadChomped(ls: seq<string>, key: string)
    ensures ReadLines(Chomped(ls), key) == ReadLines(ls, key)
    decreases |ls|
  {
    hide Says, Chomp;
    if ls == [] {
    } else {
      SaysChomped(ls[0], key);
      assert Chomped(ls)[0] == Chomp(ls[0]) && Chomped(ls)[1..] == Chomped(ls[1..]);
      ReadChomped(ls[1..], key);
    }
  }

  // ------------------------------------------------------------ upsert, read --

  function Value(token: string): Option<string> {
    Ending(Trim(TrimEnd(token)))
  }

  lemma ReadCons(l: string, ls: seq<string>, key: string)
    ensures ReadLines([l] + ls, key)
            == match Says(l, key) case Some(v) => Ending(v) case None => ReadLines(ls, key)
  {
    hide Says;
    assert ([l] + ls)[1..] == ls;
  }

  /** What the lines of `name`, its new one and the others say of `key`. */
  lemma WhoSays(line: string, name: string, token: string, key: string)
    requires PlainName(name)
    ensures Says(EntryLine(name, token), key) == if key == name then Some(Trim(TrimEnd(token))) else None
    ensures KeyOf(line) == Some(name) && key != name ==> Says(line, key) == None
    ensures KeyOf(line) != Some(name) && key == name ==> Says(line, key) == None
  {
    EntryHasItsKey(name, token);
    hide Says, KeyOf;
    SplitsAgree(EntryLine(name, token), key);
    SplitsAgree(line, key);
  }

  lemma {:induction false} ReadUpserted(ls: seq<string>, name: string, token: string, replaced: bool, key: string)
    requires PlainName(name)
    ensures ReadLines(UpsertLines(ls, name, token, replaced), key)
            == if key != name then ReadLines(ls, key) else if replaced then None else Value(token)
    decreases |ls|
  {
    var mine := EntryLine(name, token);
    WhoSays(if ls == [] then "" else ls[0], name, token, key);
    hide Says, KeyOf, EntryLine, Trim, TrimEnd, PlainName;
    hide UpsertLines;
    if ls == [] {
      UpsertNone(name, token, replaced);
      ReadCons(mine, [], key);
      assert [mine] + [] == [mine];
    } else {
      hide ReadLines;
      var now := replaced || KeyOf(ls[0]) == Some(name);
      var rest := UpsertLines(ls[1..], name, token, now);
      ReadUpserted(ls[1..], name, token, now, key);
      UpsertCons(ls, name, token, replaced);
      ReadCons(mine, rest, key);
      ReadCons(ls[0], rest, key);
      assert ls == [ls[0]] + ls[1..];
      ReadCons(ls[0], ls[1..], key);
    }
  }

  lemma {:induction false} UpsertedLines(ls: seq<string>, name: string, token: string, replaced: bool)
    requires '\n' !in EntryLine(name, token) && forall i | 0 <= i < |ls| :: '\n' !in ls[i]
    ensures var ls' := UpsertLines(ls, name, token, replaced);
            (!replaced ==> ls' != []) && forall i | 0 <= i < |ls'| :: '\n' !in ls'[i]
    decreases |ls|
  {
    hide KeyOf, EntryLine, UpsertLines;
    if ls == [] {
      UpsertNone(name, token, replaced);
    } else {
      UpsertCons(ls, name, token, replaced);
      UpsertedLines(ls[1..], name, token, replaced || KeyOf(ls[0]) == Some(name));
    }
  }

  lemma PlainToken(token: string)
    ensures token != [] && (forall i | 0 <= i < |token| :: !White(token[i])) ==> Value(token) == Some(token)
  {
    hide White;
    if token != [] && forall i | 0 <= i < |token| :: !White(token[i]) {
      PlainIsTrimmed(token);
      assert TrimEnd(token) == token;
    }
  }

  /** In every file, however it was edited: after an entry is set, reading its name
      gives the token, and reading any other name gives what it gave before. */
  lemma SetThenRead(t: string, name: string, token: string, key: string)
    requires PlainName(name) && '\n' !in token
    ensures Read(Upsert(t, name, token), key) == if key == name then Value(token) else Read(t, key)
    ensures token != [] && (forall i | 0 <= i < |token| :: !White(token[i])) ==>
              Read(Upsert(t, name, token), name) == Some(token)
  {
    PlainToken(token);
    hide Value, White, PlainName, Lines, Join, UpsertLines, ReadLines;
    SetThenReadAny(t, name, token, key);
    SetThenReadAny(t, name, token, name);
  }

  lemma SetThenReadAny(t: string, name: string, token: string, key: string)
    requires PlainName(name) && '\n' !in token
    ensures Read(Upsert(t, name, token), key) == if key == name then Value(token) else Read(t, key)
  {
    var ls := Lines(t);
    var ls' := UpsertLines(ls, name, token, false);
    assert '\n' !in EntryLine(name, token);
    UpsertedLines(ls, name, token, false);
    LinesOfJoin(ls');
    ReadChomped(ls', key);
    ReadUpserted(ls, name, token, false, key);
  }

  /** The lines that are not an entry of `name`. */
  function Others(ls: seq<string>, name: string): seq<string> {
    if ls == [] then [] else (if KeyOf(ls[0]) == Some(name) then [] else [ls[0]]) + Others(ls[1..], name)
  }

  lemma OthersCons(l: string, ls: seq<string>, name: string)
    ensures Others([l] + ls, name) == (if KeyOf(l) == Some(name) then [] else [l]) + Others(ls, name)
  {
    hide KeyOf;
    assert ([l] + ls)[1..] == ls;
  }

  /** Every other line stays, in order: comments, blank lines and entries alike;
      and exactly one line is the entry's own. */
  lemma {:induction false} OtherLinesStay(ls: seq<string>, name: string, token: string, replaced: bool)
    requires PlainName(name)
    ensures var ls' := UpsertLines(ls, name, token, replaced);
            && Others(ls', name) == Others(ls, name)
            && |ls'| == |Others(ls', name)| + (if replaced then 0 else 1)
    decreases |ls|
  {
    var mine := EntryLine(name, token);
    EntryHasItsKey(name, token);
    hide KeyOf, EntryLine, PlainName, Says, Trim, TrimEnd;
    if ls == [] {
      OthersCons(mine, [], name);
      assert [mine] + [] == [mine];
    } else {
      var now := replaced || KeyOf(ls[0]) == Some(name);
      OtherLinesStay(ls[1..], name, token, now);
      var rest := UpsertLines(ls[1..], name, token, now);
      UpsertCons(ls, name, token, replaced);
      OthersCons(mine, rest, name);
      OthersCons(ls[0], rest, name);
    }
  }

  lemma KeyOfChomped(l: string)
    ensures KeyOf(Chomp(l)) == KeyOf(l)
  {
    var m, n := Chomp(l), Find(l, '=');
    if m != l {
      assert l == m + "\r";
      if n < |l| {
        assert l[n] == '=' && n < |m| && m[..n] == l[..n] && m[n] == '=';
        FindIs(m, '=', n);
      } else {
        assert l[..|l|] == l && m[..|m|] == m;
        FindIs(m, '=', |m|);
      }
    }
  }

  lemma {:induction false} OthersChomped(ls: seq<string>, name: string)
    ensures Others(Chomped(ls), name) == Chomped(Others(ls, name))
    decreases |ls|
  {
    hide KeyOf, Chomp;
    if ls == [] {
    } else {
      KeyOfChomped(ls[0]);
      assert Chomped(ls)[0] == Chomp(ls[0]) && Chomped(ls)[1..] == Chomped(ls[1..]);
      OthersChomped(ls[1..], name);
    }
  }

  /** In every file, however it was edited: setting an entry keeps every line that
      is not that name's own, in order, but for carriage returns at line ends, and
      leaves exactly one line of that name. */
  lemma OtherTextStays(t: string, name: string, token: string)
    requires PlainName(name) && '\n' !in token
    ensures var after := Lines(Upsert(t, name, token));
            && Others(after, name) == Chomped(Others(Lines(t), name))
            && |after| == |Others(after, name)| + 1
  {
    var ls := Lines(t);
    var ls' := UpsertLines(ls, name, token, false);
    assert '\n' !in EntryLine(name, token);
    UpsertedLines(ls, name, token, false);
    hide Lines, Join, UpsertLines, Others, KeyOf, PlainName;
    LinesOfJoin(ls');
    OtherLinesStay(ls, name, token, false);
    OthersChomped(ls', name);
  }
}
