/** The proxy's reference spool, src/spool.rs: an append-only file of one entry
    a line. Here are its text, what a reader makes of any text (torn or not), and
    the operations that change the file. `Delivery` puts them to work under
    crashes. Text is a sequence of ASCII characters. */
module Spool {
  import opened Basics

  type Id = string

  datatype Entry = Entry(
    deliveryId: Id,
    messageId: string,
    conversationId: string,
    position: int,
    fromAddress: string,
    createdAt: string,
    confirmed: bool,
    spooledAt: string)

  /** How entries are written on a line and read back. */
  datatype Codec = Codec(enc: Entry -> string, dec: string -> Option<Entry>)

  predicate Blank(l: string) { forall i | 0 <= i < |l| :: l[i] in {' ', '\t', '\r'} }

  /** What is used of the JSON form of an entry: it reads back, it is one line,
      it is not blank, no proper beginning of it reads as an entry, and a carriage
      return after a line means nothing. */
  ghost predicate Lawful(c: Codec) {
    && (forall e :: c.dec(c.enc(e)) == Some(e) && '\n' !in c.enc(e) && '\r' !in c.enc(e) && !Blank(c.enc(e)))
    && (forall e, n: nat | n < |c.enc(e)| :: c.dec(c.enc(e)[..n]) == None)
    && (forall l: string :: c.dec(l + "\r") == c.dec(l))
  }

  // --------------------------------------------------------------- reading --

  function ReadLine(c: Codec, l: string): seq<Entry> {
    if Blank(l) then []
    else match c.dec(l) case Some(e) => [e] case None => []
  }

  /** `read`: the entries on the lines that parse. */
  function Read(c: Codec, t: string): seq<Entry>
    decreases |t|
  {
    if t == [] then []
    else
      var n := Find(t, '\n');
      if n == |t| then ReadLine(c, t)
      else ReadLine(c, Chomp(t[..n])) + Read(c, t[n + 1..])
  }

  predicate Terminated(t: string) { t == [] || t[|t| - 1] == '\n' }

  /** Text without a line end is one line. */
  lemma ReadLast(c: Codec, l: string)
    requires '\n' !in l
    ensures Read(c, l) == ReadLine(c, l)
  {
    FindIs(l, '\n', |l|);
  }

  /** A line end starts reading afresh. */
  lemma ReadHead(c: Codec, l: string, u: string)
    requires '\n' !in l
    ensures Read(c, l + "\n" + u) == ReadLine(c, Chomp(l)) + Read(c, u)
  {
    hide ReadLine, Chomp;
    var t := l + "\n" + u;
    assert t[..|l|] == l;
    FindIs(t, '\n', |l|);
    assert t[|l| + 1..] == u;
  }

  /** Every text is one line, or one line and the rest. */
  function HeadOf(t: string): (l: string)
    ensures '\n' !in l
    ensures |l| <= |t| && (|l| == |t| ==> t == l) && (|l| < |t| ==> t == l + "\n" + t[|l| + 1..])
  {
    t[..Find(t, '\n')]
  }

  lemma Regroup(l: string, rest: string, u: string)
    ensures l + "\n" + rest + u == l + "\n" + (rest + u)
  {
  }

  /** A text that ends a line has its readings added. */
  lemma {:induction false} ReadAdds(c: Codec, t: string, u: string)
    requires Terminated(t)
    ensures Read(c, t + u) == Read(c, t) + Read(c, u)
    decreases |t|
  {
    hide Read, ReadLine, Chomp, HeadOf;
    if t == [] {
      assert t + u == u;
      ReadNothing(c);
    } else {
      var l := HeadOf(t);
      assert |l| < |t|;
      var rest := t[|l| + 1..];
      assert Terminated(rest);
      Regroup(l, rest, u);
      ReadHead(c, l, rest + u);
      ReadHead(c, l, rest);
      ReadAdds(c, rest, u);
    }
  }

  lemma ReadLineChomped(c: Codec, l: string)
    requires Lawful(c)
    ensures ReadLine(c, Chomp(l)) == ReadLine(c, l)
  {
    if Chomp(l) != l {
      assert l == Chomp(l) + "\r";
    }
  }

  /** Ending a torn last line changes nothing a reader sees, in any file. */
  lemma {:induction false} RepairIsInvisible(c: Codec, t: string)
    requires Lawful(c)
    ensures Read(c, Repaired(t)) == Read(c, t)
    decreases |t|
  {
    if !Terminated(t) {
      hide Read, ReadLine, Chomp, HeadOf, Lawful;
      var l := HeadOf(t);
      if |l| == |t| {
        ReadLast(c, t);
        ReadLineChomped(c, t);
        ReadHead(c, t, "");
        ReadNothing(c);
        assert t + "\n" == t + "\n" + "";
      } else {
        var rest := t[|l| + 1..];
        Regroup(l, rest, "\n");
        ReadHead(c, l, rest);
        ReadHead(c, l, rest + "\n");
        RepairIsInvisible(c, rest);
      }
    }
  }

  lemma ReadNothing(c: Codec)
    ensures Read(c, "") == []
  {
  }

  /** One whole line at the front. */
  lemma ReadFirst(c: Codec, e: Entry, u: string)
    requires Lawful(c)
    ensures Read(c, c.enc(e) + "\n" + u) == [e] + Read(c, u)
  {
    hide Read;
    assert Chomp(c.enc(e)) == c.enc(e);
    ReadHead(c, c.enc(e), u);
  }

  // --------------------------------------------------------------- writing --

  function Repaired(t: string): string { if Terminated(t) then t else t + "\n" }

  function EncLines(c: Codec, es: seq<Entry>): string {
    if es == [] then [] else c.enc(es[0]) + "\n" + EncLines(c, es[1..])
  }

  lemma {:induction false} ReadWritten(c: Codec, es: seq<Entry>)
    requires Lawful(c)
    ensures Read(c, EncLines(c, es)) == es
    decreases |es|
  {
    if es == [] {
    } else {
      ReadFirst(c, es[0], EncLines(c, es[1..]));
      ReadWritten(c, es[1..]);
    }
  }

  function Ids(es: seq<Entry>): set<Id> { set e <- es :: e.deliveryId }

  ghost predicate Distinct(es: seq<Entry>) {
    forall i, j | 0 <= i < j < |es| :: es[i].deliveryId != es[j].deliveryId
  }

  /** The entries `append` will write: the first of each id not held yet. */
  function Fresh(existing: seq<Entry>, entries: seq<Entry>): seq<Entry>
    decreases |entries|
  {
    if entries == [] then []
    else
      var n := |entries| - 1;
      var added := Fresh(existing, entries[..n]);
      if entries[n].deliveryId in Ids(existing) || entries[n].deliveryId in Ids(added) then added
      else added + [entries[n]]
  }

  function AppendText(c: Codec, t: string, entries: seq<Entry>): string {
    var added := Fresh(Read(c, t), entries);
    if added == [] then t else Repaired(t) + EncLines(c, added)
  }

  lemma IdsSnoc(es: seq<Entry>, e: Entry)
    ensures Ids(es + [e]) == Ids(es) + {e.deliveryId}
  {
    assert forall f :: f in es + [e] <==> f in es || f == e;
  }

  lemma DistinctSnoc(es: seq<Entry>, e: Entry)
    requires Distinct(es) && e.deliveryId !in Ids(es)
    ensures Distinct(es + [e])
  {
    forall i, j | 0 <= i < j < |es + [e]| ensures (es + [e])[i].deliveryId != (es + [e])[j].deliveryId {
      assert (es + [e])[i] == es[i] && es[i].deliveryId in Ids(es);
    }
  }

  lemma {:induction false} FreshIsNew(existing: seq<Entry>, entries: seq<Entry>)
    ensures var added := Fresh(existing, entries);
            && Distinct(added)
            && Ids(added) !! Ids(existing)
            && Ids(existing) + Ids(added) == Ids(existing) + Ids(entries)
            && (forall e <- added :: e in entries)
    decreases |entries|
  {
    hide Distinct;
    if entries == [] {
      NoIds();
    } else {
      var n := |entries| - 1;
      var e, before := entries[n], Fresh(existing, entries[..n]);
      assert entries == entries[..n] + [e];
      FreshIsNew(existing, entries[..n]);
      IdsSnoc(entries[..n], e);
      IdsSnoc(before, e);
      hide Ids;
      if e.deliveryId in Ids(existing) || e.deliveryId in Ids(before) {
        assert Fresh(existing, entries) == before;
      } else {
        assert Fresh(existing, entries) == before + [e];
        DistinctSnoc(before, e);
      }
    }
  }

  lemma NoIds()
    ensures Ids([]) == {} && Distinct([])
  {
  }

  lemma DistinctJoins(a: seq<Entry>, b: seq<Entry>)
    requires Distinct(a) && Distinct(b) && Ids(a) !! Ids(b)
    ensures Distinct(a + b)
  {
    forall i, j | 0 <= i < j < |a + b| ensures (a + b)[i].deliveryId != (a + b)[j].deliveryId {
      if i < |a| <= j {
        assert a[i].deliveryId in Ids(a) && b[j - |a|].deliveryId in Ids(b);
      }
    }
  }

  /** In every file, torn or not: after `append`, a reader sees what was readable
      before, then exactly the fresh entries; ids that were distinct stay so. */
  lemma ReadAfterAppend(c: Codec, t: string, entries: seq<Entry>)
    requires Lawful(c)
    ensures var held := Read(c, t);
            && Read(c, AppendText(c, t, entries)) == held + Fresh(held, entries)
            && (Distinct(held) ==> Distinct(held + Fresh(held, entries)))
  {
    hide Read;
    var held := Read(c, t);
    var added := Fresh(held, entries);
    RepairIsInvisible(c, t);
    ReadAdds(c, Repaired(t), EncLines(c, added));
    ReadWritten(c, added);
    FreshIsNew(held, entries);
    if Distinct(held) {
      DistinctJoins(held, added);
    }
  }

  /** How many of `added` are readable once `n` bytes of them are written: the
      last counts without its newline. */
  function Survivors(c: Codec, added: seq<Entry>, n: nat): (k: nat)
    ensures k <= |added|
    decreases |added|
  {
    if added == [] || n < |c.enc(added[0])| then 0
    else 1 + Survivors(c, added[1..], if n == |c.enc(added[0])| then 0 else n - |c.enc(added[0])| - 1)
  }

  lemma NothingSurvives(c: Codec, added: seq<Entry>)
    requires Lawful(c)
    ensures Survivors(c, added, 0) == 0
  {
    if added != [] {
      assert !Blank(c.enc(added[0]));
    }
  }

  lemma ReadTornLine(c: Codec, e: Entry, n: nat)
    requires Lawful(c) && n <= |c.enc(e)|
    ensures Read(c, c.enc(e)[..n]) == if n == |c.enc(e)| then [e] else []
  {
    hide Read;
    var t := c.enc(e)[..n];
    assert '\n' !in c.enc(e);
    ReadLast(c, t);
    if n == |c.enc(e)| {
      assert t == c.enc(e);
    }
  }

  /** A write cut at any byte leaves whole entries, in order, and never a part of
      one. */
  lemma {:induction false} ReadTorn(c: Codec, added: seq<Entry>, n: nat)
    requires Lawful(c) && n <= |EncLines(c, added)|
    ensures Read(c, EncLines(c, added)[..n]) == added[..Survivors(c, added, n)]
    decreases |added|
  {
    hide Read, Lawful;
    var t := EncLines(c, added)[..n];
    if added == [] {
      ReadNothing(c);
    } else {
      var line := c.enc(added[0]);
      var rest := EncLines(c, added[1..]);
      if n <= |line| {
        assert t == line[..n];
        ReadTornLine(c, added[0], n);
        NothingSurvives(c, added[1..]);
      } else {
        var m := n - |line| - 1;
        assert t == line + "\n" + rest[..m];
        ReadFirst(c, added[0], rest[..m]);
        ReadTorn(c, added[1..], m);
      }
    }
  }

  // ------------------------------------------------------------- compacting --

  const KEEP_HOURS: int := 48

  /** What `rewrite` knows of time, in seconds: how an instant reads, and the clock. */
  datatype Retention = Retention(instant: string -> Option<int>, now: int)

  predicate Retained(k: Retention, e: Entry) {
    var cutoff := k.now - KEEP_HOURS * 3600;
    !e.confirmed || (match k.instant(e.spooledAt) case Some(at) => at > cutoff case None => true)
  }

  function Kept(k: Retention, es: seq<Entry>): seq<Entry> {
    if es == [] then [] else (if Retained(k, es[0]) then [es[0]] else []) + Kept(k, es[1..])
  }

  function Join(c: Codec, es: seq<Entry>): string {
    if es == [] then [] else if |es| == 1 then c.enc(es[0]) else c.enc(es[0]) + "\n" + Join(c, es[1..])
  }

  function RewriteText(c: Codec, k: Retention, es: seq<Entry>): string {
    Join(c, Kept(k, es)) + "\n"
  }

  lemma {:induction false} JoinIsLines(c: Codec, es: seq<Entry>)
    ensures es != [] ==> Join(c, es) + "\n" == EncLines(c, es)
    decreases |es|
  {
    if |es| == 1 {
      assert EncLines(c, es[1..]) == [];
    } else if |es| > 1 {
      JoinIsLines(c, es[1..]);
      assert c.enc(es[0]) + "\n" + Join(c, es[1..]) + "\n" == c.enc(es[0]) + "\n" + (Join(c, es[1..]) + "\n");
    }
  }

  lemma {:induction false} KeptSome(k: Retention, es: seq<Entry>)
    ensures forall e :: e in Kept(k, es) <==> e in es && Retained(k, e)
    ensures Distinct(es) ==> Distinct(Kept(k, es))
    decreases |es|
  {
    if es == [] {
    } else {
      KeptSome(k, es[1..]);
      assert forall e :: e in es <==> e == es[0] || e in es[1..];
      if Distinct(es) {
        var rest := Kept(k, es[1..]);
        assert Distinct(es[1..]);
        forall j | 0 <= j < |rest| ensures es[0].deliveryId != rest[j].deliveryId {
          assert rest[j] in es[1..];
        }
      }
    }
  }

  /** An entry is dropped exactly if the bus has been told of it and it is known to
      be two days old. */
  lemma DroppedIff(k: Retention, es: seq<Entry>, e: Entry)
    requires e in es
    ensures e !in Kept(k, es) <==>
              e.confirmed && k.instant(e.spooledAt).Some? && k.now - k.instant(e.spooledAt).value >= 172_800
  {
    KeptSome(k, es);
  }

  /** After `rewrite`, a reader sees exactly what the retention rule keeps. */
  lemma ReadAfterRewrite(c: Codec, k: Retention, es: seq<Entry>)
    requires Lawful(c)
    ensures Read(c, RewriteText(c, k, es)) == Kept(k, es)
    ensures Terminated(RewriteText(c, k, es))
  {
    var kept := Kept(k, es);
    if kept == [] {
      assert RewriteText(c, k, es) == "\n";
      assert Find("\n", '\n') == 0;
    } else {
      JoinIsLines(c, kept);
      ReadWritten(c, kept);
    }
  }

  // -------------------------------------------------------------- the file --

  /** The loop that leaves out what is already held. */
  method Unheld(existing: seq<Entry>, entries: seq<Entry>) returns (added: seq<Entry>)
    ensures added == Fresh(existing, entries)
  {
    added := [];
    for i := 0 to |entries|
      invariant added == Fresh(existing, entries[..i])
    {
      assert entries[..i + 1][..i] == entries[..i];
      var id := entries[i].deliveryId;
      if id !in Ids(existing) && id !in Ids(added) {
        added := added + [entries[i]];
      }
    }
    assert entries[..|entries|] == entries;
  }

  /** The file, and how much of it is on disk for good. */
  class SpoolFile {
    const codec: Codec
    var text: string
    var durable: nat

    ghost predicate Valid()
      reads this
    {
      Lawful(codec) && durable <= |text|
    }

    /** The file as a process finds it: all that is there has survived. */
    constructor (codec: Codec, found: string)
      requires Lawful(codec)
      ensures Valid() && this.codec == codec && text == found && durable == |found|
    {
      this.codec, text, durable := codec, found, |found|;
    }

    method RepairTail()
      requires Valid()
      modifies this
      ensures Valid() && text == Repaired(old(text))
      ensures durable == if Terminated(old(text)) then old(durable) else |text|
    {
      if text != [] && text[|text| - 1] != '\n' {
        text := text + "\n";
        durable := |text|;
      }
    }

    /** Append what is not held yet, and fsync. */
    method Append(entries: seq<Entry>) returns (added: seq<Entry>)
      requires Valid()
      modifies this
      ensures Valid()
      ensures added == Fresh(Read(codec, old(text)), entries)
      ensures text == AppendText(codec, old(text), entries)
      ensures if added == [] then durable == old(durable) else durable == |text|
      ensures Read(codec, text) == Read(codec, old(text)) + added
    {
      ReadAfterAppend(codec, text, entries);
      hide Read, Lawful;
      var existing := Read(codec, text);
      added := Unheld(existing, entries);
      if added == [] {
        return;
      }
      RepairTail();
      WriteLines(added);
      durable := |text|;
    }

    method WriteLines(es: seq<Entry>)
      requires durable <= |text|
      modifies `text
      ensures text == old(text) + EncLines(codec, es)
    {
      for i := 0 to |es|
        invariant text == old(text) + EncLines(codec, es[..i])
      {
        EncLinesGrow(codec, es[..i], es[i]);
        assert es[..i] + [es[i]] == es[..i + 1];
        text := text + codec.enc(es[i]) + "\n";
      }
      assert es[..|es|] == es;
    }

    /** Replace the file at once with the entries worth keeping. */
    method Rewrite(es: seq<Entry>, k: Retention)
      requires Valid()
      modifies this
      ensures Valid() && text == RewriteText(codec, k, es) && durable == |text|
      ensures Read(codec, text) == Kept(k, es)
    {
      ReadAfterRewrite(codec, k, es);
      text := RewriteText(codec, k, es);
      durable := |text|;
    }
  }

  lemma {:induction false} EncLinesGrow(c: Codec, es: seq<Entry>, e: Entry)
    ensures EncLines(c, es + [e]) == EncLines(c, es) + c.enc(e) + "\n"
    decreases |es|
  {
    if es == [] {
      assert es + [e] == [e];
      assert EncLines(c, [e][1..]) == [];
    } else {
      assert (es + [e])[1..] == es[1..] + [e];
      EncLinesGrow(c, es[1..], e);
    }
  }
}
