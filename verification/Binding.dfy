/** Binding records, src/proxy.rs: the file by which a window's hooks and its next
    proxy find its credential. Proxies of one conversation share it. Each reads
    its own state first, and changes the file later, under the configuration lock:
    replacing it whole, stamping a renewed expiry, or marking it closed. */
module Binding {
  import opened Basics

  /** Whose credential: a session, and the epoch that fences its predecessors. */
  datatype Owner = Owner(sessionId: string, epoch: int)

  /** The record's fields; `rest` are those nothing here writes on its own. */
  datatype Record = Record(
    token: Option<string>,
    sessionId: Option<string>,
    epoch: Option<int>,
    expiresAt: Option<string>,
    closedAt: Option<string>,
    updatedAt: Option<string>,
    rest: string)

  /** A file that is not there or is not JSON, one that is JSON and not an object,
      or a record. */
  datatype File = Unreadable | Other(text: string) | Bound(record: Record)

  predicate OwnedBy(f: File, o: Owner) {
    f.Bound? && f.record.sessionId == Some(o.sessionId) && f.record.epoch == Some(o.epoch)
  }

  /** What a restart resumes with. */
  function Credential(f: File): Option<(Option<string>, Option<string>, Option<int>)> {
    match f
    case Bound(r) => Some((r.token, r.sessionId, r.epoch))
    case _ => None
  }

  function Stamped(f: File, o: Owner, expiresAt: string, now: string): File {
    if OwnedBy(f, o) then Bound(f.record.(expiresAt := Some(expiresAt), updatedAt := Some(now))) else f
  }

  // `mine` is `None` for a window whose identity carries no credential.
  function Closed(f: File, mine: Option<Owner>, now: string): File {
    if f.Bound? && (mine.None? || OwnedBy(f, mine.value)) then Bound(f.record.(closedAt := Some(now))) else f
  }

  /** One binding file. Every method is one section under the configuration lock;
      `writes` says whether replacing the file succeeds. */
  class BindingFile {
    var file: File

    constructor ()
      ensures file == Unreadable
    {
      file := Unreadable;
    }

    // `stamp_binding_expiry`.
    method StampExpiry(o: Owner, expiresAt: string, now: string, writes: bool) returns (stamped: Option<bool>)
      modifies this
      ensures file == if writes then Stamped(old(file), o, expiresAt, now) else old(file)
      ensures stamped == Some(false) <==> !OwnedBy(old(file), o)
      ensures stamped == Some(true) ==> writes
      ensures Credential(file) == Credential(old(file))
    {
      match file
      case Unreadable => return Some(false);
      case Other(_) => return Some(false);
      case Bound(r) =>
        var same := r.sessionId == Some(o.sessionId) && r.epoch == Some(o.epoch);
        if !same { return Some(false); }
        if !writes { return None; }
        file := Bound(r.(expiresAt := Some(expiresAt), updatedAt := Some(now)));
        return Some(true);
    }

    // `mark_closed`, for a window that has an identity.
    method MarkClosed(mine: Option<Owner>, now: string, writes: bool) returns (marked: Option<bool>)
      modifies this
      ensures file == if writes then Closed(old(file), mine, now) else old(file)
      ensures marked == Some(false) <==>
                old(file) == Unreadable || (mine.Some? && !OwnedBy(old(file), mine.value))
      ensures marked == Some(true) ==> writes
      ensures Credential(file) == Credential(old(file))
    {
      if file == Unreadable { return Some(false); }
      if mine.Some? {
        var same := file.Bound? && file.record.sessionId == Some(mine.value.sessionId)
                    && file.record.epoch == Some(mine.value.epoch);
        if !same { return Some(false); }
      }
      if !writes { return None; }
      if file.Bound? {
        file := Bound(file.record.(closedAt := Some(now)));
      }
      return Some(true);
    }

    // `write_binding`.
    method Replace(record: Record, writes: bool)
      modifies this
      ensures file == if writes then Bound(record) else old(file)
    {
      if writes { file := Bound(record); }
    }
  }

  // ------------------------------------------------------------------- runs --

  /** A change a proxy has made up its mind to and not yet written. */
  datatype Change =
    | Stamp(key: nat, owner: Owner, expiresAt: string)
    | Close(key: nat, mine: Option<Owner>)
    | Write(key: nat, record: Record)

  /** A proxy: the key of its record, the record it would write, and its identity's
      credential; the outer `None` is a window with no identity. */
  datatype Proxy = Proxy(key: nat, record: Record, identity: Option<Option<Owner>>)

  /** `committed` lists the changes written so far. */
  datatype World = World(
    proxies: map<nat, Proxy>,
    pending: map<nat, Change>,
    files: map<nat, File>,
    committed: seq<Change>)

  /** `Becomes` is anything that happens to a proxy: it starts, connects, adopts a
      rotated credential, is stranded or exits. */
  datatype Event =
    | Becomes(p: nat, proxy: Proxy)
    | BeginStamp(p: nat, t: nat, expiresAt: string)
    | BeginClose(p: nat, t: nat)
    | BeginWrite(p: nat, t: nat)
    | Commit(t: nat, now: string, writes: bool)

  function FileAt(w: World, key: nat): File { if key in w.files then w.files[key] else Unreadable }

  function Applied(f: File, c: Change, now: string): File {
    match c
    case Stamp(_, o, expiresAt) => Stamped(f, o, expiresAt, now)
    case Close(_, mine) => Closed(f, mine, now)
    case Write(_, record) => Bound(record)
  }

  function Begin(w: World, t: nat, c: Change): World {
    if t in w.pending then w else w.(pending := w.pending[t := c])
  }

  function Next(w: World, e: Event): World {
    match e
    case Becomes(p, proxy) => w.(proxies := w.proxies[p := proxy])
    case BeginStamp(p, t, expiresAt) =>
      if p in w.proxies && w.proxies[p].identity.Some? && w.proxies[p].identity.value.Some?
      then Begin(w, t, Stamp(w.proxies[p].key, w.proxies[p].identity.value.value, expiresAt)) else w
    case BeginClose(p, t) =>
      if p in w.proxies && w.proxies[p].identity.Some?
      then Begin(w, t, Close(w.proxies[p].key, w.proxies[p].identity.value)) else w
    case BeginWrite(p, t) => if p in w.proxies then Begin(w, t, Write(w.proxies[p].key, w.proxies[p].record)) else w
    case Commit(t, now, writes) =>
      if t !in w.pending then w
      else
        var c := w.pending[t];
        if writes
        then w.(pending := w.pending - {t}, files := w.files[c.key := Applied(FileAt(w, c.key), c, now)],
                committed := w.committed + [c])
        else w.(pending := w.pending - {t})
  }

  function Run(w: World, es: seq<Event>): World
    decreases |es|
  {
    if es == [] then w else Run(Next(w, es[0]), es[1..])
  }

  /** The changes a run writes to one file. */
  function WrittenIn(w: World, es: seq<Event>, key: nat): seq<Change>
    decreases |es|
  {
    if es == [] then []
    else
      var e := es[0];
      var rest := WrittenIn(Next(w, e), es[1..], key);
      if e.Commit? && e.writes && e.t in w.pending && w.pending[e.t].key == key then [w.pending[e.t]] + rest else rest
  }

  /** A change may alter a record of `o`: by whoever holds `o`, by a window that
      holds no credential at all, or by replacing it whole. */
  predicate Reaches(c: Change, o: Owner) {
    match c
    case Stamp(_, held, _) => held == o
    case Close(_, mine) => mine.None? || mine.value == o
    case Write(_, _) => true
  }

  predicate Outside(cs: seq<Change>, o: Owner) { forall i | 0 <= i < |cs| :: !Reaches(cs[i], o) }

  predicate NoneWhole(cs: seq<Change>) { forall i | 0 <= i < |cs| :: !cs[i].Write? }

  /** Whatever other proxies do meanwhile, and whenever they read their own state,
      their stamps and close marks leave a record of another session or epoch
      exactly as it is. */
  lemma {:induction false} OthersLeaveItAlone(w: World, es: seq<Event>, key: nat, o: Owner)
    requires OwnedBy(FileAt(w, key), o)
    ensures Outside(WrittenIn(w, es, key), o) ==> FileAt(Run(w, es), key) == FileAt(w, key)
    decreases |es|
  {
    if es == [] {
    } else if Outside(WrittenIn(w, es, key), o) {
      var e := es[0];
      var rest := WrittenIn(Next(w, e), es[1..], key);
      var all := WrittenIn(w, es, key);
      assert all == rest || (all[0] == w.pending[e.t] && all[1..] == rest);
      assert Outside(rest, o) by {
        assert forall i | 0 <= i < |rest| :: rest[i] == if all == rest then all[i] else all[i + 1];
      }
      assert FileAt(Next(w, e), key) == FileAt(w, key) by {
        if e.Commit? && e.t in w.pending && e.writes && w.pending[e.t].key == key {
          assert !Reaches(all[0], o);
        }
      }
      OthersLeaveItAlone(Next(w, e), es[1..], key, o);
    }
  }

  /** A proxy that replaces the record finds its own record there afterwards, to the
      letter, whatever stamps and close marks of its predecessors come late. */
  lemma ReplacementHolds(w: World, t: nat, now: string, es: seq<Event>, o: Owner)
    requires t in w.pending && w.pending[t].Write? && OwnedBy(Bound(w.pending[t].record), o)
    ensures var c := w.pending[t];
            var w' := Next(w, Commit(t, now, true));
            Outside(WrittenIn(w', es, c.key), o) ==> FileAt(Run(w', es), c.key) == Bound(c.record)
  {
    var w' := Next(w, Commit(t, now, true));
    assert FileAt(w', w.pending[t].key) == Bound(w.pending[t].record);
    OthersLeaveItAlone(w', es, w.pending[t].key, o);
  }

  /** Stamps and close marks, of any owner or none, never touch the credential a
      restart resumes with. */
  lemma {:induction false} CredentialSurvives(w: World, es: seq<Event>, key: nat)
    ensures NoneWhole(WrittenIn(w, es, key)) ==> Credential(FileAt(Run(w, es), key)) == Credential(FileAt(w, key))
    decreases |es|
  {
    if es == [] {
    } else if NoneWhole(WrittenIn(w, es, key)) {
      var e := es[0];
      var rest := WrittenIn(Next(w, e), es[1..], key);
      var all := WrittenIn(w, es, key);
      assert all == rest || (all[0] == w.pending[e.t] && all[1..] == rest);
      assert NoneWhole(rest) by {
        assert forall i | 0 <= i < |rest| :: rest[i] == if all == rest then all[i] else all[i + 1];
      }
      assert Credential(FileAt(Next(w, e), key)) == Credential(FileAt(w, key)) by {
        if e.Commit? && e.t in w.pending && e.writes && w.pending[e.t].key == key {
          assert !all[0].Write?;
        }
      }
      CredentialSurvives(Next(w, e), es[1..], key);
    }
  }

  function Unlike(was: Option<string>): (now: string)
    ensures was != Some(now)
  {
    match was
    case Some(text) => text + "+"
    case None => ""
  }

  /** A change alters a record of `o`, for some clock reading, exactly if it reaches
      it and says something new. */
  lemma ReachIsExact(r: Record, o: Owner, c: Change)
    requires OwnedBy(Bound(r), o) && !c.Write?
    ensures Reaches(c, o) <==> exists now: string :: Applied(Bound(r), c, now) != Bound(r)
  {
    if Reaches(c, o) {
      var now := Unlike(if c.Stamp? then r.updatedAt else r.closedAt);
      assert Applied(Bound(r), c, now) != Bound(r);
    }
  }
}
