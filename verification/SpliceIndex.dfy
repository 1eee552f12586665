/**
 The in-memory index of splices (spliceGraph, server_splice.go): the splice transactions of ours a block may hold,
 with the funding output each spends, and for every short channel id a channel has had, the one it goes by now.

 The index is read from the channel database when first used and then kept by events. `System` puts the two together:
 the database changes, the index is told or never is, queries come at any time, any reading may fail, and the node may
 restart. What a query finds is compared with the database and with the log of every move a splice made.
 */
module SpliceIndex {

  import opened Options

  type Txid = nat
  type OutPoint = nat
  type Scid = nat
  type Name = nat

  // ---------------------------------------------------------------- the index

  datatype RecordRead = RecordRead(txid: Txid, retired: bool)

  /** What reading an open channel gives: the output and the id that name it, the id and output it is on, its splice
      records and the ids SpliceScids lists, either of which may fail to be read. */
  datatype ChanRead = ChanRead(
    name: Name, scid: Scid, currentScid: Scid, funding: OutPoint,
    records: Option<seq<RecordRead>>, scids: Option<seq<Scid>>)

  datatype Index = Index(loaded: bool, txids: map<Txid, OutPoint>, latest: map<Scid, Scid>)

  const EMPTY := Index(false, map[], map[])

  function PointAll(latest: map<Scid, Scid>, ids: seq<Scid>, to: Scid): map<Scid, Scid> {
    if ids == [] then latest else PointAll(latest, ids[..|ids| - 1], to)[ids[|ids| - 1] := to]
  }

  lemma {:induction false} PointsAll(latest: map<Scid, Scid>, ids: seq<Scid>, to: Scid)
    ensures var r := PointAll(latest, ids, to);
            && (forall x :: x in r <==> x in latest || x in ids)
            && (forall x | x in r :: r[x] == if x in ids then to else latest[x])
  {
    if ids != [] {
      PointsAll(latest, ids[..|ids| - 1], to);
    }
  }

  /** lockedLocked: every id the channel is known to have had points at its current one. */
  function WithLocked(g: Index, ch: ChanRead): Index {
    if ch.currentScid == ch.scid then g
    else
      var scids := if ch.scids.Some? then ch.scids.value else [];
      g.(latest := PointAll(g.latest[ch.scid := ch.currentScid], scids, ch.currentScid))
  }

  function WithRecords(txids: map<Txid, OutPoint>, records: seq<RecordRead>, funding: OutPoint): map<Txid, OutPoint> {
    if records == [] then txids
    else
      var last := records[|records| - 1];
      var rest := WithRecords(txids, records[..|records| - 1], funding);
      if last.retired then rest else rest[last.txid := funding]
  }

  lemma {:induction false} UnretiredAreIn(txids: map<Txid, OutPoint>, records: seq<RecordRead>, funding: OutPoint)
    ensures var r := WithRecords(txids, records, funding);
            && (forall t :: t in r <==> t in txids || RecordRead(t, false) in records)
            && (forall t | t in r :: r[t] == if RecordRead(t, false) in records then funding else txids[t])
  {
    if records != [] {
      UnretiredAreIn(txids, records[..|records| - 1], funding);
    }
  }

  function WithChannel(g: Index, ch: ChanRead): Index {
    WithLocked(g.(txids := WithRecords(g.txids, if ch.records.Some? then ch.records.value else [], ch.funding)), ch)
  }

  function WithChannels(g: Index, chs: seq<ChanRead>): Index {
    if chs == [] then g else WithChannel(WithChannels(g, chs[..|chs| - 1]), chs[|chs| - 1])
  }

  /** load: once, when the channels can be read. */
  function Load(g: Index, answer: Option<seq<ChanRead>>): Index {
    if g.loaded || answer.None? then g else WithChannels(g.(loaded := true), answer.value)
  }

  /** latestScid. */
  function LatestScid(g: Index, id: Scid): (r: Option<Scid>)
    ensures r.Some? ==> r.value != id
  {
    if id in g.latest && g.latest[id] != id then Some(g.latest[id]) else None
  }

  /** findBaseByAlias, from the alias manager's base. */
  function FindBase(g: Index, base: Scid): Scid {
    var latest := LatestScid(g, base);
    if latest.Some? then latest.value else base
  }

  class SpliceGraph {
    var loaded: bool
    var txids: map<Txid, OutPoint>
    var latest: map<Scid, Scid>

    ghost function View(): Index
      reads this
    {
      Index(loaded, txids, latest)
    }

    constructor ()
      ensures View() == EMPTY
    {
      loaded, txids, latest := false, map[], map[];
    }

    method LockedLocked(ch: ChanRead)
      modifies this
      ensures View() == WithLocked(old(View()), ch)
    {
      if ch.currentScid == ch.scid {
        return;
      }
      var scids := if ch.scids.Some? then ch.scids.value else [];
      latest := latest[ch.scid := ch.currentScid];
      for i := 0 to |scids|
        invariant latest == PointAll(old(latest)[ch.scid := ch.currentScid], scids[..i], ch.currentScid)
        invariant loaded == old(loaded) && txids == old(txids)
      {
        assert scids[..i + 1][..i] == scids[..i];
        latest := latest[scids[i] := ch.currentScid];
      }
      assert scids[..|scids|] == scids;
    }

    method LoadOnce(answer: Option<seq<ChanRead>>)
      modifies this
      ensures View() == Load(old(View()), answer)
    {
      if loaded || answer.None? {
        return;
      }
      loaded := true;
      var channels := answer.value;
      for i := 0 to |channels|
        invariant View() == WithChannels(old(View()).(loaded := true), channels[..i])
      {
        var ch := channels[i];
        assert channels[..i + 1][..i] == channels[..i];
        ghost var before := View();
        var records := if ch.records.Some? then ch.records.value else [];
        for j := 0 to |records|
          invariant View() == before.(txids := WithRecords(before.txids, records[..j], ch.funding))
        {
          assert records[..j + 1][..j] == records[..j];
          if !records[j].retired {
            txids := txids[records[j].txid := ch.funding];
          }
        }
        assert records[..|records|] == records;
        LockedLocked(ch);
      }
      assert channels[..|channels|] == channels;
    }

    method OwnSplice(txid: Txid, answer: Option<seq<ChanRead>>) returns (funding: Option<OutPoint>)
      modifies this
      ensures View() == Load(old(View()), answer)
      ensures funding == Lookup(View().txids, txid)
    {
      LoadOnce(answer);
      return Lookup(txids, txid);
    }

    method Pending(txid: Txid, funding: OutPoint, answer: Option<seq<ChanRead>>)
      modifies this
      ensures var g := Load(old(View()), answer); View() == g.(txids := g.txids[txid := funding])
    {
      LoadOnce(answer);
      txids := txids[txid := funding];
    }

    method Gone(txid: Txid, answer: Option<seq<ChanRead>>)
      modifies this
      ensures var g := Load(old(View()), answer); View() == g.(txids := g.txids - {txid})
    {
      LoadOnce(answer);
      txids := txids - {txid};
    }

    method Locked(ch: ChanRead, answer: Option<seq<ChanRead>>)
      modifies this
      ensures View() == WithLocked(Load(old(View()), answer), ch)
    {
      LoadOnce(answer);
      LockedLocked(ch);
    }

    method LatestOf(scid: Scid, answer: Option<seq<ChanRead>>) returns (latestScid: Option<Scid>)
      modifies this
      ensures View() == Load(old(View()), answer)
      ensures latestScid == LatestScid(View(), scid)
    {
      LoadOnce(answer);
      if scid in latest && latest[scid] != scid {
        return Some(latest[scid]);
      }
      return None;
    }
  }

  // ---------------------------------------------------------------- the database

  datatype Record = Record(signed: bool, retired: bool, dead: bool)

  /** An open channel: every id it has had, the naming one first, and its splice records. */
  datatype Chan = Chan(ids: seq<Scid>, funding: OutPoint, records: map<Txid, Record>)

  type DB = map<Name, Chan>

  function CurrentId(ch: Chan): Scid
    requires ch.ids != []
  {
    ch.ids[|ch.ids| - 1]
  }

  predicate OnRecord(ch: Chan, t: Txid) {
    t in ch.records && !ch.records[t].retired
  }

  /** A splice that may still confirm and is signed. */
  predicate Live(ch: Chan, t: Txid) {
    OnRecord(ch, t) && ch.records[t].signed && !ch.records[t].dead
  }

  /** A reading of a channel, in which its records and the ids it has had may fail to be read. */
  ghost predicate ReadsChan(r: ChanRead, ch: Chan) {
    && ch.ids != []
    && r.scid == ch.ids[0] && r.currentScid == CurrentId(ch) && r.funding == ch.funding
    && (r.records.Some? ==> forall t :: RecordRead(t, false) in r.records.value <==> OnRecord(ch, t))
    && (r.scids.Some? ==> forall x :: x in r.scids.value <==> x in ch.ids[1..])
  }

  ghost predicate ReadsOpen(r: ChanRead, db: DB) {
    r.name in db && ReadsChan(r, db[r.name])
  }

  /** A reading of every open channel, in whatever order. */
  ghost predicate ReadsAll(rs: seq<ChanRead>, db: DB) {
    && (forall i | 0 <= i < |rs| :: ReadsOpen(rs[i], db))
    && (forall c | c in db :: exists i | 0 <= i < |rs| :: rs[i].name == c)
  }

  /** An answer of the database: a reading, or a failure to read the channels at all. */
  ghost predicate Answers(answer: Option<seq<ChanRead>>, db: DB) {
    answer.Some? ==> ReadsAll(answer.value, db)
  }

  /** A reading that gives all the ids a channel has had, or all it needs. */
  predicate GivesIds(r: ChanRead, ch: Chan) {
    r.scids.Some? || |ch.ids| <= 2
  }

  predicate RecordsRead(rs: seq<ChanRead>, c: Name) {
    exists i | 0 <= i < |rs| :: rs[i].name == c && rs[i].records.Some?
  }

  predicate IdsRead(rs: seq<ChanRead>, c: Name, ch: Chan) {
    exists i | 0 <= i < |rs| :: rs[i].name == c && GivesIds(rs[i], ch)
  }

  // ---------------------------------------------------------------- the system

  /** What a channel's splice machine still has to tell the index of its last change to the database. */
  datatype Note = NoteSigned(txid: Txid) | NoteGone(txid: Txid) | NoteLocked(txid: Txid)

  /** `owed` are the changes the index is still to be told of; `moves` every move of a channel's id, in order; `idOf`
      and `txOf` the channel each id and splice transaction ever used belongs to: none is used twice.

      The rest logs what the index may have missed since the node started. `seen` are the splices on record when it was
      read, read or not. `lost` are those it has been told are gone, those whose signing it was not told of, though they
      were not seen, and those whose records were not read. `untold` are those that went without its being told, and
      `adrift` the channels that moved so, or whose earlier ids were not read. */
  datatype System = System(
    db: DB, index: Index, owed: map<Name, Note>, moves: seq<(Scid, Scid)>, idOf: map<Scid, Name>, txOf: map<Txid, Name>,
    seen: set<Txid>, lost: set<Txid>, untold: set<Txid>, adrift: set<Name>)

  const START := System(map[], EMPTY, map[], [], map[], map[], {}, {}, {}, {})

  datatype Event =
    | Open(c: Name, id: Scid, funding: OutPoint)
    | Close(c: Name)
    | Agree(c: Name, txid: Txid)
    | Sign(c: Name, txid: Txid)
    | Abort(c: Name, txid: Txid, kept: bool)
    | Die(c: Name, txid: Txid)
    | Revive(c: Name, txid: Txid)
    | Lock(c: Name, txid: Txid, id: Scid, to: OutPoint)
    | Tell(c: Name, read: Option<ChanRead>, answer: Option<seq<ChanRead>>)
    | Forgo(c: Name)
    | Query(answer: Option<seq<ChanRead>>)
    | Restart

  /** A machine tells of one change, or never will, before it makes the next. */
  predicate Free(s: System, c: Name) {
    c in s.db && c !in s.owed
  }

  ghost predicate Can(s: System, e: Event) {
    match e
    case Open(c, id, _) => c !in s.db && c !in s.owed && id !in s.idOf && forall x | x in s.idOf :: s.idOf[x] != c
    case Close(c) => c in s.db
    case Agree(c, t) => Free(s, c) && t !in s.txOf
    case Sign(c, t) => Free(s, c) && OnRecord(s.db[c], t) && !s.db[c].records[t].signed
    case Abort(c, t, _) => Free(s, c) && t in s.db[c].records
    case Die(c, t) => Free(s, c) && OnRecord(s.db[c], t)
    case Revive(c, t) => Free(s, c) && OnRecord(s.db[c], t) && s.db[c].records[t].dead
    case Lock(c, t, id, _) => Free(s, c) && t in s.db[c].records && id !in s.idOf && s.db[c].ids != []
    case Tell(c, read, answer) =>
      && c in s.owed && c in s.db && Answers(answer, s.db)
      && (read.Some? ==> read.value.name == c && ReadsChan(read.value, s.db[c]))
    case Forgo(c) => c in s.owed && c in s.db
    case Query(answer) => Answers(answer, s.db)
    case Restart => true
  }

  function SetRecord(s: System, c: Name, t: Txid, r: Record): DB
    requires c in s.db
  {
    s.db[c := s.db[c].(records := s.db[c].records[t := r])]
  }

  /** LockSplice: the record of the splice locked goes, every other is retired, and the channel is on the new output. */
  function LockChan(ch: Chan, t: Txid, id: Scid, to: OutPoint): Chan {
    Chan(ch.ids + [id], to, map u | u in ch.records && u != t :: ch.records[u].(retired := true))
  }

  /** RetireSpliceRecord: the record goes, or is kept as retired. */
  function RetireChan(ch: Chan, t: Txid, kept: bool): Chan
    requires t in ch.records
  {
    ch.(records := if kept then ch.records[t := ch.records[t].(retired := true)] else ch.records - {t})
  }

  /** spliceStep, for what the machine has to tell; the channel may fail to be read for it. */
  function Told(g: Index, note: Note, read: Option<ChanRead>, answer: Option<seq<ChanRead>>): Index {
    match note
    case NoteSigned(t) =>
      if read.None? then g else var h := Load(g, answer); h.(txids := h.txids[t := read.value.funding])
    case NoteGone(t) => var h := Load(g, answer); h.(txids := h.txids - {t})
    case NoteLocked(t) =>
      var h := Load(g, answer);
      var gone := h.(txids := h.txids - {t});
      if read.None? then gone else WithLocked(gone, read.value)
  }

  /** The splices of a database that are not retired. */
  ghost function Unretired(db: DB): set<Txid> {
    set c, t | c in db && t in db[c].records && !db[c].records[t].retired :: t
  }

  /** Of those, the ones of channels whose records a reading does not give. */
  ghost function UnreadSplices(db: DB, rs: seq<ChanRead>): set<Txid> {
    set c, t | c in db && t in db[c].records && !db[c].records[t].retired && !RecordsRead(rs, c) :: t
  }

  /** The system once the index was read, if it had not been and can be. */
  ghost function Loaded(s: System, answer: Option<seq<ChanRead>>): System {
    if s.index.loaded || answer.None? then s
    else
      s.(index := Load(s.index, answer), seen := Unretired(s.db),
         lost := UnreadSplices(s.db, answer.value) - s.index.txids.Keys,
         adrift := set c | c in s.db && !IdsRead(answer.value, c, s.db[c]))
  }

  /** The log after a signing the index does not learn of. */
  function Unheard(s: System, t: Txid): set<Txid> {
    if t in s.seen then s.lost else s.lost + {t}
  }

  /** The index is told of a change, or of what can be read of it. */
  ghost function Heard(s: System, c: Name, read: Option<ChanRead>): System
    requires c in s.owed && c in s.db
  {
    var t := s.(index := Told(s.index, s.owed[c], read, None), owed := s.owed - {c});
    match s.owed[c]
    case NoteSigned(u) => if read.Some? then t.(lost := s.lost - {u}) else t.(lost := Unheard(s, u))
    case NoteGone(u) => t.(lost := s.lost + {u})
    case NoteLocked(u) =>
      t.(lost := s.lost + {u},
         adrift := if read.Some? && GivesIds(read.value, s.db[c]) then s.adrift - {c} else s.adrift + {c})
  }

  /** The index is never told of a change. */
  function Forgone(s: System, c: Name): System
    requires c in s.owed
  {
    var t := s.(owed := s.owed - {c});
    match s.owed[c]
    case NoteSigned(u) => t.(lost := Unheard(s, u))
    case NoteGone(u) => t.(untold := s.untold + {u})
    case NoteLocked(u) => t.(untold := s.untold + {u}, adrift := s.adrift + {c})
  }

  /** The channel is read for what is told before the index is: a telling that needs it and cannot have it does not
      load the index either. */
  ghost function LoadedFor(s: System, e: Event): System
    requires Can(s, e) && e.Tell?
  {
    if s.owed[e.c].NoteSigned? && e.read.None? then s else Loaded(s, e.answer)
  }

  ghost function Do(s: System, e: Event): System
    requires Can(s, e)
  {
    match e
    case Open(c, id, funding) =>
      s.(db := s.db[c := Chan([id], funding, map[])], idOf := s.idOf[id := c])
    case Close(c) => s.(db := s.db - {c}, owed := s.owed - {c})
    case Agree(c, t) => s.(db := SetRecord(s, c, t, Record(false, false, false)), txOf := s.txOf[t := c])
    case Sign(c, t) =>
      s.(db := SetRecord(s, c, t, s.db[c].records[t].(signed := true)), owed := s.owed[c := NoteSigned(t)])
    case Abort(c, t, kept) =>
      s.(db := s.db[c := RetireChan(s.db[c], t, kept)], owed := s.owed[c := NoteGone(t)])
    case Die(c, t) =>
      s.(db := SetRecord(s, c, t, s.db[c].records[t].(dead := true)), owed := s.owed[c := NoteGone(t)])
    case Revive(c, t) => s.(db := SetRecord(s, c, t, s.db[c].records[t].(dead := false)))
    case Lock(c, t, id, to) =>
      s.(db := s.db[c := LockChan(s.db[c], t, id, to)], owed := s.owed[c := NoteLocked(t)],
         moves := s.moves + [(CurrentId(s.db[c]), id)], idOf := s.idOf[id := c])
    case Tell(c, read, _) => Heard(LoadedFor(s, e), c, read)
    case Forgo(c) => Forgone(s, c)
    case Query(answer) => Loaded(s, answer)
    case Restart => s.(index := EMPTY, owed := map[], seen := {}, lost := {}, untold := {}, adrift := {})
  }

  /** A run from the empty node. */
  ghost predicate IsRun(states: seq<System>, es: seq<Event>) {
    && |states| == |es| + 1 && states[0] == START
    && forall i | 0 <= i < |es| :: Can(states[i], es[i]) && states[i + 1] == Do(states[i], es[i])
  }

  /** A splice that was aborted: its transaction is used, and its record went, or was kept as retired. */
  ghost predicate Aborted(s: System, c: Name, t: Txid, kept: bool) {
    && t in s.txOf
    && (c in s.db && t in s.db[c].records ==> kept && s.db[c].records[t].retired)
  }

  lemma LoadedParts(s: System, answer: Option<seq<ChanRead>>)
    ensures Loaded(s, answer).db == s.db && Loaded(s, answer).txOf == s.txOf && Loaded(s, answer).owed == s.owed
    ensures Loaded(s, answer).index == Load(s.index, answer)
  {
  }

  lemma HeardIndex(m: System, c: Name, read: Option<ChanRead>)
    requires c in m.owed && c in m.db
    ensures Heard(m, c, read).db == m.db && Heard(m, c, read).txOf == m.txOf
    ensures Heard(m, c, read).index == Told(m.index, m.owed[c], read, None)
  {
  }

  lemma ChangeLeavesIndex(s: System, e: Event)
    requires Can(s, e) && !e.Tell? && !e.Query? && !e.Restart?
    ensures Do(s, e).index == s.index
  {
  }

  /** The system's index changes as the index itself does: with what it is told, and with what a query reads. */
  lemma IndexAsTold(s: System, e: Event)
    requires Can(s, e) && !e.Restart?
    ensures Do(s, e).index
            == if e.Tell? then Told(s.index, s.owed[e.c], e.read, e.answer)
               else if e.Query? then Load(s.index, e.answer)
               else s.index
  {
    match e
    case Tell(c, read, answer) =>
      LoadedParts(s, answer);
      HeardIndex(LoadedFor(s, e), c, read);
    case Query(answer) => LoadedParts(s, answer);
    case _ => ChangeLeavesIndex(s, e);
  }

  /** An abort leaves every other record, and of its own a retired one if it is kept, and none otherwise. */
  lemma AbortLeaves(s: System, c: Name, t: Txid, kept: bool)
    requires Can(s, Abort(c, t, kept))
    ensures var ch := Do(s, Abort(c, t, kept)).db[c];
            && (t in ch.records <==> kept) && !OnRecord(ch, t)
            && (forall u | u != t :: Lookup(ch.records, u) == Lookup(s.db[c].records, u))
            && ch.ids == s.db[c].ids && ch.funding == s.db[c].funding
  {
  }

  /** What the index is told or reads leaves the database as it is. */
  lemma IndexLeavesDatabase(s: System, e: Event)
    requires Can(s, e) && (e.Tell? || e.Forgo? || e.Query? || e.Restart?)
    ensures Do(s, e).db == s.db && Do(s, e).txOf == s.txOf
  {
    match e
    case Tell(c, read, answer) =>
      LoadedParts(s, answer);
      HeardIndex(LoadedFor(s, e), c, read);
    case Query(answer) => LoadedParts(s, answer);
    case _ =>
  }

  lemma AbortedKept(s: System, e: Event, c: Name, t: Txid, kept: bool)
    requires Can(s, e) && Aborted(s, c, t, kept)
    ensures Aborted(Do(s, e), c, t, kept)
  {
    if e.Tell? || e.Forgo? || e.Query? || e.Restart? {
      IndexLeavesDatabase(s, e);
    } else if e.c != c {
      assert c in s.db ==> c in Do(s, e).db && Do(s, e).db[c] == s.db[c];
    }
  }

  // ---------------------------------------------------------------- where the moves lead

  /** The end of the chain of moves from an id, followed one by one. */
  function ChainEnd(moves: seq<(Scid, Scid)>, id: Scid): Scid {
    if moves == [] then id
    else
      var before := ChainEnd(moves[..|moves| - 1], id);
      if before == moves[|moves| - 1].0 then moves[|moves| - 1].1 else before
  }

  // ---------------------------------------------------------------- what holds of every channel

  /** A channel's ids and transactions are its own. */
  ghost predicate Owns(s: System, c: Name, ch: Chan) {
    && ch.ids != []
    && (forall x | x in ch.ids :: x in s.idOf && s.idOf[x] == c)
    && (forall t | t in ch.records :: t in s.txOf && s.txOf[t] == c)
  }

  /** A channel a splice moved is not on the id that names it. */
  predicate NamedApart(ch: Chan) {
    |ch.ids| >= 2 ==> ch.ids[0] != CurrentId(ch)
  }

  /** Every id leads to the current one, move by move. */
  ghost predicate Chained(moves: seq<(Scid, Scid)>, ch: Chan)
    requires ch.ids != []
  {
    forall x | x in ch.ids :: ChainEnd(moves, x) == CurrentId(ch)
  }

  ghost predicate NoteOk(s: System, c: Name, ch: Chan, note: Option<Note>) {
    note.Some? ==>
      && note.value.txid in s.txOf && s.txOf[note.value.txid] == c
      && (note.value.NoteSigned? ==> OnRecord(ch, note.value.txid) && ch.records[note.value.txid].signed)
  }

  /** The id a channel is on points nowhere else. */
  predicate NoStray(g: Index, ch: Chan)
    requires ch.ids != []
  {
    CurrentId(ch) in g.latest ==> g.latest[CurrentId(ch)] == CurrentId(ch)
  }

  /** Every id of the channel leads in one lookup to its current one. */
  predicate KnowsIds(g: Index, ch: Chan)
    requires ch.ids != []
  {
    forall x | x in ch.ids :: FindBase(g, x) == CurrentId(ch)
  }

  ghost predicate IdsOk(s: System, c: Name, ch: Chan, note: Option<Note>)
    requires ch.ids != []
  {
    && NoStray(s.index, ch)
    && (s.index.loaded && c !in s.adrift && !(note.Some? && note.value.NoteLocked?) ==> KnowsIds(s.index, ch))
  }

  /** Of the splices on record, the index holds those it saw or was told are signed, but not those lost; each with the
      funding the channel is on. */
  ghost predicate SpliceOk(s: System, ch: Chan, note: Option<Note>, t: Txid) {
    OnRecord(ch, t) ==>
      && (s.index.loaded ==>
           (t in s.index.txids <==>
              t !in s.lost && (t in s.seen || (ch.records[t].signed && note != Some(NoteSigned(t))))))
      && (t in s.index.txids ==> s.index.txids[t] == ch.funding)
  }

  ghost predicate SplicesOk(s: System, ch: Chan, note: Option<Note>) {
    forall t | t in ch.records :: SpliceOk(s, ch, note, t)
  }

  ghost predicate ChanOk(s: System, c: Name, ch: Chan, note: Option<Note>) {
    Owns(s, c, ch) && NamedApart(ch) && Chained(s.moves, ch) && NoteOk(s, c, ch, note) && IdsOk(s, c, ch, note)
    && SplicesOk(s, ch, note)
  }

  /** A transaction the index holds belongs to a channel that has closed or has it on record, or the index is still to
      be told that it went, or never was. */
  ghost predicate HeldOk(s: System, t: Txid) {
    && t in s.txOf
    && var c := s.txOf[t];
       c in s.db ==>
         t in s.db[c].records || t in s.untold || (c in s.owed && !s.owed[c].NoteSigned? && s.owed[c].txid == t)
  }

  /** Ids and transactions the logs and the index name are those of channels, each of which has, or had, an id. */
  ghost predicate Used(s: System) {
    && (forall i | 0 <= i < |s.moves| :: s.moves[i].0 in s.idOf && s.moves[i].1 in s.idOf)
    && (forall x | x in s.index.latest :: x in s.idOf)
    && (forall t | t in s.seen || t in s.lost :: t in s.txOf)
    && (forall t | t in s.txOf :: exists x | x in s.idOf :: s.idOf[x] == s.txOf[t])
  }

  ghost predicate AllHeld(s: System) {
    forall t | t in s.index.txids :: HeldOk(s, t)
  }

  ghost predicate ChansOk(s: System) {
    forall c | c in s.db :: ChanOk(s, c, s.db[c], Lookup(s.owed, c))
  }

  ghost predicate Inv(s: System) {
    ChansOk(s) && AllHeld(s) && Used(s) && forall c | c in s.owed :: c in s.db
  }

  // ---------------------------------------------------------------- what one channel does leaves the others alone

  /** From `s` to `t`, the index and the logs changed for ids and transactions of `c` alone, the others are still owned,
      and no move was made but one of `c`. */
  ghost predicate OnlyFor(s: System, t: System, c: Name) {
    && s.index.loaded == t.index.loaded
    && (forall x | x in s.idOf && s.idOf[x] != c ::
          && x in t.idOf && t.idOf[x] == s.idOf[x]
          && (x in s.index.latest <==> x in t.index.latest)
          && (x in s.index.latest ==> s.index.latest[x] == t.index.latest[x]))
    && (forall u | u in s.txOf && s.txOf[u] != c ::
          && u in t.txOf && t.txOf[u] == s.txOf[u]
          && (u in s.index.txids <==> u in t.index.txids)
          && (u in s.index.txids ==> s.index.txids[u] == t.index.txids[u])
          && (u in s.seen <==> u in t.seen) && (u in s.lost <==> u in t.lost))
    && (forall d | d != c :: d in s.adrift <==> d in t.adrift)
    && (t.moves == s.moves
        || exists from, to :: t.moves == s.moves + [(from, to)] && from in s.idOf && s.idOf[from] == c)
  }

  lemma OthersLeftAlone(s: System, t: System, c: Name, d: Name, ch: Chan, note: Option<Note>)
    requires c != d && ChanOk(s, d, ch, note) && OnlyFor(s, t, c)
    ensures ChanOk(t, d, ch, note)
  {
    assert CurrentId(ch) in ch.ids;
    if t.moves != s.moves {
      assert t.moves[..|t.moves| - 1] == s.moves;
    }
    forall x | x in ch.ids ensures FindBase(t.index, x) == FindBase(s.index, x) {
    }
    forall u | u in ch.records ensures SpliceOk(t, ch, note, u) {
      assert SpliceOk(s, ch, note, u);
    }
  }

  /** The channels are as they should be after a change of one of them. */
  lemma ChansAfter(s: System, t: System, c: Name)
    requires ChansOk(s) && OnlyFor(s, t, c)
    requires forall d | d in t.db && d != c :: d in s.db && t.db[d] == s.db[d] && Lookup(t.owed, d) == Lookup(s.owed, d)
    requires c in t.db ==> ChanOk(t, c, t.db[c], Lookup(t.owed, c))
    ensures ChansOk(t)
  {
    forall d | d in t.db ensures ChanOk(t, d, t.db[d], Lookup(t.owed, d)) {
      if d != c {
        assert ChanOk(s, d, s.db[d], Lookup(s.owed, d));
        OthersLeftAlone(s, t, c, d, s.db[d], Lookup(s.owed, d));
      }
    }
  }

  // ---------------------------------------------------------------- loading

  /** The ids a reading points at the current one. */
  predicate Points(r: ChanRead, ch: Chan, x: Scid)
    requires ch.ids != []
  {
    |ch.ids| >= 2 && if r.scids.Some? then x in ch.ids else x == ch.ids[0]
  }

  lemma LockedRead(g: Index, r: ChanRead, ch: Chan)
    requires ReadsChan(r, ch) && NamedApart(ch)
    ensures var h := WithLocked(g, r);
            && h.loaded == g.loaded && h.txids == g.txids
            && (forall x :: x in h.latest <==> x in g.latest || Points(r, ch, x))
            && (forall x | x in h.latest :: h.latest[x] == if Points(r, ch, x) then CurrentId(ch) else g.latest[x])
  {
    if |ch.ids| >= 2 {
      var named, h := g.latest[r.scid := r.currentScid], WithLocked(g, r);
      var scids := if r.scids.Some? then r.scids.value else [];
      assert h.latest == PointAll(named, scids, r.currentScid);
      PointsAll(named, scids, r.currentScid);
      forall x
        ensures x in h.latest <==> x in g.latest || Points(r, ch, x)
        ensures x in h.latest ==> h.latest[x] == if Points(r, ch, x) then CurrentId(ch) else g.latest[x]
      {
        assert x in named <==> x in g.latest || x == ch.ids[0];
        assert x == ch.ids[0] || x in scids <==> Points(r, ch, x) by {
          assert ch.ids == [ch.ids[0]] + ch.ids[1..];
        }
      }
    }
  }

  /** What a reading of a channel's own ids makes of them. */
  lemma OwnIdsRead(g: Index, r: ChanRead, ch: Chan)
    requires ReadsChan(r, ch) && NamedApart(ch)
    ensures var h := WithLocked(g, r);
            && (NoStray(g, ch) ==> NoStray(h, ch))
            && (KnowsIds(g, ch) ==> KnowsIds(h, ch))
            && (GivesIds(r, ch) && NoStray(g, ch) ==> KnowsIds(h, ch))
  {
    LockedRead(g, r, ch);
    assert CurrentId(ch) in ch.ids;
  }

  lemma OtherIdsRead(g: Index, r: ChanRead, ch: Chan, s: System, c: Name, d: Name)
    requires c in s.db && d in s.db && c != d && ch == s.db[d] && ReadsChan(r, ch) && NamedApart(ch)
    requires Owns(s, c, s.db[c]) && Owns(s, d, ch)
    ensures var h := WithLocked(g, r);
            && (NoStray(g, s.db[c]) ==> NoStray(h, s.db[c]))
            && (KnowsIds(g, s.db[c]) ==> KnowsIds(h, s.db[c]))
  {
    LockedRead(g, r, ch);
    forall x | x in s.db[c].ids ensures FindBase(WithLocked(g, r), x) == FindBase(g, x) {
      assert !Points(r, ch, x);
    }
    assert CurrentId(s.db[c]) in s.db[c].ids;
  }

  ghost predicate AllOwned(s: System) {
    forall c | c in s.db :: Owns(s, c, s.db[c]) && NamedApart(s.db[c])
  }

  lemma {:induction false} LoadedFlag(g: Index, rs: seq<ChanRead>)
    ensures WithChannels(g, rs).loaded == g.loaded
  {
    if rs != [] {
      LoadedFlag(g, rs[..|rs| - 1]);
    }
  }

  /** What one more reading, of a channel itself or of another, makes of a channel's ids. */
  lemma IdsLoadedOnce(h: Index, r: ChanRead, s: System, c: Name)
    requires c in s.db && AllOwned(s) && ReadsOpen(r, s.db)
    ensures var m := WithChannel(h, r);
            && (NoStray(h, s.db[c]) ==> NoStray(m, s.db[c]))
            && (KnowsIds(h, s.db[c]) ==> KnowsIds(m, s.db[c]))
            && (r.name == c && GivesIds(r, s.db[c]) && NoStray(h, s.db[c]) ==> KnowsIds(m, s.db[c]))
  {
    var m := h.(txids := WithRecords(h.txids, if r.records.Some? then r.records.value else [], r.funding));
    assert (NoStray(h, s.db[c]) ==> NoStray(m, s.db[c])) && (KnowsIds(h, s.db[c]) ==> KnowsIds(m, s.db[c]));
    if r.name == c {
      OwnIdsRead(m, r, s.db[c]);
    } else {
      OtherIdsRead(m, r, s.db[r.name], s, c, r.name);
    }
  }

  lemma {:induction false} IdsLoaded(g: Index, rs: seq<ChanRead>, s: System, c: Name)
    requires c in s.db && AllOwned(s)
    requires forall i | 0 <= i < |rs| :: ReadsOpen(rs[i], s.db)
    requires NoStray(g, s.db[c])
    ensures var h := WithChannels(g, rs);
            NoStray(h, s.db[c]) && (IdsRead(rs, c, s.db[c]) ==> KnowsIds(h, s.db[c]))
  {
    if rs != [] {
      var n := |rs| - 1;
      IdsLoaded(g, rs[..n], s, c);
      IdsLoadedOnce(WithChannels(g, rs[..n]), rs[n], s, c);
      if i :| 0 <= i < |rs| && rs[i].name == c && GivesIds(rs[i], s.db[c]) {
        assert i < n ==> rs[..n][i] == rs[i] && IdsRead(rs[..n], c, s.db[c]);
      }
    }
  }

  lemma {:induction false} LoadedIdsAreUsed(g: Index, rs: seq<ChanRead>, s: System)
    requires AllOwned(s)
    requires forall i | 0 <= i < |rs| :: ReadsOpen(rs[i], s.db)
    requires forall x | x in g.latest :: x in s.idOf
    ensures forall x | x in WithChannels(g, rs).latest :: x in s.idOf
  {
    if rs != [] {
      var n := |rs| - 1;
      LoadedIdsAreUsed(g, rs[..n], s);
      var h, r := WithChannels(g, rs[..n]), rs[n];
      LockedRead(h.(txids := WithRecords(h.txids, if r.records.Some? then r.records.value else [], r.funding)), r,
                 s.db[r.name]);
    }
  }

  predicate Reads(r: ChanRead, t: Txid) {
    r.records.Some? && RecordRead(t, false) in r.records.value
  }

  /** What a load finds, whatever it failed to read: the transactions it read, and those there already; with a funding
      it read for them, or the one there already. */
  lemma {:induction false} TxidsLoaded(g: Index, rs: seq<ChanRead>, t: Txid)
    ensures var h := WithChannels(g, rs);
            && (t in h.txids <==> t in g.txids || exists i | 0 <= i < |rs| :: Reads(rs[i], t))
            && (t in h.txids ==>
                 || (t in g.txids && h.txids[t] == g.txids[t])
                 || exists i | 0 <= i < |rs| :: Reads(rs[i], t) && h.txids[t] == rs[i].funding)
  {
    if rs != [] {
      var n := |rs| - 1;
      TxidsLoaded(g, rs[..n], t);
      var h := WithChannels(g, rs[..n]);
      UnretiredAreIn(h.txids, if rs[n].records.Some? then rs[n].records.value else [], rs[n].funding);
      if i :| 0 <= i < |rs| && Reads(rs[i], t) {
        assert i < n ==> Reads(rs[..n][i], t);
      }
      if i :| 0 <= i < n && Reads(rs[..n][i], t) && (t in h.txids ==> h.txids[t] == rs[..n][i].funding) {
        assert Reads(rs[i], t);
      }
      if i :| 0 <= i < n && Reads(rs[..n][i], t) {
        assert Reads(rs[i], t);
      }
    }
  }

  /** A load by channel: of a channel's splices on record it finds all if its records were read, and otherwise those
      there already. */
  lemma ChannelLoaded(s: System, rs: seq<ChanRead>, c: Name, t: Txid)
    requires AllOwned(s) && ReadsAll(rs, s.db) && c in s.db && OnRecord(s.db[c], t)
    ensures var h := WithChannels(s.index.(loaded := true), rs);
            && (t in h.txids <==> t in s.index.txids || RecordsRead(rs, c))
            && (t in h.txids ==>
                 h.txids[t] == s.db[c].funding || (t in s.index.txids && h.txids[t] == s.index.txids[t]))
  {
    TxidsLoaded(s.index.(loaded := true), rs, t);
    forall i | 0 <= i < |rs| ensures Reads(rs[i], t) <==> rs[i].name == c && rs[i].records.Some? {
      assert ReadsOpen(rs[i], s.db);
    }
  }

  lemma UnreadOf(s: System, rs: seq<ChanRead>, c: Name, t: Txid)
    requires AllOwned(s) && c in s.db && OnRecord(s.db[c], t)
    ensures t in Unretired(s.db)
    ensures t in UnreadSplices(s.db, rs) <==> !RecordsRead(rs, c)
  {
    if t in UnreadSplices(s.db, rs) {
      var d :| d in s.db && t in s.db[d].records && !RecordsRead(rs, d);
      assert Owns(s, d, s.db[d]) && Owns(s, c, s.db[c]);
    }
  }

  lemma LoadedSplices(s: System, rs: seq<ChanRead>, c: Name)
    requires AllOwned(s) && ReadsAll(rs, s.db) && !s.index.loaded && c in s.db
    requires SplicesOk(s, s.db[c], Lookup(s.owed, c))
    ensures SplicesOk(Loaded(s, Some(rs)), s.db[c], Lookup(s.owed, c))
  {
    var m := Loaded(s, Some(rs));
    LoadedFlag(s.index.(loaded := true), rs);
    forall t | t in s.db[c].records ensures SpliceOk(m, s.db[c], Lookup(s.owed, c), t) {
      assert SpliceOk(s, s.db[c], Lookup(s.owed, c), t);
      if OnRecord(s.db[c], t) {
        ChannelLoaded(s, rs, c, t);
        UnreadOf(s, rs, c, t);
      }
    }
  }

  lemma LoadedHeld(s: System, rs: seq<ChanRead>)
    requires AllOwned(s) && AllHeld(s) && ReadsAll(rs, s.db) && !s.index.loaded
    ensures AllHeld(Loaded(s, Some(rs)))
  {
    var m := Loaded(s, Some(rs));
    forall t | t in m.index.txids ensures HeldOk(m, t) {
      TxidsLoaded(s.index.(loaded := true), rs, t);
      if t in s.index.txids {
        assert HeldOk(s, t);
      } else {
        var i :| 0 <= i < |rs| && Reads(rs[i], t);
        assert ReadsOpen(rs[i], s.db);
        assert Owns(s, rs[i].name, s.db[rs[i].name]);
      }
    }
  }

  lemma LoadedUsed(s: System, rs: seq<ChanRead>)
    requires AllOwned(s) && Used(s) && ReadsAll(rs, s.db) && !s.index.loaded
    ensures Used(Loaded(s, Some(rs)))
  {
    var m := Loaded(s, Some(rs));
    LoadedIdsAreUsed(s.index.(loaded := true), rs, s);
    forall t | t in m.seen || t in m.lost ensures t in m.txOf {
      var c :| c in s.db && t in s.db[c].records;
      assert Owns(s, c, s.db[c]);
    }
  }

  /** Loading at any moment, whatever it fails to read, keeps the invariant. */
  lemma LoadKeeps(s: System, answer: Option<seq<ChanRead>>)
    requires Inv(s) && Answers(answer, s.db)
    ensures Inv(Loaded(s, answer))
    ensures answer.Some? ==> Loaded(s, answer).index.loaded
  {
    if !s.index.loaded && answer.Some? {
      var m, rs := Loaded(s, answer), answer.value;
      assert AllOwned(s) by {
        forall c | c in s.db ensures Owns(s, c, s.db[c]) && NamedApart(s.db[c]) {
          assert ChanOk(s, c, s.db[c], Lookup(s.owed, c));
        }
      }
      LoadedFlag(s.index.(loaded := true), rs);
      LoadedHeld(s, rs);
      LoadedUsed(s, rs);
      forall c | c in m.db ensures ChanOk(m, c, m.db[c], Lookup(m.owed, c)) {
        assert ChanOk(s, c, s.db[c], Lookup(s.owed, c));
        LoadedSplices(s, rs, c);
        IdsLoaded(s.index.(loaded := true), rs, s, c);
      }
    }
  }

  // ---------------------------------------------------------------- every event keeps the invariant

  lemma {:induction false} NoMoveFrom(moves: seq<(Scid, Scid)>, id: Scid)
    requires forall i | 0 <= i < |moves| :: moves[i].0 != id
    ensures ChainEnd(moves, id) == id
  {
    if moves != [] {
      NoMoveFrom(moves[..|moves| - 1], id);
    }
  }

  /** A change of the database alone. */
  predicate OfDatabase(e: Event) {
    !e.Tell? && !e.Query? && !e.Restart? && !e.Forgo?
  }

  lemma ChangeHeld(s: System, e: Event)
    requires Used(s) && AllHeld(s) && Can(s, e) && OfDatabase(e)
    ensures AllHeld(Do(s, e))
  {
    var t := Do(s, e);
    forall u | u in t.index.txids ensures HeldOk(t, u) {
      assert HeldOk(s, u);
      if e.Open? {
        var x :| x in s.idOf && s.idOf[x] == s.txOf[u];
      }
    }
  }

  lemma MakerKnown(s: System, e: Event, u: Txid)
    requires Can(s, e) && OfDatabase(e) && u in Do(s, e).txOf
    requires u in s.txOf ==> exists x | x in s.idOf :: s.idOf[x] == s.txOf[u]
    requires e.c in s.db ==> Owns(s, e.c, s.db[e.c])
    ensures var t := Do(s, e); exists x | x in t.idOf :: t.idOf[x] == t.txOf[u]
  {
    var t := Do(s, e);
    if u in s.txOf {
      var x :| x in s.idOf && s.idOf[x] == s.txOf[u];
      assert x in t.idOf && t.idOf[x] == t.txOf[u];
    } else {
      var x := CurrentId(s.db[e.c]);
      assert x in s.db[e.c].ids;
      assert x in t.idOf && t.idOf[x] == t.txOf[u];
    }
  }

  lemma ChangeUsed(s: System, e: Event)
    requires ChansOk(s) && Used(s) && Can(s, e) && OfDatabase(e)
    ensures Used(Do(s, e))
  {
    var t := Do(s, e);
    if e.c in s.db {
      assert Owns(s, e.c, s.db[e.c]);
      assert CurrentId(s.db[e.c]) in s.db[e.c].ids;
    }
    forall u | u in t.txOf ensures exists x | x in t.idOf :: t.idOf[x] == t.txOf[u] {
      MakerKnown(s, e, u);
    }
  }

  lemma OpenKeepsChan(s: System, e: Event)
    requires Inv(s) && Can(s, e) && e.Open?
    ensures var t := Do(s, e); ChanOk(t, e.c, t.db[e.c], Lookup(t.owed, e.c))
  {
    NoMoveFrom(s.moves, e.id);
  }

  /** A change of one record that leaves the others, and of it at most retires it, signs it, or says whether it is
      dead. */
  lemma RecordKeepsChan(s: System, t: System, c: Name, ch: Chan, after: Chan, u: Txid, note: Option<Note>)
    requires ChanOk(s, c, ch, None) && u in ch.records
    requires t == s.(db := t.db, owed := t.owed)
    requires after.ids == ch.ids && after.funding == ch.funding
    requires forall v | v != u ::
               (v in after.records <==> v in ch.records) && (v in ch.records ==> after.records[v] == ch.records[v])
    requires OnRecord(after, u) ==>
               OnRecord(ch, u) && (after.records[u].signed != ch.records[u].signed ==> note == Some(NoteSigned(u)))
               && (note == Some(NoteSigned(u)) ==> !ch.records[u].signed)
    requires note.Some? ==> note.value.txid == u
    requires note.Some? && note.value.NoteSigned? ==> OnRecord(after, u) && after.records[u].signed
    requires note.Some? ==> !note.value.NoteLocked?
    ensures ChanOk(t, c, after, note)
  {
    forall v | v in after.records ensures SpliceOk(t, after, note, v) {
      if v in ch.records {
        assert SpliceOk(s, ch, None, v);
      }
    }
  }

  lemma AgreeKeepsChan(s: System, e: Event)
    requires Inv(s) && Can(s, e) && e.Agree?
    ensures var t := Do(s, e); ChanOk(t, e.c, t.db[e.c], Lookup(t.owed, e.c))
  {
    var t, c := Do(s, e), e.c;
    assert ChanOk(s, c, s.db[c], Lookup(s.owed, c));
    forall v | v in t.db[c].records ensures SpliceOk(t, t.db[c], None, v) {
      if v == e.txid {
        assert v in s.index.txids ==> HeldOk(s, v);
      } else {
        assert SpliceOk(s, s.db[c], None, v);
      }
    }
  }

  lemma FlagEventKeepsChan(s: System, e: Event)
    requires ChansOk(s) && Can(s, e) && (e.Sign? || e.Die? || e.Revive?)
    ensures var t := Do(s, e); ChanOk(t, e.c, t.db[e.c], Lookup(t.owed, e.c))
  {
    var t, c := Do(s, e), e.c;
    assert ChanOk(s, c, s.db[c], Lookup(s.owed, c));
    RecordKeepsChan(s, t, c, s.db[c], t.db[c], e.txid, Lookup(t.owed, c));
  }

  lemma AbortKeepsChan(s: System, e: Event)
    requires ChansOk(s) && Can(s, e) && e.Abort?
    ensures var t := Do(s, e); ChanOk(t, e.c, t.db[e.c], Lookup(t.owed, e.c))
  {
    var t, c := Do(s, e), e.c;
    assert ChanOk(s, c, s.db[c], Lookup(s.owed, c));
    RecordKeepsChan(s, t, c, s.db[c], t.db[c], e.txid, Lookup(t.owed, c));
  }

  /** LockSplice leaves no splice on record, and one more id, where all the others now lead. */
  lemma LockKeepsChan(s: System, e: Event)
    requires Inv(s) && Can(s, e) && e.Lock?
    ensures var t := Do(s, e); ChanOk(t, e.c, t.db[e.c], Lookup(t.owed, e.c))
    ensures var t := Do(s, e); forall u :: !OnRecord(t.db[e.c], u)
  {
    var t, c := Do(s, e), e.c;
    var ch, after := s.db[c], t.db[c];
    assert ChanOk(s, c, ch, Lookup(s.owed, c));
    NoMoveFrom(s.moves, e.id);
    assert t.moves[..|t.moves| - 1] == s.moves;
    assert CurrentId(ch) in ch.ids;
    forall x | x in after.ids ensures ChainEnd(t.moves, x) == CurrentId(after) && x in t.idOf && t.idOf[x] == c {
      assert x in ch.ids || x == e.id;
    }
  }

  lemma LockOnlyFor(s: System, e: Event)
    requires ChansOk(s) && Can(s, e) && e.Lock?
    ensures OnlyFor(s, Do(s, e), e.c)
  {
    assert Owns(s, e.c, s.db[e.c]);
    assert CurrentId(s.db[e.c]) in s.db[e.c].ids;
  }

  lemma ChangeKeepsChan(s: System, e: Event)
    requires Inv(s) && Can(s, e) && OfDatabase(e)
    ensures var t := Do(s, e); e.c in t.db ==> ChanOk(t, e.c, t.db[e.c], Lookup(t.owed, e.c))
  {
    match e
    case Open(_, _, _) => OpenKeepsChan(s, e);
    case Close(_) =>
    case Agree(_, _) => AgreeKeepsChan(s, e);
    case Lock(_, _, _, _) => LockKeepsChan(s, e);
    case Abort(_, _, _) => AbortKeepsChan(s, e);
    case _ => FlagEventKeepsChan(s, e);
  }

  lemma ChangeOnlyFor(s: System, e: Event)
    requires ChansOk(s) && Can(s, e) && OfDatabase(e) && !e.Lock?
    ensures OnlyFor(s, Do(s, e), e.c)
  {
  }

  lemma ChangeElsewhere(s: System, e: Event)
    requires Can(s, e) && OfDatabase(e)
    ensures var t := Do(s, e);
            && (forall d | d in t.db && d != e.c ::
                  d in s.db && t.db[d] == s.db[d] && Lookup(t.owed, d) == Lookup(s.owed, d))
            && ((forall d | d in s.owed :: d in s.db) ==> forall d | d in t.owed :: d in t.db)
  {
  }

  lemma ChangeKeeps(s: System, e: Event)
    requires Inv(s) && Can(s, e) && OfDatabase(e)
    ensures Inv(Do(s, e))
  {
    ChangeHeld(s, e);
    ChangeUsed(s, e);
    ChangeKeepsChan(s, e);
    ChangeElsewhere(s, e);
    if e.Lock? {
      LockOnlyFor(s, e);
    } else {
      ChangeOnlyFor(s, e);
    }
    ChansAfter(s, Do(s, e), e.c);
  }

  lemma TxidsTold(g: Index, note: Note, read: Option<ChanRead>)
    ensures var h := Told(g, note, read, None);
            && h.loaded == g.loaded
            && h.txids == (if !note.NoteSigned? then g.txids - {note.txid}
                           else if read.Some? then g.txids[note.txid := read.value.funding]
                           else g.txids)
            && (!(note.NoteLocked? && read.Some?) ==> h.latest == g.latest)
            && (note.NoteLocked? && read.Some? ==> h.latest == WithLocked(g, read.value).latest)
  {
  }

  /** What a telling is of: a channel as it should be, and a reading of it if there is one. */
  ghost predicate Tellable(m: System, c: Name, read: Option<ChanRead>) {
    && c in m.owed && c in m.db && ChanOk(m, c, m.db[c], Some(m.owed[c]))
    && (read.Some? ==> ReadsChan(read.value, m.db[c]))
  }

  /** The index told, or what it could be told, the channel's ids are as they should be. */
  lemma HeardIds(m: System, c: Name, read: Option<ChanRead>)
    requires Tellable(m, c, read)
    ensures IdsOk(Heard(m, c, read), c, m.db[c], None)
  {
    TxidsTold(m.index, m.owed[c], read);
    if m.owed[c].NoteLocked? && read.Some? {
      OwnIdsRead(m.index, read.value, m.db[c]);
    }
  }

  lemma HeardSplices(m: System, c: Name, read: Option<ChanRead>)
    requires Tellable(m, c, read)
    ensures SplicesOk(Heard(m, c, read), m.db[c], None)
  {
    var note, ch, t := m.owed[c], m.db[c], Heard(m, c, read);
    TxidsTold(m.index, note, read);
    forall u | u in ch.records ensures SpliceOk(t, ch, None, u) {
      assert SpliceOk(m, ch, Some(note), u);
    }
  }

  lemma HeardHeld(m: System, c: Name, read: Option<ChanRead>)
    requires Tellable(m, c, read) && AllHeld(m)
    ensures AllHeld(Heard(m, c, read))
  {
    var t := Heard(m, c, read);
    TxidsTold(m.index, m.owed[c], read);
    forall u | u in t.index.txids ensures HeldOk(t, u) {
      assert u in m.index.txids ==> HeldOk(m, u);
    }
  }

  lemma HeardUsed(m: System, c: Name, read: Option<ChanRead>)
    requires Tellable(m, c, read) && Used(m)
    ensures Used(Heard(m, c, read))
  {
    TxidsTold(m.index, m.owed[c], read);
    if m.owed[c].NoteLocked? && read.Some? {
      LockedRead(m.index, read.value, m.db[c]);
    }
  }

  lemma HeardOnlyFor(m: System, c: Name, read: Option<ChanRead>)
    requires Tellable(m, c, read)
    ensures OnlyFor(m, Heard(m, c, read), c)
  {
    TxidsTold(m.index, m.owed[c], read);
    if m.owed[c].NoteLocked? && read.Some? {
      LockedRead(m.index, read.value, m.db[c]);
    }
  }

  lemma HeardChan(m: System, c: Name, read: Option<ChanRead>)
    requires Tellable(m, c, read)
    ensures ChanOk(Heard(m, c, read), c, m.db[c], None)
  {
    HeardIds(m, c, read);
    HeardSplices(m, c, read);
  }

  /** The whole is as it should be once a channel owes nothing more and its parts are. */
  lemma AfterNote(s: System, t: System, c: Name)
    requires ChansOk(s) && OnlyFor(s, t, c) && c in s.db && (forall d | d in s.owed :: d in s.db)
    requires t.db == s.db && t.owed == s.owed - {c}
    requires ChanOk(t, c, s.db[c], None) && AllHeld(t) && Used(t)
    ensures Inv(t)
  {
    ChansAfter(s, t, c);
  }

  lemma HeardParts(m: System, c: Name, read: Option<ChanRead>)
    requires Tellable(m, c, read) && AllHeld(m) && Used(m)
    ensures var t := Heard(m, c, read);
            && t.db == m.db && t.owed == m.owed - {c}
            && OnlyFor(m, t, c) && ChanOk(t, c, m.db[c], None) && AllHeld(t) && Used(t)
  {
    HeardChan(m, c, read);
    HeardHeld(m, c, read);
    HeardUsed(m, c, read);
    HeardOnlyFor(m, c, read);
  }

  lemma TellKeeps(s: System, e: Event)
    requires Inv(s) && Can(s, e) && e.Tell?
    ensures Inv(Do(s, e))
  {
    LoadKeeps(s, e.answer);
    var m := LoadedFor(s, e);
    assert ChanOk(m, e.c, m.db[e.c], Lookup(m.owed, e.c));
    HeardParts(m, e.c, e.read);
    AfterNote(m, Do(s, e), e.c);
  }

  lemma ForgoneChan(s: System, c: Name)
    requires Tellable(s, c, None)
    ensures ChanOk(Forgone(s, c), c, s.db[c], None)
    ensures OnlyFor(s, Forgone(s, c), c)
  {
    forall u | u in s.db[c].records ensures SpliceOk(Forgone(s, c), s.db[c], None, u) {
      assert SpliceOk(s, s.db[c], Some(s.owed[c]), u);
    }
  }

  lemma ForgoneHeld(s: System, c: Name)
    requires Tellable(s, c, None) && AllHeld(s)
    ensures AllHeld(Forgone(s, c))
  {
    forall u | u in s.index.txids ensures HeldOk(Forgone(s, c), u) {
      assert HeldOk(s, u);
    }
  }

  lemma ForgoneUsed(s: System, c: Name)
    requires Tellable(s, c, None) && Used(s)
    ensures Used(Forgone(s, c))
  {
  }

  lemma ForgoneParts(s: System, c: Name)
    requires Tellable(s, c, None) && AllHeld(s) && Used(s)
    ensures var t := Forgone(s, c);
            && t.db == s.db && t.owed == s.owed - {c}
            && OnlyFor(s, t, c) && ChanOk(t, c, s.db[c], None) && AllHeld(t) && Used(t)
  {
    ForgoneChan(s, c);
    ForgoneHeld(s, c);
    ForgoneUsed(s, c);
  }

  lemma ForgoKeeps(s: System, e: Event)
    requires Inv(s) && Can(s, e) && e.Forgo?
    ensures Inv(Do(s, e))
  {
    assert ChanOk(s, e.c, s.db[e.c], Lookup(s.owed, e.c));
    ForgoneParts(s, e.c);
    AfterNote(s, Do(s, e), e.c);
  }

  lemma RestartKeeps(s: System)
    requires Inv(s)
    ensures Inv(Do(s, Restart))
  {
    var t := Do(s, Restart);
    forall c | c in t.db ensures ChanOk(t, c, t.db[c], Lookup(t.owed, c)) {
      assert ChanOk(s, c, s.db[c], Lookup(s.owed, c));
    }
  }

  lemma EventKeeps(s: System, e: Event)
    requires Inv(s) && Can(s, e)
    ensures Inv(Do(s, e))
  {
    if OfDatabase(e) {
      ChangeKeeps(s, e);
    } else if e.Tell? {
      TellKeeps(s, e);
    } else if e.Forgo? {
      ForgoKeeps(s, e);
    } else if e.Query? {
      LoadKeeps(s, e.answer);
    } else {
      RestartKeeps(s);
    }
  }

  lemma {:induction false} InvOnEveryRun(states: seq<System>, es: seq<Event>, n: nat)
    requires IsRun(states, es) && n <= |es|
    ensures Inv(states[n])
  {
    if n > 0 {
      InvOnEveryRun(states, es, n - 1);
      EventKeeps(states[n - 1], es[n - 1]);
    }
  }

  // ---------------------------------------------------------------- the theorems

  /** At any moment of any run, a query that can read the channels, or any once one could, finds of the splices on
      record exactly those that were on record when the index was read, and those that are signed unless the index is
      still to be told so, but none of those lost; each with the funding it spends. */
  lemma FoundExactly(states: seq<System>, es: seq<Event>, n: nat, answer: Option<seq<ChanRead>>, c: Name, t: Txid)
    requires IsRun(states, es) && n <= |es|
    requires Answers(answer, states[n].db) && (answer.Some? || states[n].index.loaded)
    requires c in states[n].db && OnRecord(states[n].db[c], t)
    ensures var s, m := states[n], Loaded(states[n], answer);
            var heard := s.db[c].records[t].signed && Lookup(s.owed, c) != Some(NoteSigned(t));
            && (t in m.index.txids <==> t !in m.lost && (t in m.seen || heard))
            && (t in m.index.txids ==> m.index.txids[t] == s.db[c].funding)
  {
    var m := Loaded(states[n], answer);
    InvOnEveryRun(states, es, n);
    LoadKeeps(states[n], answer);
    assert ChanOk(m, c, m.db[c], Lookup(m.owed, c));
    assert SpliceOk(m, m.db[c], Lookup(m.owed, c), t);
  }

  /** A splice that was aborted is never on record again, and one whose record went never has one. */
  lemma {:induction false} AbortIsForGood(states: seq<System>, es: seq<Event>, m: nat, n: nat,
                                          c: Name, t: Txid, kept: bool)
    requires IsRun(states, es) && m < n <= |es| && es[m] == Abort(c, t, kept)
    ensures Aborted(states[n], c, t, kept)
    ensures c in states[n].db ==>
              !OnRecord(states[n].db[c], t) && (!kept ==> t !in states[n].db[c].records)
    decreases n
  {
    if n == m + 1 {
      InvOnEveryRun(states, es, m);
      AbortLeaves(states[m], c, t, kept);
      assert ChanOk(states[m], c, states[m].db[c], Lookup(states[m].owed, c));
    } else {
      AbortIsForGood(states, es, m, n - 1, c, t, kept);
      AbortedKept(states[n - 1], es[n - 1], c, t, kept);
    }
  }

  /** The lazy index refines the database: whenever it was read, a query finds every live splice that is not lost and
      whose signing the index is not still to be told of, with the funding it spends; and none that is lost. */
  lemma OwnSpliceFindsEveryLiveSplice(states: seq<System>, es: seq<Event>, n: nat, answer: Option<seq<ChanRead>>,
                                      c: Name, t: Txid)
    requires IsRun(states, es) && n <= |es|
    requires Answers(answer, states[n].db) && (answer.Some? || states[n].index.loaded)
    requires c in states[n].db && Live(states[n].db[c], t)
    requires Lookup(states[n].owed, c) != Some(NoteSigned(t))
    ensures var m := Loaded(states[n], answer);
            Lookup(m.index.txids, t) == if t in m.lost then None else Some(states[n].db[c].funding)
  {
    FoundExactly(states, es, n, answer, c, t);
  }

  /** What can make the index miss a splice: it is revived; its signing is not told, or the channel cannot be read for
      that, and it was not on record when the index was read; or its channel's records cannot be read in a load. */
  ghost predicate Misses(s: System, e: Event, t: Txid)
    requires Can(s, e)
  {
    match e
    case Revive(_, u) => u == t
    case Forgo(c) => s.owed[c] == NoteSigned(t) && t !in s.seen
    case Tell(c, read, answer) =>
      if s.owed[c] == NoteSigned(t) && read.None? then t !in s.seen else t in Loaded(s, answer).lost - s.lost
    case Query(answer) => t in Loaded(s, answer).lost - s.lost
    case _ => false
  }

  /** Only a dead splice on record is lost, or about to be. */
  ghost predicate NotMissed(s: System, t: Txid) {
    forall c | c in s.db && OnRecord(s.db[c], t) ::
      t in s.lost || (c in s.owed && !s.owed[c].NoteSigned? && s.owed[c].txid == t) ==> s.db[c].records[t].dead
  }

  lemma LoadedNotMissed(s: System, answer: Option<seq<ChanRead>>, t: Txid)
    requires NotMissed(s, t) && t !in Loaded(s, answer).lost - s.lost
    ensures NotMissed(Loaded(s, answer), t)
  {
  }

  lemma HeardNotMissed(m: System, c: Name, read: Option<ChanRead>, t: Txid)
    requires Tellable(m, c, read) && NotMissed(m, t) && ChansOk(m)
    requires !(m.owed[c] == NoteSigned(t) && read.None? && t !in m.seen)
    ensures NotMissed(Heard(m, c, read), t)
  {
    forall d | d in m.db && OnRecord(m.db[d], t) && m.owed[c].txid == t ensures d == c {
      assert ChanOk(m, d, m.db[d], Lookup(m.owed, d));
    }
  }

  lemma ForgoneNotMissed(s: System, c: Name, t: Txid)
    requires c in s.owed && NotMissed(s, t)
    requires !(s.owed[c] == NoteSigned(t) && t !in s.seen)
    ensures NotMissed(Forgone(s, c), t)
  {
  }

  lemma ChangeNotMissed(s: System, e: Event, t: Txid)
    requires Used(s) && Can(s, e) && OfDatabase(e) && NotMissed(s, t) && e != Revive(e.c, t)
    ensures NotMissed(Do(s, e), t)
  {
    var s' := Do(s, e);
    forall c | c in s'.db && OnRecord(s'.db[c], t)
      ensures t in s'.lost || (c in s'.owed && !s'.owed[c].NoteSigned? && s'.owed[c].txid == t) ==>
                s'.db[c].records[t].dead
    {
      if c != e.c {
        assert s'.db[c] == s.db[c] && Lookup(s'.owed, c) == Lookup(s.owed, c);
      }
    }
  }

  lemma TellNotMissed(s: System, e: Event, t: Txid)
    requires Inv(s) && Can(s, e) && e.Tell? && NotMissed(s, t) && !Misses(s, e, t)
    ensures NotMissed(Do(s, e), t)
  {
    LoadKeeps(s, e.answer);
    var m := LoadedFor(s, e);
    if !(s.owed[e.c].NoteSigned? && e.read.None?) {
      LoadedNotMissed(s, e.answer, t);
    }
    assert ChanOk(m, e.c, m.db[e.c], Lookup(m.owed, e.c));
    HeardNotMissed(m, e.c, e.read, t);
  }

  lemma NotMissedAfter(s: System, e: Event, t: Txid)
    requires Inv(s) && Can(s, e) && NotMissed(s, t) && !Misses(s, e, t)
    ensures NotMissed(Do(s, e), t)
  {
    match e
    case Tell(_, _, _) => TellNotMissed(s, e, t);
    case Forgo(c) => ForgoneNotMissed(s, c, t);
    case Query(answer) => LoadedNotMissed(s, answer, t);
    case Restart =>
    case _ => ChangeNotMissed(s, e, t);
  }

  lemma {:induction false} NotMissedOnRun(states: seq<System>, es: seq<Event>, n: nat, t: Txid)
    requires IsRun(states, es) && n <= |es|
    requires forall i | 0 <= i < n :: !Misses(states[i], es[i], t)
    ensures NotMissed(states[n], t)
  {
    if n > 0 {
      NotMissedOnRun(states, es, n - 1, t);
      InvOnEveryRun(states, es, n - 1);
      NotMissedAfter(states[n - 1], es[n - 1], t);
    }
  }

  /** In every run in which nothing made the index miss it, a live splice is found by every query that can read the
      channels, or by any once one could, with the funding it spends. */
  lemma EveryLiveSpliceFound(states: seq<System>, es: seq<Event>, n: nat, answer: Option<seq<ChanRead>>,
                             c: Name, t: Txid)
    requires IsRun(states, es) && n <= |es|
    requires forall i | 0 <= i < n :: !Misses(states[i], es[i], t)
    requires Answers(answer, states[n].db) && (answer.Some? || states[n].index.loaded)
    requires !Misses(states[n], Query(answer), t)
    requires c in states[n].db && Live(states[n].db[c], t)
    requires Lookup(states[n].owed, c) != Some(NoteSigned(t))
    ensures Lookup(Loaded(states[n], answer).index.txids, t) == Some(states[n].db[c].funding)
  {
    NotMissedOnRun(states, es, n, t);
    OwnSpliceFindsEveryLiveSplice(states, es, n, answer, c, t);
  }

  /** A query that reads everything, as the first of a node whose database can be read does, loses nothing. */
  lemma WholeLoadLosesNothing(s: System, rs: seq<ChanRead>)
    requires !s.index.loaded && (forall c | c in s.db :: RecordsRead(rs, c) && IdsRead(rs, c, s.db[c]))
    ensures Loaded(s, Some(rs)).lost == {} && Loaded(s, Some(rs)).adrift == {}
  {
  }

  /** A restart heals the index: in any run, a whole reading right after one finds exactly the splices on record, with
      nothing lost, untold or adrift. */
  lemma RestartHeals(states: seq<System>, es: seq<Event>, n: nat, rs: seq<ChanRead>, t: Txid)
    requires IsRun(states, es) && 0 < n <= |es| && es[n - 1].Restart? && ReadsAll(rs, states[n].db)
    requires forall c | c in states[n].db :: RecordsRead(rs, c) && IdsRead(rs, c, states[n].db[c])
    ensures var s, m := states[n], Loaded(states[n], Some(rs));
            && s.index == EMPTY && s.owed == map[] && s.seen == {} && s.db == states[n - 1].db
            && m.lost == {} && m.untold == {} && m.adrift == {}
            && (t in m.index.txids <==> exists c :: c in s.db && OnRecord(s.db[c], t))
  {
    var s := states[n];
    assert s == Do(states[n - 1], es[n - 1]);
    WholeLoadLosesNothing(s, rs);
    TxidsLoaded(EMPTY.(loaded := true), rs, t);
    if i :| 0 <= i < |rs| && Reads(rs[i], t) {
      assert ReadsOpen(rs[i], s.db);
      assert OnRecord(s.db[rs[i].name], t);
    }
    if c :| c in s.db && OnRecord(s.db[c], t) {
      var i :| 0 <= i < |rs| && rs[i].name == c && rs[i].records.Some?;
      assert ReadsOpen(rs[i], s.db);
      assert Reads(rs[i], t);
    }
  }

  /** The map of ids is flat: at any moment of any run, one lookup from any id a channel has had gives the end of the
      whole chain of moves from it, the id the channel is on, and a second lookup finds nothing further; unless the
      channel is adrift, or the index is still to be told that it moved. */
  lemma OneLookupReachesChainEnd(states: seq<System>, es: seq<Event>, n: nat, answer: Option<seq<ChanRead>>,
                                 c: Name, id: Scid)
    requires IsRun(states, es) && n <= |es|
    requires Answers(answer, states[n].db) && (answer.Some? || states[n].index.loaded)
    requires c in states[n].db && id in states[n].db[c].ids
    requires c !in Loaded(states[n], answer).adrift
    requires c in states[n].owed ==> !states[n].owed[c].NoteLocked?
    ensures var s, g := states[n], Loaded(states[n], answer).index;
            && FindBase(g, id) == ChainEnd(s.moves, id) == CurrentId(s.db[c])
            && LatestScid(g, FindBase(g, id)) == None
            && (LatestScid(g, id) == None <==> id == CurrentId(s.db[c]))
  {
    var m := Loaded(states[n], answer);
    InvOnEveryRun(states, es, n);
    LoadKeeps(states[n], answer);
    assert ChanOk(m, c, m.db[c], Lookup(m.owed, c));
    assert CurrentId(m.db[c]) in m.db[c].ids;
  }

  lemma StillHeld(m: System, t: Txid)
    requires Inv(m) && t in m.index.txids
    ensures HeldOk(m, t)
  {
  }

  /** A query finds nothing but splices of channels that have closed or have them on record, and those that went without
      the index having been told yet. */
  lemma NothingElseFound(states: seq<System>, es: seq<Event>, n: nat, answer: Option<seq<ChanRead>>, t: Txid)
    requires IsRun(states, es) && n <= |es| && Answers(answer, states[n].db)
    requires t in Loaded(states[n], answer).index.txids
    ensures var s := states[n];
            && t in s.txOf
            && (s.txOf[t] in s.db && t !in s.db[s.txOf[t]].records && t !in s.untold ==>
                 Lookup(s.owed, s.txOf[t]) in {Some(NoteGone(t)), Some(NoteLocked(t))})
  {
    InvOnEveryRun(states, es, n);
    LoadKeeps(states[n], answer);
    StillHeld(Loaded(states[n], answer), t);
  }

  // ---------------------------------------------------------------- what is lost stays lost

  /** The index does not hold the splice, and there is nothing more to tell of its being signed. */
  ghost predicate OutOfSight(s: System, t: Txid) {
    && s.index.loaded && t in s.txOf && t !in s.index.txids
    && (forall c | c in s.db && t in s.db[c].records :: s.db[c].records[t].signed)
    && (forall c | c in s.owed :: s.owed[c] != NoteSigned(t))
  }

  lemma OutOfSightKept(s: System, e: Event, t: Txid)
    requires OutOfSight(s, t) && Can(s, e) && !e.Restart?
    ensures OutOfSight(Do(s, e), t)
  {
    if e.Tell? {
      TxidsTold(s.index, s.owed[e.c], e.read);
    }
  }

  /** Whatever happens next: once the index has been read, a signed splice it does not hold, and has nothing more to be
      told of, is found by no query until the node restarts. */
  lemma {:induction false} LostUntilRestart(states: seq<System>, es: seq<Event>, m: nat, n: nat, t: Txid)
    requires IsRun(states, es) && m <= n <= |es| && OutOfSight(states[m], t)
    requires forall i | m <= i < n :: !es[i].Restart?
    ensures OutOfSight(states[n], t)
    ensures forall answer: Option<seq<ChanRead>> :: t !in Loaded(states[n], answer).index.txids
  {
    if m < n {
      LostUntilRestart(states, es, m, n - 1, t);
      OutOfSightKept(states[n - 1], es[n - 1], t);
    }
  }

  // ---------------------------------------------------------------- when reads fail

  /** A reading of a channel whose records, if they were read, are the channel's. */
  ghost predicate RecordsRight(r: ChanRead, ch: Chan) {
    r.records.Some? ==>
      forall t :: RecordRead(t, false) in r.records.value <==> t in ch.records && !ch.records[t].retired
  }

  /** A reading that lists no splice of the channel. */
  ghost predicate RecordsApart(r: ChanRead, ch: Chan) {
    r.records.Some? ==> forall t | t in ch.records :: RecordRead(t, false) !in r.records.value
  }

  /** A load is over once the channels were read, even where a channel's records were not. Of any channel, whatever else
      was read: the load, and every later one, finds all its splices exactly when their records were read, there were
      none, or the index had been told of them already. */
  lemma UnreadRecordsAreLost(g: Index, rs: seq<ChanRead>, later: Option<seq<ChanRead>>, c: Name, ch: Chan)
    requires !g.loaded
    requires forall i | 0 <= i < |rs| :: if rs[i].name == c then RecordsRight(rs[i], ch) else RecordsApart(rs[i], ch)
    ensures var h := Load(Load(g, Some(rs)), later);
            (forall t | t in ch.records && !ch.records[t].retired :: t in h.txids)
            <==> (exists i | 0 <= i < |rs| :: rs[i].name == c && rs[i].records.Some?)
                 || forall t | t in ch.records && !ch.records[t].retired :: t in g.txids
  {
    LoadedFlag(g.(loaded := true), rs);
    forall t | t in ch.records && !ch.records[t].retired
      ensures t in WithChannels(g.(loaded := true), rs).txids
              <==> t in g.txids || exists i | 0 <= i < |rs| :: rs[i].name == c && rs[i].records.Some?
    {
      TxidsLoaded(g.(loaded := true), rs, t);
      if i :| 0 <= i < |rs| && rs[i].name == c && rs[i].records.Some? {
        assert Reads(rs[i], t);
      }
    }
  }

  /** When a splice locks and SpliceScids cannot be read, every id still leads to the new one exactly when the channel
      had not been spliced before. */
  lemma UnreadIdsGoStale(g: Index, ch: Chan, id: Scid, r: ChanRead)
    requires ch.ids != [] && id !in ch.ids && id !in g.latest
    requires forall i | 0 < i < |ch.ids| :: ch.ids[i] != ch.ids[0]
    requires forall x | x in ch.ids :: FindBase(g, x) == CurrentId(ch)
    requires r.scid == ch.ids[0] && r.currentScid == id && r.scids.None?
    ensures (forall x | x in ch.ids :: FindBase(WithLocked(g, r), x) == id) <==> |ch.ids| == 1
  {
    assert WithLocked(g, r).latest == g.latest[ch.ids[0] := id];
    if |ch.ids| > 1 {
      var x := ch.ids[1];
      assert x != ch.ids[0] && x in ch.ids;
      assert FindBase(WithLocked(g, r), x) == FindBase(g, x) == CurrentId(ch);
    }
  }

  // ---------------------------------------------------------------- what the index holds beyond the live splices

  /** A lock retires a splice's other replacements and tells the index of the one that locked alone: the index is rid of
      them exactly when it held none of them. */
  lemma LockLeavesReplacements(g: Index, ch: Chan, t: Txid, id: Scid, to: OutPoint, read: Option<ChanRead>)
    requires g.loaded
    ensures (forall u | u in LockChan(ch, t, id, to).records :: u !in Told(g, NoteLocked(t), read, None).txids)
            <==> forall u | u in ch.records && u != t :: u !in g.txids
  {
    assert Told(g, NoteLocked(t), read, None).txids == g.txids - {t};
    forall u | u in ch.records && u != t ensures u in LockChan(ch, t, id, to).records {
    }
  }

  /** A run one event longer. */
  lemma LongerRun(states: seq<System>, es: seq<Event>, e: Event) returns (more: seq<System>)
    requires IsRun(states, es) && Can(states[|es|], e)
    ensures IsRun(more, es + [e]) && more == states + [Do(states[|es|], e)]
  {
    more := states + [Do(states[|es|], e)];
    forall i | 0 <= i < |es| + 1
      ensures Can(more[i], (es + [e])[i]) && more[i + 1] == Do(more[i], (es + [e])[i])
    {
      if i < |es| {
        assert more[i] == states[i] && more[i + 1] == states[i + 1] && (es + [e])[i] == es[i];
      }
    }
  }

  /** Two splices of a channel, which replace each other, are signed and told of; or one; or none. */
  const BOTH_TOLD: System :=
    START.(
      db := map[0 := Chan([1], 10, map[20 := Record(true, false, false), 21 := Record(true, false, false)])],
      index := Index(true, map[20 := 10, 21 := 10], map[]), idOf := map[1 := 0], txOf := map[20 := 0, 21 := 0])

  const ONE_TOLD: System :=
    START.(
      db := map[0 := Chan([1], 10, map[20 := Record(true, false, false)])],
      index := Index(true, map[20 := 10], map[]), idOf := map[1 := 0], txOf := map[20 := 0])

  const OPENED: System :=
    START.(db := map[0 := Chan([1], 10, map[])], index := Index(true, map[], map[]), idOf := map[1 := 0])

  lemma Opened() returns (states: seq<System>, es: seq<Event>)
    ensures IsRun(states, es) && states[|es|] == OPENED
  {
    var query, open := Query(Some([])), Open(0, 1, 10);
    states, es := [START], [];
    states := LongerRun(states, es, query);
    es := es + [query];
    assert Unretired(map[]) == {} && UnreadSplices(map[], []) == {};
    assert states[|es|] == START.(index := EMPTY.(loaded := true));
    states := LongerRun(states, es, open);
    es := es + [open];
  }

  /** Channel 0 signs a splice, and the index is told. */
  lemma SignedAndTold(states: seq<System>, es: seq<Event>, t: Txid) returns (more: seq<System>, es': seq<Event>)
    requires IsRun(states, es)
    requires var s := states[|es|];
             && Free(s, 0) && s.owed == map[] && s.index.loaded && s.db[0].ids == [1] && s.db[0].funding == 10
             && t in s.db[0].records && s.db[0].records[t] == Record(false, false, false) && t !in s.lost
    ensures IsRun(more, es')
    ensures var s, s' := states[|es|], more[|es'|];
            && s'.db == SetRecord(s, 0, t, Record(true, false, false))
            && s'.index == s.index.(txids := s.index.txids[t := 10])
            && s' == s.(db := s'.db, index := s'.index)
  {
    var sign, tell := Sign(0, t), Tell(0, Some(ChanRead(0, 1, 1, 10, None, None)), None);
    more := LongerRun(states, es, sign);
    es' := es + [sign];
    more := LongerRun(more, es', tell);
    es' := es' + [tell];
    assert more[|es'|].owed == map[] && more[|es'|].lost == states[|es|].lost;
  }

  /** Channel 0 agrees on a splice, signs it, and the index is told. */
  lemma SpliceTold(states: seq<System>, es: seq<Event>, t: Txid, told: System)
    returns (more: seq<System>, es': seq<Event>)
    requires IsRun(states, es)
    requires var s := states[|es|];
             && s.owed == map[] && s.index.loaded && t !in s.txOf && t !in s.lost
             && 0 in s.db && s.db[0].ids == [1] && s.db[0].funding == 10
             && told.db == s.db[0 := s.db[0].(records := s.db[0].records[t := Record(true, false, false)])]
             && told == s.(db := told.db, index := s.index.(txids := s.index.txids[t := 10]), txOf := s.txOf[t := 0])
    ensures IsRun(more, es') && more[|es'|] == told
  {
    var agree := Agree(0, t);
    var s := states[|es|];
    more := LongerRun(states, es, agree);
    es' := es + [agree];
    assert more[|es'|].db[0] == s.db[0].(records := s.db[0].records[t := Record(false, false, false)]);
    more, es' := SignedAndTold(more, es', t);
    assert s.db[0].records[t := Record(false, false, false)][t := Record(true, false, false)]
           == s.db[0].records[t := Record(true, false, false)];
    assert more[|es'|].db == told.db;
  }

  lemma OneTold() returns (states: seq<System>, es: seq<Event>)
    ensures IsRun(states, es) && states[|es|] == ONE_TOLD
  {
    states, es := Opened();
    assert ONE_TOLD.db == OPENED.db[0 := Chan([1], 10, map[20 := Record(true, false, false)])];
    states, es := SpliceTold(states, es, 20, ONE_TOLD);
  }

  lemma BothTold() returns (states: seq<System>, es: seq<Event>)
    ensures IsRun(states, es) && states[|es|] == BOTH_TOLD
  {
    states, es := OneTold();
    assert BOTH_TOLD.db[0].records == ONE_TOLD.db[0].records[21 := Record(true, false, false)];
    states, es := SpliceTold(states, es, 21, BOTH_TOLD);
  }

  /** And then the first of the two has locked. */
  const ONE_LOCKED: System :=
    BOTH_TOLD.(
      db := map[0 := Chan([1, 2], 11, map[21 := Record(true, true, false)])], owed := map[0 := NoteLocked(20)],
      moves := [(1, 2)], idOf := map[1 := 0, 2 := 0])

  lemma OneLocked() returns (states: seq<System>, es: seq<Event>)
    ensures IsRun(states, es) && states[|es|] == ONE_LOCKED
  {
    states, es := BothTold();
    var lock := Lock(0, 20, 2, 11);
    states := LongerRun(states, es, lock);
    es := es + [lock];
    var ch := LockChan(BOTH_TOLD.db[0], 20, 2, 11);
    assert ch.ids == [1, 2] && ch.records == map[21 := Record(true, true, false)];
    assert states[|es|].db == BOTH_TOLD.db[0 := ch] == ONE_LOCKED.db;
  }

  /** A run that leaves one: two splices of a channel replace each other, the first locks, and the second, retired by
      that, is still found, with a funding the channel has left. */
  lemma RetiredReplacementStillFound() returns (states: seq<System>, es: seq<Event>)
    ensures IsRun(states, es)
    ensures var s := states[|es|];
            && s.index.loaded && s.owed == map[] && 0 in s.db && 21 in s.db[0].records && s.db[0].records[21].retired
            && Lookup(s.index.txids, 21) == Some(10) && s.db[0].funding == 11
  {
    states, es := OneLocked();
    var read := Some(ChanRead(0, 1, 2, 11, None, Some([2])));
    var tell := Tell(0, read, None);
    assert ONE_LOCKED.db[0].ids[1..] == [2];
    states := LongerRun(states, es, tell);
    es := es + [tell];
    TxidsTold(ONE_LOCKED.index, NoteLocked(20), read);
    assert states[|es|].owed == map[];
  }

  // ---------------------------------------------------------------- what the index misses though nothing failed

  /** A run that revives a splice: it dies, the index is told, and a reorganisation brings it back, of which the index
      is not told. It is live, and out of sight: no query finds it before a restart. */
  lemma RevivedIsLost() returns (states: seq<System>, es: seq<Event>)
    ensures IsRun(states, es)
    ensures var s := states[|es|];
            && s.owed == map[] && 0 in s.db && Live(s.db[0], 20) && 20 in s.lost && OutOfSight(s, 20)
  {
    states, es := OneTold();
    var die, tell, revive := Die(0, 20), Tell(0, None, None), Revive(0, 20);
    states := LongerRun(states, es, die);
    es := es + [die];
    assert states[|es|].db[0].records[20] == Record(true, false, true);
    states := LongerRun(states, es, tell);
    es := es + [tell];
    TxidsTold(ONE_TOLD.index, NoteGone(20), None);
    assert states[|es|].owed == map[];
    states := LongerRun(states, es, revive);
    es := es + [revive];
  }

  /** A lock that completes as the machine stops is never told of: in every run, the id the channel was on then leads
      nowhere new. */
  lemma UntoldLockGoesStale(states: seq<System>, es: seq<Event>, n: nat)
    requires IsRun(states, es) && n + 2 <= |es| && es[n].Lock? && es[n + 1] == Forgo(es[n].c)
    requires states[n].index.loaded && es[n].c !in states[n].adrift
    ensures var s, c := states[n + 2], es[n].c;
            && c in s.db && c in s.adrift
            && CurrentId(states[n].db[c]) in s.db[c].ids
            && FindBase(s.index, CurrentId(states[n].db[c])) != CurrentId(s.db[c])
  {
    var s, c := states[n], es[n].c;
    InvOnEveryRun(states, es, n);
    assert ChanOk(s, c, s.db[c], None);
    assert CurrentId(s.db[c]) in s.db[c].ids;
  }
}
