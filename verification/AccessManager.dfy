/**
 The access manager (accessman.go): which peers hold one of the limited slots for peers without channels.

 Two descriptions of it are given and connected. `State` and `Apply` describe it peer by peer, with no counter: the
 number of slots taken is the cardinality of the set of restricted peers. The class `AccessMan` has the fields of the
 source, `numRestricted` among them, and each of its methods is proved to do what `Apply` does, its counter staying
 equal to that cardinality.
 */
module AccessManager {

  import opened Options

  /** A serialized public key, which the manager only compares. */
  type Peer = nat

  const TWO_TO_THE_64: nat := 0x1_0000_0000_0000_0000

  /** The uint64 the pending-open channels are counted in; it wraps around. */
  type U64 = n: nat | n < TWO_TO_THE_64

  function Inc(n: U64): U64 {
    if n == TWO_TO_THE_64 - 1 then 0 else n + 1
  }

  function Dec(n: U64): U64 {
    if n == 0 then TWO_TO_THE_64 - 1 else n - 1
  }

  datatype Status = Restricted | Temporary | Protected

  datatype ChanCount = ChanCount(hasOpenOrClosed: bool, pendingOpen: U64)

  const NO_CHANNELS := ChanCount(false, 0)

  /** What the ban check answers. */
  datatype Ban = NotBanned | Banned | CheckFailed

  datatype Error =
    | NoPeerScore
    | NoPendingPeerInfo
    | NoMoreRestrictedSlots
    | GossiperBan
    | BanCheckError
    | InvalidTransition

  datatype Verdict = Ok | Err(error: Error)

  /** What the two maps hold for one peer: its channel counts, and its access while it is connected. */
  datatype Row = Row(info: Option<ChanCount>, status: Option<Status>)

  datatype State = State(info: map<Peer, ChanCount>, scores: map<Peer, Status>, maxSlots: int)

  function RowOf(s: State, p: Peer): Row {
    Row(Lookup(s.info, p), Lookup(s.scores, p))
  }

  function WithRow(s: State, p: Peer, row: Row): (t: State)
    ensures t.maxSlots == s.maxSlots
    ensures RowOf(t, p) == row
    ensures forall q | q != p :: RowOf(t, q) == RowOf(s, q)
  {
    s.(info := if row.info.Some? then s.info[p := row.info.value] else s.info - {p},
       scores := if row.status.Some? then s.scores[p := row.status.value] else s.scores - {p})
  }

  /** The peers holding a slot. */
  function RestrictedPeers(scores: map<Peer, Status>): set<Peer> {
    set p | p in scores && scores[p] == Restricted
  }

  /** The slots taken. */
  function Taken(s: State): nat {
    |RestrictedPeers(s.scores)|
  }

  // ---------------------------------------------------------------- the operations, one row at a time

  /** hasPeer: the access a peer is known with, and whether it is known. */
  function KnownAccess(row: Row): (Status, bool) {
    match row.info
    case Some(count) =>
      if count.hasOpenOrClosed then (Protected, true)
      else if count.pendingOpen != 0 then (Temporary, true)
      else (Restricted, true)
    case None =>
      match row.status
      case Some(status) => (status, true)
      case None => (Restricted, false)
  }

  /** assignPeerPerms. `slotFree` is whether fewer slots than the limit are taken. */
  function Assigned(row: Row, ban: Ban, slotFree: bool): (Status, Verdict) {
    var (access, known) := KnownAccess(row);
    if access != Restricted then (access, Ok)
    else if ban == CheckFailed then (access, Err(BanCheckError))
    else if ban == Banned then (access, Err(GossiperBan))
    else if known || slotFree then (access, Ok)
    else (access, Err(NoMoreRestrictedSlots))
  }

  /** checkAcceptIncomingConn. */
  predicate Accepted(row: Row, slotFree: bool) {
    row.info.Some? || row.status.Some? || slotFree
  }

  /** newPendingOpenChan. */
  function PendingOpened(row: Row): (Row, Verdict) {
    match row.status
    case None => (row, Err(NoPeerScore))
    case Some(Protected) => (row, Ok)
    case Some(Temporary) =>
      if row.info.None? then (row, Err(NoPendingPeerInfo))
      else (row.(info := Some(row.info.value.(pendingOpen := Inc(row.info.value.pendingOpen)))), Ok)
    case Some(Restricted) => (Row(Some(ChanCount(false, 1)), Some(Temporary)), Ok)
  }

  /** newPendingCloseChan. `atLimit` is whether exactly as many slots as the limit are taken. */
  function PendingClosed(row: Row, atLimit: bool): (Row, Verdict) {
    match row.status
    case None => (row, Err(NoPeerScore))
    case Some(Protected) => (row, Ok)
    case Some(Restricted) => (row, Err(InvalidTransition))
    case Some(Temporary) =>
      if row.info.None? then (row, Err(NoPendingPeerInfo))
      else if row.info.value.pendingOpen != 1 then
        (row.(info := Some(row.info.value.(pendingOpen := Dec(row.info.value.pendingOpen)))), Ok)
      else if atLimit then (row.(info := None), Err(NoMoreRestrictedSlots))
      else (Row(None, Some(Restricted)), Ok)
  }

  /** newOpenChan. */
  function Opened(row: Row): (Row, Verdict) {
    match row.status
    case None => (row, Err(NoPeerScore))
    case Some(Protected) => (row, Ok)
    case Some(Restricted) => (row, Err(InvalidTransition))
    case Some(Temporary) =>
      if row.info.None? then (row, Err(NoPendingPeerInfo))
      else (Row(Some(ChanCount(true, Dec(row.info.value.pendingOpen))), Some(Protected)), Ok)
  }

  /** addPeerAccess. An outbound peer without channels is not restricted. */
  function Added(row: Row, access: Status, inbound: bool): Row {
    if row.status.Some? then row
    else if access == Restricted && !inbound then Row(Some(NO_CHANNELS), Some(Temporary))
    else row.(status := Some(access))
  }

  /** removePeerAccess. The counts of a peer with channels outlive its connection. */
  function Removed(row: Row): Row {
    if row.status.None? then row
    else if row.info == Some(NO_CHANNELS) then Row(None, None)
    else row.(status := None)
  }

  // ---------------------------------------------------------------- runs

  /** `Admit` is assignPeerPerms and then addPeerAccess with its answer, as peerConnected does: an inbound peer that is
      refused is not added, an outbound one is. `Add` is addPeerAccess alone, with an answer got earlier. */
  datatype Op =
    | PendingOpen(p: Peer)
    | PendingClose(p: Peer)
    | Open(p: Peer)
    | Remove(p: Peer)
    | Add(p: Peer, access: Status, inbound: bool)
    | Admit(p: Peer, inbound: bool, ban: Ban)

  function NewRow(s: State, op: Op): Row {
    var row := RowOf(s, op.p);
    match op
    case PendingOpen(_) => PendingOpened(row).0
    case PendingClose(_) => PendingClosed(row, Taken(s) == s.maxSlots).0
    case Open(_) => Opened(row).0
    case Remove(_) => Removed(row)
    case Add(_, access, inbound) => Added(row, access, inbound)
    case Admit(_, inbound, ban) =>
      var (access, verdict) := Assigned(row, ban, Taken(s) < s.maxSlots);
      if inbound && verdict != Ok then row else Added(row, access, inbound)
  }

  function Apply(s: State, op: Op): State {
    WithRow(s, op.p, NewRow(s, op))
  }

  function Run(s: State, ops: seq<Op>): State
    decreases |ops|
  {
    if ops == [] then s else Apply(Run(s, ops[..|ops| - 1]), ops[|ops| - 1])
  }

  /** Every admission of the run is one step. */
  predicate Atomic(ops: seq<Op>) {
    forall i | 0 <= i < |ops| :: !ops[i].Add?
  }

  /** newAccessMan: nobody is connected, and the counts are the database's. */
  function Init(counts: map<Peer, ChanCount>, maxSlots: int): State {
    State(counts, map[], maxSlots)
  }

  // ---------------------------------------------------------------- slots are counted right

  predicate HoldsSlot(row: Row) {
    row.status == Some(Restricted)
  }

  lemma SizesApart(before: set<Peer>, after: set<Peer>, p: Peer)
    requires forall q | q != p :: q in before <==> q in after
    ensures |after| == |before| - (if p in before then 1 else 0) + (if p in after then 1 else 0)
  {
    assert before - {p} == after - {p};
    assert before == (if p in before then (before - {p}) + {p} else before - {p});
    assert after == (if p in after then (after - {p}) + {p} else after - {p});
  }

  /** Replacing a row changes the number of slots taken by what the row itself did. */
  lemma TakenAfter(s: State, p: Peer, row: Row)
    ensures Taken(WithRow(s, p, row)) ==
            Taken(s) - (if HoldsSlot(RowOf(s, p)) then 1 else 0) + (if HoldsSlot(row) then 1 else 0)
  {
    var t := WithRow(s, p, row);
    forall q | q != p ensures q in RestrictedPeers(s.scores) <==> q in RestrictedPeers(t.scores) {
      assert RowOf(t, q) == RowOf(s, q);
    }
    assert p in RestrictedPeers(s.scores) <==> HoldsSlot(RowOf(s, p));
    assert p in RestrictedPeers(t.scores) <==> HoldsSlot(RowOf(t, p));
    SizesApart(RestrictedPeers(s.scores), RestrictedPeers(t.scores), p);
  }

  // ---------------------------------------------------------------- the two maps agree

  /** What the two maps say of one peer. A temporary peer without counts is one whose last pending channel closed
      with no slot free: the caller is to disconnect it. */
  predicate Consistent(row: Row) {
    match row.status
    case None => row.info != Some(NO_CHANNELS)
    case Some(Restricted) => row.info.None?
    case Some(Temporary) => row.info.Some? ==> !row.info.value.hasOpenOrClosed
    case Some(Protected) => row.info.Some? && row.info.value.hasOpenOrClosed
  }

  ghost predicate AllConsistent(s: State) {
    forall p: Peer :: Consistent(RowOf(s, p))
  }

  lemma ConsistentStep(s: State, op: Op)
    requires AllConsistent(s) && !op.Add?
    ensures AllConsistent(Apply(s, op))
  {
    assert Consistent(RowOf(s, op.p));
    forall q: Peer ensures Consistent(RowOf(Apply(s, op), q)) {
      assert Consistent(RowOf(s, q));
    }
  }

  lemma {:induction false} MapsAgree(s: State, ops: seq<Op>)
    requires AllConsistent(s) && Atomic(ops)
    ensures AllConsistent(Run(s, ops))
    decreases |ops|
  {
    if ops != [] {
      MapsAgree(s, ops[..|ops| - 1]);
      ConsistentStep(Run(s, ops[..|ops| - 1]), ops[|ops| - 1]);
    }
  }

  /** A temporary peer without info. */
  predicate Stripped(row: Row) {
    row == Row(None, Some(Temporary))
  }

  /** A temporary peer loses its info in one way only: its last pending channel closes with no slot free. */
  lemma StrippedExactly(s: State, op: Op, p: Peer)
    requires AllConsistent(s) && !op.Add? && !Stripped(RowOf(s, p))
    ensures Stripped(RowOf(Apply(s, op), p))
            <==> && op == PendingClose(p) && Taken(s) == s.maxSlots
                 && RowOf(s, p) == Row(Some(ChanCount(false, 1)), Some(Temporary))
  {
    assert Consistent(RowOf(s, p));
    assert op.p != p ==> RowOf(Apply(s, op), p) == RowOf(s, p);
  }

  // ---------------------------------------------------------------- the slot bound

  lemma SlotStep(s: State, op: Op)
    requires AllConsistent(s) && !op.Add? && Taken(s) <= s.maxSlots
    ensures Taken(Apply(s, op)) <= s.maxSlots
  {
    assert Consistent(RowOf(s, op.p));
    TakenAfter(s, op.p, NewRow(s, op));
  }

  lemma {:induction false} SlotBound(s: State, ops: seq<Op>)
    requires AllConsistent(s) && Atomic(ops) && Taken(s) <= s.maxSlots
    ensures Run(s, ops).maxSlots == s.maxSlots
    ensures Taken(Run(s, ops)) <= s.maxSlots
    decreases |ops|
  {
    if ops != [] {
      var before := Run(s, ops[..|ops| - 1]);
      MapsAgree(s, ops[..|ops| - 1]);
      SlotBound(s, ops[..|ops| - 1]);
      SlotStep(before, ops[|ops| - 1]);
    }
  }

  /** Counts with no entry for a peer without channels. FetchPermAndTempPeers promises no such thing: a peer whose
      only channels were closed before they opened still has a bucket, and so an entry. */
  predicate NoEmptyEntry(counts: map<Peer, ChanCount>) {
    forall p | p in counts :: counts[p] != NO_CHANNELS
  }

  ghost predicate BoundedOnEveryRun(counts: map<Peer, ChanCount>, maxSlots: int) {
    forall ops | Atomic(ops) :: Taken(Run(Init(counts, maxSlots), ops)) <= maxSlots
  }

  /** A key above every key of a set. */
  ghost function AboveAll(ps: set<Peer>): (r: Peer)
    ensures forall p | p in ps :: p < r
    decreases |ps|
  {
    if ps == {} then 0
    else
      var p :| p in ps;
      var rest := AboveAll(ps - {p});
      assert forall q | q in ps :: q == p || q in ps - {p};
      if p < rest then rest else p + 1
  }

  /** The run in which unknown peers, from `base` up, take `n` slots. */
  function Fill(base: Peer, n: nat): (ops: seq<Op>)
    ensures |ops| == n && Atomic(ops)
  {
    if n == 0 then [] else Fill(base, n - 1) + [Admit(base + n - 1, true, NotBanned)]
  }

  lemma RunOne(s: State, ops: seq<Op>, op: Op)
    ensures Run(s, ops + [op]) == Apply(Run(s, ops), op)
  {
    assert (ops + [op])[..|ops|] == ops;
  }

  lemma {:induction false} FillSlots(s: State, base: Peer, n: nat)
    requires Taken(s) == 0 && n <= s.maxSlots
    requires forall p: Peer | p >= base :: RowOf(s, p) == Row(None, None)
    ensures var t := Run(s, Fill(base, n));
            && t.maxSlots == s.maxSlots
            && Taken(t) == n
            && (forall p: Peer | p < base || p >= base + n :: RowOf(t, p) == RowOf(s, p))
  {
    if n > 0 {
      FillSlots(s, base, n - 1);
      var before, op := Run(s, Fill(base, n - 1)), Admit(base + n - 1, true, NotBanned);
      RunOne(s, Fill(base, n - 1), op);
      assert RowOf(before, op.p) == RowOf(s, op.p);
      TakenAfter(before, op.p, NewRow(before, op));
    }
  }

  /** With the slots full of unknown peers, a peer with an empty entry still gets one. */
  lemma EmptyEntryOverfills(counts: map<Peer, ChanCount>, maxSlots: nat) returns (ops: seq<Op>)
    requires !NoEmptyEntry(counts)
    ensures Atomic(ops) && Taken(Run(Init(counts, maxSlots), ops)) == maxSlots + 1
  {
    var s, base := Init(counts, maxSlots), AboveAll(counts.Keys);
    var p :| p in counts.Keys && counts[p] == NO_CHANNELS;
    assert RestrictedPeers(s.scores) == {};
    FillSlots(s, base, maxSlots);
    var op := Admit(p, true, NotBanned);
    ops := Fill(base, maxSlots) + [op];
    var full := Run(s, Fill(base, maxSlots));
    RunOne(s, Fill(base, maxSlots), op);
    assert RowOf(full, p) == RowOf(s, p);
    TakenAfter(full, p, NewRow(full, op));
  }

  /** The slot limit holds on every run if and only if no peer without channels has an entry at the start (and the
      limit is not negative): such a peer counts as known and is never asked for a free slot. */
  lemma SlotBoundExact(counts: map<Peer, ChanCount>, maxSlots: int)
    ensures BoundedOnEveryRun(counts, maxSlots) <==> maxSlots >= 0 && NoEmptyEntry(counts)
  {
    var s := Init(counts, maxSlots);
    assert Taken(s) == 0 by { assert RestrictedPeers(s.scores) == {}; }
    if maxSlots >= 0 && NoEmptyEntry(counts) {
      forall ops | Atomic(ops) ensures Taken(Run(s, ops)) <= maxSlots {
        SlotBound(s, ops);
      }
    } else if maxSlots < 0 {
      assert Atomic([]) && Taken(Run(s, [])) > maxSlots;
    } else {
      var ops := EmptyEntryOverfills(counts, maxSlots);
    }
  }

  // ---------------------------------------------------------------- protection is permanent

  predicate HasChannel(row: Row) {
    row.info.Some? && row.info.value.hasOpenOrClosed
  }

  /** A peer with an open or closed channel is protected while it is connected, and only such a peer is. */
  predicate Guarded(row: Row) {
    && (HasChannel(row) ==> row.status in {None, Some(Protected)})
    && (row.status == Some(Protected) ==> HasChannel(row))
  }

  ghost predicate AllGuarded(s: State) {
    forall p: Peer :: Guarded(RowOf(s, p))
  }

  lemma {:induction false} GuardedOnEveryRun(s: State, ops: seq<Op>)
    requires AllGuarded(s) && Atomic(ops)
    ensures AllGuarded(Run(s, ops))
    decreases |ops|
  {
    if ops != [] {
      var before, op := Run(s, ops[..|ops| - 1]), ops[|ops| - 1];
      GuardedOnEveryRun(s, ops[..|ops| - 1]);
      assert Guarded(RowOf(before, op.p));
      forall q: Peer ensures Guarded(RowOf(Apply(before, op), q)) {
        assert Guarded(RowOf(before, q));
      }
    }
  }

  lemma ChannelKept(s: State, op: Op, p: Peer)
    requires Guarded(RowOf(s, p)) && HasChannel(RowOf(s, p)) && !op.Add?
    ensures HasChannel(RowOf(Apply(s, op), p))
  {
  }

  lemma {:induction false} ChannelKeptOnEveryRun(s: State, ops: seq<Op>, p: Peer)
    requires AllGuarded(s) && HasChannel(RowOf(s, p)) && Atomic(ops)
    ensures HasChannel(RowOf(Run(s, ops), p))
    decreases |ops|
  {
    if ops != [] {
      ChannelKeptOnEveryRun(s, ops[..|ops| - 1], p);
      GuardedOnEveryRun(s, ops[..|ops| - 1]);
      ChannelKept(Run(s, ops[..|ops| - 1]), ops[|ops| - 1], p);
    }
  }

  /** From any counts: once a peer has an open or closed channel, it has one after any further steps, disconnections
      included, and is always given protected access, whatever the ban check and the slots say. */
  lemma ProtectionIsPermanent(counts: map<Peer, ChanCount>, maxSlots: int, past: seq<Op>, future: seq<Op>,
                              p: Peer, ban: Ban, slotFree: bool)
    requires Atomic(past) && Atomic(future)
    requires HasChannel(RowOf(Run(Init(counts, maxSlots), past), p))
    ensures var row := RowOf(Run(Run(Init(counts, maxSlots), past), future), p);
            && HasChannel(row)
            && Assigned(row, ban, slotFree) == (Protected, Ok)
  {
    GuardedOnEveryRun(Init(counts, maxSlots), past);
    ChannelKeptOnEveryRun(Run(Init(counts, maxSlots), past), future, p);
  }

  // ---------------------------------------------------------------- assigning and adding apart

  /** addPeerAccess with an answer got earlier keeps the limit exactly when no slot is taken by it or one is still
      free; that is what a second look at the slots when adding would ensure. */
  lemma LateAddKeepsLimit(s: State, p: Peer, access: Status, inbound: bool)
    requires Taken(s) <= s.maxSlots
    ensures Taken(Apply(s, Add(p, access, inbound))) <= s.maxSlots
            <==> p in s.scores || access != Restricted || !inbound || Taken(s) < s.maxSlots
  {
    TakenAfter(s, p, NewRow(s, Add(p, access, inbound)));
  }

  /** addPeerAccess with an answer got earlier keeps a peer's channel on record exactly when it does not reset the
      counts of a peer that is away, as it does for an outbound peer it was told is restricted. */
  lemma LateAddKeepsProtection(s: State, p: Peer, access: Status, inbound: bool)
    requires HasChannel(RowOf(s, p))
    ensures HasChannel(RowOf(Apply(s, Add(p, access, inbound)), p))
            <==> p in s.scores || access != Restricted || inbound
  {
  }

  /** A run that goes over the limit: the one slot is promised to peer 2, goes to peer 1, whose pending channel
      closes, and is then given to peer 2 as well. */
  lemma LateAddOverTheLimit()
    ensures var s := Apply(Apply(Init(map[], 1), Admit(1, false, NotBanned)), PendingOpen(1));
            && Assigned(RowOf(s, 2), NotBanned, Taken(s) < s.maxSlots) == (Restricted, Ok)
            && Taken(Apply(Apply(s, PendingClose(1)), Add(2, Restricted, true))) == 2
  {
    var s0 := Init(map[], 1);
    assert RestrictedPeers(s0.scores) == {};
    var s1 := Apply(s0, Admit(1, false, NotBanned));
    TakenAfter(s0, 1, NewRow(s0, Admit(1, false, NotBanned)));
    var s2 := Apply(s1, PendingOpen(1));
    TakenAfter(s1, 1, NewRow(s1, PendingOpen(1)));
    TakenAfter(s2, 1, NewRow(s2, PendingClose(1)));
    var s3 := Apply(s2, PendingClose(1));
    TakenAfter(s3, 2, NewRow(s3, Add(2, Restricted, true)));
  }

  /** A run that forgets a channel: peer 1 is told it is restricted, opens a channel over another connection, leaves,
      and is then added as told. */
  lemma LateAddForgetsChannel()
    ensures var s := Init(map[], 1);
            var later := Apply(Apply(Apply(Apply(s, Admit(1, true, NotBanned)), PendingOpen(1)), Open(1)), Remove(1));
            && Assigned(RowOf(s, 1), NotBanned, Taken(s) < s.maxSlots) == (Restricted, Ok)
            && HasChannel(RowOf(later, 1))
            && !HasChannel(RowOf(Apply(later, Add(1, Restricted, false)), 1))
  {
    var s := Init(map[], 1);
    assert RestrictedPeers(s.scores) == {};
  }

  /** newPendingCloseChan compares the slots taken for equality with the limit: past the limit it refuses nobody. */
  lemma PastLimitNothingIsRefused(s: State, p: Peer)
    requires Taken(s) > s.maxSlots
    requires RowOf(s, p) == Row(Some(ChanCount(false, 1)), Some(Temporary))
    ensures Taken(Apply(s, PendingClose(p))) == Taken(s) + 1
  {
    TakenAfter(s, p, NewRow(s, PendingClose(p)));
  }

  /** An outbound peer that is not known takes no slot, nor when it opens a channel. */
  lemma OpensChannel(s: State, p: Peer)
    requires RowOf(s, p) == Row(None, None)
    ensures var t := Apply(Apply(s, Admit(p, false, NotBanned)), PendingOpen(p));
            RowOf(t, p) == Row(Some(ChanCount(false, 1)), Some(Temporary)) && Taken(t) == Taken(s)
  {
    var m := Apply(s, Admit(p, false, NotBanned));
    TakenAfter(s, p, NewRow(s, Admit(p, false, NotBanned)));
    TakenAfter(m, p, NewRow(m, PendingOpen(p)));
  }

  lemma {:induction false} SameLimit(s: State, ops: seq<Op>)
    ensures Run(s, ops).maxSlots == s.maxSlots
    decreases |ops|
  {
    if ops != [] {
      SameLimit(s, ops[..|ops| - 1]);
    }
  }

  /** A peer that a run does not know. */
  lemma Newcomer(s: State, ops: seq<Op>) returns (p: Peer)
    ensures RowOf(Run(s, ops), p) == Row(None, None)
  {
    var t := Run(s, ops);
    p := AboveAll(t.info.Keys + t.scores.Keys);
    assert p !in t.info.Keys + t.scores.Keys;
  }

  lemma OneMoreOver(s: State, over: seq<Op>) returns (ops: seq<Op>)
    requires Atomic(over) && Taken(Run(s, over)) > s.maxSlots
    ensures Atomic(ops) && Taken(Run(s, ops)) == Taken(Run(s, over)) + 1
  {
    var p := Newcomer(s, over);
    var admitted := over + [Admit(p, false, NotBanned)];
    var pending := admitted + [PendingOpen(p)];
    ops := pending + [PendingClose(p)];
    RunOne(s, over, Admit(p, false, NotBanned));
    RunOne(s, admitted, PendingOpen(p));
    RunOne(s, pending, PendingClose(p));
    OpensChannel(Run(s, over), p);
    SameLimit(s, pending);
    PastLimitNothingIsRefused(Run(s, pending), p);
  }

  /** And runs get there, without bound: with an empty entry the slots overfill, and every peer that connects then,
      outbound, opens a channel and loses it again is given a slot beyond even that. */
  lemma {:induction false} OverfillsFurther(counts: map<Peer, ChanCount>, maxSlots: nat, n: nat) returns (ops: seq<Op>)
    requires !NoEmptyEntry(counts)
    ensures Atomic(ops) && Taken(Run(Init(counts, maxSlots), ops)) == maxSlots + 1 + n
  {
    if n == 0 {
      ops := EmptyEntryOverfills(counts, maxSlots);
    } else {
      var fewer := OverfillsFurther(counts, maxSlots, n - 1);
      ops := OneMoreOver(Init(counts, maxSlots), fewer);
    }
  }

  // ---------------------------------------------------------------- who is admitted, and as what

  /** A peer with an open, closed or pending channel, or connected as one that had one. */
  predicate HasChannels(row: Row) {
    match row.info
    case Some(count) => count.hasOpenOrClosed || count.pendingOpen != 0
    case None => row.status in {Some(Temporary), Some(Protected)}
  }

  predicate Unknown(row: Row) {
    row == Row(None, None)
  }

  /** The ban check and the slots matter to peers without channels alone, the slots to unknown ones alone; and each
      refusal has its own error. */
  lemma AssignedExactly(row: Row, ban: Ban, slotFree: bool)
    ensures var (access, verdict) := Assigned(row, ban, slotFree);
            && (access == Restricted <==> !HasChannels(row))
            && (access == Protected <==> HasChannel(row) || (row.info.None? && row.status == Some(Protected)))
            && (verdict == Err(BanCheckError) <==> !HasChannels(row) && ban == CheckFailed)
            && (verdict == Err(GossiperBan) <==> !HasChannels(row) && ban == Banned)
            && (verdict == Err(NoMoreRestrictedSlots) <==> Unknown(row) && ban == NotBanned && !slotFree)
            && (verdict == Ok <==> HasChannels(row) || (ban == NotBanned && (!Unknown(row) || slotFree)))
  {
  }

  /** In any state: nobody connecting inbound is given a slot unless the ban check cleared it. */
  lemma BannedGetsNoSlot(s: State, p: Peer, ban: Ban)
    requires ban != NotBanned
    ensures RestrictedPeers(Apply(s, Admit(p, true, ban)).scores) == RestrictedPeers(s.scores)
  {
    var t := Apply(s, Admit(p, true, ban));
    AssignedExactly(RowOf(s, p), ban, Taken(s) < s.maxSlots);
    forall q ensures q in RestrictedPeers(t.scores) <==> q in RestrictedPeers(s.scores) {
      assert q != p ==> RowOf(t, q) == RowOf(s, q);
      assert RowOf(t, p).status == Some(Restricted) <==> RowOf(s, p).status == Some(Restricted);
    }
  }

  /** In any state: an unknown peer connecting inbound is added exactly if the ban check cleared it and a slot is free,
      and it takes the slot; connecting outbound it is always added, and takes none. */
  lemma NewcomerAdmittedExactly(s: State, p: Peer, ban: Ban)
    requires Unknown(RowOf(s, p))
    ensures var t := Apply(s, Admit(p, true, ban));
            && (p in t.scores <==> ban == NotBanned && Taken(s) < s.maxSlots)
            && Taken(t) == Taken(s) + (if p in t.scores then 1 else 0)
    ensures var t := Apply(s, Admit(p, false, ban));
            RowOf(t, p) == Row(Some(NO_CHANNELS), Some(Temporary)) && Taken(t) == Taken(s)
  {
    TakenAfter(s, p, NewRow(s, Admit(p, true, ban)));
    TakenAfter(s, p, NewRow(s, Admit(p, false, ban)));
  }

  /** A connection leaves no trace: a peer that is away, and whose counts say something if it has any, is after it has
      come, with the access it is known by, and gone as it was. */
  lemma VisitLeavesNoTrace(row: Row, inbound: bool)
    requires row.status.None? && row.info != Some(NO_CHANNELS)
    ensures var here := Added(row, KnownAccess(row).0, inbound);
            && here.status.Some?
            && here.status.value == (if !inbound && !HasChannels(row) then Temporary else KnownAccess(row).0)
            && Removed(here) == row
  {
  }

  /** While a peer is away nothing that happens, to its channels or to other peers, changes what is known of it. */
  lemma {:induction false} AwayIsUntouched(s: State, ops: seq<Op>, p: Peer)
    requires p !in s.scores
    requires forall i | 0 <= i < |ops| && ops[i].p == p :: !ops[i].Add? && !ops[i].Admit?
    ensures RowOf(Run(s, ops), p) == RowOf(s, p)
    decreases |ops|
  {
    if ops != [] {
      AwayIsUntouched(s, ops[..|ops| - 1], p);
    }
  }

  /** A pending channel that closes undoes what its opening did, if a slot is free; one that opens leaves the peer
      protected and the others counted. */
  lemma CloseUndoesOpen(row: Row)
    requires row == Row(None, Some(Restricted))
             || (row.status == Some(Temporary) && row.info.Some?
                 && 0 < row.info.value.pendingOpen < TWO_TO_THE_64 - 1 && !row.info.value.hasOpenOrClosed)
    ensures var (pending, verdict) := PendingOpened(row);
            && verdict == Ok && pending.status == Some(Temporary) && pending.info.Some?
            && PendingClosed(pending, false) == (row, Ok)
            && Opened(pending).1 == Ok && Opened(pending).0.status == Some(Protected) && HasChannel(Opened(pending).0)
            && Opened(pending).0.info.value.pendingOpen == (if row.info.Some? then row.info.value.pendingOpen else 0)
  {
  }

  /** Which events are errors, and that none but a last pending channel closing with no slot free changes anything when
      it is one. */
  lemma VerdictsExactly(row: Row, atLimit: bool)
    ensures var (after, verdict) := PendingOpened(row);
            && (verdict == Err(NoPeerScore) <==> row.status.None?)
            && (verdict == Err(NoPendingPeerInfo) <==> row.status == Some(Temporary) && row.info.None?)
            && (verdict == Ok || (after == row && verdict.error in {NoPeerScore, NoPendingPeerInfo}))
    ensures var (after, verdict) := Opened(row);
            && (verdict == Err(NoPeerScore) <==> row.status.None?)
            && (verdict == Err(NoPendingPeerInfo) <==> row.status == Some(Temporary) && row.info.None?)
            && (verdict == Err(InvalidTransition) <==> row.status == Some(Restricted))
            && (verdict == Ok || after == row)
    ensures var (after, verdict) := PendingClosed(row, atLimit);
            && (verdict == Err(NoPeerScore) <==> row.status.None?)
            && (verdict == Err(NoPendingPeerInfo) <==> row.status == Some(Temporary) && row.info.None?)
            && (verdict == Err(InvalidTransition) <==> row.status == Some(Restricted))
            && (verdict == Err(NoMoreRestrictedSlots)
                <==> row.status == Some(Temporary) && row.info.Some? && row.info.value.pendingOpen == 1 && atLimit)
            && (verdict == Err(NoMoreRestrictedSlots) ==> after == row.(info := None))
            && (verdict == Ok || verdict == Err(NoMoreRestrictedSlots) || after == row)
    ensures row.status == Some(Protected) ==>
              PendingOpened(row).0 == row && PendingClosed(row, atLimit).0 == row && Opened(row).0 == row
  {
  }

  // ---------------------------------------------------------------- the two filters, and the count

  /** The inbound filter accepts exactly the peers assignPeerPerms would admit were none banned. */
  lemma FiltersAgree(row: Row, slotFree: bool)
    ensures Accepted(row, slotFree) <==> Assigned(row, NotBanned, slotFree).1 == Ok
  {
  }

  /** A peer without an open or closed channel whose count is not zero: temporary, whether or not it is connected. */
  predicate Lingers(row: Row) {
    && row.info.Some? && !row.info.value.hasOpenOrClosed && row.info.value.pendingOpen != 0
    && row.status in {None, Some(Temporary)}
  }

  /** The steps that end that: while it is connected, a channel opens, the count wraps around to zero, or the last
      pending channel counted closes. */
  predicate Releases(row: Row, op: Op, p: Peer) {
    && op.p == p && row.status == Some(Temporary) && row.info.Some?
    && (op.Open?
        || (op.PendingOpen? && row.info.value.pendingOpen == TWO_TO_THE_64 - 1)
        || (op.PendingClose? && row.info.value.pendingOpen == 1))
  }

  lemma LingersAfter(s: State, op: Op, p: Peer)
    requires Lingers(RowOf(s, p)) && !op.Add?
    ensures Lingers(RowOf(Apply(s, op), p)) <==> !Releases(RowOf(s, p), op, p)
  {
    assert op.p != p ==> RowOf(Apply(s, op), p) == RowOf(s, p);
  }

  /** Such a peer is never refused, and asked for no slot. */
  lemma LingeringIsAdmitted(row: Row, ban: Ban, slotFree: bool)
    requires Lingers(row)
    ensures Assigned(row, ban, slotFree) == (Temporary, Ok)
  {
  }

  predicate LingersAt(s: State, ops: seq<Op>, p: Peer, k: nat)
    requires k <= |ops|
  {
    Lingers(RowOf(Run(s, ops[..k]), p))
  }

  predicate ReleasedAt(s: State, ops: seq<Op>, p: Peer, k: nat)
    requires k < |ops|
  {
    Releases(RowOf(Run(s, ops[..k]), p), ops[k], p)
  }

  lemma LingersOneMore(s: State, ops: seq<Op>, p: Peer, k: nat)
    requires Atomic(ops) && k < |ops| && LingersAt(s, ops, p, k)
    ensures LingersAt(s, ops, p, k + 1) <==> !ReleasedAt(s, ops, p, k)
  {
    assert ops[..k + 1][..k] == ops[..k];
    LingersAfter(Run(s, ops[..k]), ops[k], p);
  }

  /** Through a run such a peer stays temporary exactly as long as no step of it releases it. */
  lemma {:induction false} LingersExactly(s: State, ops: seq<Op>, p: Peer, n: nat)
    requires Lingers(RowOf(s, p)) && Atomic(ops) && n <= |ops|
    ensures (forall k | 0 <= k <= n :: LingersAt(s, ops, p, k)) <==> forall k | 0 <= k < n :: !ReleasedAt(s, ops, p, k)
  {
    if n == 0 {
      assert ops[..0] == [];
    } else {
      LingersExactly(s, ops, p, n - 1);
      if LingersAt(s, ops, p, n - 1) {
        LingersOneMore(s, ops, p, n - 1);
      }
    }
  }

  /** A pending channel closed for a peer that has none counted leaves the largest count there is, and so a peer that
      lingers, after it has disconnected as well; exactly then, the count goes up instead of down. */
  lemma CountWrapsAround(row: Row, atLimit: bool)
    requires row.status == Some(Temporary) && row.info.Some?
    ensures var after := PendingClosed(row, atLimit).0;
            (after.info.Some? && after.info.value.pendingOpen > row.info.value.pendingOpen)
            <==> row.info.value.pendingOpen == 0
    ensures row.info == Some(NO_CHANNELS) ==>
              var after := PendingClosed(row, atLimit).0;
              && after.info == Some(ChanCount(false, TWO_TO_THE_64 - 1))
              && Lingers(after) && Lingers(Removed(after)) && KnownAccess(Removed(after)) == (Temporary, true)
  {
  }

  // ---------------------------------------------------------------- the manager itself

  /** A run that gets there: an outbound peer nobody knows connects, and a pending channel of it closes. */
  lemma WrapsOnRun(counts: map<Peer, ChanCount>, maxSlots: int, p: Peer)
    requires p !in counts
    ensures var ops := [Admit(p, false, NotBanned), PendingClose(p)];
            Atomic(ops) && RowOf(Run(Init(counts, maxSlots), ops), p)
                           == Row(Some(ChanCount(false, TWO_TO_THE_64 - 1)), Some(Temporary))
  {
    var s, admit := Init(counts, maxSlots), Admit(p, false, NotBanned);
    RunOne(s, [], admit);
    RunOne(s, [admit], PendingClose(p));
    assert [] + [admit] == [admit] && [admit] + [PendingClose(p)] == [admit, PendingClose(p)];
  }

  /** Writing back a row as it was changes nothing. */
  lemma UnchangedRow(s: State, p: Peer)
    ensures WithRow(s, p, RowOf(s, p)) == s
  {
    var t := WithRow(s, p, RowOf(s, p));
    assert t.info == s.info && t.scores == s.scores;
  }

  lemma SameScore(scores: map<Peer, Status>, p: Peer)
    requires p in scores
    ensures scores[p := scores[p]] == scores
  {
  }

  class AccessMan {
    var peerChanInfo: map<Peer, ChanCount>
    var peerScores: map<Peer, Status>
    var numRestricted: int
    const maxRestrictedSlots: int

    /** The counter counts the restricted peers. */
    ghost predicate Valid()
      reads this
    {
      numRestricted == |RestrictedPeers(peerScores)|
    }

    ghost function View(): State
      reads this
    {
      State(peerChanInfo, peerScores, maxRestrictedSlots)
    }

    constructor (counts: map<Peer, ChanCount>, maxSlots: int)
      ensures Valid() && View() == Init(counts, maxSlots)
    {
      peerChanInfo, peerScores, numRestricted := counts, map[], 0;
      maxRestrictedSlots := maxSlots;
      new;
      assert RestrictedPeers(peerScores) == {};
    }

    method HasPeer(pub: Peer) returns (access: Status, known: bool)
      ensures (access, known) == KnownAccess(RowOf(View(), pub))
      ensures known <==> pub in peerChanInfo || pub in peerScores
    {
      if pub in peerChanInfo {
        var count := peerChanInfo[pub];
        if count.hasOpenOrClosed {
          return Protected, true;
        }
        if count.pendingOpen != 0 {
          return Temporary, true;
        }
        return Restricted, true;
      }
      if pub in peerScores {
        return peerScores[pub], true;
      }
      return Restricted, false;
    }

    method AssignPeerPerms(pub: Peer, ban: Ban) returns (access: Status, verdict: Verdict)
      requires Valid()
      ensures (access, verdict) == Assigned(RowOf(View(), pub), ban, Taken(View()) < maxRestrictedSlots)
      ensures var row := RowOf(View(), pub);
              && (verdict == Ok <==>
                   HasChannels(row) || (ban == NotBanned && (!Unknown(row) || Taken(View()) < maxRestrictedSlots)))
              && (verdict == Err(GossiperBan) <==> !HasChannels(row) && ban == Banned)
              && (verdict == Err(BanCheckError) <==> !HasChannels(row) && ban == CheckFailed)
    {
      AssignedExactly(RowOf(View(), pub), ban, Taken(View()) < maxRestrictedSlots);
      var known;
      access, known := HasPeer(pub);
      if access != Restricted {
        return access, Ok;
      }
      match ban {
        case CheckFailed => return access, Err(BanCheckError);
        case Banned => return access, Err(GossiperBan);
        case NotBanned =>
      }
      if known {
        return access, Ok;
      }
      if numRestricted >= maxRestrictedSlots {
        return access, Err(NoMoreRestrictedSlots);
      }
      return access, Ok;
    }

    method CheckAcceptIncomingConn(pub: Peer) returns (accept: bool)
      requires Valid()
      ensures accept <==> Assigned(RowOf(View(), pub), NotBanned, Taken(View()) < maxRestrictedSlots).1 == Ok
    {
      FiltersAgree(RowOf(View(), pub), Taken(View()) < maxRestrictedSlots);
      if pub in peerChanInfo {
        return true;
      }
      if pub in peerScores {
        return true;
      }
      return numRestricted < maxRestrictedSlots;
    }

    method NewPendingOpenChan(pub: Peer) returns (verdict: Verdict)
      requires Valid()
      modifies this
      ensures Valid() && View() == Apply(old(View()), PendingOpen(pub))
      ensures verdict == PendingOpened(old(RowOf(View(), pub))).1
    {
      TakenAfter(View(), pub, NewRow(View(), PendingOpen(pub)));
      UnchangedRow(View(), pub);
      if pub !in peerScores {
        return Err(NoPeerScore);
      }
      match peerScores[pub] {
        case Protected =>
          return Ok;
        case Temporary =>
          if pub !in peerChanInfo {
            return Err(NoPendingPeerInfo);
          }
          var count := peerChanInfo[pub];
          peerChanInfo := peerChanInfo[pub := count.(pendingOpen := Inc(count.pendingOpen))];
          SameScore(peerScores, pub);
        case Restricted =>
          peerChanInfo := peerChanInfo[pub := ChanCount(false, 1)];
          numRestricted := numRestricted - 1;
          peerScores := peerScores[pub := Temporary];
      }
      return Ok;
    }

    method NewPendingCloseChan(pub: Peer) returns (verdict: Verdict)
      requires Valid()
      modifies this
      ensures Valid() && View() == Apply(old(View()), PendingClose(pub))
      ensures verdict == PendingClosed(old(RowOf(View(), pub)), old(Taken(View())) == maxRestrictedSlots).1
    {
      TakenAfter(View(), pub, NewRow(View(), PendingClose(pub)));
      UnchangedRow(View(), pub);
      if pub !in peerScores {
        return Err(NoPeerScore);
      }
      match peerScores[pub] {
        case Protected =>
          return Ok;
        case Restricted =>
          return Err(InvalidTransition);
        case Temporary =>
          if pub !in peerChanInfo {
            return Err(NoPendingPeerInfo);
          }
          var count := peerChanInfo[pub];
          var currentNumPending := Dec(count.pendingOpen);
          if currentNumPending == 0 {
            peerChanInfo := peerChanInfo - {pub};
            if numRestricted == maxRestrictedSlots {
              SameScore(peerScores, pub);
              return Err(NoMoreRestrictedSlots);
            }
            peerScores := peerScores[pub := Restricted];
            numRestricted := numRestricted + 1;
            return Ok;
          }
          peerChanInfo := peerChanInfo[pub := count.(pendingOpen := currentNumPending)];
          SameScore(peerScores, pub);
          return Ok;
      }
    }

    method NewOpenChan(pub: Peer) returns (verdict: Verdict)
      requires Valid()
      modifies this
      ensures Valid() && View() == Apply(old(View()), Open(pub))
      ensures verdict == Opened(old(RowOf(View(), pub))).1
    {
      TakenAfter(View(), pub, NewRow(View(), Open(pub)));
      UnchangedRow(View(), pub);
      if pub !in peerScores {
        return Err(NoPeerScore);
      }
      match peerScores[pub] {
        case Protected =>
          return Ok;
        case Restricted =>
          return Err(InvalidTransition);
        case Temporary =>
          if pub !in peerChanInfo {
            return Err(NoPendingPeerInfo);
          }
          var count := peerChanInfo[pub];
          peerChanInfo := peerChanInfo[pub := ChanCount(true, Dec(count.pendingOpen))];
          peerScores := peerScores[pub := Protected];
          return Ok;
      }
    }

    method AddPeerAccess(pub: Peer, access: Status, inbound: bool)
      requires Valid()
      modifies this
      ensures Valid() && View() == Apply(old(View()), Add(pub, access, inbound))
    {
      TakenAfter(View(), pub, NewRow(View(), Add(pub, access, inbound)));
      UnchangedRow(View(), pub);
      if pub in peerScores {
        return;
      }
      ghost var before := View();
      peerScores := peerScores[pub := access];
      if access != Restricted {
        assert View() == Apply(before, Add(pub, access, inbound));
        return;
      }
      if inbound {
        numRestricted := numRestricted + 1;
        assert View() == Apply(before, Add(pub, access, inbound));
        return;
      }
      peerChanInfo := peerChanInfo[pub := NO_CHANNELS];
      peerScores := peerScores[pub := Temporary];
      assert View() == Apply(before, Add(pub, access, inbound));
    }

    method RemovePeerAccess(pub: Peer)
      requires Valid()
      modifies this
      ensures Valid() && View() == Apply(old(View()), Remove(pub))
    {
      TakenAfter(View(), pub, NewRow(View(), Remove(pub)));
      UnchangedRow(View(), pub);
      if pub !in peerScores {
        return;
      }
      if peerScores[pub] == Restricted {
        numRestricted := numRestricted - 1;
      }
      peerScores := peerScores - {pub};
      if pub !in peerChanInfo {
        return;
      }
      var info := peerChanInfo[pub];
      if info.hasOpenOrClosed {
        return;
      }
      if info.pendingOpen != 0 {
        return;
      }
      peerChanInfo := peerChanInfo - {pub};
    }

    /** peerConnected's use of the manager: assign, and add unless an inbound peer is refused. */
    method PeerConnected(pub: Peer, ban: Ban, inbound: bool) returns (admitted: bool)
      requires Valid()
      modifies this
      ensures Valid() && View() == Apply(old(View()), Admit(pub, inbound, ban))
      ensures admitted ==> pub in peerScores
      ensures var row := old(RowOf(View(), pub));
              admitted <==>
                !inbound || HasChannels(row)
                || (ban == NotBanned && (!Unknown(row) || old(Taken(View())) < maxRestrictedSlots))
    {
      var access, verdict := AssignPeerPerms(pub, ban);
      AssignedExactly(RowOf(View(), pub), ban, Taken(View()) < maxRestrictedSlots);
      UnchangedRow(View(), pub);
      if inbound && verdict != Ok {
        return false;
      }
      AddPeerAccess(pub, access, inbound);
      return true;
    }
  }
}
