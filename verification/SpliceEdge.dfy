/**
 Moving a spliced channel's graph edge (moveSpliceEdge, server_splice.go): the channel gets an edge on its current
 funding output, carrying our policy, before the edges of the outputs it left go.

 A run reads first and writes afterwards, so what it does is a list of writes, its plan; a crash or an error leaves a
 prefix of them done. A move that crashed may be run again, any number of times.
 */
module SpliceEdge {

  import opened Options

  type OutPoint = nat
  type ChanId = nat
  type Key = nat

  const MSAT_PER_SAT: nat := 1000

  /** One direction of an edge; `terms` is everything a move carries over as it is (fees, time lock, flags). */
  datatype Policy = Policy(maxHtlc: nat, terms: nat)

  datatype Edge = Edge(chanId: ChanId, node1: Key, policy1: Option<Policy>, policy2: Option<Policy>, proof: bool)

  /** Edges by the funding output they are on. */
  type Graph = map<OutPoint, Edge>

  /** What a move reads of a channel: the output that names it, the one it is on now and their ids, the ones it left,
      its capacity in satoshis, both nodes' keys, and the policy the funding manager announces when given none. */
  datatype Channel = Channel(
    name: OutPoint, scid: ChanId, current: OutPoint, currentScid: ChanId, previous: seq<OutPoint>,
    capacity: nat, public: bool, us: Key, peer: Key, defaultPolicy: Policy)

  function OurPolicy(ch: Channel, e: Edge): Option<Policy> {
    if e.node1 == ch.us then e.policy1 else e.policy2
  }

  function WithOurPolicy(ch: Channel, e: Edge, p: Policy): Edge {
    if e.node1 == ch.us then e.(policy1 := Some(p)) else e.(policy2 := Some(p))
  }

  /** Our policy on an output's edge, if it has one. */
  function PolicyAt(ch: Channel, g: Graph, op: OutPoint): Option<Policy> {
    if op in g then OurPolicy(ch, g[op]) else None
  }

  // ---------------------------------------------------------------- writes

  /** AddEdge, SetPolicy and AskProof are the steps of announcing a splice: the gossiper adds the edge, takes our
      update, and our half of the proof is sent. Delete removes an edge by its id. */
  datatype Write = AddEdge | SetPolicy(policy: Policy) | AskProof | Delete(chanId: ChanId)

  function NewEdge(ch: Channel): Edge {
    Edge(ch.currentScid, if ch.us < ch.peer then ch.us else ch.peer, None, None, false)
  }

  function Perform(ch: Channel, g: Graph, w: Write): Graph {
    match w
    case AddEdge => if ch.current in g then g else g[ch.current := NewEdge(ch)]
    case SetPolicy(p) => if ch.current in g then g[ch.current := WithOurPolicy(ch, g[ch.current], p)] else g
    case AskProof => g
    case Delete(id) => map op | op in g && g[op].chanId != id :: g[op]
  }

  function PerformAll(ch: Channel, g: Graph, ws: seq<Write>): Graph
    decreases |ws|
  {
    if ws == [] then g else Perform(ch, PerformAll(ch, g, ws[..|ws| - 1]), ws[|ws| - 1])
  }

  lemma PerformOne(ch: Channel, g: Graph, ws: seq<Write>, w: Write)
    ensures PerformAll(ch, g, ws + [w]) == Perform(ch, PerformAll(ch, g, ws), w)
  {
    assert (ws + [w])[..|ws|] == ws;
  }

  // ---------------------------------------------------------------- the plan of a run

  /** Our policy on the first of some outputs whose edge has one. */
  function FirstPolicy(ch: Channel, g: Graph, ops: seq<OutPoint>): (r: Option<Policy>)
    ensures r.Some? <==> exists i :: 0 <= i < |ops| && PolicyAt(ch, g, ops[i]).Some?
  {
    if ops == [] then None
    else
      var rest := FirstPolicy(ch, g, ops[..|ops| - 1]);
      if rest.Some? then rest else PolicyAt(ch, g, ops[|ops| - 1])
  }

  /** An edge on one of some outputs goes by an id. */
  predicate NamesOneOf(g: Graph, ops: seq<OutPoint>, id: ChanId) {
    exists i :: 0 <= i < |ops| && ops[i] in g && g[ops[i]].chanId == id
  }

  /** The ids of the edges on some outputs. */
  function StaleIds(g: Graph, ops: seq<OutPoint>): (ids: seq<ChanId>)
    ensures forall id | id in ids :: NamesOneOf(g, ops, id)
    ensures forall op | op in ops && op in g :: g[op].chanId in ids
  {
    if ops == [] then []
    else
      var last := ops[|ops| - 1];
      var rest := StaleIds(g, ops[..|ops| - 1]);
      assert forall id | NamesOneOf(g, ops[..|ops| - 1], id) :: NamesOneOf(g, ops, id);
      if last in g then rest + [g[last].chanId] else rest
  }

  /** The policy a run carries over, if any edge of the channel holds one of ours. */
  function Chosen(ch: Channel, g: Graph): Option<Policy> {
    var held := PolicyAt(ch, g, ch.current);
    if held.Some? then held else FirstPolicy(ch, g, ch.previous)
  }

  /** A splice out can leave the old maximum above the new capacity. */
  function Clamp(ch: Channel, p: Policy): Policy {
    if p.maxHtlc > MSAT_PER_SAT * ch.capacity then p.(maxHtlc := MSAT_PER_SAT * ch.capacity) else p
  }

  function Carried(ch: Channel, g: Graph): Policy {
    var chosen := Chosen(ch, g);
    if chosen.Some? then Clamp(ch, chosen.value) else ch.defaultPolicy
  }

  function Announcement(ch: Channel, g: Graph): seq<Write> {
    if PolicyAt(ch, g, ch.current).None? then
      [AddEdge, SetPolicy(Carried(ch, g))] + if ch.public then [AskProof] else []
    else if ch.public && !g[ch.current].proof then [AskProof]
    else []
  }

  function Deletions(ids: seq<ChanId>): seq<Write> {
    seq(|ids|, i requires 0 <= i < |ids| => Delete(ids[i]))
  }

  /** Announcing refuses a channel whose id no splice changed. */
  predicate Refused(ch: Channel, g: Graph) {
    ch.current != ch.name && Announcement(ch, g) != [] && ch.currentScid == ch.scid
  }

  function Plan(ch: Channel, g: Graph): seq<Write> {
    if ch.current == ch.name || Refused(ch, g) then []
    else Announcement(ch, g) + Deletions(StaleIds(g, ch.previous))
  }

  /** The writes made of a plan until a crash or an error after `k` of them. */
  function UpTo(plan: seq<Write>, k: nat): seq<Write> {
    if k <= |plan| then plan[..k] else plan
  }

  /** A run stopped after `k` writes. */
  function Interrupted(ch: Channel, g: Graph, k: nat): Graph {
    PerformAll(ch, g, UpTo(Plan(ch, g), k))
  }

  function Complete(ch: Channel, g: Graph): Graph {
    PerformAll(ch, g, Plan(ch, g))
  }

  /** The number of times a run asks for the proof. */
  function Asks(ws: seq<Write>): nat {
    multiset(ws)[AskProof]
  }

  // ---------------------------------------------------------------- what moving assumes

  ghost predicate WellFormed(ch: Channel, g: Graph) {
    && (forall a, b | a in g && b in g && g[a].chanId == g[b].chanId :: a == b)
    && (forall op | op in g :: g[op].chanId == ch.currentScid <==> op == ch.current)
  }

  /** Ids name edges, the current funding's names its own, a splice moved the channel, and it left the outputs of the
      list for good. */
  ghost predicate Movable(ch: Channel, g: Graph) {
    && ch.current != ch.name && ch.currentScid != ch.scid && ch.current !in ch.previous
    && WellFormed(ch, g)
  }

  // ---------------------------------------------------------------- where a move leads

  function FinalPolicy(ch: Channel, g: Graph): Policy {
    var held := PolicyAt(ch, g, ch.current);
    if held.Some? then held.value else Carried(ch, g)
  }

  /** Every edge's policy of ours once a move is done, told from the graph it starts on: the channel's policy on its
      current output, nothing on the outputs it left, and everyone else's edges as they were. */
  function Destination(ch: Channel, g: Graph): map<OutPoint, Option<Policy>> {
    map op | op in g.Keys + {ch.current} && op !in ch.previous ::
      if op == ch.current then Some(FinalPolicy(ch, g)) else OurPolicy(ch, g[op])
  }

  /** Every edge's policy of ours as it is. */
  function Ours(ch: Channel, g: Graph): map<OutPoint, Option<Policy>> {
    map op | op in g :: OurPolicy(ch, g[op])
  }

  /** `h` is a graph a move of the channel from `g` may have left: edges of the outputs it left go only once the
      current output's has the policy. */
  ghost predicate OnTheWay(ch: Channel, g: Graph, h: Graph) {
    && WellFormed(ch, h)
    && (forall op | op != ch.current && op !in ch.previous :: op in h <==> op in g)
    && (forall op | op in h && op != ch.current ::
          op in g && h[op].chanId == g[op].chanId && OurPolicy(ch, h[op]) == OurPolicy(ch, g[op]))
    && (ch.current in g ==> ch.current in h)
    && var held := PolicyAt(ch, h, ch.current);
       if held.Some? then held.value == FinalPolicy(ch, g)
       else PolicyAt(ch, g, ch.current).None? && forall op | op in ch.previous && op in g :: op in h
  }

  lemma {:induction false} SameFirstPolicy(ch: Channel, g: Graph, h: Graph, ops: seq<OutPoint>)
    requires forall op | op in ops :: PolicyAt(ch, g, op) == PolicyAt(ch, h, op)
    ensures FirstPolicy(ch, g, ops) == FirstPolicy(ch, h, ops)
  {
    if ops != [] {
      SameFirstPolicy(ch, g, h, ops[..|ops| - 1]);
    }
  }

  /** Wherever a move stops, a move from there leads where the first one led, and chooses the same policy up to the
      clamp. */
  lemma SameDestination(ch: Channel, g: Graph, h: Graph)
    requires Movable(ch, g) && OnTheWay(ch, g, h)
    ensures Destination(ch, h) == Destination(ch, g)
    ensures Chosen(ch, h) == Chosen(ch, g) || Chosen(ch, h) == Some(FinalPolicy(ch, g))
  {
    if PolicyAt(ch, h, ch.current).None? {
      forall op | op in ch.previous ensures PolicyAt(ch, g, op) == PolicyAt(ch, h, op) {
      }
      SameFirstPolicy(ch, g, h, ch.previous);
    }
    assert FinalPolicy(ch, h) == FinalPolicy(ch, g);
    assert Destination(ch, h).Keys == Destination(ch, g).Keys;
  }

  /** An announcement touches the current output's edge alone, and not its proof. */
  ghost predicate OnlyCurrentTouched(ch: Channel, g: Graph, h: Graph) {
    && (forall op | op != ch.current :: (op in h <==> op in g) && (op in g ==> h[op] == g[op]))
    && (ch.current in g ==> ch.current in h && h[ch.current].proof == g[ch.current].proof)
    && (ch.current in h ==> h[ch.current].chanId == ch.currentScid)
  }

  /** Nothing but the current output's edge touched, and there our policy is as it was or is the carried one. */
  lemma AnnouncedSoFar(ch: Channel, g: Graph, h: Graph)
    requires Movable(ch, g) && OnlyCurrentTouched(ch, g, h)
    requires PolicyAt(ch, h, ch.current) in {PolicyAt(ch, g, ch.current), Some(FinalPolicy(ch, g))}
    ensures OnTheWay(ch, g, h)
  {
  }

  /** The first three writes of a list, one after the other. */
  lemma PrefixesPerformed(ch: Channel, g: Graph, ws: seq<Write>, k: nat)
    requires k <= |ws| <= 3
    ensures var h := PerformAll(ch, g, ws[..k]);
            && (k == 0 ==> h == g)
            && (k == 1 ==> h == Perform(ch, g, ws[0]))
            && (k == 2 ==> h == Perform(ch, Perform(ch, g, ws[0]), ws[1]))
            && (k == 3 ==> h == Perform(ch, Perform(ch, Perform(ch, g, ws[0]), ws[1]), ws[2]))
  {
    if k > 0 {
      PrefixesPerformed(ch, g, ws, k - 1);
      assert ws[..k] == ws[..k - 1] + [ws[k - 1]];
      PerformOne(ch, g, ws[..k - 1], ws[k - 1]);
    }
  }

  lemma AnnouncementProgress(ch: Channel, g: Graph, k: nat)
    requires Movable(ch, g) && k <= |Announcement(ch, g)|
    ensures var h := PerformAll(ch, g, Announcement(ch, g)[..k]);
            && OnlyCurrentTouched(ch, g, h)
            && OnTheWay(ch, g, h)
            && (k == |Announcement(ch, g)| ==> PolicyAt(ch, h, ch.current) == Some(FinalPolicy(ch, g)))
  {
    var ws := Announcement(ch, g);
    PrefixesPerformed(ch, g, ws, k);
    AnnouncedSoFar(ch, g, PerformAll(ch, g, ws[..k]));
  }

  lemma {:induction false} DeletesById(ch: Channel, h: Graph, ids: seq<ChanId>)
    ensures var t := PerformAll(ch, h, Deletions(ids));
            && (forall op :: op in t <==> op in h && h[op].chanId !in ids)
            && (forall op | op in t :: t[op] == h[op])
    decreases |ids|
  {
    if ids != [] {
      var rest, id := ids[..|ids| - 1], ids[|ids| - 1];
      DeletesById(ch, h, rest);
      assert Deletions(ids) == Deletions(rest) + [Delete(id)];
      PerformOne(ch, h, Deletions(rest), Delete(id));
      assert ids == rest + [id];
    }
  }

  /** No edge of an output the channel has not left goes by the id of one it has. */
  lemma NotStale(ch: Channel, g: Graph, ids: seq<ChanId>, op: OutPoint)
    requires WellFormed(ch, g) && op !in ch.previous
    requires forall id | id in ids :: NamesOneOf(g, ch.previous, id)
    ensures op in g ==> g[op].chanId !in ids
    ensures op == ch.current ==> ch.currentScid !in ids
  {
  }

  /** Edges gone from outputs the channel left, and the rest as it was. */
  lemma SomeLeftGone(ch: Channel, g: Graph, h: Graph, t: Graph)
    requires Movable(ch, g) && OnlyCurrentTouched(ch, g, h)
    requires PolicyAt(ch, h, ch.current) == Some(FinalPolicy(ch, g))
    requires forall op | op in t :: op in h && t[op] == h[op]
    requires forall op | op !in ch.previous && op in h :: op in t
    ensures OnTheWay(ch, g, t)
  {
  }

  /** Once the current output's edge has the policy, deleting edges of outputs the channel left is on the way. */
  lemma DeletionProgress(ch: Channel, g: Graph, h: Graph, ids: seq<ChanId>)
    requires Movable(ch, g) && OnlyCurrentTouched(ch, g, h)
    requires PolicyAt(ch, h, ch.current) == Some(FinalPolicy(ch, g))
    requires forall id | id in ids :: NamesOneOf(g, ch.previous, id)
    ensures OnTheWay(ch, g, PerformAll(ch, h, Deletions(ids)))
  {
    DeletesById(ch, h, ids);
    forall op | op !in ch.previous && op in h ensures h[op].chanId !in ids {
      NotStale(ch, g, ids, op);
    }
    SomeLeftGone(ch, g, h, PerformAll(ch, h, Deletions(ids)));
  }

  lemma {:induction false} PerformSplit(ch: Channel, g: Graph, a: seq<Write>, b: seq<Write>)
    ensures PerformAll(ch, g, a + b) == PerformAll(ch, PerformAll(ch, g, a), b)
    decreases |b|
  {
    if b == [] {
      assert a + b == a;
    } else {
      assert a + b == (a + b[..|b| - 1]) + [b[|b| - 1]];
      PerformSplit(ch, g, a, b[..|b| - 1]);
      PerformOne(ch, g, a + b[..|b| - 1], b[|b| - 1]);
    }
  }

  lemma AfterAnnouncement(ch: Channel, g: Graph, ids: seq<ChanId>)
    requires Movable(ch, g)
    requires forall id | id in ids :: NamesOneOf(g, ch.previous, id)
    ensures var t := PerformAll(ch, g, Announcement(ch, g) + Deletions(ids));
            && OnTheWay(ch, g, t)
            && PolicyAt(ch, t, ch.current) == Some(FinalPolicy(ch, g))
            && (ch.current in g ==> t[ch.current].proof == g[ch.current].proof)
            && (forall op | op != ch.current :: op in t <==> op in g && g[op].chanId !in ids)
  {
    var ann := Announcement(ch, g);
    var h := PerformAll(ch, g, ann);
    assert ann[..|ann|] == ann;
    AnnouncementProgress(ch, g, |ann|);
    PerformSplit(ch, g, ann, Deletions(ids));
    DeletionProgress(ch, g, h, ids);
    DeletesById(ch, h, ids);
    NotStale(ch, g, ids, ch.current);
  }

  /** A run that stopped is part of its announcement, or the whole of it and some deletions. */
  lemma StoppedWhere(ch: Channel, g: Graph, k: nat) returns (n: nat)
    requires Movable(ch, g)
    ensures n <= |StaleIds(g, ch.previous)|
    ensures var ann, ids := Announcement(ch, g), StaleIds(g, ch.previous);
            Interrupted(ch, g, k) == PerformAll(ch, g, if k <= |ann| then ann[..k] else ann + Deletions(ids[..n]))
  {
    var ws, ann, ids := Plan(ch, g), Announcement(ch, g), StaleIds(g, ch.previous);
    n := if k <= |ann| then 0 else if k <= |ws| then k - |ann| else |ids|;
    if k <= |ann| {
      assert ws[..k] == ann[..k];
    } else {
      assert (if k <= |ws| then ws[..k] else ws) == ann + Deletions(ids[..n]);
    }
  }

  /** Every prefix of a run leaves a graph on the way. */
  lemma Progress(ch: Channel, g: Graph, k: nat)
    requires Movable(ch, g)
    ensures OnTheWay(ch, g, Interrupted(ch, g, k))
  {
    var ann, ids := Announcement(ch, g), StaleIds(g, ch.previous);
    var n := StoppedWhere(ch, g, k);
    if k <= |ann| {
      AnnouncementProgress(ch, g, k);
    } else {
      AfterAnnouncement(ch, g, ids[..n]);
    }
  }

  /** A graph on the way, with the policy in place and the stale edges gone, is there. */
  lemma AtDestination(ch: Channel, g: Graph, t: Graph)
    requires Movable(ch, g) && OnTheWay(ch, g, t) && PolicyAt(ch, t, ch.current) == Some(FinalPolicy(ch, g))
    requires forall op | op != ch.current :: op in t <==> op in g && g[op].chanId !in StaleIds(g, ch.previous)
    ensures Ours(ch, t) == Destination(ch, g)
  {
    forall op ensures op in t <==> op in Destination(ch, g) {
      if op !in ch.previous {
        NotStale(ch, g, StaleIds(g, ch.previous), op);
      }
    }
    assert Ours(ch, t).Keys == Destination(ch, g).Keys;
  }

  /** A run that completes takes every edge of ours to where it is meant to be. */
  lemma CompletesAtDestination(ch: Channel, g: Graph)
    requires Movable(ch, g)
    ensures Ours(ch, Complete(ch, g)) == Destination(ch, g)
    ensures ch.current in g ==>
              ch.current in Complete(ch, g) && Complete(ch, g)[ch.current].proof == g[ch.current].proof
  {
    AfterAnnouncement(ch, g, StaleIds(g, ch.previous));
    AtDestination(ch, g, Complete(ch, g));
  }

  // ---------------------------------------------------------------- crash safety

  /** What may happen to the graph before a run completes: a run stops after some writes, or the network completes an
      edge's proof or updates the peer's side of it. */
  datatype Event = Stop(k: nat) | Proven(op: OutPoint) | PeerUpdate(op: OutPoint, theirs: Policy)

  function Happens(ch: Channel, g: Graph, e: Event): Graph {
    match e
    case Stop(k) => Interrupted(ch, g, k)
    case Proven(op) => if op in g then g[op := g[op].(proof := true)] else g
    case PeerUpdate(op, p) =>
      if op !in g then g
      else if g[op].node1 == ch.us then g[op := g[op].(policy2 := Some(p))]
      else g[op := g[op].(policy1 := Some(p))]
  }

  function History(ch: Channel, g: Graph, events: seq<Event>): Graph
    decreases |events|
  {
    if events == [] then g else Happens(ch, History(ch, g, events[..|events| - 1]), events[|events| - 1])
  }

  lemma HappensOnTheWay(ch: Channel, g: Graph, e: Event)
    requires Movable(ch, g)
    ensures OnTheWay(ch, g, Happens(ch, g, e))
  {
    if e.Stop? {
      Progress(ch, g, e.k);
    }
  }

  lemma ClampedOnce(ch: Channel, g: Graph)
    ensures Chosen(ch, g).Some? ==> FinalPolicy(ch, g) in {Chosen(ch, g).value, Clamp(ch, Chosen(ch, g).value)}
  {
  }

  lemma {:induction false} HistoryKeepsDestination(ch: Channel, g: Graph, events: seq<Event>)
    requires Movable(ch, g)
    ensures var h := History(ch, g, events);
            && Movable(ch, h)
            && Destination(ch, h) == Destination(ch, g)
            && (Chosen(ch, g).Some? ==>
                 Chosen(ch, h).Some? && Chosen(ch, h).value in {Chosen(ch, g).value, Clamp(ch, Chosen(ch, g).value)})
            && ((exists op | op in [ch.current] + ch.previous :: op in g) ==>
                 exists op | op in [ch.current] + ch.previous :: op in h)
    decreases |events|
  {
    if events != [] {
      HistoryKeepsDestination(ch, g, events[..|events| - 1]);
      var before := History(ch, g, events[..|events| - 1]);
      var h := History(ch, g, events);
      HappensOnTheWay(ch, before, events[|events| - 1]);
      SameDestination(ch, before, h);
      ClampedOnce(ch, before);
      if op :| op in [ch.current] + ch.previous && op in before {
        assert (if PolicyAt(ch, h, ch.current).Some? then ch.current else op) in h;
        assert ch.current in [ch.current] + ch.previous;
      }
    }
  }

  /** Crash safety: after any number of interrupted runs, with the network updating edges in between, a run that
      completes leaves every edge's policy of ours as one uninterrupted run would have: the channel's on its current
      output, no edge on an output it left, all other edges untouched. */
  lemma CrashSafe(ch: Channel, g: Graph, events: seq<Event>)
    requires Movable(ch, g)
    ensures Ours(ch, Complete(ch, History(ch, g, events))) == Ours(ch, Complete(ch, g)) == Destination(ch, g)
  {
    HistoryKeepsDestination(ch, g, events);
    CompletesAtDestination(ch, g);
    CompletesAtDestination(ch, History(ch, g, events));
  }

  /** Where the channel's policy was on an output it left, what ends up on its current one fits its capacity. */
  lemma CarriedFits(ch: Channel, g: Graph)
    requires Movable(ch, g) && PolicyAt(ch, g, ch.current).None? && Chosen(ch, g).Some?
    ensures var h := Complete(ch, g);
            && ch.current in h
            && OurPolicy(ch, h[ch.current]) == Some(Clamp(ch, Chosen(ch, g).value))
            && OurPolicy(ch, h[ch.current]).value.maxHtlc <= 1000 * ch.capacity
            && OurPolicy(ch, h[ch.current]).value.maxHtlc in {Chosen(ch, g).value.maxHtlc, 1000 * ch.capacity}
            && OurPolicy(ch, h[ch.current]).value.maxHtlc <= Chosen(ch, g).value.maxHtlc
            && OurPolicy(ch, h[ch.current]).value.terms == Chosen(ch, g).value.terms
  {
    CompletesAtDestination(ch, g);
    assert ch.current in Destination(ch, g);
    assert Ours(ch, Complete(ch, g))[ch.current] == Destination(ch, g)[ch.current];
  }

  /** It is the policy of the first such output, in the order the outputs are read. */
  lemma {:induction false} FirstPolicyHeld(ch: Channel, g: Graph, ops: seq<OutPoint>)
    requires FirstPolicy(ch, g, ops).Some?
    ensures exists i :: 0 <= i < |ops| && PolicyAt(ch, g, ops[i]) == FirstPolicy(ch, g, ops)
                        && forall j | 0 <= j < i :: PolicyAt(ch, g, ops[j]).None?
  {
    var rest := ops[..|ops| - 1];
    if FirstPolicy(ch, g, rest).Some? {
      FirstPolicyHeld(ch, g, rest);
      var i :| 0 <= i < |rest| && PolicyAt(ch, g, rest[i]) == FirstPolicy(ch, g, rest)
               && forall j | 0 <= j < i :: PolicyAt(ch, g, rest[j]).None?;
      assert forall j | 0 <= j <= i :: ops[j] == rest[j];
    } else {
      assert PolicyAt(ch, g, ops[|ops| - 1]) == FirstPolicy(ch, g, ops);
    }
  }

  /** No policy is lost on the way: if an edge of the channel holds a policy of ours, then at every later moment,
      whatever crashed, an edge of the channel holds it, up to the clamp. */
  lemma PolicyNeverLost(ch: Channel, g: Graph, events: seq<Event>)
    requires Movable(ch, g)
    requires exists op | op in [ch.current] + ch.previous :: PolicyAt(ch, g, op).Some?
    ensures Chosen(ch, g).Some?
    ensures var h, p := History(ch, g, events), Chosen(ch, g).value;
            exists op | op in [ch.current] + ch.previous :: PolicyAt(ch, h, op) in {Some(p), Some(Clamp(ch, p))}
  {
    var op :| op in [ch.current] + ch.previous && PolicyAt(ch, g, op).Some?;
    if op in ch.previous {
      var i :| 0 <= i < |ch.previous| && ch.previous[i] == op;
    }
    HistoryKeepsDestination(ch, g, events);
    var h := History(ch, g, events);
    if PolicyAt(ch, h, ch.current).None? {
      FirstPolicyHeld(ch, h, ch.previous);
      var i :| 0 <= i < |ch.previous| && PolicyAt(ch, h, ch.previous[i]) == Chosen(ch, h);
      assert ch.previous[i] in [ch.current] + ch.previous;
    } else {
      assert ch.current in [ch.current] + ch.previous;
    }
  }

  // ---------------------------------------------------------------- splices locking while a move is unfinished

  /** The outputs a channel has been on. */
  predicate OfChannel(ch: Channel, op: OutPoint) {
    op == ch.current || op in ch.previous
  }

  /** The channel after a further splice locked. The outputs left are read in the order of their keys, not of the
      splices: `order` is any list of them. */
  function LockedTo(ch: Channel, op: OutPoint, scid: ChanId, capacity: nat, order: seq<OutPoint>): Channel {
    ch.(current := op, currentScid := scid, capacity := capacity, previous := order)
  }

  /** The new output is new: no update of ours is on it yet. */
  ghost predicate MayLock(ch: Channel, g: Graph, next: Channel) {
    && next == LockedTo(ch, next.current, next.currentScid, next.capacity, next.previous)
    && (forall op :: op in next.previous <==> OfChannel(ch, op))
    && Movable(next, g) && PolicyAt(next, g, next.current).None?
  }

  /** A moment of a longer life: something happens to the graph, or a splice locks, if it may. */
  datatype Moment = Graphs(e: Event) | Locks(op: OutPoint, scid: ChanId, capacity: nat, order: seq<OutPoint>)

  ghost function Next(ch: Channel, g: Graph, m: Moment): (Channel, Graph) {
    match m
    case Graphs(e) => (ch, Happens(ch, g, e))
    case Locks(op, scid, capacity, order) =>
      var next := LockedTo(ch, op, scid, capacity, order);
      (if MayLock(ch, g, next) then next else ch, g)
  }

  ghost function Life(ch: Channel, g: Graph, ms: seq<Moment>): (Channel, Graph)
    decreases |ms|
  {
    if ms == [] then (ch, g)
    else
      var before := Life(ch, g, ms[..|ms| - 1]);
      Next(before.0, before.1, ms[|ms| - 1])
  }

  /** `q` is `p`, its maximum lowered at most. */
  predicate LoweredFrom(q: Policy, p: Policy) {
    q.terms == p.terms && q.maxHtlc <= p.maxHtlc
  }

  /** A policy of ours that an edge of the channel holds. */
  ghost predicate Holds(ch: Channel, g: Graph, p: Policy) {
    exists op :: OfChannel(ch, op) && PolicyAt(ch, g, op) == Some(p)
  }

  ghost predicate HoldsAny(ch: Channel, g: Graph) {
    exists op :: OfChannel(ch, op) && PolicyAt(ch, g, op).Some?
  }

  /** Every policy held later was held before, up to the maximum, and if there was one there still is. */
  ghost predicate CarriesOn(ch: Channel, g: Graph, later: Channel, h: Graph) {
    && later.us == ch.us
    && (forall q | Holds(later, h, q) :: exists p :: Holds(ch, g, p) && LoweredFrom(q, p))
    && HoldsAny(later, h)
  }

  lemma ChosenIsHeld(ch: Channel, g: Graph)
    requires HoldsAny(ch, g)
    ensures Chosen(ch, g).Some? && Holds(ch, g, Chosen(ch, g).value)
  {
    var op :| OfChannel(ch, op) && PolicyAt(ch, g, op).Some?;
    if PolicyAt(ch, g, ch.current).None? {
      var i :| 0 <= i < |ch.previous| && ch.previous[i] == op;
      FirstPolicyHeld(ch, g, ch.previous);
    }
  }

  lemma GraphsCarryOn(ch: Channel, g: Graph, e: Event)
    requires Movable(ch, g) && HoldsAny(ch, g)
    ensures Movable(ch, Happens(ch, g, e)) && CarriesOn(ch, g, ch, Happens(ch, g, e))
  {
    var h := Happens(ch, g, e);
    HappensOnTheWay(ch, g, e);
    ChosenIsHeld(ch, g);
    ClampedOnce(ch, g);
    var op :| OfChannel(ch, op) && PolicyAt(ch, g, op).Some?;
    assert PolicyAt(ch, h, if PolicyAt(ch, h, ch.current).Some? then ch.current else op).Some?;
    forall q | Holds(ch, h, q) ensures exists p :: Holds(ch, g, p) && LoweredFrom(q, p) {
      var at :| OfChannel(ch, at) && PolicyAt(ch, h, at) == Some(q);
      if at == ch.current {
        assert LoweredFrom(q, Chosen(ch, g).value);
      } else {
        assert PolicyAt(ch, g, at) == Some(q) && LoweredFrom(q, q);
      }
    }
  }

  lemma LockCarriesOn(ch: Channel, g: Graph, next: Channel)
    requires MayLock(ch, g, next) && HoldsAny(ch, g)
    ensures CarriesOn(ch, g, next, g)
  {
    var op :| OfChannel(ch, op) && PolicyAt(ch, g, op).Some?;
    assert PolicyAt(next, g, op).Some?;
    forall q | Holds(next, g, q) ensures exists p :: Holds(ch, g, p) && LoweredFrom(q, p) {
      var at :| OfChannel(next, at) && PolicyAt(next, g, at) == Some(q);
      assert OfChannel(ch, at) && PolicyAt(ch, g, at) == Some(q);
      assert LoweredFrom(q, q);
    }
  }

  lemma CarryingOn(ch: Channel, g: Graph, before: Channel, f: Graph, later: Channel, h: Graph)
    requires CarriesOn(ch, g, before, f) && CarriesOn(before, f, later, h)
    ensures CarriesOn(ch, g, later, h)
  {
    forall q | Holds(later, h, q) ensures exists p :: Holds(ch, g, p) && LoweredFrom(q, p) {
      var m :| Holds(before, f, m) && LoweredFrom(q, m);
      var p :| Holds(ch, g, p) && LoweredFrom(m, p);
    }
  }

  /** Through any number of further splices, each locking wherever the moves before it stopped, and anything happening
      to the graph in between: some edge of the channel always holds a policy of ours, and only policies that an edge
      held at the start, up to the maximum, are ever held. */
  lemma {:induction false} PolicySurvivesLocks(ch: Channel, g: Graph, ms: seq<Moment>)
    requires Movable(ch, g) && HoldsAny(ch, g)
    ensures var (later, h) := Life(ch, g, ms); Movable(later, h) && CarriesOn(ch, g, later, h)
    decreases |ms|
  {
    if ms == [] {
      forall q | Holds(ch, g, q) ensures exists p :: Holds(ch, g, p) && LoweredFrom(q, p) {
        assert LoweredFrom(q, q);
      }
    } else {
      PolicySurvivesLocks(ch, g, ms[..|ms| - 1]);
      var (before, f) := Life(ch, g, ms[..|ms| - 1]);
      var (later, h) := Next(before, f, ms[|ms| - 1]);
      if ms[|ms| - 1].Graphs? {
        GraphsCarryOn(before, f, ms[|ms| - 1].e);
        CarryingOn(ch, g, before, f, later, h);
      } else if later != before {
        LockCarriesOn(before, f, later);
        CarryingOn(ch, g, before, f, later, h);
      }
    }
  }

  /** The same outputs, in another order. */
  ghost predicate Reordered(a: seq<OutPoint>, b: seq<OutPoint>) {
    multiset(a) == multiset(b)
  }

  lemma SameOutputs(a: seq<OutPoint>, b: seq<OutPoint>)
    requires Reordered(a, b)
    ensures forall op :: op in a <==> op in b
  {
    forall op ensures op in a <==> op in b {
      assert op in multiset(a) <==> op in multiset(b);
    }
  }

  lemma ToTheFront(ops: seq<OutPoint>, op: OutPoint) returns (order: seq<OutPoint>)
    requires op in ops
    ensures Reordered(order, ops) && order != [] && order[0] == op
  {
    var i :| 0 <= i < |ops| && ops[i] == op;
    order := [op] + ops[..i] + ops[i + 1..];
    assert ops == ops[..i] + [op] + ops[i + 1..];
  }

  /** No edge left over from an unfinished move holds a policy that would be carried differently. */
  ghost predicate LeftoversAgree(ch: Channel, g: Graph, next: Channel, p: Policy) {
    forall op | op in ch.previous && PolicyAt(ch, g, op).Some? ::
      Clamp(next, PolicyAt(ch, g, op).value) == Clamp(next, p)
  }

  lemma LeftoverIsCarried(ch: Channel, g: Graph, next: Channel, p: Policy, to: Channel)
    requires MayLock(ch, g, next) && PolicyAt(ch, g, ch.current) == Some(p)
    requires to == next.(previous := to.previous) && Reordered(to.previous, next.previous)
    ensures exists op | OfChannel(ch, op) && PolicyAt(ch, g, op).Some? ::
              && FinalPolicy(to, g) == Clamp(next, PolicyAt(ch, g, op).value)
              && (to.previous != [] && PolicyAt(ch, g, to.previous[0]).Some? ==> op == to.previous[0])
  {
    SameOutputs(to.previous, next.previous);
    assert ch.current in to.previous;
    var i :| 0 <= i < |to.previous| && to.previous[i] == ch.current;
    assert PolicyAt(to, g, to.previous[i]).Some?;
    FirstPolicyHeld(to, g, to.previous);
    var j :| 0 <= j < |to.previous| && PolicyAt(to, g, to.previous[j]) == FirstPolicy(to, g, to.previous)
             && forall k | 0 <= k < j :: PolicyAt(to, g, to.previous[k]).None?;
    assert to.previous[j] in to.previous;
    assert PolicyAt(ch, g, to.previous[j]) == PolicyAt(to, g, to.previous[j]);
    assert PolicyAt(ch, g, to.previous[0]) == PolicyAt(to, g, to.previous[0]);
  }

  /** Which one it is, is another matter. Whatever the order the outputs left are read in, the move after a further lock
      carries the policy of the output just left exactly when no edge that an unfinished move has yet to delete holds
      another, up to the clamp. */
  lemma LockKeepsLatestPolicy(ch: Channel, g: Graph, next: Channel, p: Policy)
    requires MayLock(ch, g, next) && PolicyAt(ch, g, ch.current) == Some(p)
    ensures (forall order: seq<OutPoint> | Reordered(order, next.previous) ::
               FinalPolicy(next.(previous := order), g) == Clamp(next, p))
            <==> LeftoversAgree(ch, g, next, p)
  {
    if LeftoversAgree(ch, g, next, p) {
      forall order: seq<OutPoint> | Reordered(order, next.previous)
        ensures FinalPolicy(next.(previous := order), g) == Clamp(next, p)
      {
        LeftoverIsCarried(ch, g, next, p, next.(previous := order));
      }
    } else {
      var op :| op in ch.previous && PolicyAt(ch, g, op).Some?
                && Clamp(next, PolicyAt(ch, g, op).value) != Clamp(next, p);
      assert OfChannel(ch, op);
      var order := ToTheFront(next.previous, op);
      LeftoverIsCarried(ch, g, next, p, next.(previous := order));
    }
  }

  /** A channel a splice moved from output 0 to output 1, to a capacity below the maximum of its policy; its graph
      before the move, and with the announcement made and the deletion not; and the channel once a splice to more
      capacity has locked. */
  const SPLICED_OUT := Channel(0, 100, 1, 101, [0], 10, false, 1, 2, Policy(0, 0))
  const UNMOVED: Graph := map[0 := Edge(100, 1, Some(Policy(20_000, 7)), None, false)]
  const ANNOUNCED: Graph :=
    map[
      0 := Edge(100, 1, Some(Policy(20_000, 7)), None, false),
      1 := Edge(101, 1, Some(Policy(10_000, 7)), None, false)]
  const SPLICED_IN := Channel(0, 100, 2, 102, [0, 1], 30, false, 1, 2, Policy(0, 0))

  lemma StoppedBeforeDeleting()
    ensures Movable(SPLICED_OUT, UNMOVED) && Interrupted(SPLICED_OUT, UNMOVED, 2) == ANNOUNCED
  {
    var ch, g := SPLICED_OUT, UNMOVED;
    assert ch.previous[..0] == [];
    assert FirstPolicy(ch, g, ch.previous) == Some(Policy(20_000, 7));
    var ann := [AddEdge, SetPolicy(Policy(10_000, 7))];
    assert Announcement(ch, g) == ann;
    assert Plan(ch, g)[..2] == ann;
    PrefixesPerformed(ch, g, ann, 2);
    assert ann[..2] == ann;
  }

  lemma LocksBeforeDeleting()
    ensures MayLock(SPLICED_OUT, ANNOUNCED, SPLICED_IN)
    ensures FinalPolicy(SPLICED_IN, ANNOUNCED) == Policy(20_000, 7)
  {
    var ch := SPLICED_IN;
    assert ch.previous[..1][..0] == [];
    assert FirstPolicy(ch, ANNOUNCED, ch.previous[..1]) == Some(Policy(20_000, 7));
  }

  /** Unfinished moves get there: the deletion is not made, a splice locks, and read in this order, the older edge's
      maximum comes back. */
  lemma OlderPolicyComesBack() returns (ms: seq<Moment>)
    ensures Life(SPLICED_OUT, UNMOVED, ms) == (SPLICED_IN, ANNOUNCED)
    ensures PolicyAt(SPLICED_OUT, ANNOUNCED, 1) == Some(Policy(10_000, 7))
    ensures !LeftoversAgree(SPLICED_OUT, ANNOUNCED, SPLICED_IN, Policy(10_000, 7))
    ensures FinalPolicy(SPLICED_IN, ANNOUNCED) != Clamp(SPLICED_IN, Policy(10_000, 7))
  {
    var stop, lock := Graphs(Stop(2)), Locks(2, 102, 30, [0, 1]);
    ms := [stop, lock];
    StoppedBeforeDeleting();
    LocksBeforeDeleting();
    assert ms[..1] == [stop] && [stop][..0] == [];
    assert Life(SPLICED_OUT, UNMOVED, [stop]) == (SPLICED_OUT, ANNOUNCED);
    assert PolicyAt(SPLICED_OUT, ANNOUNCED, 0) == Some(Policy(20_000, 7));
    assert 0 in SPLICED_OUT.previous;
  }

  // ---------------------------------------------------------------- an announcement the graph ignores

  /** An announcement that the graph refuses as outdated or ignored counts as made, and the old edges go. Whether its
      edge was taken or not: without the update, the channel keeps a policy of ours exactly if its current output's edge
      had one. */
  lemma IgnoredAnnouncement(ch: Channel, g: Graph, edgeTaken: bool)
    requires Movable(ch, g)
    ensures var m := if edgeTaken then Perform(ch, g, AddEdge) else g;
            HoldsAny(ch, PerformAll(ch, m, Deletions(StaleIds(g, ch.previous)))) <==> PolicyAt(ch, g, ch.current).Some?
  {
    var m, ids := if edgeTaken then Perform(ch, g, AddEdge) else g, StaleIds(g, ch.previous);
    var t := PerformAll(ch, m, Deletions(ids));
    DeletesById(ch, m, ids);
    NotStale(ch, g, ids, ch.current);
    assert PolicyAt(ch, t, ch.current) == PolicyAt(ch, g, ch.current);
    assert forall op | op in ch.previous :: PolicyAt(ch, t, op).None?;
    assert OfChannel(ch, ch.current);
  }

  // ---------------------------------------------------------------- our own updates while a move is unfinished

  /** An update of our policy on an edge that has one. */
  function Updated(ch: Channel, g: Graph, op: OutPoint, p: Policy): Graph {
    if PolicyAt(ch, g, op).Some? then g[op := WithOurPolicy(ch, g[op], p)] else g
  }

  /** The first of some outputs whose edge has a policy of ours. */
  function FirstHolder(ch: Channel, g: Graph, ops: seq<OutPoint>): Option<OutPoint> {
    if ops == [] then None
    else
      var rest := FirstHolder(ch, g, ops[..|ops| - 1]);
      if rest.Some? then rest
      else if PolicyAt(ch, g, ops[|ops| - 1]).Some? then Some(ops[|ops| - 1])
      else None
  }

  /** The output whose policy a move ends with. */
  function Leading(ch: Channel, g: Graph): Option<OutPoint> {
    if PolicyAt(ch, g, ch.current).Some? then Some(ch.current) else FirstHolder(ch, g, ch.previous)
  }

  lemma {:induction false} FirstUpdated(ch: Channel, g: Graph, ops: seq<OutPoint>, op: OutPoint, p: Policy)
    requires PolicyAt(ch, g, op).Some?
    ensures FirstPolicy(ch, Updated(ch, g, op, p), ops)
            == if FirstHolder(ch, g, ops) == Some(op) then Some(p) else FirstPolicy(ch, g, ops)
    ensures FirstHolder(ch, g, ops).Some? <==> FirstPolicy(ch, g, ops).Some?
  {
    if ops != [] {
      FirstUpdated(ch, g, ops[..|ops| - 1], op, p);
    }
  }

  /** An update of the leading output's policy is what a move ends with; of another's, it is not. */
  lemma UpdateCarried(ch: Channel, g: Graph, op: OutPoint, p: Policy)
    requires Movable(ch, g) && PolicyAt(ch, g, op).Some?
    ensures var h := Updated(ch, g, op, p);
            && Movable(ch, h)
            && FinalPolicy(ch, h) == (if Leading(ch, g) != Some(op) then FinalPolicy(ch, g)
                                      else if op == ch.current then p
                                      else Clamp(ch, p))
  {
    FirstUpdated(ch, g, ch.previous, op, p);
  }

  /** Whatever happened before the update and happens after it, crashes included: a move that completes ends with the
      terms last set exactly if they were set on the output that was leading. */
  lemma LatestUpdateWins(ch: Channel, g: Graph, before: seq<Event>, op: OutPoint, p: Policy, after: seq<Event>)
    requires Movable(ch, g)
    requires var m := History(ch, g, before);
             PolicyAt(ch, m, op).Some? && p.terms != FinalPolicy(ch, m).terms
    ensures var m := History(ch, g, before);
            var t := Complete(ch, History(ch, Updated(ch, m, op, p), after));
            && PolicyAt(ch, t, ch.current).Some?
            && (PolicyAt(ch, t, ch.current).value.terms == p.terms <==> Leading(ch, m) == Some(op))
  {
    HistoryKeepsDestination(ch, g, before);
    var m := History(ch, g, before);
    UpdateCarried(ch, m, op, p);
    var h := Updated(ch, m, op, p);
    CrashSafe(ch, h, after);
    var t := Complete(ch, History(ch, h, after));
    assert ch.current in Destination(ch, h);
    assert ch.current in Ours(ch, t) && Ours(ch, t)[ch.current] == Some(FinalPolicy(ch, h));
  }

  lemma {:induction false} HolderIsListed(ch: Channel, g: Graph, ops: seq<OutPoint>)
    ensures FirstHolder(ch, g, ops).Some? ==> FirstHolder(ch, g, ops).value in ops
  {
    if ops != [] {
      HolderIsListed(ch, g, ops[..|ops| - 1]);
    }
  }

  lemma LeadsOnlyIfHolding(ch: Channel, g: Graph)
    requires ch.current !in ch.previous
    ensures Leading(ch, g) == Some(ch.current) <==> PolicyAt(ch, g, ch.current).Some?
  {
    HolderIsListed(ch, g, ch.previous);
  }

  /** Where a move stopped decides which output leads: the current one as soon as two writes were made, and before that
      only if it had a policy already. */
  lemma LeadingAfterStop(ch: Channel, g: Graph, k: nat)
    requires Movable(ch, g)
    ensures Leading(ch, Interrupted(ch, g, k)) == Some(ch.current) <==> PolicyAt(ch, g, ch.current).Some? || k >= 2
  {
    var h := Interrupted(ch, g, k);
    var ann, ids := Announcement(ch, g), StaleIds(g, ch.previous);
    Progress(ch, g, k);
    LeadsOnlyIfHolding(ch, h);
    if PolicyAt(ch, g, ch.current).None? {
      var n := StoppedWhere(ch, g, k);
      if k <= |ann| {
        PrefixesPerformed(ch, g, ann, k);
      } else {
        AfterAnnouncement(ch, g, ids[..n]);
      }
    }
  }

  lemma {:induction false} NoneStale(h: Graph, ops: seq<OutPoint>)
    requires forall op | op in ops :: op !in h
    ensures StaleIds(h, ops) == []
  {
    if ops != [] {
      NoneStale(h, ops[..|ops| - 1]);
    }
  }

  /** A run after a completed one writes nothing, and asks for a public channel's proof exactly while it is missing. */
  lemma NothingLeftToDo(ch: Channel, g: Graph)
    requires Movable(ch, g)
    ensures var h := Complete(ch, g);
            && ch.current in h
            && Plan(ch, h) == (if ch.public && !h[ch.current].proof then [AskProof] else [])
            && Complete(ch, h) == h
  {
    CompletesAtDestination(ch, g);
    var h := Complete(ch, g);
    assert ch.current in Ours(ch, h);
    assert Ours(ch, h)[ch.current] == Some(FinalPolicy(ch, g));
    forall op | op in ch.previous ensures op !in h {
      assert op !in Ours(ch, h);
    }
    NoneStale(h, ch.previous);
    assert Deletions([]) == [];
    if ch.public && !h[ch.current].proof {
      PerformOne(ch, h, [], AskProof);
      assert [] + [AskProof] == [AskProof];
    }
  }

  // ---------------------------------------------------------------- what a run asks for, and whose edges it leaves

  /** A run asks for the proof of a public channel, once, exactly if it announces its edge or the edge is without one;
      and never for a private channel's. */
  lemma AsksExactly(ch: Channel, g: Graph)
    requires Movable(ch, g)
    ensures Asks(Plan(ch, g))
            == if ch.public && (PolicyAt(ch, g, ch.current).None? || !g[ch.current].proof) then 1 else 0
  {
    var ids := StaleIds(g, ch.previous);
    assert AskProof !in Deletions(ids);
    assert multiset(Announcement(ch, g) + Deletions(ids)) == multiset(Announcement(ch, g)) + multiset(Deletions(ids));
  }

  /** A channel that no splice moved is left alone, whatever the graph and whatever it is listed to have left. */
  lemma UnmovedIsLeftAlone(ch: Channel, g: Graph)
    requires ch.current == ch.name
    ensures Plan(ch, g) == [] && !Refused(ch, g) && Complete(ch, g) == g
    ensures forall k: nat :: Interrupted(ch, g, k) == g
  {
    assert Plan(ch, g)[..0] == [];
  }

  /** A channel on another output but still under the id that names it is not announced; its old edges go only if there
      is nothing to announce. */
  lemma WithoutNewIdNotAnnounced(ch: Channel, g: Graph)
    requires ch.current != ch.name && ch.currentScid == ch.scid
    ensures var due := PolicyAt(ch, g, ch.current).None? || (ch.public && !g[ch.current].proof);
            Plan(ch, g) == if due then [] else Deletions(StaleIds(g, ch.previous))
  {
    assert [] + Deletions(StaleIds(g, ch.previous)) == Deletions(StaleIds(g, ch.previous));
  }

  /** After the announcement. */
  lemma EdgeAnnounced(ch: Channel, g: Graph)
    requires Movable(ch, g)
    ensures var h := PerformAll(ch, g, Announcement(ch, g));
            && ch.current in h
            && h[ch.current] == (if PolicyAt(ch, g, ch.current).Some? then g[ch.current]
                                 else WithOurPolicy(ch, if ch.current in g then g[ch.current] else NewEdge(ch),
                                                    FinalPolicy(ch, g)))
            && forall op | op != ch.current :: (op in h <==> op in g) && (op in g ==> h[op] == g[op])
  {
    var ann := Announcement(ch, g);
    assert ann[..|ann|] == ann;
    PrefixesPerformed(ch, g, ann, |ann|);
  }

  /** The edges a completed run leaves. One it makes is the channel's: under its id, our policy in our direction,
      nothing in the peer's, no proof. One that was there keeps all but our policy, and that too if it had it. All
      others stay as they are, exactly if the channel has not left their output. */
  lemma EdgesLeft(ch: Channel, g: Graph)
    requires Movable(ch, g)
    ensures var t := Complete(ch, g);
            && (forall op | op != ch.current :: op in t <==> op in g && op !in ch.previous)
            && (forall op | op != ch.current && op in t :: t[op] == g[op])
            && ch.current in t
            && var e := t[ch.current];
               if PolicyAt(ch, g, ch.current).Some? then e == g[ch.current]
               else if ch.current in g then e == WithOurPolicy(ch, g[ch.current], FinalPolicy(ch, g))
               else
                 && e.chanId == ch.currentScid && !e.proof && e.node1 == (if ch.us < ch.peer then ch.us else ch.peer)
                 && (e.policy1, e.policy2) == (if e.node1 == ch.us then (Some(FinalPolicy(ch, g)), None)
                                               else (None, Some(FinalPolicy(ch, g))))
  {
    var ann, ids := Announcement(ch, g), StaleIds(g, ch.previous);
    EdgeAnnounced(ch, g);
    PerformSplit(ch, g, ann, Deletions(ids));
    DeletesById(ch, PerformAll(ch, g, ann), ids);
    CompletesAtDestination(ch, g);
    assert Ours(ch, Complete(ch, g)).Keys == Destination(ch, g).Keys;
  }

  /** A channel none of whose edges holds a policy of ours is announced with the default one. */
  lemma DefaultAnnounced(ch: Channel, g: Graph)
    requires Movable(ch, g) && !HoldsAny(ch, g)
    ensures PolicyAt(ch, Complete(ch, g), ch.current) == Some(ch.defaultPolicy)
  {
    CompletesAtDestination(ch, g);
    assert OfChannel(ch, ch.current);
    if FirstPolicy(ch, g, ch.previous).Some? {
      FirstPolicyHeld(ch, g, ch.previous);
      var i :| 0 <= i < |ch.previous| && PolicyAt(ch, g, ch.previous[i]).Some?;
      assert OfChannel(ch, ch.previous[i]);
    }
    assert ch.current in Ours(ch, Complete(ch, g));
    assert Ours(ch, Complete(ch, g))[ch.current] == Destination(ch, g)[ch.current];
  }

  /** That the channel is not on an output it is listed to have left matters: a run keeps its edge exactly when it
      isn't, or when the edge was not there to be found stale. */
  lemma OwnEdgeKept(ch: Channel, g: Graph)
    requires ch.current != ch.name && ch.currentScid != ch.scid && WellFormed(ch, g)
    ensures ch.current in Complete(ch, g) <==> !(ch.current in ch.previous && ch.current in g)
  {
    var ann, ids := Announcement(ch, g), StaleIds(g, ch.previous);
    PerformSplit(ch, g, ann, Deletions(ids));
    PrefixesPerformed(ch, g, ann, |ann|);
    assert ann[..|ann|] == ann;
    var h := PerformAll(ch, g, ann);
    assert ch.current in h && h[ch.current].chanId == ch.currentScid;
    DeletesById(ch, h, ids);
    if ch.current !in ch.previous {
      NotStale(ch, g, ids, ch.current);
    } else if ch.currentScid in ids {
      assert NamesOneOf(g, ch.previous, ch.currentScid);
    }
  }

  lemma AllOfIt(plan: seq<Write>, k: nat)
    ensures k >= |plan| ==> UpTo(plan, k) == plan
  {
  }

  // ---------------------------------------------------------------- the mover itself

  /** The result of a run: done, or stopped by a refusal, an error or a crash. */
  datatype Outcome = Done | Stopped

  class EdgeGraph {
    var edges: Graph
    /** How often a proof was asked for. */
    var asked: nat

    constructor (g: Graph)
      ensures edges == g && asked == 0
    {
      edges, asked := g, 0;
    }

    /** A write, unless the crash comes first; `budget` writes come before it. */
    method Write(ch: Channel, w: Write, budget: nat) returns (ok: bool, left: nat)
      modifies this
      ensures ok == (budget > 0)
      ensures ok ==> left == budget - 1 && edges == Perform(ch, old(edges), w) && asked == old(asked) + Asks([w])
      ensures !ok ==> left == 0 && edges == old(edges) && asked == old(asked)
    {
      if budget == 0 {
        return false, 0;
      }
      match w {
        case AddEdge =>
          if ch.current !in edges {
            edges := edges[ch.current := NewEdge(ch)];
          }
        case SetPolicy(p) =>
          if ch.current in edges {
            edges := edges[ch.current := WithOurPolicy(ch, edges[ch.current], p)];
          }
        case AskProof =>
          asked := asked + 1;
        case Delete(id) =>
          edges := map op | op in edges && edges[op].chanId != id :: edges[op];
      }
      return true, budget - 1;
    }

    /** A list of writes, until the crash. */
    method WriteAll(ch: Channel, ws: seq<Write>, budget: nat) returns (ok: bool, left: nat)
      modifies this
      ensures ok == (budget >= |ws|)
      ensures ok ==> left == budget - |ws| && edges == PerformAll(ch, old(edges), ws) && asked == old(asked) + Asks(ws)
      ensures !ok ==>
                && left == 0 && edges == PerformAll(ch, old(edges), ws[..budget])
                && asked == old(asked) + Asks(ws[..budget])
    {
      ok, left := true, budget;
      for i := 0 to |ws|
        invariant ok && left == budget - i && i <= budget
        invariant edges == PerformAll(ch, old(edges), ws[..i]) && asked == old(asked) + Asks(ws[..i])
      {
        PerformOne(ch, old(edges), ws[..i], ws[i]);
        assert ws[..i + 1] == ws[..i] + [ws[i]];
        ok, left := Write(ch, ws[i], left);
        if !ok {
          return;
        }
      }
      assert ws[..|ws|] == ws;
    }

    /** The edges of the outputs the channel left, and our policy on the first that has one. */
    method LeftBehind(ch: Channel) returns (policy: Option<Policy>, stale: seq<ChanId>)
      ensures policy == FirstPolicy(ch, edges, ch.previous)
      ensures stale == StaleIds(edges, ch.previous)
    {
      policy, stale := None, [];
      for i := 0 to |ch.previous|
        invariant stale == StaleIds(edges, ch.previous[..i])
        invariant policy == FirstPolicy(ch, edges, ch.previous[..i])
      {
        var op := ch.previous[i];
        assert ch.previous[..i + 1][..i] == ch.previous[..i];
        if op !in edges {
          continue;
        }
        if policy.None? {
          policy := OurPolicy(ch, edges[op]);
        }
        stale := stale + [edges[op].chanId];
      }
      assert ch.previous[..|ch.previous|] == ch.previous;
    }

    /** The writes announcing the channel takes, given our policy on the outputs it left. */
    method Announce(ch: Channel, inherited: Option<Policy>) returns (announcement: seq<Write>)
      requires inherited == FirstPolicy(ch, edges, ch.previous)
      ensures announcement == Announcement(ch, edges)
    {
      var moved := ch.current in edges;
      if !moved || OurPolicy(ch, edges[ch.current]).None? {
        var carried := ch.defaultPolicy;
        if inherited.Some? {
          carried := inherited.value;
          if carried.maxHtlc > MSAT_PER_SAT * ch.capacity {
            carried := carried.(maxHtlc := MSAT_PER_SAT * ch.capacity);
          }
        }
        return [AddEdge, SetPolicy(carried)] + if ch.public then [AskProof] else [];
      }
      if ch.public && !edges[ch.current].proof {
        return [AskProof];
      }
      return [];
    }

    /** The writes of the announcement, and then the deletions, until the crash. */
    method AnnounceThenDelete(ch: Channel, announcement: seq<Write>, stale: seq<ChanId>, budget: nat) returns (ok: bool)
      modifies this
      ensures ok == (budget >= |announcement + Deletions(stale)|)
      ensures edges == PerformAll(ch, old(edges), UpTo(announcement + Deletions(stale), budget))
      ensures asked == old(asked) + Asks(UpTo(announcement + Deletions(stale), budget))
    {
      ghost var g, plan := edges, announcement + Deletions(stale);
      var left: nat;
      ok, left := WriteAll(ch, announcement, budget);
      if !ok {
        assert UpTo(plan, budget) == announcement[..budget];
        return;
      }
      ok, left := WriteAll(ch, Deletions(stale), left);
      ghost var gone := if ok then Deletions(stale) else Deletions(stale)[..budget - |announcement|];
      PerformSplit(ch, g, announcement, gone);
      assert multiset(announcement + gone) == multiset(announcement) + multiset(gone);
      assert UpTo(plan, budget) == announcement + gone;
    }

    /** moveSpliceEdge. The run is stopped after `budget` writes; with enough of them, and unless the announcement is
        refused, it is done. */
    method MoveSpliceEdge(ch: Channel, budget: nat) returns (outcome: Outcome)
      modifies this
      ensures edges == Interrupted(ch, old(edges), budget)
      ensures outcome == Done <==> !Refused(ch, old(edges)) && budget >= |Plan(ch, old(edges))|
      ensures outcome == Done ==> edges == Complete(ch, old(edges)) && asked == old(asked) + Asks(Plan(ch, old(edges)))
      ensures asked == old(asked) + Asks(UpTo(Plan(ch, old(edges)), budget))
      ensures ch.current == ch.name ==> outcome == Done && edges == old(edges) && asked == old(asked)
    {
      if ch.current == ch.name {
        return Done;
      }
      var policy, stale := LeftBehind(ch);
      var announcement := Announce(ch, policy);
      if announcement != [] && ch.currentScid == ch.scid {
        return Stopped;
      }
      assert Plan(ch, edges) == announcement + Deletions(stale);
      AllOfIt(announcement + Deletions(stale), budget);
      var ok := AnnounceThenDelete(ch, announcement, stale, budget);
      return if ok then Done else Stopped;
    }
  }
}
