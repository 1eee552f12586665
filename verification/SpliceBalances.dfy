/**
 What pending splices do to the balances and to the splice shown for a channel (rpcserver_splice.go, and the sum in
 rpcserver.go they correct).
 */
module SpliceBalances {

  import opened Options
  import opened SpliceRecords

  // ---------------------------------------------------------------- the least balance of a channel

  /** leastCandidateBalance, one record at a time. */
  function LeastCandidate(records: seq<Record>, local: Msat): Msat {
    if records == [] then local
    else
      var rest, last := LeastCandidate(records[..|records| - 1], local), records[|records| - 1];
      if Candidate(last) && last.localCommit.value < rest then last.localCommit.value else rest
  }

  /** Its negotiation says that it is dead, or that the peer disowned it. */
  predicate SaidDead(r: Record) {
    match r.negotiation
    case None => false
    case Some(n) => n.dead || n.disowned
  }

  /** It is the minimum of the channel's own balance and those on the candidates' commitments. */
  lemma {:induction false} LeastCandidateIsMinimum(records: seq<Record>, local: Msat)
    ensures var least := LeastCandidate(records, local);
            && least <= local
            && (forall r | r in records && Candidate(r) :: least <= r.localCommit.value)
            && (least == local || exists r | r in records && Candidate(r) :: least == r.localCommit.value)
    ensures forall r | r in records :: Candidate(r) <==> r.localCommit.Some? && !r.retired && !SaidDead(r)
  {
    if records != [] {
      LeastCandidateIsMinimum(records[..|records| - 1], local);
      var last := records[|records| - 1];
      assert last in records;
      if LeastCandidate(records[..|records| - 1], local) != local {
        var r :| r in records[..|records| - 1] && Candidate(r)
                 && LeastCandidate(records[..|records| - 1], local) == r.localCommit.value;
        assert r in records;
      }
    }
  }

  method LeastCandidateBalance(records: seq<Record>, local: Msat) returns (least: Msat)
    ensures least == LeastCandidate(records, local)
    ensures least <= local && forall r | r in records && Candidate(r) :: least <= r.localCommit.value
    ensures least == local || exists r | r in records && Candidate(r) :: least == r.localCommit.value
  {
    least := local;
    for i := 0 to |records|
      invariant least == LeastCandidate(records[..i], local)
    {
      var rec := records[i];
      assert records[..i + 1][..i] == records[..i];
      var dead := rec.negotiation.Some? && (rec.negotiation.value.dead || rec.negotiation.value.disowned);
      if rec.retired || dead || rec.localCommit.None? {
        continue;
      }
      if rec.localCommit.value < least {
        least := rec.localCommit.value;
      }
    }
    assert records[..|records|] == records;
    LeastCandidateIsMinimum(records, local);
  }

  // ---------------------------------------------------------------- the splice shown

  /** Record `i` is shown in preference to record `j`: one that can still confirm before a dead one, then the higher fee
      rate, then the later. */
  predicate Preferred(records: seq<Record>, i: nat, j: nat)
    requires i < |records| && j < |records|
  {
    var a, b := records[i], records[j];
    if Dead(a) != Dead(b) then Dead(b)
    else if FeeRate(a) != FeeRate(b) then FeeRate(a) > FeeRate(b)
    else i > j
  }

  /** Any two records are comparable, and preference is an order. */
  lemma PreferenceIsAnOrder(records: seq<Record>, i: nat, j: nat, k: nat)
    requires i < |records| && j < |records| && k < |records|
    ensures i != j ==> (Preferred(records, i, j) <==> !Preferred(records, j, i))
    ensures !Preferred(records, i, i)
    ensures Preferred(records, i, j) && Preferred(records, j, k) ==> Preferred(records, i, k)
  {
  }

  /** The record preferred to every other that is not retired. */
  predicate Best(records: seq<Record>, i: nat) {
    && i < |records| && !records[i].retired
    && forall j | 0 <= j < |records| && j != i && !records[j].retired :: Preferred(records, i, j)
  }

  lemma BestIsUnique(records: seq<Record>, i: nat, j: nat)
    requires Best(records, i) && Best(records, j)
    ensures i == j
  {
    PreferenceIsAnOrder(records, i, j, i);
  }

  lemma BestOfOneMore(records: seq<Record>, i: nat, was: Option<nat>, best: nat)
    requires i < |records|
    requires was.Some? ==> was.value < i && Best(records[..i], was.value)
    requires was.None? ==> forall j | 0 <= j < i :: records[j].retired
    requires best == i || was == Some(best)
    requires !records[best].retired
    requires best == i && was.Some? ==> Preferred(records, i, was.value)
    requires best != i && !records[i].retired ==> Preferred(records, best, i)
    ensures Best(records[..i + 1], best)
  {
    var prefix := records[..i + 1];
    forall j | 0 <= j < |prefix| && j != best && !prefix[j].retired ensures Preferred(prefix, best, j) {
      if best == i {
        assert was.Some?;
        if j != was.value {
          assert Preferred(records[..i], was.value, j);
          PreferenceIsAnOrder(records, i, was.value, j);
        }
      } else if j != i {
        assert Preferred(records[..i], best, j);
      }
    }
  }

  function Rate(r: Record): nat {
    match r.negotiation
    case None => 0
    case Some(n) => n.feeRate
  }

  /** What being the best means: none that may still confirm is passed over for one that cannot, none with a higher fee
      rate, and none that is later at the same rate; one without a negotiation counts as alive, at no fee rate. */
  lemma BestMeans(records: seq<Record>, i: nat)
    requires i < |records|
    ensures Best(records, i)
            <==> && !records[i].retired
                 && forall j | 0 <= j < |records| && !records[j].retired && j != i ::
                      || (SaidDead(records[j]) && !SaidDead(records[i]))
                      || (SaidDead(records[j]) == SaidDead(records[i])
                          && (Rate(records[j]) < Rate(records[i]) || (Rate(records[j]) == Rate(records[i]) && j < i)))
  {
    forall j | 0 <= j < |records| && !records[j].retired && j != i
      ensures Preferred(records, i, j)
              <==> || (SaidDead(records[j]) && !SaidDead(records[i]))
                   || (SaidDead(records[j]) == SaidDead(records[i])
                       && (Rate(records[j]) < Rate(records[i]) || (Rate(records[j]) == Rate(records[i]) && j < i)))
    {
    }
  }

  /** shownSplice: the best record, or none if all are retired. */
  method ShownSplice(records: seq<Record>) returns (shown: Option<nat>)
    ensures shown.Some? ==> Best(records, shown.value)
    ensures shown.None? <==> forall r | r in records :: r.retired
  {
    shown := None;
    for i := 0 to |records|
      invariant shown.Some? ==> shown.value < i && Best(records[..i], shown.value)
      invariant shown.None? <==> forall j | 0 <= j < i :: records[j].retired
    {
      var rec := records[i];
      ghost var was := shown;
      if rec.retired {
      } else if shown.None? {
        shown := Some(i);
      } else {
        var best := records[shown.value];
        if Dead(best) != Dead(rec) {
          if Dead(best) {
            shown := Some(i);
          }
        } else if FeeRate(rec) >= FeeRate(best) {
          shown := Some(i);
        }
      }
      if shown.Some? {
        BestOfOneMore(records, i, was, shown.value);
      }
    }
    assert records[..|records|] == records;
  }

  // ---------------------------------------------------------------- the state shown for a splice

  datatype SpliceState = Negotiating | Signed | Broadcast | Confirmed

  /** rpcPendingSplice's state. */
  function RecordState(r: Record): SpliceState {
    if r.negotiation.None? then Negotiating
    else
      var n := r.negotiation.value;
      if n.lockedSent then Confirmed
      else if n.ourSigs && n.theirSigs then Broadcast
      else if n.ourSigs || r.spliceSig then Signed
      else Negotiating
  }

  /** setSpliceDepth's state. */
  function WithDepth(state: SpliceState, confirmations: nat): SpliceState {
    if confirmations > 0 && state == Broadcast then Confirmed else state
  }

  function ShownState(r: Record): SpliceState {
    WithDepth(RecordState(r), r.confirmations)
  }

  /** The splice as the RPC describes it, as far as its progress goes. */
  class PendingSplice {
    var state: SpliceState
    var confirmations: nat
    var lockDepth: nat

    constructor (r: Record)
      ensures state == RecordState(r)
    {
      confirmations, lockDepth := 0, 0;
      if r.negotiation.None? {
        state := Negotiating;
      } else if r.negotiation.value.lockedSent {
        state := Confirmed;
      } else if r.negotiation.value.ourSigs && r.negotiation.value.theirSigs {
        state := Broadcast;
      } else if r.negotiation.value.ourSigs || r.spliceSig {
        state := Signed;
      } else {
        state := Negotiating;
      }
    }

    /** setSpliceDepth. */
    method SetDepth(confs: nat, depth: nat)
      modifies this
      ensures state == WithDepth(old(state), confs) && confirmations == confs && lockDepth == depth
    {
      confirmations, lockDepth := confs, depth;
      if confs > 0 && state == Broadcast {
        state := Confirmed;
      }
    }
  }

  function Stage(state: SpliceState): nat {
    match state
    case Negotiating => 0
    case Signed => 1
    case Broadcast => 2
    case Confirmed => 3
  }

  /** What each state shown means. Signatures of ours count whether for the transaction or for the commitment; only a
      splice signed by both, or one that we locked, is past that. */
  lemma StateMeans(r: Record)
    ensures var ours := r.negotiation.Some? && r.negotiation.value.ourSigs;
            var theirs := r.negotiation.Some? && r.negotiation.value.theirSigs;
            var locked := r.negotiation.Some? && r.negotiation.value.lockedSent;
            && (ShownState(r) == Confirmed <==> locked || (ours && theirs && r.confirmations > 0))
            && (ShownState(r) == Broadcast <==> !locked && ours && theirs && r.confirmations == 0)
            && (ShownState(r) == Signed
                <==> r.negotiation.Some? && !locked && !(ours && theirs) && (ours || r.spliceSig))
            && (ShownState(r) == Negotiating <==> r.negotiation.None? || (!locked && !ours && !r.spliceSig))
            && (RecordState(r) == Confirmed <==> locked)
  {
  }

  /** A record that only gained signatures, a lock and confirmations. */
  predicate Grew(a: Record, b: Record) {
    && (a.spliceSig ==> b.spliceSig) && a.confirmations <= b.confirmations
    && (a.negotiation.Some? ==>
         && b.negotiation.Some?
         && (a.negotiation.value.ourSigs ==> b.negotiation.value.ourSigs)
         && (a.negotiation.value.theirSigs ==> b.negotiation.value.theirSigs)
         && (a.negotiation.value.lockedSent ==> b.negotiation.value.lockedSent))
  }

  /** The state shown for a splice never moves backwards while its record grows. */
  lemma {:induction false} StateNeverMovesBack(history: seq<Record>, i: nat, j: nat)
    requires i <= j < |history|
    requires forall k | 0 < k < |history| :: Grew(history[k - 1], history[k])
    ensures Stage(ShownState(history[i])) <= Stage(ShownState(history[j]))
    decreases j
  {
    if i < j {
      StateNeverMovesBack(history, i, j - 1);
      assert Grew(history[j - 1], history[j]);
    }
  }

  // ---------------------------------------------------------------- the channel balance

  /** Both sides' signatures are in: from then this node broadcasts the splice. */
  predicate WentOut(r: Record) {
    r.negotiation.Some? && r.negotiation.value.ourSigs && r.negotiation.value.theirSigs
  }

  /** spliceBalances: our contribution, and what the splice pays our wallet, in satoshis. */
  function SpliceAmounts(r: Record): (nat, nat) {
    if r.retired || !WentOut(r) || r.negotiation.value.dead then (0, 0)
    else
      (if r.localDelta > 0 then r.localDelta else 0,
       if r.localDelta < 0 && r.negotiation.value.hasTx && r.confirmations == 0 then r.walletOutputs else 0)
  }

  /** A splice counts towards the amounts in a channel's splices: it is the one shown, and the backend did not refuse
      it. */
  predicate Counts(ch: Channel, i: nat) {
    ch.records.Some? && Best(ch.records.value, i) && !ch.records.value[i].relayRejected
  }

  /** The amounts of the one splice that counts: whichever of the transactions that replaced one another confirms, its
      coins are counted once. */
  ghost function ShownAmounts(ch: Channel): (nat, nat) {
    if exists i: nat :: Counts(ch, i) then
      var i: nat :| Counts(ch, i);
      SpliceAmounts(ch.records.value[i])
    else (0, 0)
  }

  /** The amounts of a splice: what goes in is ours if it adds to our balance, what goes to the wallet is what an
      unconfirmed splice out pays it; nothing of one that is retired, that did not go out, or that is dead. */
  lemma AmountsMean(r: Record)
    ensures var (into, toWallet) := SpliceAmounts(r);
            var out := r.negotiation.Some? && r.negotiation.value.ourSigs && r.negotiation.value.theirSigs;
            var counts := out && !r.retired && !r.negotiation.value.dead;
            && (into > 0 <==> counts && r.localDelta > 0)
            && (into > 0 ==> into == r.localDelta && toWallet == 0)
            && (toWallet > 0 <==>
                 counts && r.localDelta < 0 && r.negotiation.value.hasTx && r.confirmations == 0 && r.walletOutputs > 0)
            && (toWallet > 0 ==> toWallet == r.walletOutputs && into == 0)
  {
  }

  /** What a channel's splices add: the amounts of the best record, if the backend took it, and nothing otherwise. */
  lemma AmountsShownMean(ch: Channel)
    ensures forall i: nat | ch.records.Some? && Best(ch.records.value, i) ::
              ShownAmounts(ch)
              == if ch.records.value[i].relayRejected then (0, 0) else SpliceAmounts(ch.records.value[i])
    ensures ch.records.None? || (forall r | r in ch.records.value :: r.retired) ==> ShownAmounts(ch) == (0, 0)
  {
    forall i: nat | ch.records.Some? && Best(ch.records.value, i)
      ensures ShownAmounts(ch)
              == if ch.records.value[i].relayRejected then (0, 0) else SpliceAmounts(ch.records.value[i])
    {
      if j: nat :| Counts(ch, j) {
        BestIsUnique(ch.records.value, i, j);
      }
      forall j: nat | Counts(ch, j) ensures j == i {
        BestIsUnique(ch.records.value, i, j);
      }
      assert !ch.records.value[i].relayRejected ==> Counts(ch, i);
    }
    if ch.records.Some? && forall r | r in ch.records.value :: r.retired {
      forall i: nat ensures !Counts(ch, i) {
        assert i < |ch.records.value| ==> ch.records.value[i] in ch.records.value;
      }
    }
  }

  lemma {:induction false} ConfirmationsStay(history: seq<Record>, i: nat, j: nat)
    requires i <= j < |history|
    requires forall k | 0 < k < |history| :: Grew(history[k - 1], history[k])
    ensures history[i].confirmations <= history[j].confirmations
    decreases j
  {
    if i < j {
      ConfirmationsStay(history, i, j - 1);
      assert Grew(history[j - 1], history[j]);
    }
  }

  /** While a splice's record only grows, nothing is on its way to the wallet from its first confirmation on. */
  lemma NothingPendsOnceConfirmed(history: seq<Record>, i: nat, j: nat)
    requires i <= j < |history| && history[i].confirmations > 0
    requires forall k | 0 < k < |history| :: Grew(history[k - 1], history[k])
    ensures SpliceAmounts(history[j]).1 == 0
    decreases j
  {
    ConfirmationsStay(history, i, j);
  }

  /** The least balance of a channel: its own if its records cannot be read. */
  function Least(ch: Channel): Msat {
    if ch.records.None? then ch.local else LeastCandidate(ch.records.value, ch.local)
  }

  function SumLocal(channels: seq<Channel>): Msat {
    if channels == [] then 0 else SumLocal(channels[..|channels| - 1]) + channels[|channels| - 1].local
  }

  function SumLeast(channels: seq<Channel>): Msat {
    if channels == [] then 0 else SumLeast(channels[..|channels| - 1]) + Least(channels[|channels| - 1])
  }

  ghost function SumIn(channels: seq<Channel>): nat {
    if channels == [] then 0 else SumIn(channels[..|channels| - 1]) + ShownAmounts(channels[|channels| - 1]).0
  }

  ghost function SumToWallet(channels: seq<Channel>): nat {
    if channels == [] then 0 else SumToWallet(channels[..|channels| - 1]) + ShownAmounts(channels[|channels| - 1]).1
  }

  datatype Amount = Amount(sat: nat, msat: Msat)

  function InAmount(m: Msat): Amount {
    Amount(m / MSAT_PER_SAT, m)
  }

  /** Each of the sums is of its channels one by one, however they are divided. */
  lemma {:induction false} SumsAreAdditive(a: seq<Channel>, b: seq<Channel>)
    ensures SumLocal(a + b) == SumLocal(a) + SumLocal(b) && SumLeast(a + b) == SumLeast(a) + SumLeast(b)
    ensures SumIn(a + b) == SumIn(a) + SumIn(b) && SumToWallet(a + b) == SumToWallet(a) + SumToWallet(b)
    ensures |b| == 1 ==> && SumLocal(b) == b[0].local && SumLeast(b) == Least(b[0])
                         && (SumIn(b), SumToWallet(b)) == ShownAmounts(b[0])
    decreases |b|
  {
    if b == [] {
      assert a + b == a;
    } else {
      var n := |b| - 1;
      SumsAreAdditive(a, b[..n]);
      assert (a + b)[..|a + b| - 1] == a + b[..n];
      assert n == 0 ==> b[..n] == [];
    }
  }

  method AmountsShown(ch: Channel) returns (into: nat, toWallet: nat)
    requires ch.records.Some?
    ensures (into, toWallet) == ShownAmounts(ch)
  {
    into, toWallet := 0, 0;
    var records := ch.records.value;
    var shown := ShownSplice(records);
    if shown.Some? && !records[shown.value].relayRejected {
      assert Counts(ch, shown.value);
      var amounts := SpliceAmounts(records[shown.value]);
      into, toWallet := amounts.0, amounts.1;
    }
    forall i: nat | Counts(ch, i) ensures shown == Some(i) {
      assert records[i] in records;
      BestIsUnique(records, i, shown.value);
    }
  }

  class BalanceResponse {
    var localBalance: Option<Amount>
    var balance: nat
    var pendingSpliceIn: nat
    var pendingSpliceToWallet: nat

    /** The response before the splices: the sum over the open channels. */
    constructor (channels: seq<Channel>)
      ensures localBalance == Some(InAmount(SumLocal(channels))) && balance == SumLocal(channels) / MSAT_PER_SAT
      ensures pendingSpliceIn == 0 && pendingSpliceToWallet == 0
    {
      var sum: Msat := 0;
      for i := 0 to |channels|
        invariant sum == SumLocal(channels[..i])
      {
        assert channels[..i + 1][..i] == channels[..i];
        sum := sum + channels[i].local;
      }
      assert channels[..|channels|] == channels;
      localBalance, balance := Some(InAmount(sum)), sum / MSAT_PER_SAT;
      pendingSpliceIn, pendingSpliceToWallet := 0, 0;
    }

    /** addSpliceBalances, for whatever local balance the response holds. */
    method AddSpliceBalances(channels: seq<Channel>)
      modifies this
      ensures pendingSpliceIn == SumIn(channels) && pendingSpliceToWallet == SumToWallet(channels)
      ensures SumLeast(channels) <= SumLocal(channels)
      ensures var lower := SumLocal(channels) - SumLeast(channels);
              if lower == 0 || old(localBalance).None? || old(localBalance).value.msat < lower
              then localBalance == old(localBalance) && balance == old(balance)
              else && localBalance == Some(Amount((old(localBalance).value.msat - lower) / 1000,
                                                  old(localBalance).value.msat - lower))
                   && balance == (old(localBalance).value.msat - lower) / 1000
    {
      var into, toWallet, lower: Msat := 0, 0, 0;
      for i := 0 to |channels|
        invariant into == SumIn(channels[..i]) && toWallet == SumToWallet(channels[..i])
        invariant lower + SumLeast(channels[..i]) == SumLocal(channels[..i])
        invariant localBalance == old(localBalance) && balance == old(balance)
      {
        var ch := channels[i];
        assert channels[..i + 1][..i] == channels[..i];
        if ch.records.None? {
          assert forall j: nat :: !Counts(ch, j);
          continue;
        }
        var recIn, recToWallet := AmountsShown(ch);
        into, toWallet := into + recIn, toWallet + recToWallet;
        var least := LeastCandidateBalance(ch.records.value, ch.local);
        lower := lower + (ch.local - least);
      }
      assert channels[..|channels|] == channels;
      pendingSpliceIn, pendingSpliceToWallet := into, toWallet;
      if lower > 0 && localBalance.Some? && localBalance.value.msat >= lower {
        var least := localBalance.value.msat - lower;
        localBalance, balance := Some(InAmount(least)), least / MSAT_PER_SAT;
      }
    }
  }

  /** ChannelBalance: the local balance reported is the sum of the channels' least balances, whatever their records. */
  method ChannelBalance(channels: seq<Channel>) returns (resp: BalanceResponse)
    ensures fresh(resp)
    ensures resp.localBalance == Some(InAmount(SumLeast(channels)))
    ensures resp.localBalance.value.msat == SumLeast(channels)
    ensures resp.localBalance.value.sat == SumLeast(channels) / 1000
    ensures resp.balance == SumLeast(channels) / MSAT_PER_SAT
    ensures resp.pendingSpliceIn == SumIn(channels) && resp.pendingSpliceToWallet == SumToWallet(channels)
  {
    resp := new BalanceResponse(channels);
    resp.AddSpliceBalances(channels);
  }

  // ---------------------------------------------------------------- the worst case

  /** A balance the channel may be left with: on its current funding, or on that of a splice that confirms. */
  predicate MayEndAt(ch: Channel, balance: Msat) {
    || balance == ch.local
    || (ch.records.Some? && exists r | r in ch.records.value && Candidate(r) :: balance == r.localCommit.value)
  }

  /** An outcome: one of its possible balances for each channel. */
  predicate Outcome(channels: seq<Channel>, balances: seq<Msat>) {
    |balances| == |channels| && forall i | 0 <= i < |channels| :: MayEndAt(channels[i], balances[i])
  }

  function Sum(balances: seq<Msat>): Msat {
    if balances == [] then 0 else Sum(balances[..|balances| - 1]) + balances[|balances| - 1]
  }

  lemma {:induction false} SumIsAdditive(a: seq<Msat>, b: seq<Msat>)
    ensures Sum(a + b) == Sum(a) + Sum(b)
    ensures |b| == 1 ==> Sum(b) == b[0]
    decreases |b|
  {
    if b == [] {
      assert a + b == a;
    } else {
      SumIsAdditive(a, b[..|b| - 1]);
      assert (a + b)[..|a + b| - 1] == a + b[..|b| - 1];
      assert |b| == 1 ==> b[..|b| - 1] == [];
    }
  }

  lemma LeastIsWorst(ch: Channel, balance: Msat)
    requires MayEndAt(ch, balance)
    ensures Least(ch) <= balance && MayEndAt(ch, Least(ch))
  {
    if ch.records.Some? {
      LeastCandidateIsMinimum(ch.records.value, ch.local);
    }
  }

  /** No outcome leaves less than the balance reported. */
  lemma {:induction false} ReportedIsNeverMore(channels: seq<Channel>, balances: seq<Msat>)
    requires Outcome(channels, balances)
    ensures SumLeast(channels) <= Sum(balances)
  {
    if channels != [] {
      var n := |channels| - 1;
      ReportedIsNeverMore(channels[..n], balances[..n]);
      LeastIsWorst(channels[n], balances[n]);
    }
  }

  /** And some outcome leaves exactly that. */
  lemma {:induction false} ReportedIsReached(channels: seq<Channel>) returns (balances: seq<Msat>)
    ensures Outcome(channels, balances) && Sum(balances) == SumLeast(channels)
  {
    balances := [];
    if channels != [] {
      var n := |channels| - 1;
      var rest := ReportedIsReached(channels[..n]);
      LeastIsWorst(channels[n], channels[n].local);
      balances := rest + [Least(channels[n])];
      assert balances[..n] == rest;
      forall i | 0 <= i < |channels| ensures MayEndAt(channels[i], balances[i]) {
        if i < n {
          assert MayEndAt(channels[..n][i], rest[i]);
        }
      }
    }
  }
}
