/**
 What this node's channels can send while splices are pending (server_bridge.go): each record is looked at once, in the
 order it is stored, and a channel counts for what fits on every funding it may end up on.
 */
module Spendable {

  import opened Options
  import opened SpliceRecords
  import B = SpliceBalances

  /** What a pending splice takes out of the channel. */
  function Outflow(r: Record): Msat {
    if r.retired || r.localDelta >= 0 then 0 else -r.localDelta * MSAT_PER_SAT
  }

  /** `out` is the largest outflow of these records, 0 if none flows out. */
  predicate IsLargest(records: seq<Record>, out: Msat) {
    && (forall r | r in records :: Outflow(r) <= out)
    && (out == 0 || exists r | r in records :: Outflow(r) == out)
  }

  function Largest(records: seq<Record>): Msat {
    if records == [] then 0
    else
      var rest, last := Largest(records[..|records| - 1]), Outflow(records[|records| - 1]);
      if rest < last then last else rest
  }

  lemma {:induction false} LargestIsLargest(records: seq<Record>)
    ensures IsLargest(records, Largest(records))
    ensures forall r | r in records && !r.retired && r.localDelta < 0 :: 1000 * -r.localDelta <= Largest(records)
    ensures Largest(records) == 0
            || exists r | r in records && !r.retired && r.localDelta < 0 :: Largest(records) == 1000 * -r.localDelta
  {
    if records != [] {
      var n := |records| - 1;
      LargestIsLargest(records[..n]);
      assert records == records[..n] + [records[n]];
      if Largest(records[..n]) == Largest(records) && Largest(records) != 0 {
        var r :| r in records[..n] && Outflow(r) == Largest(records);
        assert r in records;
      } else {
        assert records[n] in records;
      }
    }
  }

  /** The order and the repetition of records do not matter. */
  lemma LargestOfSameRecords(records: seq<Record>, other: seq<Record>)
    requires forall r :: r in records <==> r in other
    ensures Largest(records) == Largest(other)
  {
    LargestIsLargest(records);
    LargestIsLargest(other);
  }

  /** What is left of a balance, or nothing. */
  function Less(balance: Msat, out: Msat): Msat {
    if balance <= out then 0 else balance - out
  }

  /** leastLocalBalance. */
  method LeastLocalBalance(balance: Msat, records: seq<Record>) returns (least: Msat)
    ensures least == Less(balance, Largest(records))
    ensures forall out: Msat | IsLargest(records, out) :: least == Less(balance, out)
  {
    LargestIsLargest(records);
    least := balance;
    for i := 0 to |records|
      invariant Largest(records[..i]) <= balance
      invariant least == Less(balance, Largest(records[..i]))
    {
      var r := records[i];
      assert records[..i + 1][..i] == records[..i];
      if r.retired || r.localDelta >= 0 {
        continue;
      }
      var out := -r.localDelta * MSAT_PER_SAT;
      if out >= balance {
        assert Outflow(r) == out && r in records;
        return 0;
      }
      if balance - out < least {
        least := balance - out;
      }
    }
    assert records[..|records|] == records;
  }

  /** The channel's balance that fits on every funding: nothing if its records cannot be read. */
  function SpliceSafe(ch: Channel): Msat {
    if ch.records.None? then 0 else Less(ch.local, Largest(ch.records.value))
  }

  method SpliceSafeLocalBalance(ch: Channel) returns (balance: Msat)
    ensures balance == SpliceSafe(ch)
  {
    if ch.records.None? {
      return 0;
    }
    balance := LeastLocalBalance(ch.local, ch.records.value);
  }

  /** What one channel can send: `None` is a channel that is not there, and `linksKnown` whether links are looked at. */
  function Spendable(ch: Option<Channel>, linksKnown: bool): Msat {
    if ch.None? || ch.value.pending || (linksKnown && !ch.value.linkActive) then 0
    else Less(SpliceSafe(ch.value), ch.value.reserve * MSAT_PER_SAT)
  }

  function SpendableSum(channels: seq<Option<Channel>>, linksKnown: bool): Msat {
    if channels == [] then 0
    else
      SpendableSum(channels[..|channels| - 1], linksKnown) + Spendable(channels[|channels| - 1], linksKnown)
  }

  /** A channel can send something exactly if it is there, is not pending, has its link up where that is known, has
      readable records, and holds more than its reserve and the largest outflow of a splice not retired; and then it can
      send what is above both. */
  lemma SpendableExactly(ch: Option<Channel>, linksKnown: bool)
    ensures Spendable(ch, linksKnown) > 0
            <==> && ch.Some? && !ch.value.pending && (!linksKnown || ch.value.linkActive) && ch.value.records.Some?
                 && ch.value.local > Largest(ch.value.records.value) + 1000 * ch.value.reserve
    ensures Spendable(ch, linksKnown) > 0 ==>
              Spendable(ch, linksKnown) == ch.value.local - Largest(ch.value.records.value) - 1000 * ch.value.reserve
  {
  }

  /** The sum is of the channels one by one, however they are divided. */
  lemma {:induction false} SpendableIsAdditive(a: seq<Option<Channel>>, b: seq<Option<Channel>>, linksKnown: bool)
    ensures SpendableSum(a + b, linksKnown) == SpendableSum(a, linksKnown) + SpendableSum(b, linksKnown)
    ensures |b| == 1 ==> SpendableSum(b, linksKnown) == Spendable(b[0], linksKnown)
    decreases |b|
  {
    if b == [] {
      assert a + b == a;
    } else {
      SpendableIsAdditive(a, b[..|b| - 1], linksKnown);
      assert (a + b)[..|a + b| - 1] == a + b[..|b| - 1];
      assert |b| == 1 ==> b[..|b| - 1] == [];
    }
  }

  /** spendableOutbound is the sum of what each channel can send. */
  method SpendableOutbound(channels: seq<Option<Channel>>, linksKnown: bool) returns (outbound: Msat)
    ensures outbound == SpendableSum(channels, linksKnown)
  {
    outbound := 0;
    for i := 0 to |channels|
      invariant outbound == SpendableSum(channels[..i], linksKnown)
    {
      assert channels[..i + 1][..i] == channels[..i];
      if channels[i].None? || channels[i].value.pending {
        continue;
      }
      var ch := channels[i].value;
      if linksKnown && !ch.linkActive {
        continue;
      }
      var reserve := ch.reserve * MSAT_PER_SAT;
      var balance := SpliceSafeLocalBalance(ch);
      if balance <= reserve {
        continue;
      }
      outbound := outbound + (balance - reserve);
    }
    assert channels[..|channels|] == channels;
  }

  // ---------------------------------------------------------------- it can be sent on every funding

  /** Every candidate commitment pays us the current balance changed by the splice, as it does until the splice locks:
      updates go to every commitment alike. */
  predicate InStep(ch: Channel) {
    ch.records.Some? ==>
      forall r | r in ch.records.value && Candidate(r) :: r.localCommit.value == ch.local + r.localDelta * MSAT_PER_SAT
  }

  /** Whichever funding the channel ends on, what it can send is left there above the reserve. */
  lemma FitsOnEveryFunding(ch: Channel, linksKnown: bool, balance: Msat)
    requires InStep(ch) && B.MayEndAt(ch, balance)
    ensures SpliceSafe(ch) <= balance
    ensures Spendable(Some(ch), linksKnown) <= Less(balance, ch.reserve * MSAT_PER_SAT)
  {
    if ch.records.Some? {
      LargestIsLargest(ch.records.value);
      if balance != ch.local {
        var r :| r in ch.records.value && Candidate(r) && balance == r.localCommit.value;
        assert Outflow(r) <= Largest(ch.records.value);
      }
    }
  }

  function All(channels: seq<Channel>): seq<Option<Channel>> {
    seq(|channels|, i requires 0 <= i < |channels| => Some(channels[i]))
  }

  /** So what the bridge counts on never exceeds the balance reported, nor what any outcome leaves. */
  lemma {:induction false} SpendableIsReported(channels: seq<Channel>, linksKnown: bool)
    requires forall ch | ch in channels :: InStep(ch)
    ensures SpendableSum(All(channels), linksKnown) <= B.SumLeast(channels)
  {
    if channels != [] {
      var n := |channels| - 1;
      assert All(channels)[..n] == All(channels[..n]);
      SpendableIsReported(channels[..n], linksKnown);
      assert channels[n] in channels;
      B.LeastIsWorst(channels[n], channels[n].local);
      FitsOnEveryFunding(channels[n], linksKnown, B.Least(channels[n]));
    }
  }

  /** Whether or not its commitments are in step, what a channel with readable records counts for is on every funding
      exactly when no candidate's commitment lags behind the channel's balance by more than the largest outflow. */
  lemma SafeExactly(ch: Channel)
    requires ch.records.Some?
    ensures SpliceSafe(ch) <= B.Least(ch)
            <==> forall r | r in ch.records.value && Candidate(r) ::
                   ch.local <= r.localCommit.value + Largest(ch.records.value)
  {
    B.LeastCandidateIsMinimum(ch.records.value, ch.local);
  }

  /** One that lags behind by more. */
  lemma LaggingCandidateOverstates()
    ensures exists ch: Channel ::
              !InStep(ch) && Spendable(Some(ch), true) > B.Least(ch)
  {
    var n := Negotiation(1, true, true, false, false, false, true);
    var r := Record(false, 0, Some(400), true, Some(n), false, 0, 0);
    var ch := Channel(1000, 0, false, true, Some([r]));
    assert Largest([r]) == 0 by { LargestIsLargest([r]); }
    assert Candidate(r);
    assert r in ch.records.value;
    assert B.Least(ch) == 400 by {
      B.LeastCandidateIsMinimum([r], 1000);
      assert forall q | q in [r] :: q == r;
    }
    assert !InStep(ch) && Spendable(Some(ch), true) == 1000;
  }
}
