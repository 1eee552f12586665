/**
 What the balances read of a channel and of its splice records (channeldb's SpliceRecord and SpliceNegotiation).

 Amounts are unbounded here: every millisatoshi sum is at most a thousand times the coins there are, 2.1e18, which a
 uint64 holds, and the models prove that nothing is subtracted from less than itself.
 */
module SpliceRecords {

  import opened Options

  type Msat = nat

  const MSAT_PER_SAT: nat := 1000

  datatype Negotiation = Negotiation(
    feeRate: nat, ourSigs: bool, theirSigs: bool, lockedSent: bool, dead: bool, disowned: bool, hasTx: bool)

  /** A splice record: the change to our balance in satoshis, our balance on its commitment if it has one, whether our
      signature for it went out; and what the backend says of its transaction: whether it refused it, its
      confirmations, and what it pays our wallet in satoshis. */
  datatype Record = Record(
    retired: bool, localDelta: int, localCommit: Option<Msat>, spliceSig: bool, negotiation: Option<Negotiation>,
    relayRejected: bool, confirmations: nat, walletOutputs: nat)

  /** A channel: our balance, the reserve we keep in satoshis, whether it is pending and its link up, and its records,
      if they can be read. */
  datatype Channel = Channel(
    local: Msat, reserve: nat, pending: bool, linkActive: bool, records: Option<seq<Record>>)

  /** Dead, or disowned by the peer: not expected to confirm. */
  predicate Dead(r: Record) {
    r.negotiation.Some? && (r.negotiation.value.dead || r.negotiation.value.disowned)
  }

  function FeeRate(r: Record): nat {
    if r.negotiation.None? then 0 else r.negotiation.value.feeRate
  }

  /** A pending splice with a commitment of ours that may still confirm. */
  predicate Candidate(r: Record) {
    !r.retired && !Dead(r) && r.localCommit.Some?
  }
}
