/**
 Restoring channels from a backup (chanrestore.go): which backups this chain takes, the chain a restored channel is
 stored under, and the heights its funding is looked for from.

 Short channel ids are those of BOLT 7, "Definition of short_channel_id": 24 bits of block height, 24 of transaction
 index, 16 of output index. A hash is the number its usual hexadecimal form writes.
 */
module ChanRestore {

  import opened Options

  type Hash = nat

  const MAINNET: Hash := 0x000000000019d6689c085ae165831e934ff763ae46a2a6c172b3f1b60a8ce26f
  const TESTNET3: Hash := 0x000000000933ea01ad0ee984209779baaec3ced90fa3f408719526f8d77f4943
  const TESTNET4: Hash := 0x00000000da84f2bafbbc53dee25a72ae507ff4914b867c565be350b0da8bf043
  const SIGNET: Hash := 0x00000008819873e925422c1ff0f99f7cc9bbb232af63a077a480a3633bee1ef6
  const SIMNET: Hash := 0x683e86bd5c6d110d91b94b97137ba6bfe02dbbdb8e3dff722a669b5d69d77af6
  const REGTEST: Hash := 0x0f9188f13cb7b2c71f2a335e3a4fc328bf5beb436012afca590b1a11466e2206

  const ACTIVATION: Hash := 0x0000000000000050c1e5f69672f459293be14f46e5a494e7a8c8541396f18eeb

  /** legacychain's table: the chain hash that each network's genesis hash replaced. */
  const REPLACED: map<Hash, Hash> :=
    map[
      MAINNET := ACTIVATION,
      TESTNET4 := 0x572c94664c77fb4ce6a9c4ee50ed8f0eb1bd363061342194ac66fca694aa63a6,
      SIGNET := 0xc283e28a744edd1bf7a47946620de35ae2e8ac84dc0a2b21e29f1ebf36ec6589,
      SIMNET := 0xb3ed44c85ec33da494089f280e551145119918a571577c4ed4acaec258411a5e,
      REGTEST := 0x2594d57b43169a2856ded0623840f0863b9e967b936f6f3d7945da28d909ab1a]

  const MAX_UINT32: nat := 0xffff_ffff
  const ACTIVATION_HEIGHT: nat := 961640
  const TESTNET_LAUNCH: nat := 1489300

  type Height = h: nat | h < 0x100_0000

  datatype Scid = Scid(height: Height, txIndex: nat, output: nat)

  /** A single channel's backup; `restorable` says that its keys derive and its version is known. */
  datatype Backup = Backup(chain: Hash, scid: Scid, restorable: bool)

  /** A restored channel, as it is stored. */
  datatype Stored = Stored(chain: Hash, scid: Scid, broadcast: nat)

  // ---------------------------------------------------------------- the chain

  /** The chain hash this network used to advertise: `synthetic` is the tagged hash of a genesis hash. */
  function Legacy(ours: Hash, synthetic: Hash -> Hash): Hash {
    if ours == MAINNET then ACTIVATION else synthetic(ours)
  }

  predicate Accepts(ours: Hash, synthetic: Hash -> Hash, chain: Hash) {
    ours != 0 && (chain == ours || chain == Legacy(ours, synthetic))
  }

  datatype Verdict = Accepted | NoChain | WrongChain(named: Hash)

  /** checkBackupChain: every backup is for this chain, or the first that is not is named. */
  method CheckBackupChain(ours: Hash, synthetic: Hash -> Hash, backups: seq<Backup>) returns (v: Verdict)
    ensures v == NoChain <==> ours == 0
    ensures v == Accepted <==> ours != 0 && forall b | b in backups :: Accepts(ours, synthetic, b.chain)
    ensures v.WrongChain? ==>
              exists i | 0 <= i < |backups| ::
                && v.named == backups[i].chain && !Accepts(ours, synthetic, backups[i].chain)
                && forall j | 0 <= j < i :: Accepts(ours, synthetic, backups[j].chain)
  {
    if ours == 0 {
      return NoChain;
    }
    var legacy := synthetic(ours);
    if ours == MAINNET {
      legacy := ACTIVATION;
    }
    for i := 0 to |backups|
      invariant forall j | 0 <= j < i :: Accepts(ours, synthetic, backups[j].chain)
    {
      if backups[i].chain == ours || backups[i].chain == legacy {
        continue;
      }
      assert backups[i] in backups;
      return WrongChain(backups[i].chain);
    }
    return Accepted;
  }

  /** restoredChainHash. */
  function RestoredChain(ours: Hash, chain: Hash): Hash {
    if Lookup(REPLACED, ours) == Some(chain) then ours else chain
  }

  /** The two places that know a network's old chain hash agree on it, if there is one. */
  predicate TablesAgree(ours: Hash, synthetic: Hash -> Hash) {
    Legacy(ours, synthetic) == ours || Lookup(REPLACED, ours) == Some(Legacy(ours, synthetic))
  }

  /** Exactly then is every backup the gate lets in stored under our chain: channels are keyed by chain hash. */
  lemma StoredUnderOurs(ours: Hash, synthetic: Hash -> Hash)
    requires ours != 0
    ensures (forall chain: Hash | Accepts(ours, synthetic, chain) :: RestoredChain(ours, chain) == ours)
            <==> TablesAgree(ours, synthetic)
  {
    var legacy := Legacy(ours, synthetic);
    assert Accepts(ours, synthetic, legacy);
    if TablesAgree(ours, synthetic) {
      forall chain: Hash | Accepts(ours, synthetic, chain) ensures RestoredChain(ours, chain) == ours {
      }
    } else {
      assert RestoredChain(ours, legacy) == legacy;
    }
  }

  /** The table's values for the test networks are what the tag derives. */
  predicate DerivesTable(synthetic: Hash -> Hash) {
    forall genesis | genesis in REPLACED && genesis != MAINNET :: synthetic(genesis) == REPLACED[genesis]
  }

  /** With the table's values derived by the tag, they agree for each of its five networks. The third test network is
      not in the table: there they agree only if the tag derived its own genesis. */
  lemma WhereTablesAgree(synthetic: Hash -> Hash)
    requires DerivesTable(synthetic)
    ensures forall ours | ours in REPLACED :: TablesAgree(ours, synthetic)
    ensures TablesAgree(TESTNET3, synthetic) <==> synthetic(TESTNET3) == TESTNET3
  {
    assert TESTNET3 !in REPLACED;
  }

  /** A network of the table takes exactly the backups that name it by its genesis or by what that replaced. */
  lemma TakenExactly(synthetic: Hash -> Hash, ours: Hash, chain: Hash)
    requires DerivesTable(synthetic)
    ensures ours in REPLACED ==> (Accepts(ours, synthetic, chain) <==> chain in {ours, REPLACED[ours]})
    ensures ours !in REPLACED ==> (Accepts(ours, synthetic, chain) <==> ours != 0 && chain in {ours, synthetic(ours)})
  {
  }

  /** No network takes a backup of another, under the other's new name or its old one. */
  lemma NoNetworkTakesAnothers(synthetic: Hash -> Hash, ours: Hash, other: Hash)
    requires DerivesTable(synthetic)
    requires ours in REPLACED && other in REPLACED && ours != other
    ensures !Accepts(ours, synthetic, other) && !Accepts(ours, synthetic, REPLACED[other])
  {
    assert Legacy(ours, synthetic) == REPLACED[ours];
  }

  // ---------------------------------------------------------------- the heights

  /** The least nonzero height of the batch, or the sentinel. */
  function FirstHeight(backups: seq<Backup>): nat {
    if backups == [] then MAX_UINT32
    else
      var rest, height := FirstHeight(backups[..|backups| - 1]), backups[|backups| - 1].scid.height;
      if height != 0 && height < rest then height else rest
  }

  predicate HasHeight(backups: seq<Backup>) {
    exists b | b in backups :: b.scid.height != 0
  }

  lemma {:induction false} FirstHeightIsLeast(backups: seq<Backup>)
    ensures FirstHeight(backups) != MAX_UINT32 <==> HasHeight(backups)
    ensures HasHeight(backups) ==> exists b | b in backups :: b.scid.height == FirstHeight(backups) != 0
    ensures forall b | b in backups && b.scid.height != 0 :: FirstHeight(backups) <= b.scid.height
  {
    if backups != [] {
      var n := |backups| - 1;
      FirstHeightIsLeast(backups[..n]);
      assert backups == backups[..n] + [backups[n]];
      assert backups[n] in backups;
      if FirstHeight(backups) != MAX_UINT32 {
        if FirstHeight(backups) == FirstHeight(backups[..n]) {
          var b :| b in backups[..n] && b.scid.height == FirstHeight(backups) != 0;
          assert b in backups;
        }
      }
    }
  }

  /** Where to look from when no backup names a height: not before the proof of work changed. */
  function Launch(chain: Hash): nat {
    if chain == ACTIVATION || chain == MAINNET then ACTIVATION_HEIGHT
    else if chain == TESTNET3 then TESTNET_LAUNCH
    else 1
  }

  function StartHeight(ours: Hash, backups: seq<Backup>): nat
    requires backups != []
  {
    if FirstHeight(backups) != MAX_UINT32 then FirstHeight(backups)
    else Launch(RestoredChain(ours, backups[0].chain))
  }

  /** A channel whose heights are set for a batch that starts at `start`. */
  function WithHeights(s: Stored, start: nat): Stored {
    if s.scid.height == 0 then s.(broadcast := start)
    else if s.scid.txIndex == 0 then s.(scid := s.scid.(height := 0), broadcast := s.scid.height)
    else s
  }

  /** A channel as restored from its backup. */
  function Restored(ours: Hash, b: Backup, start: nat): Stored {
    WithHeights(Stored(RestoredChain(ours, b.chain), b.scid, 0), start)
  }

  /** A channel the chain watcher can follow: confirmed, or unconfirmed with a height to look from. */
  predicate Watchable(s: Stored) {
    if s.scid.height != 0 then s.scid.txIndex != 0 else s.broadcast != 0
  }

  /** Every restored channel can be watched. One without a height is looked for from the least height of the batch, if
      there is one, so no channel is missed by starting after another of the batch; one that used the height for its
      broadcast gets that back. */
  lemma EveryChannelIsWatchable(ours: Hash, backups: seq<Backup>, i: nat)
    requires i < |backups|
    ensures var b := backups[i];
            var s := Restored(ours, b, StartHeight(ours, backups));
            && Watchable(s)
            && (b.scid.height == 0 && HasHeight(backups) ==>
                 && (exists c | c in backups :: c.scid.height == s.broadcast)
                 && (forall c | c in backups && c.scid.height != 0 :: s.broadcast <= c.scid.height))
            && (s.scid.height == 0 && b.scid.height != 0 ==> s.broadcast == b.scid.height)
  {
    FirstHeightIsLeast(backups);
    if HasHeight(backups) {
      var c :| c in backups && c.scid.height == FirstHeight(backups) != 0;
    }
  }

  predicate AllAccepted(ours: Hash, synthetic: Hash -> Hash, backups: seq<Backup>) {
    forall b | b in backups :: Accepts(ours, synthetic, b.chain)
  }

  predicate UnderOurs(ours: Hash, backups: seq<Backup>, i: nat)
    requires i < |backups|
  {
    Restored(ours, backups[i], StartHeight(ours, backups)).chain == ours
  }

  /** Where the tables agree, and only there, every batch the gate accepts leaves each of its channels under our
      chain. */
  lemma AcceptedBatchIsSound(ours: Hash, synthetic: Hash -> Hash)
    requires ours != 0
    ensures (forall backups: seq<Backup>, i: nat ::
               i < |backups| && AllAccepted(ours, synthetic, backups) ==> UnderOurs(ours, backups, i))
            <==> TablesAgree(ours, synthetic)
  {
    StoredUnderOurs(ours, synthetic);
    if TablesAgree(ours, synthetic) {
      forall backups: seq<Backup>, i: nat | i < |backups| && AllAccepted(ours, synthetic, backups)
        ensures UnderOurs(ours, backups, i)
      {
        assert backups[i] in backups;
      }
    } else {
      var chain: Hash :| Accepts(ours, synthetic, chain) && RestoredChain(ours, chain) != ours;
      var backups := [Backup(chain, Scid(0, 0, 0), true)];
      assert AllAccepted(ours, synthetic, backups) && !UnderOurs(ours, backups, 0);
    }
  }

  /** What restoring leaves: a confirmed channel as its backup has it; of one that was not, its height alone goes. */
  lemma RestLeftAlone(ours: Hash, b: Backup, start: nat)
    ensures var s := Restored(ours, b, start);
            && s.scid.txIndex == b.scid.txIndex && s.scid.output == b.scid.output
            && (s.scid.height == b.scid.height <==> b.scid.height == 0 || b.scid.txIndex != 0)
            && (s.scid.height != b.scid.height ==> s.scid.height == 0 && s.broadcast == b.scid.height)
            && (b.scid.height == 0 ==> s.broadcast == start)
            && (b.scid.height != 0 && b.scid.txIndex != 0 ==> s.broadcast == 0)
            && s.chain in {ours, b.chain}
  {
  }

  /** Without a height in an accepted batch, the search starts where our chain's channels can have started, under
      whichever name the backups give it: on mainnet where the proof of work changed. */
  lemma StartWithoutHeights(ours: Hash, synthetic: Hash -> Hash, backups: seq<Backup>)
    requires ours != 0 && TablesAgree(ours, synthetic)
    requires backups != [] && AllAccepted(ours, synthetic, backups) && !HasHeight(backups)
    ensures StartHeight(ours, backups) == Launch(ours)
    ensures StartHeight(ours, backups) == (if ours == MAINNET || ours == ACTIVATION then 961640
                                           else if ours == TESTNET3 then 1489300
                                           else 1)
  {
    FirstHeightIsLeast(backups);
    assert backups[0] in backups;
    StoredUnderOurs(ours, synthetic);
  }

  /** On the third test network it starts there only if the first backup names the chain as it is named now: under the
      old name the channel is stored as of no known chain, and looked for from the first block. */
  lemma ThirdTestNetworkStart(synthetic: Hash -> Hash, backups: seq<Backup>)
    requires synthetic(TESTNET3) !in {TESTNET3, MAINNET, ACTIVATION}
    requires backups != [] && AllAccepted(TESTNET3, synthetic, backups) && !HasHeight(backups)
    ensures StartHeight(TESTNET3, backups) == if backups[0].chain == TESTNET3 then 1489300 else 1
  {
    FirstHeightIsLeast(backups);
    assert TESTNET3 !in REPLACED;
    assert backups[0] in backups;
  }

  // ---------------------------------------------------------------- the restore

  class Channel {
    const chain: Hash
    var scid: Scid
    var broadcast: nat

    constructor (chain: Hash, scid: Scid)
      ensures this.chain == chain && this.scid == scid && broadcast == 0
    {
      this.chain, this.scid, broadcast := chain, scid, 0;
    }

    ghost function Value(): Stored
      reads this
    {
      Stored(chain, scid, broadcast)
    }
  }

  /** The second pass: the height a channel's funding was broadcast at, for those that were not confirmed. */
  method SetHeights(shells: seq<Channel>, first: nat)
    requires forall j, k | 0 <= j < k < |shells| :: shells[j] != shells[k]
    modifies shells
    ensures forall j | 0 <= j < |shells| :: shells[j].Value() == WithHeights(old(shells[j].Value()), first)
  {
    for i := 0 to |shells|
      invariant forall j | 0 <= j < i :: shells[j].Value() == WithHeights(old(shells[j].Value()), first)
      invariant forall j | i <= j < |shells| :: shells[j].Value() == old(shells[j].Value())
    {
      var channel := shells[i];
      if channel.scid.height == 0 {
        channel.broadcast := first;
      } else if channel.scid.txIndex == 0 {
        channel.broadcast := channel.scid.height;
        channel.scid := channel.scid.(height := 0);
      }
    }
  }

  datatype Outcome = Refused(verdict: Verdict) | ShellFailed | Panicked | Stores(shells: seq<Channel>)

  /** What is handed to the database: nothing unless the gate accepts every backup and every shell opens; and then each
      channel as it should be restored. An empty batch is accepted, and then the first of no shells is asked for its
      chain. */
  method RestoreChansFromSingles(ours: Hash, synthetic: Hash -> Hash, backups: seq<Backup>) returns (o: Outcome)
    ensures o.Refused? <==> ours == 0 || exists b | b in backups :: !Accepts(ours, synthetic, b.chain)
    ensures o.ShellFailed? <==> !o.Refused? && exists b | b in backups :: !b.restorable
    ensures o.Panicked? <==> ours != 0 && backups == []
    ensures o.Stores? ==>
              && |o.shells| == |backups| > 0
              && forall i | 0 <= i < |backups| ::
                   fresh(o.shells[i]) && o.shells[i].Value() == Restored(ours, backups[i], StartHeight(ours, backups))
  {
    var verdict := CheckBackupChain(ours, synthetic, backups);
    if verdict != Accepted {
      return Refused(verdict);
    }
    var shells: seq<Channel> := [];
    var first := MAX_UINT32;
    for i := 0 to |backups|
      invariant |shells| == i
      invariant forall j | 0 <= j < i :: backups[j].restorable && fresh(shells[j])
      invariant forall j, k | 0 <= j < k < i :: shells[j] != shells[k]
      invariant forall j | 0 <= j < i ::
                  shells[j].Value() == Stored(RestoredChain(ours, backups[j].chain), backups[j].scid, 0)
      invariant first == FirstHeight(backups[..i])
    {
      assert backups[..i + 1][..i] == backups[..i];
      if !backups[i].restorable {
        assert backups[i] in backups;
        return ShellFailed;
      }
      var shell := new Channel(RestoredChain(ours, backups[i].chain), backups[i].scid);
      var height := shell.scid.height;
      if height != 0 && height < first {
        first := height;
      }
      shells := shells + [shell];
    }
    assert backups[..|backups|] == backups;
    if first == MAX_UINT32 {
      if shells == [] {
        return Panicked;
      }
      var chain := shells[0].chain;
      if chain == ACTIVATION || chain == MAINNET {
        first := ACTIVATION_HEIGHT;
      } else if chain == TESTNET3 {
        first := TESTNET_LAUNCH;
      } else {
        first := 1;
      }
    }
    SetHeights(shells, first);
    forall i | 0 <= i < |backups| ensures shells[i].Value() == Restored(ours, backups[i], first) {
      assert backups[i] in backups;
    }
    return Stores(shells);
  }
}
