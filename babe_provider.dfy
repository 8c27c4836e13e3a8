/**
 * The BABE consensus-data provider of the manual-seal block producer. For each block it
 * resolves the epoch of the new block from the shared epoch tree, tries to claim the slot,
 * and emits the header's consensus logs: the claim, or, when the local key cannot claim,
 * a plain secondary pre-digest plus an announcement that installs the development key as
 * the next epoch's sole authority. It also hands the resolved epoch descriptor to block
 * import through the import parameters' intermediates map.
 *
 * The epoch tree, `viable_epoch` and the slot-claiming algorithm are collaborators whose
 * code is not modelled; the provider carries them as functions. SCALE encodings are
 * abstract: digest items carry their decoded payloads.
 */
module BabeProvider {
  import opened Wrappers
  import opened Inherents

  const U32_MODULUS: nat := 0x1_0000_0000

  type u32 = x: int | 0 <= x < U32_MODULUS

  type Slot = u64
  type Hash = seq<bv8>
  type BlockNumber = nat

  /** An sr25519 public key. */
  type AuthorityId = seq<bv8>
  type AuthorityWeight = u64

  /** The 32-byte epoch randomness. */
  type Randomness = seq<bv8>

  /** A 4-byte consensus engine identifier, written as its ASCII characters. */
  type EngineId = seq<char>

  const BABE_ENGINE_ID: EngineId := "BABE"

  /** The key under which BABE's intermediate travels to block import. */
  const INTERMEDIATE_KEY: seq<char> := "babe1"

  /** The public key of the well-known development account Alice. */
  const DEV_AUTHORITY: AuthorityId :=
    [0xd4, 0x35, 0x93, 0xc7, 0x15, 0xfd, 0xd3, 0x1c, 0x61, 0x14, 0x1a, 0xbd, 0x04, 0xa9, 0x9f, 0xd6,
     0x82, 0x2c, 0x85, 0x58, 0x85, 0x4c, 0xcd, 0xe3, 0x9a, 0x56, 0x84, 0xe7, 0xa5, 0x6d, 0xa2, 0x7d]

  /** The weight the fallback gives the development key. */
  const DEV_AUTHORITY_WEIGHT: AuthorityWeight := 1000

  /** Context prefixes of the epoch-lookup failure messages of the two operations. */
  const CREATE_DIGEST_CONTEXT: string := "failed to fetch epoch_descriptor: "
  const BLOCK_IMPORT_CONTEXT: string := "failed to fetch epoch data: "

  /** A parent header, as far as the epoch lookup reads it. */
  datatype Header = Header(hash: Hash, number: BlockNumber)

  /** The genesis BABE configuration read from the runtime. */
  datatype Config = Config(
    slotDuration: u64,
    epochLength: u64,
    genesisAuthorities: seq<(AuthorityId, AuthorityWeight)>,
    randomness: Randomness)

  datatype Epoch = Epoch(
    epochIndex: u64,
    startSlot: Slot,
    duration: u64,
    authorities: seq<(AuthorityId, AuthorityWeight)>,
    randomness: Randomness)

  /** An opaque handle naming the epoch-tree node that is viable for a parent and slot. */
  datatype EpochDescriptor = EpochDescriptor(handle: nat)

  datatype PreDigest =
    | Primary(authorityIndex: u32, slot: Slot, vrfOutput: seq<bv8>, vrfProof: seq<bv8>)
    | SecondaryPlain(authorityIndex: u32, slot: Slot)
    | SecondaryVRF(authorityIndex: u32, slot: Slot, vrfOutput: seq<bv8>, vrfProof: seq<bv8>)

  datatype NextEpochDescriptor = NextEpochDescriptor(
    authorities: seq<(AuthorityId, AuthorityWeight)>,
    randomness: Randomness)

  datatype ConsensusLog =
    | NextEpochData(next: NextEpochDescriptor)
    | OnDisabled(disabled: u32)

  /** A header digest item, with its payload decoded. */
  datatype DigestItem =
    | PreRuntime(engine: EngineId, preDigest: PreDigest)
    | Consensus(engine: EngineId, log: ConsensusLog)

  datatype Digest = Digest(logs: seq<DigestItem>)

  /** A value in the import parameters' intermediates map: BABE's, or another component's. */
  datatype IntermediateValue =
    | BabeIntermediate(epochDescriptor: EpochDescriptor)
    | ForeignIntermediate(tag: nat)

  datatype Error =
    | Inherent(inherentError: InherentError)
    | InvalidAuthoritiesSet
    | StringError(message: string)

  /**
   * A snapshot of the shared epoch tree: the descendant query for the child of a parent
   * at a slot (which may fail, may find nothing, or find a descriptor), and `viable_epoch`,
   * which resolves a descriptor to its epoch, using the genesis configuration when the
   * descriptor names the not-yet-imported genesis epoch.
   */
  datatype EpochChanges = EpochChanges(
    descriptorForChildOf: (Hash, BlockNumber, Slot) -> Result<Option<EpochDescriptor>, string>,
    viableEpoch: (EpochDescriptor, Config) -> Option<Epoch>)

  /**
   * The provider: the configuration, the epoch tree, and the slot-claiming algorithm
   * applied with the provider's keystore.
   */
  datatype BabeConsensusDataProvider = BabeConsensusDataProvider(
    config: Config,
    epochChanges: EpochChanges,
    claimSlot: (Slot, Epoch) -> Option<PreDigest>)

  /** The epoch-tree lookup for the child of `parent` at `slot`. */
  function DescriptorLookup(p: BabeConsensusDataProvider, parent: Header, slot: Slot)
    : (r: Result<Option<EpochDescriptor>, string>)
  {
    p.epochChanges.descriptorForChildOf(parent.hash, parent.number, slot)
  }

  /**
   * The first two steps both operations share: read the slot from the inherents, then look
   * up the epoch descriptor for the child of `parent` at that slot. A lookup error is
   * reported with `context` prefixed.
   */
  function ResolveDescriptor(p: BabeConsensusDataProvider, parent: Header, inherents: InherentMap,
                             context: string): (r: Result<(Slot, EpochDescriptor), Error>)
    ensures BABE_INHERENT_IDENTIFIER !in inherents ==>
              r == Err(Inherent(InherentMissing(BABE_INHERENT_IDENTIFIER)))
    ensures BABE_INHERENT_IDENTIFIER in inherents ==>
              var lookup := DescriptorLookup(p, parent, inherents[BABE_INHERENT_IDENTIFIER]);
              && (lookup.Err? ==> r == Err(StringError(context + lookup.error)))
              && (lookup == Ok(None) ==> r == Err(InvalidAuthoritiesSet))
              && (lookup.Ok? && lookup.value.Some? ==>
                    r == Ok((inherents[BABE_INHERENT_IDENTIFIER], lookup.value.value)))
  {
    var slot :- BabeSlot(inherents).MapError(e => Inherent(e));
    match DescriptorLookup(p, parent, slot)
    case Err(e) => Err(StringError(context + e))
    case Ok(None) => Err(InvalidAuthoritiesSet)
    case Ok(Some(d)) => Ok((slot, d))
  }

  /**
   * The logs emitted once the slot and epoch are known: the claim's pre-digest, or the
   * fallback pair.
   */
  function ClaimLogs(p: BabeConsensusDataProvider, slot: Slot, epoch: Epoch): (r: seq<DigestItem>)
  {
    match p.claimSlot(slot, epoch)
    case Some(preDigest) => [PreRuntime(BABE_ENGINE_ID, preDigest)]
    case None =>
      var next := NextEpochDescriptor([(DEV_AUTHORITY, DEV_AUTHORITY_WEIGHT)], epoch.randomness);
      [PreRuntime(BABE_ENGINE_ID, SecondaryPlain(0, slot)),
       Consensus(BABE_ENGINE_ID, NextEpochData(next))]
  }

  /** The BABE pre-digests in a digest log, in order: what block import reads as the claim. */
  function BabePreDigests(logs: seq<DigestItem>): (r: seq<PreDigest>)
    ensures |r| <= |logs|
    ensures forall pd :: pd in r ==> PreRuntime(BABE_ENGINE_ID, pd) in logs
  {
    if logs == [] then []
    else
      var head := if logs[0].PreRuntime? && logs[0].engine == BABE_ENGINE_ID
                  then [logs[0].preDigest] else [];
      head + BabePreDigests(logs[1..])
  }

  /** The BABE next-epoch announcements in a digest log, in order. */
  function NextEpochAnnouncements(logs: seq<DigestItem>): (r: seq<NextEpochDescriptor>)
    ensures |r| <= |logs|
    ensures forall n :: n in r ==> Consensus(BABE_ENGINE_ID, NextEpochData(n)) in logs
  {
    if logs == [] then []
    else
      var head := if logs[0].Consensus? && logs[0].engine == BABE_ENGINE_ID && logs[0].log.NextEpochData?
                  then [logs[0].log.next] else [];
      head + NextEpochAnnouncements(logs[1..])
  }

  /**
   * `create_digest`: the consensus logs of the block built on `parent` from `inherents`.
   * The slot is read first; a missing descriptor or a descriptor without a viable epoch
   * is an invalid authority set. A successful digest holds exactly one BABE pre-digest,
   * followed by at most one next-epoch announcement, and nothing else.
   */
  function CreateDigest(p: BabeConsensusDataProvider, parent: Header, inherents: InherentMap)
    : (r: Result<Digest, Error>)
    ensures BABE_INHERENT_IDENTIFIER !in inherents ==>
              r == Err(Inherent(InherentMissing(BABE_INHERENT_IDENTIFIER)))
    ensures r.Ok? <==>
              var res := ResolveDescriptor(p, parent, inherents, CREATE_DIGEST_CONTEXT);
              res.Ok? && p.epochChanges.viableEpoch(res.value.1, p.config).Some?
    ensures r.Ok? ==> 1 <= |r.value.logs| <= 2
    ensures r.Ok? ==> r.value.logs[0].PreRuntime? && r.value.logs[0].engine == BABE_ENGINE_ID
    ensures r.Ok? ==> |BabePreDigests(r.value.logs)| == 1
    ensures r.Ok? ==> |r.value.logs| == 1 + |NextEpochAnnouncements(r.value.logs)|
  {
    var (slot, descriptor) :- ResolveDescriptor(p, parent, inherents, CREATE_DIGEST_CONTEXT);
    match p.epochChanges.viableEpoch(descriptor, p.config)
    case None => Err(InvalidAuthoritiesSet)
    case Some(epoch) => Ok(Digest(ClaimLogs(p, slot, epoch)))
  }

  /** When the claim succeeds, the digest is exactly the claim's pre-digest. */
  lemma ClaimedDigest(p: BabeConsensusDataProvider, parent: Header, inherents: InherentMap,
                      slot: Slot, descriptor: EpochDescriptor, epoch: Epoch, preDigest: PreDigest)
    requires BABE_INHERENT_IDENTIFIER in inherents && inherents[BABE_INHERENT_IDENTIFIER] == slot
    requires DescriptorLookup(p, parent, slot) == Ok(Some(descriptor))
    requires p.epochChanges.viableEpoch(descriptor, p.config) == Some(epoch)
    requires p.claimSlot(slot, epoch) == Some(preDigest)
    ensures CreateDigest(p, parent, inherents).Ok?
    ensures var logs := CreateDigest(p, parent, inherents).value.logs;
            |logs| == 1 && BabePreDigests(logs) == [preDigest] && NextEpochAnnouncements(logs) == []
  {
  }

  /**
   * When the claim fails, the digest is a plain secondary pre-digest for the inherent slot
   * with authority index 0, followed by one announcement whose only authority is the
   * development key with weight 1000 and whose randomness is the current epoch's.
   */
  lemma FallbackDigest(p: BabeConsensusDataProvider, parent: Header, inherents: InherentMap,
                       slot: Slot, descriptor: EpochDescriptor, epoch: Epoch)
    requires BABE_INHERENT_IDENTIFIER in inherents && inherents[BABE_INHERENT_IDENTIFIER] == slot
    requires DescriptorLookup(p, parent, slot) == Ok(Some(descriptor))
    requires p.epochChanges.viableEpoch(descriptor, p.config) == Some(epoch)
    requires p.claimSlot(slot, epoch) == None
    ensures CreateDigest(p, parent, inherents).Ok?
    ensures var logs := CreateDigest(p, parent, inherents).value.logs;
            && |logs| == 2
            && logs[0] == PreRuntime(BABE_ENGINE_ID, SecondaryPlain(0, slot))
            && logs[1] == Consensus(BABE_ENGINE_ID, NextEpochData(NextEpochDescriptor(
                            [(DEV_AUTHORITY, DEV_AUTHORITY_WEIGHT)], epoch.randomness)))
            && NextEpochAnnouncements(logs) == [logs[1].log.next]
  {
  }

  /** A successful digest has two entries exactly when the claim failed. */
  lemma TwoEntriesIffFallback(p: BabeConsensusDataProvider, parent: Header, inherents: InherentMap,
                              slot: Slot, descriptor: EpochDescriptor, epoch: Epoch)
    requires BABE_INHERENT_IDENTIFIER in inherents && inherents[BABE_INHERENT_IDENTIFIER] == slot
    requires DescriptorLookup(p, parent, slot) == Ok(Some(descriptor))
    requires p.epochChanges.viableEpoch(descriptor, p.config) == Some(epoch)
    ensures |CreateDigest(p, parent, inherents).value.logs| == 2 <==> p.claimSlot(slot, epoch).None?
  {
  }

  /**
   * Without a descriptor, or with a descriptor that resolves to no viable epoch, the
   * digest fails with an invalid authority set; a failing lookup is reported as a string
   * error carrying the lookup's message.
   */
  lemma DigestFailsWithoutEpoch(p: BabeConsensusDataProvider, parent: Header, inherents: InherentMap,
                                slot: Slot)
    requires BABE_INHERENT_IDENTIFIER in inherents && inherents[BABE_INHERENT_IDENTIFIER] == slot
    ensures DescriptorLookup(p, parent, slot) == Ok(None) ==>
              CreateDigest(p, parent, inherents) == Err(InvalidAuthoritiesSet)
    ensures forall descriptor ::
              DescriptorLookup(p, parent, slot) == Ok(Some(descriptor)) &&
              p.epochChanges.viableEpoch(descriptor, p.config) == None ==>
              CreateDigest(p, parent, inherents) == Err(InvalidAuthoritiesSet)
    ensures DescriptorLookup(p, parent, slot).Err? ==>
              CreateDigest(p, parent, inherents) ==
              Err(StringError(CREATE_DIGEST_CONTEXT + DescriptorLookup(p, parent, slot).error))
  {
  }

  /**
   * For the same epoch-tree snapshot, parent and inherents, `create_digest` and
   * `append_block_import` resolve the same descriptor and fail for the same reasons, with
   * only the lookup-error message differing. Import needs no viable epoch, so a digest
   * failure does not imply an import failure, but a successful digest implies that import
   * stores the descriptor the digest was built from.
   */
  lemma DigestAndImportAgree(p: BabeConsensusDataProvider, parent: Header, inherents: InherentMap)
    ensures var c := ResolveDescriptor(p, parent, inherents, CREATE_DIGEST_CONTEXT);
            var a := ResolveDescriptor(p, parent, inherents, BLOCK_IMPORT_CONTEXT);
            && (c.Ok? <==> a.Ok?)
            && (c.Ok? ==> c.value == a.value)
            && (c.Err? && !c.error.StringError? ==> a == c)
            && (c.Err? && c.error.StringError? ==> a.Err? && a.error.StringError?)
    ensures CreateDigest(p, parent, inherents).Ok? ==>
              var a := ResolveDescriptor(p, parent, inherents, BLOCK_IMPORT_CONTEXT);
              a.Ok? && p.epochChanges.viableEpoch(a.value.1, p.config).Some?
    ensures ResolveDescriptor(p, parent, inherents, BLOCK_IMPORT_CONTEXT).Err? ==>
              CreateDigest(p, parent, inherents).Err?
  {
  }

  /**
   * The resolution `append_block_import` runs fails exactly as its source does: a missing
   * slot is an inherent error, no descriptor is an invalid authority set, and a failing
   * lookup is reported with "failed to fetch epoch data: " and the lookup's message.
   */
  lemma ImportFailsWithoutDescriptor(p: BabeConsensusDataProvider, parent: Header, inherents: InherentMap)
    ensures BABE_INHERENT_IDENTIFIER !in inherents ==>
              ResolveDescriptor(p, parent, inherents, BLOCK_IMPORT_CONTEXT) ==
              Err(Inherent(InherentMissing(BABE_INHERENT_IDENTIFIER)))
    ensures BABE_INHERENT_IDENTIFIER in inherents ==>
              var lookup := DescriptorLookup(p, parent, inherents[BABE_INHERENT_IDENTIFIER]);
              && (lookup == Ok(None) ==>
                    ResolveDescriptor(p, parent, inherents, BLOCK_IMPORT_CONTEXT) == Err(InvalidAuthoritiesSet))
              && (lookup.Err? ==>
                    ResolveDescriptor(p, parent, inherents, BLOCK_IMPORT_CONTEXT) ==
                    Err(StringError(BLOCK_IMPORT_CONTEXT + lookup.error)))
  {
  }

  /** The block-import parameters; `append_block_import` only touches `intermediates`. */
  class BlockImportParams {
    var postDigests: seq<DigestItem>
    var finalized: bool
    var intermediates: map<seq<char>, IntermediateValue>

    constructor (intermediates: map<seq<char>, IntermediateValue>)
      ensures this.intermediates == intermediates && postDigests == [] && !finalized
    {
      this.intermediates := intermediates;
      postDigests := [];
      finalized := false;
    }
  }

  /**
   * `append_block_import`: re-reads the slot and re-resolves the epoch descriptor, then
   * stores it as BABE's intermediate under INTERMEDIATE_KEY. On failure the map is left as
   * it was.
   */
  method AppendBlockImport(p: BabeConsensusDataProvider, parent: Header, params: BlockImportParams,
                           inherents: InherentMap) returns (r: Outcome<Error>)
    modifies params`intermediates
    ensures var res := ResolveDescriptor(p, parent, inherents, BLOCK_IMPORT_CONTEXT);
            res.Ok? ==>
              && r == Pass
              && params.intermediates ==
                   old(params.intermediates)[INTERMEDIATE_KEY := BabeIntermediate(res.value.1)]
    ensures var res := ResolveDescriptor(p, parent, inherents, BLOCK_IMPORT_CONTEXT);
            res.Err? ==> r == Fail(res.error) && params.intermediates == old(params.intermediates)
    ensures BABE_INHERENT_IDENTIFIER !in inherents ==>
              r == Fail(Inherent(InherentMissing(BABE_INHERENT_IDENTIFIER))) &&
              params.intermediates == old(params.intermediates)
    ensures BABE_INHERENT_IDENTIFIER in inherents ==>
              var lookup := DescriptorLookup(p, parent, inherents[BABE_INHERENT_IDENTIFIER]);
              && (lookup == Ok(None) ==>
                    r == Fail(InvalidAuthoritiesSet) && params.intermediates == old(params.intermediates))
              && (lookup.Err? ==>
                    r == Fail(StringError(BLOCK_IMPORT_CONTEXT + lookup.error)) &&
                    params.intermediates == old(params.intermediates))
              && (lookup.Ok? && lookup.value.Some? ==>
                    r == Pass && INTERMEDIATE_KEY in params.intermediates &&
                    params.intermediates[INTERMEDIATE_KEY] == BabeIntermediate(lookup.value.value))
    ensures forall k :: k != INTERMEDIATE_KEY ==>
              (k in params.intermediates <==> k in old(params.intermediates)) &&
              (k in params.intermediates ==> params.intermediates[k] == old(params.intermediates)[k])
  {
    var res := ResolveDescriptor(p, parent, inherents, BLOCK_IMPORT_CONTEXT);
    match res
    case Err(e) =>
      r := Fail(e);
    case Ok((_, descriptor)) =>
      params.intermediates := params.intermediates[INTERMEDIATE_KEY := BabeIntermediate(descriptor)];
      r := Pass;
  }
}
