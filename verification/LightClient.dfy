/**
 The beacon light client as a state machine on values: checkpoint, update verification and
 application, and the verification of execution headers against stored finalized states.

 Hashing, Merkle branches and BLS are function values collected in `Crypto`; nothing is
 assumed about them here.
 */
module LightClient {
  import opened Common
  import opened Participation

  const MAX_U64: nat := 0xFFFF_FFFF_FFFF_FFFF
  const SLOTS_PER_HISTORICAL_ROOT: nat := 8192
  const BLOCK_ROOT_AT_INDEX_DEPTH: nat := 13

  type Slot = s: nat | s <= 0xFFFF_FFFF_FFFF_FFFF
  type Hash = nat
  type Signature = nat
  type Branch = seq<Hash>

  // A sync committee has 512 members.
  type Votes = b: seq<Bit> | |b| == 512 witness seq(512, _ => 0)

  datatype Header = Header(slot: Slot, proposer: nat, parentRoot: Hash, stateRoot: Hash, bodyRoot: Hash)
  datatype Committee = Committee(pubkeys: seq<Key>, aggregate: Key)
  datatype Prepared = Prepared(root: Hash, pubkeys: seq<Key>, aggregate: Key)
  datatype NextCommittee = NextCommittee(committee: Committee, branch: Branch)
  datatype ExecutionHeader = ExecutionHeader(parentHash: Hash, receiptsRoot: Hash, rest: seq<nat>)

  datatype Update = Update(
    attested: Header, votes: Votes, signature: Signature, signatureSlot: Slot, next: Option<NextCommittee>,
    finalized: Header, finalityBranch: Branch, blockRootsRoot: Hash, blockRootsBranch: Branch)

  datatype Checkpoint = Checkpoint(
    header: Header, committee: Committee, committeeBranch: Branch, validatorsRoot: Hash,
    blockRootsRoot: Hash, blockRootsBranch: Branch)

  datatype Ancestry = Ancestry(branch: Branch, finalizedRoot: Hash)
  datatype ExecutionProof = ExecutionProof(
    header: Header, ancestry: Option<Ancestry>, execution: ExecutionHeader, branch: Branch)

  datatype Error =
    | SkippedSyncCommitteePeriod | SyncCommitteeUpdateRequired | IrrelevantUpdate | NotBootstrapped
    | SyncCommitteeParticipantsNotSupermajority | InvalidHeaderMerkleProof | InvalidSyncCommitteeMerkleProof
    | InvalidExecutionHeaderProof | InvalidAncestryMerkleProof | InvalidBlockRootsRootMerkleProof
    | InvalidFinalizedHeaderGap | HeaderNotFinalized | BlockBodyHashTreeRootFailed | HeaderHashTreeRootFailed
    | SyncCommitteeHashTreeRootFailed | SigningRootHashTreeRootFailed | ForkDataHashTreeRootFailed
    | ExpectedFinalizedHeaderNotStored | BLSPreparePublicKeysFailed | BLSVerificationFailed | InvalidUpdateSlot
    | InvalidSyncCommitteeUpdate | Halted

  datatype Check = Pass | Fail(error: Error)
  datatype Result<T> = Ok(value: T) | Err(error: Error)

  /** The library code the client relies on. `provesField` is the branch check at a
      generalized index, `provesLeaf` the one at a leaf index and depth. */
  datatype Crypto = Crypto(
    headerRoot: Header -> Option<Hash>,
    committeeRoot: Committee -> Option<Hash>,
    executionRoot: ExecutionHeader -> Option<Hash>,
    prepare: Committee -> Option<Prepared>,
    signingRoot: (Header, Hash, Slot) -> Result<Hash>,
    provesField: (Hash, Branch, nat, Hash) -> bool,
    provesLeaf: (Hash, Branch, nat, nat, Hash) -> bool,
    verifies: (Key, seq<Key>, Hash, Signature) -> bool)

  datatype Config = Config(electraEpoch: nat)

  /** What the client keeps of a finalized beacon state. */
  datatype Compact = Compact(slot: Slot, blockRootsRoot: Hash)

  datatype Import = Import(root: Hash, slot: Slot)

  /** `imports` is the history of imported headers since the last checkpoint. */
  datatype State = State(
    checkpointRoot: Hash, latestRoot: Hash, states: map<Hash, Compact>, validatorsRoot: Hash,
    current: Prepared, next: Option<Prepared>, updatePeriod: nat, halted: bool, imports: seq<Import>)

  const GENESIS := State(0, 0, map[], 0, Prepared(0, [], 0), None, 0, false, [])

  // ---- Slots and indices ----

  function Epoch(slot: nat): (epoch: nat) {
    slot / 32
  }

  function Period(slot: nat): (period: nat) {
    slot / 32 / 256
  }

  function SaturatingAdd(a: Slot, b: nat): (r: Slot) {
    if a + b > MAX_U64 then MAX_U64 else a + b
  }

  function FinalizedRootIndex(cfg: Config, slot: nat): (gindex: nat) {
    if Epoch(slot) >= cfg.electraEpoch then 169 else 105
  }

  function CurrentCommitteeIndex(cfg: Config, slot: nat): (gindex: nat) {
    if Epoch(slot) >= cfg.electraEpoch then 86 else 54
  }

  function NextCommitteeIndex(cfg: Config, slot: nat): (gindex: nat) {
    if Epoch(slot) >= cfg.electraEpoch then 87 else 55
  }

  function BlockRootsIndex(cfg: Config, slot: nat): (gindex: nat) {
    if Epoch(slot) >= cfg.electraEpoch then 69 else 37
  }

  const EXECUTION_HEADER_INDEX: nat := 25

  // ---- Verifying an update ----

  function Require(condition: bool, error: Error): (c: Check) {
    if condition then Pass else Fail(error)
  }

  function Latest(s: State): (r: Option<Compact>) {
    if s.latestRoot in s.states then Some(s.states[s.latestRoot]) else None
  }

  /** The checks on slots and periods against the latest finalized slot. */
  function Timely(latest: Slot, nextKnown: bool, u: Update): (c: Check) {
    var store, signing := Period(latest), Period(u.signatureSlot);
    if !(if nextKnown then store <= signing <= store + 1 else signing == store) then Fail(SkippedSyncCommitteePeriod)
    else if !(u.attested.slot > latest || (!nextKnown && u.next.Some? && Period(u.attested.slot) == store)) then
      Fail(IrrelevantUpdate)
    else Require(SaturatingAdd(latest, SLOTS_PER_HISTORICAL_ROOT) >= u.finalized.slot, InvalidFinalizedHeaderGap)
  }

  /** The finalized header is in the attested state, the block roots in the finalized one. */
  function Finality(cfg: Config, k: Crypto, u: Update): (c: Check) {
    var a, f, root := u.attested, u.finalized, k.headerRoot(u.finalized);
    if root.None? then Fail(HeaderHashTreeRootFailed)
    else if !k.provesField(root.value, u.finalityBranch, FinalizedRootIndex(cfg, a.slot), a.stateRoot) then
      Fail(InvalidHeaderMerkleProof)
    else
      Require(k.provesField(u.blockRootsRoot, u.blockRootsBranch, BlockRootsIndex(cfg, f.slot), f.stateRoot),
              InvalidBlockRootsRootMerkleProof)
  }

  /** A committee in the update is the next one of the attested state. */
  function CommitteeProof(cfg: Config, k: Crypto, store: nat, next: Option<Prepared>, u: Update): (c: Check) {
    if u.next.None? then Require(Period(u.finalized.slot) == store, SyncCommitteeUpdateRequired)
    else
      var a, root := u.attested, k.committeeRoot(u.next.value.committee);
      if root.None? then Fail(SyncCommitteeHashTreeRootFailed)
      else if Period(a.slot) == store && next.Some? && root.value != next.value.root then
        Fail(InvalidSyncCommitteeUpdate)
      else
        Require(k.provesField(root.value, u.next.value.branch, NextCommitteeIndex(cfg, a.slot), a.stateRoot),
                InvalidSyncCommitteeMerkleProof)
  }

  /** The committee of the signature's period signed the attested header. */
  function Signing(k: Crypto, p: Prepared, validatorsRoot: Hash, u: Update): (c: Check) {
    var message := k.signingRoot(u.attested, validatorsRoot, u.signatureSlot);
    if message.Err? then Fail(message.error)
    else
      var absent := Selected(u.votes, p.pubkeys, false);
      Require(k.verifies(p.aggregate, absent, message.value, u.signature), BLSVerificationFailed)
  }

  /** The storage default where no next committee is stored. */
  function NextOrDefault(s: State): (p: Prepared) {
    if s.next.Some? then s.next.value else Prepared(0, [], 0)
  }

  function Verify(cfg: Config, k: Crypto, s: State, u: Update): (c: Check) {
    if !Supermajority(u.votes) then Fail(SyncCommitteeParticipantsNotSupermajority)
    else if !(u.signatureSlot > u.attested.slot >= u.finalized.slot) then Fail(InvalidUpdateSlot)
    else if Latest(s).None? then Fail(NotBootstrapped)
    else
      var latest := Latest(s).value.slot;
      var store := Period(latest);
      var timely := Timely(latest, s.next.Some?, u);
      var finality := Finality(cfg, k, u);
      var committee := CommitteeProof(cfg, k, store, s.next, u);
      if timely.Fail? then timely
      else if finality.Fail? then finality
      else if committee.Fail? then committee
      else Signing(k, if Period(u.signatureSlot) == store then s.current else NextOrDefault(s), s.validatorsRoot, u)
  }

  // ---- Changing the store ----

  /** Stores a finalized header; `evict` are the entries the ring map gives up for it. */
  function Store(k: Crypto, s: State, h: Header, blockRootsRoot: Hash, evict: set<Hash>): (r: Result<State>) {
    var root := k.headerRoot(h);
    if root.None? then Err(HeaderHashTreeRootFailed)
    else
      Ok(s.(states := (s.states - evict)[root.value := Compact(h.slot, blockRootsRoot)],
            latestRoot := root.value, imports := s.imports + [Import(root.value, h.slot)]))
  }

  /** Takes over the committee of a verified update. */
  function Rotated(k: Crypto, s: State, store: nat, u: Update): (r: Result<State>) {
    if u.next.None? then Ok(s)
    else
      var period := Period(u.finalized.slot);
      var prepared := k.prepare(u.next.value.committee);
      if prepared.None? then Err(BLSPreparePublicKeysFailed)
      else if s.next.None? then
        if period != store then Err(InvalidSyncCommitteeUpdate)
        else Ok(s.(next := Some(prepared.value), updatePeriod := period))
      else if period == store + 1 then
        Ok(s.(current := s.next.value, next := Some(prepared.value), updatePeriod := period))
      else Ok(s.(updatePeriod := period))
  }

  function Apply(k: Crypto, s: State, u: Update, evict: set<Hash>): (r: Result<State>) {
    if Latest(s).None? then Err(NotBootstrapped)
    else
      var latest := Latest(s).value.slot;
      var rotated := Rotated(k, s, Period(latest), u);
      if rotated.Err? then rotated
      else if u.finalized.slot > latest then Store(k, rotated.value, u.finalized, u.blockRootsRoot, evict)
      else rotated
  }

  function Submit(cfg: Config, k: Crypto, s: State, u: Update, evict: set<Hash>): (r: Result<State>) {
    if s.halted then Err(Halted)
    else if Verify(cfg, k, s, u).Fail? then Err(Verify(cfg, k, s, u).error)
    else Apply(k, s, u, evict)
  }

  function ForceCheckpoint(cfg: Config, k: Crypto, s: State, c: Checkpoint, evict: set<Hash>): (r: Result<State>) {
    var h, committeeRoot, headerRoot := c.header, k.committeeRoot(c.committee), k.headerRoot(c.header);
    var prepared := k.prepare(c.committee);
    if committeeRoot.None? then Err(SyncCommitteeHashTreeRootFailed)
    else if !k.provesField(committeeRoot.value, c.committeeBranch, CurrentCommitteeIndex(cfg, h.slot), h.stateRoot)
    then Err(InvalidSyncCommitteeMerkleProof)
    else if headerRoot.None? then Err(HeaderHashTreeRootFailed)
    else if !k.provesField(c.blockRootsRoot, c.blockRootsBranch, BlockRootsIndex(cfg, h.slot), h.stateRoot)
    then Err(InvalidBlockRootsRootMerkleProof)
    else if prepared.None? then Err(BLSPreparePublicKeysFailed)
    else
      Store(k, s.(current := prepared.value, next := None, checkpointRoot := headerRoot.value,
                  validatorsRoot := c.validatorsRoot, imports := []),
            c.header, c.blockRootsRoot, evict)
  }

  // ---- Runs ----

  datatype Op =
    | SubmitUpdate(update: Update, evict: set<Hash>)
    | SetCheckpoint(checkpoint: Checkpoint, evict: set<Hash>)
    | SetMode(halted: bool)

  /** A call that fails leaves the store as it was. */
  function Step(cfg: Config, k: Crypto, s: State, op: Op): (r: State) {
    var result :=
      match op
      case SubmitUpdate(u, evict) => Submit(cfg, k, s, u, evict)
      case SetCheckpoint(c, evict) => ForceCheckpoint(cfg, k, s, c, evict)
      case SetMode(halted) => Ok(s.(halted := halted));
    if result.Ok? then result.value else s
  }

  function Run(cfg: Config, k: Crypto, s: State, ops: seq<Op>): (r: State)
    decreases |ops|
  {
    if ops == [] then s else Run(cfg, k, Step(cfg, k, s, ops[0]), ops[1..])
  }

  // ---- Verifying an execution header ----

  /** The block root is in the block roots of a stored finalized state, at its slot. */
  function VerifyAncestry(k: Crypto, s: State, root: Hash, slot: Slot, a: Ancestry): (c: Check) {
    if a.finalizedRoot !in s.states then Fail(ExpectedFinalizedHeaderNotStored)
    else
      var state := s.states[a.finalizedRoot];
      if slot >= state.slot then Fail(HeaderNotFinalized)
      else
        Require(k.provesLeaf(root, a.branch, LeafIndex(slot), BLOCK_ROOT_AT_INDEX_DEPTH, state.blockRootsRoot),
                InvalidAncestryMerkleProof)
  }

  function LeafIndex(slot: nat): (index: nat) {
    SLOTS_PER_HISTORICAL_ROOT + slot % SLOTS_PER_HISTORICAL_ROOT
  }

  /** Without an ancestry proof the header itself has to be a stored finalized one. */
  function VerifyHeader(k: Crypto, s: State, root: Hash, slot: Slot, a: Option<Ancestry>): (c: Check) {
    if a.Some? then VerifyAncestry(k, s, root, slot, a.value)
    else Require(root in s.states && s.states[root].slot == slot, ExpectedFinalizedHeaderNotStored)
  }

  function VerifyExecution(k: Crypto, s: State, p: ExecutionProof): (c: Check) {
    var root, executionRoot := k.headerRoot(p.header), k.executionRoot(p.execution);
    if Latest(s).None? then Fail(NotBootstrapped)
    else if p.header.slot > Latest(s).value.slot then Fail(HeaderNotFinalized)
    else if root.None? then Fail(HeaderHashTreeRootFailed)
    else
      var header := VerifyHeader(k, s, root.value, p.header.slot, p.ancestry);
      if header.Fail? then header
      else if executionRoot.None? then Fail(BlockBodyHashTreeRootFailed)
      else
        Require(k.provesField(executionRoot.value, p.branch, EXECUTION_HEADER_INDEX, p.header.bodyRoot),
                InvalidExecutionHeaderProof)
  }
}
