/**
 A chain and a cryptography that meet every assumption of BeaconChain, so that the guarantees
 of ClientRuns are about something; and the liveness of the client in that world.

 The chain has a header at every slot. The header at slot n has the state root n, the body
 root n and the header root n + 1, and no other header has a root.
 */
module HonestWorld {
  import opened Common
  import opened Participation
  import opened LightClient
  import opened BeaconChain
  import opened ClientRuns

  function HeaderAt(n: Slot): (h: Header) {
    Header(n, 0, n, n, n)
  }

  function CommitteeOf(period: nat): (c: Committee) {
    Committee([], period)
  }

  function HeaderRoot(h: Header): (r: Option<Hash>) {
    if h == HeaderAt(h.slot) then Some(h.slot + 1) else None
  }

  /** The finalized header is two epochs behind. */
  function FinalizedSlot(n: nat): (f: nat) {
    if n < 64 then 0 else n - 64
  }

  /** The root at index `i` of the block root vector in state `n`, zero if unset. */
  function BlockRoot(n: nat, i: nat): (r: Hash) {
    var slot := n - 1 - (n - 1 - i) % SLOTS_PER_HISTORICAL_ROOT;
    if slot < 0 then 0 else slot + 1
  }

  function Field(gindex: nat, n: Hash): (x: Hash) {
    if gindex == 105 || gindex == 169 then FinalizedSlot(n) + 1
    else if gindex == 54 || gindex == 86 then Period(n)
    else if gindex == 55 || gindex == 87 then Period(n) + 1
    else n
  }

  function Library(): (k: Crypto) {
    Crypto(
      HeaderRoot,
      (c: Committee) => if c == CommitteeOf(c.aggregate) then Some(c.aggregate) else None,
      (e: ExecutionHeader) => Some(e.receiptsRoot),
      (c: Committee) => Some(Prepared(c.aggregate, c.pubkeys, c.aggregate)),
      (h: Header, validatorsRoot: Hash, slot: Slot) =>
        if HeaderRoot(h).Some? then Ok(HeaderRoot(h).value) else Err(HeaderHashTreeRootFailed),
      (x: Hash, b: Branch, gindex: nat, root: Hash) => x == Field(gindex, root),
      (x: Hash, b: Branch, index: nat, depth: nat, root: Hash) =>
        index >= SLOTS_PER_HISTORICAL_ROOT && x == BlockRoot(root, index - SLOTS_PER_HISTORICAL_ROOT),
      (aggregate: Key, absent: seq<Key>, message: Hash, signature: Signature) => true)
  }

  function AllVotes(): (votes: Votes) {
    seq(512, _ => 1)
  }

  function World(): (t: Chain) {
    Chain(
      (n: Slot) => Some(HeaderAt(n)),
      CommitteeOf,
      0,
      (h: Header) => FinalizedSlot(h.slot) + 1,
      (h: Header) => h.slot,
      (h: Header, i: nat) => BlockRoot(h.slot, i),
      (h: Header) => h.slot,
      (period: nat) => AllVotes(),
      (period: nat, i: nat, h: Header) => HeaderRoot(h).Some?)
  }

  lemma RootsAreCanonical(root: Hash)
    ensures RootOfCanonical(Library(), World(), root)
  {
  }

  lemma WindowRoots(n: nat, slot: nat)
    requires slot < n <= slot + SLOTS_PER_HISTORICAL_ROOT
    ensures BlockRoot(n, slot % SLOTS_PER_HISTORICAL_ROOT) == slot + 1
  {
  }

  lemma BlockRootsHonest(h: Header)
    requires Canonical(World(), h)
    ensures HonestBlockRoots(Library(), World(), h)
  {
    var k, t := Library(), World();
    forall i | 0 <= i < SLOTS_PER_HISTORICAL_ROOT
      ensures HoldsLeaf(k, t.blockRoots(h), SLOTS_PER_HISTORICAL_ROOT + i, BLOCK_ROOT_AT_INDEX_DEPTH,
                        t.blockRootAt(h, i))
      ensures RootOfCanonical(k, t, t.blockRootAt(h, i))
    {
      assert k.provesLeaf(t.blockRootAt(h, i), [], SLOTS_PER_HISTORICAL_ROOT + i, BLOCK_ROOT_AT_INDEX_DEPTH,
                          t.blockRoots(h));
      RootsAreCanonical(t.blockRootAt(h, i));
    }
    forall b | Canonical(t, b) && b.slot < h.slot <= b.slot + SLOTS_PER_HISTORICAL_ROOT
      ensures k.headerRoot(b) == Some(t.blockRootAt(h, b.slot % SLOTS_PER_HISTORICAL_ROOT))
    {
      WindowRoots(h.slot, b.slot);
    }
  }

  lemma FieldHolds(root: Hash, gindex: nat)
    ensures Holds(Library(), root, gindex, Field(gindex, root))
  {
    assert Library().provesField(Field(gindex, root), [], gindex, root);
  }

  lemma StateHonest(cfg: Config, h: Header)
    requires Canonical(World(), h)
    ensures HonestState(cfg, Library(), World(), h)
  {
    FieldHolds(h.slot, FinalizedRootIndex(cfg, h.slot));
    FieldHolds(h.slot, CurrentCommitteeIndex(cfg, h.slot));
    FieldHolds(h.slot, NextCommitteeIndex(cfg, h.slot));
    FieldHolds(h.slot, BlockRootsIndex(cfg, h.slot));
    FieldHolds(h.slot, EXECUTION_HEADER_INDEX);
    RootsAreCanonical(FinalizedSlot(h.slot) + 1);
    BlockRootsHonest(h);
  }

  lemma {:induction false} AllVotesCount(n: nat)
    requires n <= 512
    ensures SumOf(AllVotes(), n) == n
    decreases n
  {
    if n > 0 {
      AllVotesCount(n - 1);
    }
  }

  /** The assumptions of the soundness theorems can be met together. */
  lemma AssumptionsHold(cfg: Config)
    ensures Honest(cfg, Library(), World())
  {
    AllVotesCount(512);
    forall h | Canonical(World(), h) ensures HonestState(cfg, Library(), World(), h) {
      StateHonest(cfg, h);
    }
  }

  function CheckpointAt(n: Slot): (c: Checkpoint) {
    Checkpoint(HeaderAt(n), CommitteeOf(Period(n)), [], 0, n, [])
  }

  /** An update with every vote cast, attested and signed right after the finalized header
      became final. */
  function UpdateTo(n: Slot): (u: Update)
    requires n + 65 <= MAX_U64
  {
    Update(HeaderAt(n + 64), AllVotes(), 0, n + 65, Some(NextCommittee(CommitteeOf(Period(n + 64) + 1), [])),
           HeaderAt(n), [], n, [])
  }

  ghost predicate StartsAt(s: State, n: Slot) {
    && Latest(s) == Some(Compact(n, n)) && |s.imports| == 1 && !s.halted && s.next.None?
    && s.current == Prepared(Period(n), [], Period(n)) && s.validatorsRoot == 0
  }

  lemma CheckpointAccepted(cfg: Config, n: Slot)
    ensures
      var r := ForceCheckpoint(cfg, Library(), GENESIS, CheckpointAt(n), {});
      r.Ok? && StartsAt(r.value, n)
  {
  }

  lemma UpdateAccepted(cfg: Config, s: State, from: Slot, to: Slot)
    requires StartsAt(s, from) && from < to && to + 65 <= MAX_U64 && Period(to + 65) == Period(from)
    ensures
      var r := Submit(cfg, Library(), s, UpdateTo(to), {});
      r.Ok? && Latest(r.value) == Some(Compact(to, to)) && |r.value.imports| == 2 && r.value.next.Some?
  {
    AllVotesCount(512);
    PeriodMonotone(from, to);
    PeriodMonotone(to, to + 64);
    PeriodMonotone(to + 64, to + 65);
    assert Verify(cfg, Library(), s, UpdateTo(to)).Pass?;
  }

  /** From a checkpoint the client follows this chain: an update to any later header that is
      attested and signed in the checkpoint's period is accepted and becomes the latest. */
  lemma ClientFollows(cfg: Config, from: Slot, to: Slot)
    requires from < to && to + 65 <= MAX_U64 && Period(to + 65) == Period(from)
    ensures
      var ops := [SetCheckpoint(CheckpointAt(from), {}), SubmitUpdate(UpdateTo(to), {})];
      var s := Reached(cfg, Library(), ops);
      && AllTrusted(World(), ops)
      && Latest(s) == Some(Compact(to, to)) && |s.imports| == 2 && s.next.Some?
  {
    var first, second := SetCheckpoint(CheckpointAt(from), {}), SubmitUpdate(UpdateTo(to), {});
    var s := Step(cfg, Library(), GENESIS, first);
    CheckpointAccepted(cfg, from);
    UpdateAccepted(cfg, s, from, to);
    assert [first, second][1..] == [second] && [second][1..] == [];
    assert Run(cfg, Library(), s, [second]) == Step(cfg, Library(), s, second);
  }
}
