/**
 The beacon chain the light client follows, and what is assumed about it: that hashes and
 branches are binding, that canonical states hold what the protocol puts there, and that two
 thirds of a sync committee sign canonical headers only.
 */
module BeaconChain {
  import opened Common
  import opened Participation
  import opened LightClient

  /** `finalizedRoot`, `blockRoots` and `blockRootAt` are fields of a header's state, and
      `execution` is the execution header root in its body. `faithful` are the members of a
      period's committee that follow the protocol, and `endorsed` says whether the member at a
      position ever signed a header. */
  datatype Chain = Chain(
    headerAt: Slot -> Option<Header>,
    committee: nat -> Committee,
    validatorsRoot: Hash,
    finalizedRoot: Header -> Hash,
    blockRoots: Header -> Hash,
    blockRootAt: (Header, nat) -> Hash,
    execution: Header -> Hash,
    faithful: nat -> Votes,
    endorsed: (nat, nat, Header) -> bool)

  predicate Canonical(t: Chain, h: Header) {
    t.headerAt(h.slot) == Some(h)
  }

  // ---- Binding ----

  ghost predicate RootsBind(k: Crypto) {
    && (forall h, h' :: k.headerRoot(h).Some? && k.headerRoot(h) == k.headerRoot(h') ==> h == h')
    && (forall c, c' :: k.committeeRoot(c).Some? && k.committeeRoot(c) == k.committeeRoot(c') ==> c == c')
  }

  ghost predicate BranchesBind(k: Crypto) {
    && (forall x, x', b, b', gindex, root ::
          k.provesField(x, b, gindex, root) && k.provesField(x', b', gindex, root) ==> x == x')
    && (forall x, x', b, b', index, depth, root ::
          k.provesLeaf(x, b, index, depth, root) && k.provesLeaf(x', b', index, depth, root) ==> x == x')
  }

  /** A prepared committee keeps the root of the committee. */
  ghost predicate PreparedRoots(k: Crypto) {
    forall c :: k.prepare(c).Some? && k.committeeRoot(c).Some? ==> k.prepare(c).value.root == k.committeeRoot(c).value
  }

  ghost predicate Binding(k: Crypto) {
    RootsBind(k) && BranchesBind(k) && PreparedRoots(k)
  }

  // ---- Canonical states ----

  ghost predicate Holds(k: Crypto, root: Hash, gindex: nat, x: Hash) {
    exists b :: k.provesField(x, b, gindex, root)
  }

  ghost predicate HoldsCommittee(k: Crypto, root: Hash, gindex: nat, c: Committee) {
    k.committeeRoot(c).Some? && Holds(k, root, gindex, k.committeeRoot(c).value)
  }

  /** Whatever header has this root is canonical. The zero hash of an unset field is the root
      of no header. */
  ghost predicate RootOfCanonical(k: Crypto, t: Chain, root: Hash) {
    forall h :: k.headerRoot(h) == Some(root) ==> Canonical(t, h)
  }

  ghost predicate HoldsLeaf(k: Crypto, root: Hash, index: nat, depth: nat, x: Hash) {
    exists b :: k.provesLeaf(x, b, index, depth, root)
  }

  /** The block root vector of a state: every entry belongs to the chain, and the entry of each
      of the last slots is the root of the header at that slot. */
  ghost predicate HonestBlockRoots(k: Crypto, t: Chain, h: Header) {
    && (forall i | 0 <= i < SLOTS_PER_HISTORICAL_ROOT ::
          && HoldsLeaf(k, t.blockRoots(h), SLOTS_PER_HISTORICAL_ROOT + i, BLOCK_ROOT_AT_INDEX_DEPTH,
                       t.blockRootAt(h, i))
          && RootOfCanonical(k, t, t.blockRootAt(h, i)))
    && (forall b | Canonical(t, b) && b.slot < h.slot <= b.slot + SLOTS_PER_HISTORICAL_ROOT ::
          k.headerRoot(b) == Some(t.blockRootAt(h, b.slot % SLOTS_PER_HISTORICAL_ROOT)))
  }

  ghost predicate HonestState(cfg: Config, k: Crypto, t: Chain, h: Header) {
    && Holds(k, h.stateRoot, FinalizedRootIndex(cfg, h.slot), t.finalizedRoot(h))
    && RootOfCanonical(k, t, t.finalizedRoot(h))
    && HoldsCommittee(k, h.stateRoot, CurrentCommitteeIndex(cfg, h.slot), t.committee(Period(h.slot)))
    && HoldsCommittee(k, h.stateRoot, NextCommitteeIndex(cfg, h.slot), t.committee(Period(h.slot) + 1))
    && Holds(k, h.stateRoot, BlockRootsIndex(cfg, h.slot), t.blockRoots(h))
    && Holds(k, h.bodyRoot, EXECUTION_HEADER_INDEX, t.execution(h))
    && HonestBlockRoots(k, t, h)
  }

  // ---- Signatures ----

  /** The aggregate signature of `votes` for `h` verifies against the committee of its period. */
  ghost predicate Signed(k: Crypto, t: Chain, h: Header, votes: Votes, slot: Slot, signature: Signature) {
    var p, message := k.prepare(t.committee(Period(slot))), k.signingRoot(h, t.validatorsRoot, slot);
    && p.Some? && message.Ok? && Supermajority(votes)
    && k.verifies(p.value.aggregate, Selected(votes, p.value.pubkeys, false), message.value, signature)
  }

  /** A member whose vote counts in a valid signature did sign. */
  ghost predicate Unforgeable(k: Crypto, t: Chain) {
    forall h, votes: Votes, slot: Slot, signature, i: nat ::
      Signed(k, t, h, votes, slot, signature) && i < 512 && votes[i] == 1 ==> t.endorsed(Period(slot), i, h)
  }

  /** At most a third of a committee is not faithful, and faithful members sign canonical
      headers only. */
  ghost predicate FaithfulCommittees(t: Chain) {
    && (forall period: nat :: Supermajority(t.faithful(period)))
    && (forall period: nat, i: nat, h :: i < 512 && t.faithful(period)[i] == 1 && t.endorsed(period, i, h) ==>
          Canonical(t, h))
  }

  /** What the soundness of the client rests on. */
  ghost predicate Honest(cfg: Config, k: Crypto, t: Chain) {
    && Binding(k) && Unforgeable(k, t) && FaithfulCommittees(t)
    && (forall h | Canonical(t, h) :: HonestState(cfg, k, t, h))
  }

  /** A signature of two thirds holds the vote of a faithful member, so its header is canonical. */
  lemma SignedIsCanonical(k: Crypto, t: Chain, h: Header, votes: Votes, slot: Slot, signature: Signature)
    requires Unforgeable(k, t) && FaithfulCommittees(t) && Signed(k, t, h, votes, slot, signature)
    ensures Canonical(t, h)
  {
    var faithful := t.faithful(Period(slot));
    QuorumIntersection(votes, faithful);
    var i := InBoth(votes, faithful, 512)[0];
    assert t.endorsed(Period(slot), i, h);
  }
}
