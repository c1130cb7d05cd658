/** Which execution headers and which checkpoints the light client accepts in an honest world. */
module ClientProofs {
  import opened Common
  import opened Participation
  import opened LightClient
  import opened BeaconChain
  import opened ClientRuns
  import ClientAcceptance

  // ---- Execution headers ----

  /** The stored state of `finalizedRoot` is that of a header after `slot`, whose block root
      vector holds `root` at the slot's entry. */
  ghost predicate Recorded(k: Crypto, t: Chain, s: State, root: Hash, slot: Slot, finalizedRoot: Hash) {
    exists f :: RecordedBy(k, t, s, root, slot, finalizedRoot, f)
  }

  ghost predicate RecordedBy(k: Crypto, t: Chain, s: State, root: Hash, slot: Slot, finalizedRoot: Hash, f: Header) {
    && Canonical(t, f) && k.headerRoot(f) == Some(finalizedRoot) && finalizedRoot in s.states
    && slot < f.slot && t.blockRootAt(f, slot % SLOTS_PER_HISTORICAL_ROOT) == root
  }

  /** The content of an execution proof is right: a canonical header not later than the latest,
      with its own execution header, which is stored itself or recorded by the stored header it
      names. Its branches are not looked at. */
  ghost predicate Right(k: Crypto, t: Chain, s: State, p: ExecutionProof) {
    && Latest(s).Some? && Canonical(t, p.header) && p.header.slot <= Latest(s).value.slot
    && k.executionRoot(p.execution) == Some(t.execution(p.header))
    && k.headerRoot(p.header).Some?
    && var root := k.headerRoot(p.header).value;
    && match p.ancestry
       case None => root in s.states
       case Some(a) => Recorded(k, t, s, root, p.header.slot, a.finalizedRoot)
  }

  function WithProofs(p: ExecutionProof, ancestry: Branch, execution: Branch): (r: ExecutionProof) {
    var a := if p.ancestry.Some? then Some(p.ancestry.value.(branch := ancestry)) else None;
    p.(ancestry := a, branch := execution)
  }

  /** With no assumption: what an accepted proof hangs on is stored, and the slots fit. */
  lemma ExecutionAnchored(k: Crypto, s: State, p: ExecutionProof)
    requires VerifyExecution(k, s, p).Pass?
    ensures Latest(s).Some? && p.header.slot <= Latest(s).value.slot
    ensures
      match p.ancestry
      case None =>
        && k.headerRoot(p.header).Some? && k.headerRoot(p.header).value in s.states
        && s.states[k.headerRoot(p.header).value].slot == p.header.slot
      case Some(a) => a.finalizedRoot in s.states && p.header.slot < s.states[a.finalizedRoot].slot
  {
  }

  lemma LeafUnique(k: Crypto, root: Hash, index: nat, depth: nat, x: Hash, b: Branch, y: Hash)
    requires BranchesBind(k) && HoldsLeaf(k, root, index, depth, x) && k.provesLeaf(y, b, index, depth, root)
    ensures x == y
  {
  }

  lemma AcceptedRecorded(cfg: Config, k: Crypto, t: Chain, s: State, root: Hash, slot: Slot, a: Ancestry)
    requires Honest(cfg, k, t) && StatesSound(k, t, s.states) && VerifyAncestry(k, s, root, slot, a).Pass?
    ensures Recorded(k, t, s, root, slot, a.finalizedRoot)
  {
    var f :| StoredFrom(k, t, f, a.finalizedRoot, s.states[a.finalizedRoot]);
    var i := slot % SLOTS_PER_HISTORICAL_ROOT;
    assert HonestState(cfg, k, t, f);
    assert HoldsLeaf(k, t.blockRoots(f), LeafIndex(slot), BLOCK_ROOT_AT_INDEX_DEPTH, t.blockRootAt(f, i));
    LeafUnique(k, t.blockRoots(f), LeafIndex(slot), BLOCK_ROOT_AT_INDEX_DEPTH, t.blockRootAt(f, i), a.branch, root);
    assert RecordedBy(k, t, s, root, slot, a.finalizedRoot, f);
  }

  lemma RecordedAccepted(cfg: Config, k: Crypto, t: Chain, s: State, root: Hash, slot: Slot, finalizedRoot: Hash)
    returns (branch: Branch)
    requires Honest(cfg, k, t) && StatesSound(k, t, s.states) && Recorded(k, t, s, root, slot, finalizedRoot)
    ensures VerifyAncestry(k, s, root, slot, Ancestry(branch, finalizedRoot)).Pass?
  {
    var f :| RecordedBy(k, t, s, root, slot, finalizedRoot, f);
    assert HonestState(cfg, k, t, f);
    assert HoldsLeaf(k, t.blockRoots(f), LeafIndex(slot), BLOCK_ROOT_AT_INDEX_DEPTH, root);
    branch :| k.provesLeaf(root, branch, LeafIndex(slot), BLOCK_ROOT_AT_INDEX_DEPTH, t.blockRoots(f));
    ImportStored(k, t, s, Import(finalizedRoot, f.slot), f);
  }

  lemma PassedIsRight(cfg: Config, k: Crypto, t: Chain, ops: seq<Op>, p: ExecutionProof)
    requires Honest(cfg, k, t) && AllTrusted(t, ops) && VerifyExecution(k, Reached(cfg, k, ops), p).Pass?
    ensures Right(k, t, Reached(cfg, k, ops), p)
  {
    var s := Reached(cfg, k, ops);
    ReachedSound(cfg, k, t, ops);
    ExecutionSound(cfg, k, t, ops, p);
    if p.ancestry.Some? {
      AcceptedRecorded(cfg, k, t, s, k.headerRoot(p.header).value, p.header.slot, p.ancestry.value);
    }
  }

  /** A stored header was stored with its own slot. */
  lemma StoredSlot(k: Crypto, t: Chain, s: State, h: Header)
    requires RootsBind(k) && StatesSound(k, t, s.states) && Canonical(t, h)
    requires k.headerRoot(h).Some? && k.headerRoot(h).value in s.states
    ensures s.states[k.headerRoot(h).value].slot == h.slot
  {
    ImportStored(k, t, s, Import(k.headerRoot(h).value, h.slot), h);
  }

  lemma RightPasses(cfg: Config, k: Crypto, t: Chain, s: State, p: ExecutionProof)
    returns (ancestry: Branch, execution: Branch)
    requires Honest(cfg, k, t) && StatesSound(k, t, s.states) && Right(k, t, s, p)
    ensures VerifyExecution(k, s, WithProofs(p, ancestry, execution)).Pass?
  {
    var h, root := p.header, k.headerRoot(p.header).value;
    ancestry := [];
    if p.ancestry.Some? {
      ancestry := RecordedAccepted(cfg, k, t, s, root, h.slot, p.ancestry.value.finalizedRoot);
    } else {
      StoredSlot(k, t, s, h);
    }
    assert HonestState(cfg, k, t, h);
    execution := ClientAcceptance.BranchOf(k, h.bodyRoot, EXECUTION_HEADER_INDEX, t.execution(h));
  }

  /** In every reachable store there are branches with which an execution proof is accepted if
      and only if its content is right. */
  lemma ExecutionIffRight(cfg: Config, k: Crypto, t: Chain, ops: seq<Op>, p: ExecutionProof)
    requires Honest(cfg, k, t) && AllTrusted(t, ops)
    ensures
      var s := Reached(cfg, k, ops);
      (exists ancestry, execution :: VerifyExecution(k, s, WithProofs(p, ancestry, execution)).Pass?)
      <==> Right(k, t, s, p)
  {
    var s := Reached(cfg, k, ops);
    ReachedSound(cfg, k, t, ops);
    if Right(k, t, s, p) {
      var ancestry, execution := RightPasses(cfg, k, t, s, p);
    }
    forall ancestry, execution | VerifyExecution(k, s, WithProofs(p, ancestry, execution)).Pass?
      ensures Right(k, t, s, p)
    {
      PassedIsRight(cfg, k, t, ops, WithProofs(p, ancestry, execution));
    }
  }

  /** A header in the window of an imported header is recorded by it while that one is stored. */
  lemma CoveredIsRecorded(cfg: Config, k: Crypto, t: Chain, s: State, h: Header, i: Import)
    requires Honest(cfg, k, t) && ImportSound(k, t, i) && i.root in s.states
    requires Canonical(t, h) && Covers(i, h.slot)
    ensures k.headerRoot(h).Some? && Recorded(k, t, s, k.headerRoot(h).value, h.slot, i.root)
  {
    var f :| ImportOf(k, t, f, i);
    assert HonestState(cfg, k, t, f);
    assert RecordedBy(k, t, s, t.blockRootAt(f, h.slot % SLOTS_PER_HISTORICAL_ROOT), h.slot, i.root, f);
  }

  // ---- Checkpoints ----

  /** The content of a checkpoint belongs to its header's state. */
  ghost predicate GenuineCheckpoint(k: Crypto, t: Chain, c: Checkpoint) {
    && c.committee == t.committee(Period(c.header.slot)) && k.prepare(c.committee).Some?
    && k.headerRoot(c.header).Some? && c.blockRootsRoot == t.blockRoots(c.header)
  }

  /** For a canonical header there are branches with which a checkpoint is accepted, halted or
      not, if and only if it brings the committee and the block roots of that header. */
  lemma CheckpointIffGenuine(cfg: Config, k: Crypto, t: Chain, s: State, c: Checkpoint, evict: set<Hash>)
    requires Honest(cfg, k, t) && Canonical(t, c.header)
    ensures
      (exists committee, roots ::
         ForceCheckpoint(cfg, k, s, c.(committeeBranch := committee, blockRootsBranch := roots), evict).Ok?)
      <==> GenuineCheckpoint(k, t, c)
  {
    var h := c.header;
    assert HonestState(cfg, k, t, h);
    var truth := k.committeeRoot(t.committee(Period(h.slot))).value;
    if GenuineCheckpoint(k, t, c) {
      var committee := ClientAcceptance.BranchOf(k, h.stateRoot, CurrentCommitteeIndex(cfg, h.slot), truth);
      var roots := ClientAcceptance.BranchOf(k, h.stateRoot, BlockRootsIndex(cfg, h.slot), t.blockRoots(h));
      assert ForceCheckpoint(cfg, k, s, c.(committeeBranch := committee, blockRootsBranch := roots), evict).Ok?;
    }
    forall committee, roots
      | ForceCheckpoint(cfg, k, s, c.(committeeBranch := committee, blockRootsBranch := roots), evict).Ok?
      ensures GenuineCheckpoint(k, t, c)
    {
      var claimed := k.committeeRoot(c.committee).value;
      FieldUnique(k, h.stateRoot, CurrentCommitteeIndex(cfg, h.slot), truth, committee, claimed);
      FieldUnique(k, h.stateRoot, BlockRootsIndex(cfg, h.slot), t.blockRoots(h), roots, c.blockRootsRoot);
    }
  }
}
