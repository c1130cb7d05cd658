/** Which updates the light client accepts: in an honest world, exactly the genuine ones. */
module ClientAcceptance {
  import opened Common
  import opened Participation
  import opened LightClient
  import opened BeaconChain
  import opened ClientRuns

  /** The content of an update is genuine and in order for the store: signed, with the
      finalized header and block roots of the chain and, where it brings a committee, the true
      one in time. Its branches are not looked at. */
  ghost predicate Genuine(k: Crypto, t: Chain, s: State, u: Update) {
    && Latest(s).Some? && InOrder(Latest(s).value.slot, s.next.Some?, u)
    && Signed(k, t, u.attested, u.votes, u.signatureSlot, u.signature)
    && k.headerRoot(u.finalized) == Some(t.finalizedRoot(u.attested))
    && u.blockRootsRoot == t.blockRoots(u.finalized)
    && GenuineNext(k, t, s.next.Some?, Period(Latest(s).value.slot), u)
  }

  ghost predicate GenuineNext(k: Crypto, t: Chain, nextKnown: bool, store: nat, u: Update) {
    u.next.Some? ==>
      && u.next.value.committee == t.committee(Period(u.attested.slot) + 1)
      && k.prepare(u.next.value.committee).Some?
      && (!nextKnown ==> Period(u.finalized.slot) == store)
  }

  function WithBranches(u: Update, finality: Branch, blockRoots: Branch, next: Branch): (r: Update) {
    var brought := if u.next.Some? then Some(u.next.value.(branch := next)) else None;
    u.(finalityBranch := finality, blockRootsBranch := blockRoots, next := brought)
  }

  // ---- Why an update is rejected ----

  /** The check that each error stands for has failed. */
  ghost predicate Failed(cfg: Config, k: Crypto, s: State, u: Update, e: Error) {
    var a, f := u.attested, u.finalized;
    var latest := if Latest(s).Some? then Latest(s).value.slot else 0;
    var store, signing := Period(latest), Period(u.signatureSlot);
    match e
    case SyncCommitteeParticipantsNotSupermajority => 3 * SumOf(u.votes, 512) < 1024
    case InvalidUpdateSlot => u.signatureSlot <= a.slot || a.slot < f.slot
    case NotBootstrapped => Latest(s).None?
    case SkippedSyncCommitteePeriod => signing != store && !(s.next.Some? && signing == store + 1)
    case IrrelevantUpdate => a.slot <= latest && !(s.next.None? && u.next.Some? && Period(a.slot) == store)
    case InvalidFinalizedHeaderGap => f.slot > latest + 8192
    case InvalidHeaderMerkleProof =>
      k.headerRoot(f).Some? &&
      !k.provesField(k.headerRoot(f).value, u.finalityBranch, FinalizedRootIndex(cfg, a.slot), a.stateRoot)
    case InvalidBlockRootsRootMerkleProof =>
      !k.provesField(u.blockRootsRoot, u.blockRootsBranch, BlockRootsIndex(cfg, f.slot), f.stateRoot)
    case SyncCommitteeUpdateRequired => u.next.None? && Period(f.slot) != store
    case SyncCommitteeHashTreeRootFailed => u.next.Some? && k.committeeRoot(u.next.value.committee).None?
    case InvalidSyncCommitteeUpdate =>
      u.next.Some? && s.next.Some? && k.committeeRoot(u.next.value.committee) != Some(s.next.value.root)
    case InvalidSyncCommitteeMerkleProof =>
      u.next.Some? && k.committeeRoot(u.next.value.committee).Some? &&
      !k.provesField(k.committeeRoot(u.next.value.committee).value, u.next.value.branch,
                     NextCommitteeIndex(cfg, a.slot), a.stateRoot)
    case BLSVerificationFailed =>
      var p := if signing == store || s.next.None? then s.current else s.next.value;
      var message := k.signingRoot(a, s.validatorsRoot, u.signatureSlot);
      message.Ok? && !k.verifies(p.aggregate, Selected(u.votes, p.pubkeys, false), message.value, u.signature)
    case _ => k.headerRoot(f).None? || k.signingRoot(a, s.validatorsRoot, u.signatureSlot) == Err(e)
  }

  /** A rejection names a check that failed, and nothing of the store changes. */
  lemma RejectionReason(cfg: Config, k: Crypto, s: State, u: Update, evict: set<Hash>)
    requires Verify(cfg, k, s, u).Fail? && !s.halted
    ensures Submit(cfg, k, s, u, evict) == Err(Verify(cfg, k, s, u).error)
    ensures
      var e := Verify(cfg, k, s, u).error;
      Failed(cfg, k, s, u, e) || k.signingRoot(u.attested, s.validatorsRoot, u.signatureSlot) == Err(e)
    ensures Step(cfg, k, s, SubmitUpdate(u, evict)) == s
  {
  }

  // ---- Accepted updates are genuine ----

  lemma AppliedNext(k: Crypto, s: State, u: Update, evict: set<Hash>)
    requires Apply(k, s, u, evict).Ok? && u.next.Some?
    ensures Latest(s).Some? && k.prepare(u.next.value.committee).Some?
    ensures s.next.None? ==> Period(u.finalized.slot) == Period(Latest(s).value.slot)
  {
  }

  lemma AcceptedIsGenuine(cfg: Config, k: Crypto, t: Chain, s: State, u: Update, evict: set<Hash>)
    requires Honest(cfg, k, t) && Sound(k, t, s) && Verify(cfg, k, s, u).Pass? && Apply(k, s, u, evict).Ok?
    ensures Genuine(k, t, s, u)
  {
    VerifiedInOrder(cfg, k, s, u);
    AttestedSigned(cfg, k, t, s, u);
    UpdateTrue(cfg, k, t, s, u);
    if u.next.Some? {
      AppliedNext(k, s, u, evict);
    }
  }

  // ---- Genuine updates are accepted ----

  lemma BranchOf(k: Crypto, root: Hash, gindex: nat, x: Hash) returns (b: Branch)
    requires Holds(k, root, gindex, x)
    ensures k.provesField(x, b, gindex, root)
  {
    b :| k.provesField(x, b, gindex, root);
  }

  /** The branches of the update prove what it carries. */
  ghost predicate Proven(cfg: Config, k: Crypto, u: Update) {
    var a, f := u.attested, u.finalized;
    && k.headerRoot(f).Some?
    && k.provesField(k.headerRoot(f).value, u.finalityBranch, FinalizedRootIndex(cfg, a.slot), a.stateRoot)
    && k.provesField(u.blockRootsRoot, u.blockRootsBranch, BlockRootsIndex(cfg, f.slot), f.stateRoot)
    && (u.next.Some? ==>
          var root := k.committeeRoot(u.next.value.committee);
          root.Some? && k.provesField(root.value, u.next.value.branch, NextCommitteeIndex(cfg, a.slot), a.stateRoot))
  }

  lemma GenuineProvable(cfg: Config, k: Crypto, t: Chain, u: Update)
    returns (finality: Branch, roots: Branch, next: Branch)
    requires HonestState(cfg, k, t, u.attested) && HonestState(cfg, k, t, u.finalized)
    requires k.headerRoot(u.finalized) == Some(t.finalizedRoot(u.attested))
    requires u.blockRootsRoot == t.blockRoots(u.finalized)
    requires u.next.Some? ==> u.next.value.committee == t.committee(Period(u.attested.slot) + 1)
    ensures Proven(cfg, k, WithBranches(u, finality, roots, next))
  {
    var a, f := u.attested, u.finalized;
    finality := BranchOf(k, a.stateRoot, FinalizedRootIndex(cfg, a.slot), t.finalizedRoot(a));
    roots := BranchOf(k, f.stateRoot, BlockRootsIndex(cfg, f.slot), t.blockRoots(f));
    next := [];
    if u.next.Some? {
      var root := k.committeeRoot(u.next.value.committee).value;
      next := BranchOf(k, a.stateRoot, NextCommitteeIndex(cfg, a.slot), root);
    }
  }

  lemma ProvenCommittee(cfg: Config, k: Crypto, t: Chain, store: nat, next: Option<Prepared>, u: Update)
    requires PreparedRoots(k) && Proven(cfg, k, u) && GenuineNext(k, t, next.Some?, store, u)
    requires next.Some? ==> k.prepare(t.committee(store + 1)) == next
    requires u.next.None? ==> Period(u.finalized.slot) == store
    ensures CommitteeProof(cfg, k, store, next, u).Pass?
  {
  }

  lemma GenuineSigning(k: Crypto, t: Chain, s: State, u: Update, latest: Slot)
    requires Signed(k, t, u.attested, u.votes, u.signatureSlot, u.signature) && InOrder(latest, s.next.Some?, u)
    requires CommitteesFor(k, t, s.current, s.next, Period(latest))
    ensures
      var same := Period(u.signatureSlot) == Period(latest);
      Signing(k, if same then s.current else NextOrDefault(s), t.validatorsRoot, u).Pass?
  {
  }

  lemma GenuineVerifies(cfg: Config, k: Crypto, t: Chain, s: State, u: Update)
    requires PreparedRoots(k) && Genuine(k, t, s, u) && Proven(cfg, k, u) && s.validatorsRoot == t.validatorsRoot
    requires CommitteesFor(k, t, s.current, s.next, Period(Latest(s).value.slot))
    ensures Verify(cfg, k, s, u).Pass?
  {
    var latest := Latest(s).value.slot;
    assert Timely(latest, s.next.Some?, u).Pass?;
    assert Finality(cfg, k, u).Pass?;
    ProvenCommittee(cfg, k, t, Period(latest), s.next, u);
    GenuineSigning(k, t, s, u, latest);
  }

  lemma GenuineApplies(k: Crypto, t: Chain, s: State, u: Update, evict: set<Hash>)
    requires Genuine(k, t, s, u)
    ensures Apply(k, s, u, evict).Ok?
  {
  }

  lemma GenuineAlike(k: Crypto, t: Chain, s: State, u: Update, finality: Branch, roots: Branch, next: Branch)
    ensures Genuine(k, t, s, WithBranches(u, finality, roots, next)) <==> Genuine(k, t, s, u)
  {
  }

  lemma ProvenIsAccepted(cfg: Config, k: Crypto, t: Chain, s: State, u: Update, evict: set<Hash>)
    requires PreparedRoots(k) && Sound(k, t, s) && Genuine(k, t, s, u) && Proven(cfg, k, u) && !s.halted
    ensures Submit(cfg, k, s, u, evict).Ok?
  {
    GenuineVerifies(cfg, k, t, s, u);
    GenuineApplies(k, t, s, u, evict);
  }

  lemma GenuineStates(cfg: Config, k: Crypto, t: Chain, u: Update)
    requires Honest(cfg, k, t) && Signed(k, t, u.attested, u.votes, u.signatureSlot, u.signature)
    requires k.headerRoot(u.finalized) == Some(t.finalizedRoot(u.attested))
    ensures HonestState(cfg, k, t, u.attested) && HonestState(cfg, k, t, u.finalized)
  {
    SignedIsCanonical(k, t, u.attested, u.votes, u.signatureSlot, u.signature);
    assert HonestState(cfg, k, t, u.attested);
    assert Canonical(t, u.finalized);
  }

  lemma GenuineBranches(cfg: Config, k: Crypto, t: Chain, s: State, u: Update) returns (r: Update)
    requires Honest(cfg, k, t) && Genuine(k, t, s, u)
    ensures Proven(cfg, k, r) && Genuine(k, t, s, r)
    ensures exists finality, roots, next :: r == WithBranches(u, finality, roots, next)
  {
    GenuineStates(cfg, k, t, u);
    var finality, roots, next := GenuineProvable(cfg, k, t, u);
    r := WithBranches(u, finality, roots, next);
    GenuineAlike(k, t, s, u, finality, roots, next);
  }

  /** In every reachable store that is not halted there are branches with which an update is
      accepted if and only if it is genuine. */
  lemma AcceptedIffGenuine(cfg: Config, k: Crypto, t: Chain, ops: seq<Op>, u: Update, evict: set<Hash>)
    requires Honest(cfg, k, t) && AllTrusted(t, ops) && !Reached(cfg, k, ops).halted
    ensures
      var s := Reached(cfg, k, ops);
      (exists finality, roots, next :: Submit(cfg, k, s, WithBranches(u, finality, roots, next), evict).Ok?)
      <==> Genuine(k, t, s, u)
  {
    var s := Reached(cfg, k, ops);
    ReachedSound(cfg, k, t, ops);
    if Genuine(k, t, s, u) {
      var r := GenuineBranches(cfg, k, t, s, u);
      ProvenIsAccepted(cfg, k, t, s, r, evict);
    }
    forall finality, roots, next | Submit(cfg, k, s, WithBranches(u, finality, roots, next), evict).Ok?
      ensures Genuine(k, t, s, u)
    {
      AcceptedIsGenuine(cfg, k, t, s, WithBranches(u, finality, roots, next), evict);
      GenuineAlike(k, t, s, u, finality, roots, next);
    }
  }
}
