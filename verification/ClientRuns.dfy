/** What every run of the light client guarantees. */
module ClientRuns {
  import opened Common
  import opened Participation
  import opened LightClient
  import opened BeaconChain

  // ---- What a verified update says ----

  ghost predicate InOrder(latest: Slot, nextKnown: bool, u: Update) {
    var store, signing := Period(latest), Period(u.signatureSlot);
    && u.signatureSlot > u.attested.slot >= u.finalized.slot
    && (signing == store || (nextKnown && signing == store + 1))
    && (u.attested.slot > latest || (!nextKnown && u.next.Some? && Period(u.attested.slot) == store))
    && u.finalized.slot <= latest + SLOTS_PER_HISTORICAL_ROOT
    && (u.next.None? ==> Period(u.finalized.slot) == store)
  }

  /** Periods follow slots. */
  lemma PeriodMonotone(a: nat, b: nat)
    requires a <= b
    ensures Period(a) <= Period(b)
  {
  }

  /** A period has as many slots as the block root vector has entries. */
  lemma PeriodLength(slot: nat, i: nat)
    requires i < SLOTS_PER_HISTORICAL_ROOT
    ensures Period(slot * SLOTS_PER_HISTORICAL_ROOT + i) == slot
    ensures Epoch(slot * 32 + i % 32) == slot
  {
    assert (slot * 8192 + i) / 32 == slot * 256 + i / 32;
  }

  /** The generalized indices are the positions of the fields in the states, which have at most
      32 fields before Electra and at most 64 since, and in the block body. Block roots are
      field 5, the finalized checkpoint field 20, whose root is its second child, and the sync
      committees fields 22 and 23; the execution payload is field 9 of the body. */
  lemma IndicesAreFields(cfg: Config, slot: nat)
    ensures
      var leaves := if slot / 32 < cfg.electraEpoch then 32 else 64;
      && BlockRootsIndex(cfg, slot) == leaves + 5 && FinalizedRootIndex(cfg, slot) == 2 * (leaves + 20) + 1
      && CurrentCommitteeIndex(cfg, slot) == leaves + 22 && NextCommitteeIndex(cfg, slot) == leaves + 23
      && EXECUTION_HEADER_INDEX == 16 + 9 && SLOTS_PER_HISTORICAL_ROOT == Power(2, BLOCK_ROOT_AT_INDEX_DEPTH)
  {
    assert Power(2, 13) == 8192;
  }

  function Power(b: nat, n: nat): (r: nat) {
    if n == 0 then 1 else b * Power(b, n - 1)
  }

  lemma VerifiedInOrder(cfg: Config, k: Crypto, s: State, u: Update)
    requires Verify(cfg, k, s, u).Pass?
    ensures Latest(s).Some? && InOrder(Latest(s).value.slot, s.next.Some?, u) && Supermajority(u.votes)
    ensures Finality(cfg, k, u).Pass?
    ensures CommitteeProof(cfg, k, Period(Latest(s).value.slot), s.next, u).Pass?
    ensures
      var store := Period(Latest(s).value.slot);
      Signing(k, if Period(u.signatureSlot) == store then s.current else NextOrDefault(s), s.validatorsRoot, u).Pass?
  {
  }

  /** With no assumption: while the next committee is known, an update attested in the store's
      period brings that committee or none. */
  lemma KnownCommitteeStays(cfg: Config, k: Crypto, s: State, u: Update)
    requires Verify(cfg, k, s, u).Pass? && u.next.Some? && s.next.Some?
    requires Latest(s).Some? && Period(u.attested.slot) == Period(Latest(s).value.slot)
    ensures k.committeeRoot(u.next.value.committee) == Some(s.next.value.root)
  {
  }

  // ---- Soundness ----

  ghost predicate StoredFrom(k: Crypto, t: Chain, h: Header, root: Hash, st: Compact) {
    Canonical(t, h) && k.headerRoot(h) == Some(root) && st == Compact(h.slot, t.blockRoots(h))
  }

  /** A stored state is that of a canonical header with that root. */
  ghost predicate StoredSound(k: Crypto, t: Chain, root: Hash, st: Compact) {
    exists h :: StoredFrom(k, t, h, root, st)
  }

  ghost predicate StatesSound(k: Crypto, t: Chain, states: map<Hash, Compact>) {
    forall root :: root in states ==> StoredSound(k, t, root, states[root])
  }

  /** The committees are those of the given period and of the one after it. */
  ghost predicate CommitteesFor(k: Crypto, t: Chain, current: Prepared, next: Option<Prepared>, period: nat) {
    k.prepare(t.committee(period)) == Some(current) && (next.Some? ==> k.prepare(t.committee(period + 1)) == next)
  }

  ghost predicate ImportOf(k: Crypto, t: Chain, h: Header, i: Import) {
    Canonical(t, h) && k.headerRoot(h) == Some(i.root) && h.slot == i.slot
  }

  ghost predicate ImportSound(k: Crypto, t: Chain, i: Import) {
    exists h :: ImportOf(k, t, h, i)
  }

  ghost predicate ImportsSound(k: Crypto, t: Chain, imports: seq<Import>) {
    forall i :: 0 <= i < |imports| ==> ImportSound(k, t, imports[i])
  }

  ghost predicate Sound(k: Crypto, t: Chain, s: State) {
    && StatesSound(k, t, s.states) && ImportsSound(k, t, s.imports)
    && (s.states == map[] ||
        (Latest(s).Some? && s.validatorsRoot == t.validatorsRoot
         && CommitteesFor(k, t, s.current, s.next, Period(Latest(s).value.slot))))
  }

  /** The signature is checked against the committee of the signature slot's period. */
  lemma AttestedSigned(cfg: Config, k: Crypto, t: Chain, s: State, u: Update)
    requires Sound(k, t, s) && Verify(cfg, k, s, u).Pass?
    ensures Signed(k, t, u.attested, u.votes, u.signatureSlot, u.signature)
  {
  }

  lemma FieldUnique(k: Crypto, root: Hash, gindex: nat, x: Hash, b: Branch, y: Hash)
    requires BranchesBind(k) && Holds(k, root, gindex, x) && k.provesField(y, b, gindex, root)
    ensures x == y
  {
  }

  lemma FinalizedCanonical(cfg: Config, k: Crypto, t: Chain, u: Update)
    requires Honest(cfg, k, t) && Canonical(t, u.attested) && Finality(cfg, k, u).Pass?
    ensures Canonical(t, u.finalized) && u.blockRootsRoot == t.blockRoots(u.finalized)
    ensures k.headerRoot(u.finalized) == Some(t.finalizedRoot(u.attested))
  {
  }

  lemma NextCommitteeTrue(cfg: Config, k: Crypto, t: Chain, store: nat, next: Option<Prepared>, u: Update)
    requires Honest(cfg, k, t) && Canonical(t, u.attested) && u.next.Some?
    requires CommitteeProof(cfg, k, store, next, u).Pass?
    ensures u.next.value.committee == t.committee(Period(u.attested.slot) + 1)
  {
  }

  /** Rotation keeps the committees in step with the latest finalized slot. */
  lemma RotatedFor(k: Crypto, t: Chain, s: State, u: Update, latest: Slot)
    requires CommitteesFor(k, t, s.current, s.next, Period(latest)) && InOrder(latest, s.next.Some?, u)
    requires u.next.Some? ==> u.next.value.committee == t.committee(Period(u.attested.slot) + 1)
    requires Rotated(k, s, Period(latest), u).Ok?
    ensures
      var r := Rotated(k, s, Period(latest), u).value;
      CommitteesFor(k, t, r.current, r.next, Period(if u.finalized.slot > latest then u.finalized.slot else latest))
  {
  }

  lemma StoreSound(k: Crypto, t: Chain, s: State, h: Header, evict: set<Hash>)
    requires StatesSound(k, t, s.states) && ImportsSound(k, t, s.imports) && Canonical(t, h) && k.headerRoot(h).Some?
    ensures
      var r := Store(k, s, h, t.blockRoots(h), evict).value;
      && StatesSound(k, t, r.states) && ImportsSound(k, t, r.imports)
      && Latest(r) == Some(Compact(h.slot, t.blockRoots(h)))
  {
    var r := Store(k, s, h, t.blockRoots(h), evict).value;
    assert StoredFrom(k, t, h, r.latestRoot, r.states[r.latestRoot]);
    assert ImportOf(k, t, h, r.imports[|s.imports|]);
  }

  lemma AppliedSound(k: Crypto, t: Chain, s: State, u: Update, evict: set<Hash>)
    requires StatesSound(k, t, s.states) && ImportsSound(k, t, s.imports)
    requires Latest(s).Some? && s.validatorsRoot == t.validatorsRoot
    requires CommitteesFor(k, t, s.current, s.next, Period(Latest(s).value.slot))
    requires InOrder(Latest(s).value.slot, s.next.Some?, u)
    requires Canonical(t, u.finalized) && k.headerRoot(u.finalized).Some?
    requires u.blockRootsRoot == t.blockRoots(u.finalized)
    requires u.next.Some? ==> u.next.value.committee == t.committee(Period(u.attested.slot) + 1)
    requires Apply(k, s, u, evict).Ok?
    ensures Sound(k, t, Apply(k, s, u, evict).value)
  {
    var latest := Latest(s).value.slot;
    RotatedFor(k, t, s, u, latest);
    if u.finalized.slot > latest {
      StoreSound(k, t, Rotated(k, s, Period(latest), u).value, u.finalized, evict);
    }
  }

  lemma UpdateTrue(cfg: Config, k: Crypto, t: Chain, s: State, u: Update)
    requires Honest(cfg, k, t) && Sound(k, t, s) && Verify(cfg, k, s, u).Pass?
    ensures Canonical(t, u.attested) && Canonical(t, u.finalized)
    ensures k.headerRoot(u.finalized) == Some(t.finalizedRoot(u.attested))
    ensures u.blockRootsRoot == t.blockRoots(u.finalized)
    ensures u.next.Some? ==> u.next.value.committee == t.committee(Period(u.attested.slot) + 1)
  {
    AttestedSigned(cfg, k, t, s, u);
    SignedIsCanonical(k, t, u.attested, u.votes, u.signatureSlot, u.signature);
    VerifiedInOrder(cfg, k, s, u);
    FinalizedCanonical(cfg, k, t, u);
    if u.next.Some? {
      NextCommitteeTrue(cfg, k, t, Period(Latest(s).value.slot), s.next, u);
    }
  }

  lemma SubmitSound(cfg: Config, k: Crypto, t: Chain, s: State, u: Update, evict: set<Hash>)
    requires Honest(cfg, k, t) && Sound(k, t, s) && Submit(cfg, k, s, u, evict).Ok?
    ensures Sound(k, t, Submit(cfg, k, s, u, evict).value)
  {
    VerifiedInOrder(cfg, k, s, u);
    UpdateTrue(cfg, k, t, s, u);
    AppliedSound(k, t, s, u, evict);
  }

  /** A checkpoint whose header and validators root are those of the chain. Its committee and
      block roots are not trusted but proven. */
  ghost predicate Trusted(t: Chain, op: Op) {
    op.SetCheckpoint? ==> Canonical(t, op.checkpoint.header) && op.checkpoint.validatorsRoot == t.validatorsRoot
  }

  lemma CheckpointSound(cfg: Config, k: Crypto, t: Chain, s: State, c: Checkpoint, evict: set<Hash>)
    requires Honest(cfg, k, t) && Sound(k, t, s) && Trusted(t, SetCheckpoint(c, evict))
    requires ForceCheckpoint(cfg, k, s, c, evict).Ok?
    ensures Sound(k, t, ForceCheckpoint(cfg, k, s, c, evict).value)
  {
    var h := c.header;
    assert HonestState(cfg, k, t, h);
    FieldUnique(k, h.stateRoot, BlockRootsIndex(cfg, h.slot), t.blockRoots(h), c.blockRootsBranch, c.blockRootsRoot);
    FieldUnique(k, h.stateRoot, CurrentCommitteeIndex(cfg, h.slot), k.committeeRoot(t.committee(Period(h.slot))).value,
                c.committeeBranch, k.committeeRoot(c.committee).value);
    StoreSound(k, t, s.(imports := []), h, evict);
  }

  lemma StepSound(cfg: Config, k: Crypto, t: Chain, s: State, op: Op)
    requires Honest(cfg, k, t) && Sound(k, t, s) && Trusted(t, op)
    ensures Sound(k, t, Step(cfg, k, s, op))
  {
    if op.SubmitUpdate? && Submit(cfg, k, s, op.update, op.evict).Ok? {
      SubmitSound(cfg, k, t, s, op.update, op.evict);
    } else if op.SetCheckpoint? && ForceCheckpoint(cfg, k, s, op.checkpoint, op.evict).Ok? {
      CheckpointSound(cfg, k, t, s, op.checkpoint, op.evict);
    }
  }

  lemma {:induction false} RunSound(cfg: Config, k: Crypto, t: Chain, s: State, ops: seq<Op>)
    requires Honest(cfg, k, t) && Sound(k, t, s) && (forall i :: 0 <= i < |ops| ==> Trusted(t, ops[i]))
    ensures Sound(k, t, Run(cfg, k, s, ops))
    decreases |ops|
  {
    if ops != [] {
      StepSound(cfg, k, t, s, ops[0]);
      RunSound(cfg, k, t, Step(cfg, k, s, ops[0]), ops[1..]);
    }
  }

  function Reached(cfg: Config, k: Crypto, ops: seq<Op>): (s: State) {
    Run(cfg, k, GENESIS, ops)
  }

  ghost predicate AllTrusted(t: Chain, ops: seq<Op>) {
    forall i :: 0 <= i < |ops| ==> Trusted(t, ops[i])
  }

  // ---- No ancestry hole ----

  /** Each imported header is later than the one before it, by at most the length of the
      block root vector. */
  ghost predicate Ladder(imports: seq<Import>) {
    forall i :: 0 <= i < |imports| - 1 ==>
      imports[i].slot < imports[i + 1].slot <= imports[i].slot + SLOTS_PER_HISTORICAL_ROOT
  }

  ghost predicate Climbs(s: State) {
    && Ladder(s.imports)
    && (if s.imports == [] then s.states == map[]
        else Latest(s).Some? && s.imports[|s.imports| - 1] == Import(s.latestRoot, Latest(s).value.slot))
  }

  lemma RotatedKeepsHeaders(k: Crypto, s: State, store: nat, u: Update)
    requires Rotated(k, s, store, u).Ok?
    ensures
      var r := Rotated(k, s, store, u).value;
      r.states == s.states && r.latestRoot == s.latestRoot && r.imports == s.imports
  {
  }

  lemma StoreClimbs(k: Crypto, s: State, h: Header, blockRootsRoot: Hash, evict: set<Hash>)
    requires Climbs(s) && Store(k, s, h, blockRootsRoot, evict).Ok?
    requires s.imports != [] ==> Latest(s).value.slot < h.slot <= Latest(s).value.slot + SLOTS_PER_HISTORICAL_ROOT
    ensures Climbs(Store(k, s, h, blockRootsRoot, evict).value)
  {
  }

  lemma SubmitClimbs(cfg: Config, k: Crypto, s: State, u: Update, evict: set<Hash>)
    requires Climbs(s) && Submit(cfg, k, s, u, evict).Ok?
    ensures Climbs(Submit(cfg, k, s, u, evict).value)
  {
    var latest := Latest(s).value.slot;
    var rotated := Rotated(k, s, Period(latest), u).value;
    VerifiedInOrder(cfg, k, s, u);
    RotatedKeepsHeaders(k, s, Period(latest), u);
    if u.finalized.slot > latest {
      StoreClimbs(k, rotated, u.finalized, u.blockRootsRoot, evict);
    }
  }

  lemma StepClimbs(cfg: Config, k: Crypto, s: State, op: Op)
    requires Climbs(s)
    ensures Climbs(Step(cfg, k, s, op))
  {
    match op
    case SubmitUpdate(u, evict) => if Submit(cfg, k, s, u, evict).Ok? { SubmitClimbs(cfg, k, s, u, evict); }
    case SetCheckpoint(c, evict) =>
    case SetMode(halted) =>
  }

  lemma {:induction false} RunClimbs(cfg: Config, k: Crypto, s: State, ops: seq<Op>)
    requires Climbs(s)
    ensures Climbs(Run(cfg, k, s, ops))
    decreases |ops|
  {
    if ops != [] {
      StepClimbs(cfg, k, s, ops[0]);
      RunClimbs(cfg, k, Step(cfg, k, s, ops[0]), ops[1..]);
    }
  }

  /** Climbing a ladder, some rung is the first above `slot`. */
  lemma {:induction false} FirstAbove(imports: seq<Import>, n: nat, slot: nat) returns (i: nat)
    requires Ladder(imports) && 0 < n < |imports| && imports[0].slot <= slot < imports[n].slot
    ensures i < |imports| && slot < imports[i].slot <= slot + SLOTS_PER_HISTORICAL_ROOT
    decreases n
  {
    if imports[n - 1].slot <= slot {
      i := n;
    } else {
      i := FirstAbove(imports, n - 1, slot);
    }
  }

  ghost predicate Covers(i: Import, slot: nat) {
    slot < i.slot <= slot + SLOTS_PER_HISTORICAL_ROOT
  }

  /** No ancestry hole: after any run, every slot from the last checkpoint up to the latest
      finalized slot lies in the block root window of an imported header, and within a window
      the leaf index names one slot. */
  lemma NoAncestryHole(cfg: Config, k: Crypto, ops: seq<Op>, slot: nat, other: nat)
    ensures
      var s := Reached(cfg, k, ops);
      s.imports != [] && Latest(s).Some? && s.imports[0].slot <= slot < Latest(s).value.slot ==>
        exists i :: 0 <= i < |s.imports| && Covers(s.imports[i], slot)
    ensures
      forall i: Import :: Covers(i, slot) && Covers(i, other) && LeafIndex(slot) == LeafIndex(other) ==> slot == other
  {
    var s := Reached(cfg, k, ops);
    RunClimbs(cfg, k, GENESIS, ops);
    if s.imports != [] && Latest(s).Some? && s.imports[0].slot <= slot < Latest(s).value.slot {
      var i := FirstAbove(s.imports, |s.imports| - 1, slot);
      assert Covers(s.imports[i], slot);
    }
  }

  // ---- What a run guarantees ----

  lemma ReachedSound(cfg: Config, k: Crypto, t: Chain, ops: seq<Op>)
    requires Honest(cfg, k, t) && AllTrusted(t, ops)
    ensures Sound(k, t, Reached(cfg, k, ops))
  {
    RunSound(cfg, k, t, GENESIS, ops);
  }

  /** Light-client soundness: every stored finalized state is that of a canonical header, and
      the committees are the true ones. */
  lemma LightClientSound(cfg: Config, k: Crypto, t: Chain, ops: seq<Op>, root: Hash)
    requires Honest(cfg, k, t) && AllTrusted(t, ops)
    ensures
      var s := Reached(cfg, k, ops);
      && (root in s.states ==>
            exists h :: && Canonical(t, h) && k.headerRoot(h) == Some(root)
                        && s.states[root] == Compact(h.slot, t.blockRoots(h)))
      && (s.states != map[] ==>
            && Latest(s).Some?
            && k.prepare(t.committee(Period(Latest(s).value.slot))) == Some(s.current)
            && (s.next.Some? ==> k.prepare(t.committee(Period(Latest(s).value.slot) + 1)) == s.next))
  {
    var s := Reached(cfg, k, ops);
    ReachedSound(cfg, k, t, ops);
    if root in s.states {
      var h :| StoredFrom(k, t, h, root, s.states[root]);
    }
  }

  /** The header became the latest finalized one: it is stored with its block roots, and of the
      other stored states only evicted ones are gone. */
  ghost predicate BecameLatest(k: Crypto, before: State, after: State, h: Header, blockRootsRoot: Hash,
                               evict: set<Hash>)
  {
    && k.headerRoot(h) == Some(after.latestRoot) && Latest(after) == Some(Compact(h.slot, blockRootsRoot))
    && (forall root :: root in after.states && root != after.latestRoot ==>
          root in before.states && root !in evict && after.states[root] == before.states[root])
    && (forall root :: root in before.states && root !in evict ==> root in after.states)
  }

  /** The headers after an update: a later finalized header was imported, any other was not. */
  ghost predicate HeadersAfter(k: Crypto, before: State, after: State, u: Update, evict: set<Hash>) {
    && Latest(before).Some? && Latest(after).Some?
    && if u.finalized.slot > Latest(before).value.slot
       then && BecameLatest(k, before, after, u.finalized, u.blockRootsRoot, evict)
            && after.imports == before.imports + [Import(after.latestRoot, u.finalized.slot)]
       else after.latestRoot == before.latestRoot && after.states == before.states && after.imports == before.imports
  }

  /** The committees after an update: the period of the latest slot rose by at most one, and if
      it rose the next committee took over. The update's committee is the next one when none was
      known or when the period rose. */
  ghost predicate CommitteesAfter(k: Crypto, before: State, after: State, u: Update) {
    && Latest(before).Some? && Latest(after).Some?
    && var store, period := Period(Latest(before).value.slot), Period(Latest(after).value.slot);
    && store <= period <= store + 1
    && (if period == store then after.current == before.current else before.next == Some(after.current))
    && (if u.next.Some? && (before.next.None? || period > store)
        then after.next == k.prepare(u.next.value.committee) && after.next.Some?
        else after.next == before.next)
    && after.updatePeriod == (if u.next.Some? then Period(u.finalized.slot) else before.updatePeriod)
  }

  /** What an accepted update does to the store, and nothing else. */
  ghost predicate Advances(k: Crypto, before: State, after: State, u: Update, evict: set<Hash>) {
    && HeadersAfter(k, before, after, u, evict) && CommitteesAfter(k, before, after, u)
    && after.checkpointRoot == before.checkpointRoot && after.validatorsRoot == before.validatorsRoot
    && after.halted == before.halted
  }

  lemma SubmitMoves(cfg: Config, k: Crypto, s: State, u: Update, evict: set<Hash>)
    requires Submit(cfg, k, s, u, evict).Ok?
    ensures Advances(k, s, Submit(cfg, k, s, u, evict).value, u, evict)
    ensures Latest(s).value.slot <= Latest(Submit(cfg, k, s, u, evict).value).value.slot
  {
    VerifiedInOrder(cfg, k, s, u);
  }

  /** Committee rotation: in every reachable store an accepted update was signed by the
      committee of its signature slot's period, and the store advances. */
  lemma CommitteeRotation(cfg: Config, k: Crypto, t: Chain, ops: seq<Op>, u: Update, evict: set<Hash>)
    requires Honest(cfg, k, t) && AllTrusted(t, ops) && Submit(cfg, k, Reached(cfg, k, ops), u, evict).Ok?
    ensures Signed(k, t, u.attested, u.votes, u.signatureSlot, u.signature)
    ensures Advances(k, Reached(cfg, k, ops), Submit(cfg, k, Reached(cfg, k, ops), u, evict).value, u, evict)
  {
    ReachedSound(cfg, k, t, ops);
    AttestedSigned(cfg, k, t, Reached(cfg, k, ops), u);
    SubmitMoves(cfg, k, Reached(cfg, k, ops), u, evict);
  }

  /** What an accepted checkpoint does to the store. */
  ghost predicate StartsAnew(k: Crypto, before: State, after: State, c: Checkpoint, evict: set<Hash>) {
    && BecameLatest(k, before, after, c.header, c.blockRootsRoot, evict)
    && after.imports == [Import(after.latestRoot, c.header.slot)] && after.checkpointRoot == after.latestRoot
    && k.prepare(c.committee) == Some(after.current) && after.next.None?
    && after.validatorsRoot == c.validatorsRoot
    && after.halted == before.halted && after.updatePeriod == before.updatePeriod
  }

  lemma CheckpointStarts(cfg: Config, k: Crypto, s: State, c: Checkpoint, evict: set<Hash>)
    requires ForceCheckpoint(cfg, k, s, c, evict).Ok?
    ensures StartsAnew(k, s, ForceCheckpoint(cfg, k, s, c, evict).value, c, evict)
  {
  }

  /** A halted client takes no update, a resumed one may, and the switch touches nothing else. */
  lemma HaltedRejects(cfg: Config, k: Crypto, s: State, halted: bool, u: Update, evict: set<Hash>)
    ensures
      var r := Step(cfg, k, s, SetMode(halted));
      r.halted == halted && r.(halted := s.halted) == s && (halted ==> Submit(cfg, k, r, u, evict) == Err(Halted))
  {
  }

  // ---- Execution headers ----

  lemma AncestrySound(cfg: Config, k: Crypto, t: Chain, s: State, h: Header, a: Ancestry)
    requires Honest(cfg, k, t) && StatesSound(k, t, s.states) && k.headerRoot(h).Some?
    requires VerifyAncestry(k, s, k.headerRoot(h).value, h.slot, a).Pass?
    ensures Canonical(t, h)
  {
    var f :| StoredFrom(k, t, f, a.finalizedRoot, s.states[a.finalizedRoot]);
    var i := h.slot % SLOTS_PER_HISTORICAL_ROOT;
    assert HonestState(cfg, k, t, f);
    assert HoldsLeaf(k, t.blockRoots(f), LeafIndex(h.slot), BLOCK_ROOT_AT_INDEX_DEPTH, t.blockRootAt(f, i));
    assert RootOfCanonical(k, t, t.blockRootAt(f, i));
  }

  lemma HeaderSound(cfg: Config, k: Crypto, t: Chain, s: State, h: Header, a: Option<Ancestry>)
    requires Honest(cfg, k, t) && StatesSound(k, t, s.states) && k.headerRoot(h).Some?
    requires VerifyHeader(k, s, k.headerRoot(h).value, h.slot, a).Pass?
    ensures Canonical(t, h)
  {
    if a.Some? {
      AncestrySound(cfg, k, t, s, h, a.value);
    } else {
      var f :| StoredFrom(k, t, f, k.headerRoot(h).value, s.states[k.headerRoot(h).value]);
    }
  }

  /** An accepted execution header is the one in the body of a canonical header that is not
      later than the latest finalized header. */
  lemma ExecutionSound(cfg: Config, k: Crypto, t: Chain, ops: seq<Op>, p: ExecutionProof)
    requires Honest(cfg, k, t) && AllTrusted(t, ops) && VerifyExecution(k, Reached(cfg, k, ops), p).Pass?
    ensures
      var s := Reached(cfg, k, ops);
      && Canonical(t, p.header) && k.executionRoot(p.execution) == Some(t.execution(p.header))
      && exists f :: Canonical(t, f) && k.headerRoot(f) == Some(s.latestRoot) && p.header.slot <= f.slot
  {
    var s := Reached(cfg, k, ops);
    ReachedSound(cfg, k, t, ops);
    HeaderSound(cfg, k, t, s, p.header, p.ancestry);
    assert HonestState(cfg, k, t, p.header);
    FieldUnique(k, p.header.bodyRoot, EXECUTION_HEADER_INDEX, t.execution(p.header), p.branch,
                k.executionRoot(p.execution).value);
    var f :| StoredFrom(k, t, f, s.latestRoot, s.states[s.latestRoot]);
  }

  lemma ImportStored(k: Crypto, t: Chain, s: State, i: Import, f: Header)
    requires RootsBind(k) && StatesSound(k, t, s.states) && ImportOf(k, t, f, i) && i.root in s.states
    ensures s.states[i.root] == Compact(f.slot, t.blockRoots(f))
  {
  }

  /** The converse of `AncestrySound`: every canonical header between the last checkpoint and
      the latest finalized header has an ancestry proof that is accepted, through an imported
      header, for as long as that one is stored. */
  lemma AncestryComplete(cfg: Config, k: Crypto, t: Chain, ops: seq<Op>, h: Header) returns (i: Import, branch: Branch)
    requires Honest(cfg, k, t) && AllTrusted(t, ops) && Canonical(t, h)
    requires
      var s := Reached(cfg, k, ops);
      s.imports != [] && Latest(s).Some? && s.imports[0].slot <= h.slot < Latest(s).value.slot
    ensures
      var s := Reached(cfg, k, ops);
      && i in s.imports && k.headerRoot(h).Some?
      && (i.root in s.states ==>
            VerifyHeader(k, s, k.headerRoot(h).value, h.slot, Some(Ancestry(branch, i.root))).Pass?)
  {
    var s := Reached(cfg, k, ops);
    ReachedSound(cfg, k, t, ops);
    RunClimbs(cfg, k, GENESIS, ops);
    var n := FirstAbove(s.imports, |s.imports| - 1, h.slot);
    i := s.imports[n];
    branch := AcceptedBranch(cfg, k, t, s, h, i);
  }

  lemma WindowBranch(k: Crypto, t: Chain, f: Header, h: Header) returns (branch: Branch)
    requires HonestBlockRoots(k, t, f) && Canonical(t, h) && h.slot < f.slot <= h.slot + SLOTS_PER_HISTORICAL_ROOT
    ensures k.headerRoot(h).Some?
    ensures k.provesLeaf(k.headerRoot(h).value, branch, LeafIndex(h.slot), BLOCK_ROOT_AT_INDEX_DEPTH, t.blockRoots(f))
  {
    var x := t.blockRootAt(f, h.slot % SLOTS_PER_HISTORICAL_ROOT);
    assert HoldsLeaf(k, t.blockRoots(f), LeafIndex(h.slot), BLOCK_ROOT_AT_INDEX_DEPTH, x);
    branch :| k.provesLeaf(x, branch, LeafIndex(h.slot), BLOCK_ROOT_AT_INDEX_DEPTH, t.blockRoots(f));
  }

  lemma AcceptedBranch(cfg: Config, k: Crypto, t: Chain, s: State, h: Header, i: Import) returns (branch: Branch)
    requires Honest(cfg, k, t) && StatesSound(k, t, s.states) && ImportSound(k, t, i)
    requires Canonical(t, h) && Covers(i, h.slot)
    ensures k.headerRoot(h).Some?
    ensures i.root in s.states ==>
              VerifyAncestry(k, s, k.headerRoot(h).value, h.slot, Ancestry(branch, i.root)).Pass?
  {
    var f :| ImportOf(k, t, f, i);
    assert HonestState(cfg, k, t, f);
    branch := WindowBranch(k, t, f, h);
    if i.root in s.states {
      ImportStored(k, t, s, i, f);
    }
  }
}
