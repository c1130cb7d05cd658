/**
 The light-client pallet with its storage updated in place. Every method is proved against
 the state machine of LightClient, and every extrinsic keeps what the runs of that machine
 guarantee: the imports climb without a gap, and while the checkpoints can be trusted the
 store is sound for the chain the client follows.
 */
module ClientPallet {
  import opened Common
  import opened Participation
  import opened LightClient
  import BeaconChain
  import ClientRuns

  /** What an accepted checkpoint leaves, from `before` to `after`. */
  lemma CheckpointKeeps(cfg: Config, k: Crypto, chain: BeaconChain.Chain, before: State, after: State, c: Checkpoint,
                        evict: set<Hash>, trusted: bool)
    requires ForceCheckpoint(cfg, k, before, c, evict) == Ok(after) && ClientRuns.Climbs(before)
    requires trusted && BeaconChain.Honest(cfg, k, chain) ==> ClientRuns.Sound(k, chain, before)
    ensures after == Step(cfg, k, before, SetCheckpoint(c, evict))
    ensures ClientRuns.StartsAnew(k, before, after, c, evict) && ClientRuns.Climbs(after)
    ensures trusted && ClientRuns.Trusted(chain, SetCheckpoint(c, evict)) && BeaconChain.Honest(cfg, k, chain) ==>
      ClientRuns.Sound(k, chain, after)
  {
    ClientRuns.CheckpointStarts(cfg, k, before, c, evict);
    ClientRuns.StepClimbs(cfg, k, before, SetCheckpoint(c, evict));
    if trusted && ClientRuns.Trusted(chain, SetCheckpoint(c, evict)) && BeaconChain.Honest(cfg, k, chain) {
      ClientRuns.CheckpointSound(cfg, k, chain, before, c, evict);
    }
  }

  lemma CheckpointFails(cfg: Config, k: Crypto, before: State, c: Checkpoint, evict: set<Hash>)
    requires ForceCheckpoint(cfg, k, before, c, evict).Err?
    ensures Step(cfg, k, before, SetCheckpoint(c, evict)) == before
  {
  }

  class ClientPallet {
    const cfg: Config
    const k: Crypto
    ghost const chain: BeaconChain.Chain
    var checkpointRoot: Hash
    var latestRoot: Hash
    var states: map<Hash, Compact>
    var validatorsRoot: Hash
    var current: Prepared
    var next: Option<Prepared>
    var updatePeriod: nat
    var halted: bool
    ghost var imports: seq<Import>
    ghost var trusted: bool

    ghost predicate Valid()
      reads this
    {
      && ClientRuns.Climbs(Model())
      && (trusted && BeaconChain.Honest(cfg, k, chain) ==> ClientRuns.Sound(k, chain, Model()))
    }

    ghost function Model(): (s: State)
      reads this
    {
      State(checkpointRoot, latestRoot, states, validatorsRoot, current, next, updatePeriod, halted, imports)
    }

    constructor (cfg: Config, k: Crypto, ghost chain: BeaconChain.Chain)
      ensures this.cfg == cfg && this.k == k && this.chain == chain
      ensures Valid() && trusted && Model() == GENESIS
    {
      this.cfg, this.k, this.chain := cfg, k, chain;
      checkpointRoot, latestRoot, states, validatorsRoot := 0, 0, map[], 0;
      current, next, updatePeriod, halted := Prepared(0, [], 0), None, 0, false;
      imports, trusted := [], true;
    }

    /** Inserts into the ring map, which gives up `evict`, and moves the latest root. */
    method StoreFinalizedHeader(h: Header, blockRootsRoot: Hash, evict: set<Hash>) returns (c: Check)
      modifies this`states, this`latestRoot, this`imports
      ensures c.Pass? <==> Store(k, old(Model()), h, blockRootsRoot, evict).Ok?
      ensures c.Pass? ==> Model() == Store(k, old(Model()), h, blockRootsRoot, evict).value
      ensures c.Fail? ==> Model() == old(Model()) && c.error == Store(k, old(Model()), h, blockRootsRoot, evict).error
    {
      var root := k.headerRoot(h);
      if root.None? {
        return Fail(HeaderHashTreeRootFailed);
      }
      states := (states - evict)[root.value := Compact(h.slot, blockRootsRoot)];
      latestRoot := root.value;
      imports := imports + [Import(root.value, h.slot)];
      return Pass;
    }

    /** Checks a checkpoint and stores it. */
    method ProcessCheckpointUpdate(c: Checkpoint, evict: set<Hash>) returns (r: Check)
      modifies this
      ensures trusted == old(trusted)
      ensures r.Pass? <==> ForceCheckpoint(cfg, k, old(Model()), c, evict).Ok?
      ensures r.Pass? ==> Model() == ForceCheckpoint(cfg, k, old(Model()), c, evict).value
      ensures r.Fail? ==> Model() == old(Model()) && r.error == ForceCheckpoint(cfg, k, old(Model()), c, evict).error
    {
      var committeeRoot := k.committeeRoot(c.committee);
      if committeeRoot.None? {
        return Fail(SyncCommitteeHashTreeRootFailed);
      }
      var gindex := CurrentCommitteeIndex(cfg, c.header.slot);
      if !k.provesField(committeeRoot.value, c.committeeBranch, gindex, c.header.stateRoot) {
        return Fail(InvalidSyncCommitteeMerkleProof);
      }
      var headerRoot := k.headerRoot(c.header);
      if headerRoot.None? {
        return Fail(HeaderHashTreeRootFailed);
      }
      var blockRootsIndex := BlockRootsIndex(cfg, c.header.slot);
      if !k.provesField(c.blockRootsRoot, c.blockRootsBranch, blockRootsIndex, c.header.stateRoot) {
        return Fail(InvalidBlockRootsRootMerkleProof);
      }
      var prepared := k.prepare(c.committee);
      if prepared.None? {
        return Fail(BLSPreparePublicKeysFailed);
      }
      current, next, checkpointRoot := prepared.value, None, headerRoot.value;
      validatorsRoot := c.validatorsRoot;
      imports := [];
      r := StoreFinalizedHeader(c.header, c.blockRootsRoot, evict);
    }

    /** An accepted checkpoint becomes the latest header and starts the imports anew, with no
        next committee. A canonical header with the chain's validators root is all that has to
        be trusted for the client to stay sound. */
    method ForceCheckpointUpdate(c: Checkpoint, evict: set<Hash>) returns (r: Check)
      requires Valid()
      modifies this
      ensures Valid()
      ensures Model() == Step(cfg, k, old(Model()), SetCheckpoint(c, evict))
      ensures trusted == (old(trusted) && (r.Fail? || ClientRuns.Trusted(chain, SetCheckpoint(c, evict))))
      ensures if r.Pass? then ClientRuns.StartsAnew(k, old(Model()), Model(), c, evict) else Model() == old(Model())
    {
      ghost var before := Model();
      r := ProcessCheckpointUpdate(c, evict);
      ghost var after := Model();
      if r.Pass? {
        CheckpointKeeps(cfg, k, chain, before, after, c, evict, trusted);
        trusted := trusted && ClientRuns.Trusted(chain, SetCheckpoint(c, evict));
      } else {
        CheckpointFails(cfg, k, before, c, evict);
      }
      assert Model() == after;
    }

    /** Verifies the aggregate signature with the keys of the members that did not sign. */
    method VerifySignature(p: Prepared, u: Update) returns (c: Check)
      ensures c == Signing(k, p, validatorsRoot, u)
    {
      var absent := FindPubkeys(u.votes, p.pubkeys, false);
      var message := k.signingRoot(u.attested, validatorsRoot, u.signatureSlot);
      if message.Err? {
        return Fail(message.error);
      }
      return Require(k.verifies(p.aggregate, absent, message.value, u.signature), BLSVerificationFailed);
    }

    method VerifyUpdate(u: Update) returns (c: Check)
      ensures c == Verify(cfg, k, Model(), u)
    {
      if !Supermajority(u.votes) {
        return Fail(SyncCommitteeParticipantsNotSupermajority);
      }
      if !(u.signatureSlot > u.attested.slot >= u.finalized.slot) {
        return Fail(InvalidUpdateSlot);
      }
      if latestRoot !in states {
        return Fail(NotBootstrapped);
      }
      var latest := states[latestRoot].slot;
      c := Timely(latest, next.Some?, u);
      if c.Fail? {
        return;
      }
      c := Finality(cfg, k, u);
      if c.Fail? {
        return;
      }
      c := CommitteeProof(cfg, k, Period(latest), next, u);
      if c.Fail? {
        return;
      }
      var committee := current;
      if Period(u.signatureSlot) != Period(latest) {
        committee := next.value;
      }
      c := VerifySignature(committee, u);
    }

    /** Takes over the update's committee, then stores its header if that is later. The caller
        rolls back a failure. */
    method ApplyUpdate(u: Update, evict: set<Hash>) returns (c: Check)
      modifies this`current, this`next, this`updatePeriod, this`states, this`latestRoot, this`imports
      ensures c.Pass? <==> Apply(k, old(Model()), u, evict).Ok?
      ensures c.Pass? ==> Model() == Apply(k, old(Model()), u, evict).value
      ensures c.Fail? ==> c.error == Apply(k, old(Model()), u, evict).error
    {
      if latestRoot !in states {
        return Fail(NotBootstrapped);
      }
      var latest := states[latestRoot].slot;
      if u.next.Some? {
        var store, period := Period(latest), Period(u.finalized.slot);
        var prepared := k.prepare(u.next.value.committee);
        if prepared.None? {
          return Fail(BLSPreparePublicKeysFailed);
        }
        if next.None? {
          if period != store {
            return Fail(InvalidSyncCommitteeUpdate);
          }
          next := Some(prepared.value);
        } else if period == store + 1 {
          current := next.value;
          next := Some(prepared.value);
        }
        updatePeriod := period;
      }
      c := Pass;
      if u.finalized.slot > latest {
        c := StoreFinalizedHeader(u.finalized, u.blockRootsRoot, evict);
      }
    }

    /** One transaction: an update that fails leaves storage as it was. */
    method Transact(u: Update, evict: set<Hash>) returns (c: Check)
      modifies this`current, this`next, this`updatePeriod, this`states, this`latestRoot, this`imports
      ensures Model() == Step(cfg, k, old(Model()), Op.SubmitUpdate(u, evict))
      ensures c == (var r := Submit(cfg, k, old(Model()), u, evict); if r.Ok? then Pass else Fail(r.error))
    {
      if halted {
        return Fail(Halted);
      }
      c := VerifyUpdate(u);
      if c.Fail? {
        return;
      }
      var committees, period, latest, stored := (current, next), updatePeriod, latestRoot, states;
      ghost var history := imports;
      c := ApplyUpdate(u, evict);
      if c.Fail? {
        current, next, updatePeriod := committees.0, committees.1, period;
        latestRoot, states, imports := latest, stored, history;
      }
    }

    /** An accepted update advances the store, never past a period, and any update leaves it
        sound and without a gap in its imports. */
    method SubmitUpdate(u: Update, evict: set<Hash>) returns (c: Check)
      requires Valid()
      modifies this`current, this`next, this`updatePeriod, this`states, this`latestRoot, this`imports
      ensures Valid() && Model() == Step(cfg, k, old(Model()), Op.SubmitUpdate(u, evict))
      ensures if c.Pass? then ClientRuns.Advances(k, old(Model()), Model(), u, evict) else Model() == old(Model())
    {
      ghost var before := Model();
      c := Transact(u, evict);
      ClientRuns.StepClimbs(cfg, k, before, Op.SubmitUpdate(u, evict));
      if c.Pass? {
        ClientRuns.SubmitMoves(cfg, k, before, u, evict);
        if trusted && BeaconChain.Honest(cfg, k, chain) {
          ClientRuns.SubmitSound(cfg, k, chain, before, u, evict);
        }
      }
    }

    method SetOperatingMode(halt: bool)
      requires Valid()
      modifies this`halted
      ensures Valid() && Model() == Step(cfg, k, old(Model()), SetMode(halt))
    {
      halted := halt;
    }
  }
}
