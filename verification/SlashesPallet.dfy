/**
 The external-validator-slashes pallet with its storage updated in place. Every method is
 proved against the state machine of Slashes.
 */
module SlashesPallet {
  import opened Common
  import opened RetryQueue
  import opened RingQueue
  import opened Slashes

  // ---- Removing by index ----

  lemma {:induction false} UnnamedPrefix(slashes: seq<Slash>, names: seq<nat>, n: nat)
    requires n <= |slashes| && forall j :: 0 <= j < |names| ==> names[j] >= n
    ensures Unnamed(slashes, names, n) == slashes[..n]
  {
    if n > 0 {
      UnnamedPrefix(slashes, names, n - 1);
      assert slashes[..n] == slashes[..n - 1] + [slashes[n - 1]];
    }
  }

  /** Naming one more position, below all named ones, deletes exactly that element. */
  lemma {:induction false} NameLower(slashes: seq<Slash>, i: nat, names: seq<nat>, n: nat)
    requires i < n <= |slashes| && forall j :: 0 <= j < |names| ==> names[j] > i
    ensures
      var before := Unnamed(slashes, names, n);
      i < |before| && before[i] == slashes[i] && Unnamed(slashes, [i] + names, n) == before[..i] + before[i + 1..]
  {
    if n == i + 1 {
      UnnamedPrefix(slashes, names, i);
      UnnamedPrefix(slashes, [i] + names, i);
    } else {
      NameLower(slashes, i, names, n - 1);
    }
  }

  lemma {:induction false} SortedTail(list: seq<nat>, k: nat, j: nat)
    requires SortedAndUnique(list) && k < j < |list|
    ensures list[k] < list[j]
  {
    if k + 1 < j {
      SortedTail(list, k, j - 1);
    }
  }

  /** Removes the named positions from the highest down, so that no removal shifts a
      position still to be removed. */
  method RemoveIndices(slashes: seq<Slash>, indices: seq<nat>) returns (kept: seq<Slash>)
    requires SortedAndUnique(indices) && indices != [] && indices[|indices| - 1] < |slashes|
    ensures kept == Unnamed(slashes, indices, |slashes|)
  {
    kept := slashes;
    var k := |indices|;
    assert indices[k..] == [] && slashes[..|slashes|] == slashes;
    UnnamedPrefix(slashes, indices[k..], |slashes|);
    while k > 0
      invariant 0 <= k <= |indices|
      invariant kept == Unnamed(slashes, indices[k..], |slashes|)
    {
      k := k - 1;
      var i := indices[k];
      forall j | k < j < |indices| ensures indices[j] > i {
        SortedTail(indices, k, j);
      }
      assert indices[k..] == [i] + indices[k + 1..];
      NameLower(slashes, i, indices[k + 1..], |slashes|);
      kept := kept[..i] + kept[i + 1..];
    }
    assert indices[0..] == indices;
  }

  lemma EnqueuedStep(q: Batches, era: nat, slashes: seq<Slash>, size: nat, n: nat)
    requires size >= 1 && slashes != [] && n == if |slashes| <= size then |slashes| else size
    ensures Enqueued(q, era, slashes, size) ==
      if |q| >= MAX_ENTRIES then (q, slashes)
      else Enqueued(Pushed(q, Entry(era, slashes[..n])), era, slashes[n..], size)
  {
  }

  lemma KeysStep(session: nat, named: seq<Account>, i: nat)
    requires i < |named|
    ensures Keys(session, named[..i + 1]) == Keys(session, named[..i]) + {(session, named[i])}
  {
  }

  lemma ClearStep(fractions: Fractions, drained: seq<Bonded>, i: nat, leftover: set<Account>)
    requires i < |drained|
    ensures ErasIn(drained[..i + 1]) == ErasIn(drained[..i]) + {drained[i].era}
    ensures Cleared(Cleared(fractions, ErasIn(drained[..i]), leftover), {drained[i].era}, leftover) ==
      Cleared(fractions, ErasIn(drained[..i + 1]), leftover)
  {
  }

  class SlashesPallet {
    const cfg: Config
    var bonded: seq<Bonded>
    var fractions: Fractions
    var nextId: nat
    var buckets: Buckets
    const queue: RingQueue<seq<Slash>>
    var mode: Mode
    var pending: map<(nat, Account), OffenceKind>
    ghost var past: History

    ghost predicate Valid()
      reads this, queue
    {
      queue.Valid()
    }

    ghost function Model(): (s: State)
      reads this, queue
    {
      State(bonded, fractions, nextId, buckets, queue.contents, mode, pending, past)
    }

    constructor (cfg: Config)
      ensures this.cfg == cfg && Valid() && fresh(queue) && Model() == GENESIS
    {
      this.cfg := cfg;
      bonded, fractions, nextId, buckets, mode, pending := [], map[], 0, map[], Enabled, map[];
      past := GENESIS.past;
      queue := new RingQueue<seq<Slash>>();
    }

    /** Makes a slash if its fraction is the largest charged so far, and puts it into its bucket. */
    method ComputeAndPlace(active: nat, x: Offence, bucket: nat) returns (made: bool)
      requires Valid() && bucket == BucketFor(cfg, active, x.era, x.origin)
      modifies this
      ensures Valid()
      ensures made <==> x.fraction > FractionOf(old(fractions), x.era, x.who)
      ensures Model() == Charge(cfg, old(Model()), active, x)
    {
      past := past.(charged := past.charged + [x]);
      var prior := if (x.era, x.who) in fractions then fractions[(x.era, x.who)] else 0;
      if x.fraction <= prior {
        return false;
      }
      fractions := fractions[(x.era, x.who) := x.fraction];
      var slash := Slash(nextId, x.who, x.fraction, cfg.deferDuration == 0, x.reporters, x.kind);
      var slashes := if bucket in buckets then buckets[bucket] else [];
      buckets := buckets[bucket := slashes + [slash]];
      nextId := nextId + 1;
      past := past.(records := past.records + [RecordOf(cfg, active, x)]);
      return true;
    }

    /** The search for the charged era, latest bonded era first. */
    method FindSlashEra(active: nat, activeStart: nat, session: nat) returns (era: Option<nat>)
      ensures era == SlashEra(bonded, active, activeStart, session)
    {
      if session >= activeStart {
        return Some(active);
      }
      var i := |bonded|;
      assert bonded[..i] == bonded;
      while i > 0
        invariant i <= |bonded|
        invariant LatestStarted(bonded, session) == LatestStarted(bonded[..i], session)
      {
        assert bonded[..i][..i - 1] == bonded[..i - 1];
        if bonded[i - 1].session <= session {
          return Some(bonded[i - 1].era);
        }
        i := i - 1;
      }
      return None;
    }

    method HandleOffence(active: nat, activeStart: nat, session: nat, offenders: seq<Offender>,
                         invulnerables: seq<Account>)
      requires Valid()
      modifies this
      ensures Valid() && Model() == OnOffence(cfg, old(Model()), active, activeStart, session, offenders, invulnerables)
    {
      if mode == Disabled {
        return;
      }
      var found := FindSlashEra(active, activeStart, session);
      if found.None? {
        return;
      }
      var era := found.value;
      for i := 0 to |offenders|
        invariant Valid()
        invariant Model() == ChargeOffenders(cfg, old(Model()), active, era, session, offenders, invulnerables, i)
      {
        var o := offenders[i];
        var key := (session, o.who);
        if key in pending {
          var kind := pending[key];
          pending := pending - {key};
          if o.who !in invulnerables && mode != LogOnly {
            var bucket := if cfg.deferDuration == 0 then active + 1 else era + cfg.deferDuration + 1;
            var _ := ComputeAndPlace(active, Offence(era, o.who, o.fraction, o.reporters, kind, FromReport), bucket);
          }
        }
      }
    }

    method TagOffenders(session: nat, named: seq<Account>, kind: OffenceKind)
      modifies this`pending
      ensures pending == old(pending) + map key | key in Keys(session, named) :: kind
    {
      for i := 0 to |named|
        invariant pending == old(pending) + map key | key in Keys(session, named[..i]) :: kind
      {
        KeysStep(session, named, i);
        pending := pending[(session, named[i]) := kind];
      }
      assert named[..|named|] == named;
    }

    method UntagOffenders(session: nat, named: seq<Account>)
      modifies this`pending
      ensures pending == old(pending) - Keys(session, named)
    {
      for i := 0 to |named|
        invariant pending == old(pending) - Keys(session, named[..i])
      {
        KeysStep(session, named, i);
        pending := pending - {(session, named[i])};
      }
      assert named[..|named|] == named;
    }

    /** The report wrapper, around what the offences pallet does with the report. */
    method ReportOffence(active: nat, activeStart: nat, r: Report, invulnerables: seq<Account>)
      requires Valid()
      modifies this
      ensures Valid() && Model() == HandleReport(cfg, old(Model()), active, activeStart, r, invulnerables)
    {
      if bonded == [] || r.session < bonded[0].session {
        return;
      }
      TagOffenders(r.session, r.named, r.kind);
      if r.handed.Some? {
        HandleOffence(active, activeStart, r.session, r.handed.value, invulnerables);
      } else {
        UntagOffenders(r.session, r.named);
      }
    }

    method ForceInjectSlash(active: nat, era: nat, known: bool, who: Account, fraction: nat, kind: OffenceKind)
      returns (r: InjectResult)
      requires Valid()
      modifies this
      ensures Valid() && (Model(), r) == ForceInject(cfg, old(Model()), active, era, known, who, fraction, kind)
    {
      if era > active {
        return ProvidedFutureEra;
      }
      if !known {
        return ProvidedNonSlashableEra;
      }
      var prior := if (era, who) in fractions then fractions[(era, who)] else 0;
      if fraction <= prior {
        return ErrorComputingSlash;
      }
      var bucket := if cfg.deferDuration == 0 then era + 1 else era + cfg.deferDuration + 1;
      var _ := ComputeAndPlace(active, Offence(era, who, fraction, [], kind, FromInjection), bucket);
      return Injected;
    }

    method CancelDeferredSlash(active: nat, era: nat, indices: seq<nat>) returns (r: CancelResult)
      requires Valid()
      modifies this
      ensures Valid() && (Model(), r) == CancelDeferred(cfg, old(Model()), active, era, indices)
    {
      if !(active < era <= active + cfg.deferDuration + 1) {
        return DeferPeriodIsOver;
      }
      if indices == [] {
        return EmptyTargets;
      }
      if !SortedAndUnique(indices) {
        return NotSortedAndUnique;
      }
      var slashes := if era in buckets then buckets[era] else [];
      if indices[|indices| - 1] >= |slashes| {
        return InvalidSlashIndex;
      }
      var kept := RemoveIndices(slashes, indices);
      buckets := buckets[era := kept];
      past := past.(cancelled := past.cancelled + Members(IdsOf(Named(slashes, indices, |slashes|))));
      return Cancelled;
    }

    /** Clears the fractions and the bucket of each drained era, one after the other. */
    method PruneEras(drained: seq<Bonded>, leftover: set<Account>)
      modifies this`fractions, this`buckets
      ensures fractions == Cleared(old(fractions), ErasIn(drained), leftover)
      ensures buckets == old(buckets) - ErasIn(drained)
    {
      for i := 0 to |drained|
        invariant fractions == Cleared(old(fractions), ErasIn(drained[..i]), leftover)
        invariant buckets == old(buckets) - ErasIn(drained[..i])
      {
        ClearStep(old(fractions), drained, i, leftover);
        fractions := Cleared(fractions, {drained[i].era}, leftover);
        buckets := buckets - {drained[i].era};
      }
      assert drained[..|drained|] == drained;
    }

    /** Enters the era as bonded and prunes the eras that fall out. */
    method BondEra(b: Bonded, leftover: set<Account>)
      requires Valid()
      modifies this`bonded, this`fractions, this`buckets, this`past
      ensures Valid() && Model() == Bond(cfg, old(Model()), b, leftover)
    {
      bonded := bonded + [b];
      if b.era <= cfg.bondingDuration {
        return;
      }
      var n := CountBefore(bonded, b.era - cfg.bondingDuration);
      var drained := bonded[..n];
      bonded := bonded[n..];
      PruneEras(drained, leftover);
      past := past.(pruned := past.pruned + ErasIn(drained));
    }

    /** Queues the era's slashes batch by batch until the queue is full. */
    method QueueEraSlashes(era: nat)
      requires Valid()
      modifies this, queue
      ensures Valid() && Model() == AddEraSlashesToQueue(cfg, old(Model()), era)
    {
      var slashes := if era in buckets then buckets[era] else [];
      var size := if cfg.batchSize == 0 then 1 else cfg.batchSize;
      var rest := slashes;
      while rest != []
        invariant Valid()
        invariant Model() == old(Model()).(queue := queue.contents)
        invariant Enqueued(queue.contents, era, rest, size) == Enqueued(old(queue.contents), era, slashes, size)
        decreases |rest|
      {
        var n := if |rest| <= size then |rest| else size;
        EnqueuedStep(queue.contents, era, rest, size, n);
        var ok := queue.Push(Entry(era, rest[..n]));
        if !ok {
          past := past.(dropped := past.dropped + IdsOf(rest), queueFull := past.queueFull + {era});
          return;
        }
        rest := rest[n..];
      }
      assert past.dropped + IdsOf([]) == past.dropped;
    }

    method EraStarted(b: Bonded, leftover: set<Account>)
      requires Valid()
      modifies this, queue
      ensures Valid() && Model() == OnEraStart(cfg, old(Model()), b, leftover)
    {
      BondEra(b, leftover);
      QueueEraSlashes(b.era);
    }

    /** The block hook. `sent` is what the message sender answers, if it is asked. */
    method ProcessSlashesQueue(sent: bool)
      requires Valid()
      modifies this, queue
      ensures Valid() && Model() == ProcessQueue(cfg, old(Model()), sent)
    {
      if queue.head == queue.tail {
        return;
      }
      PopHolds(queue.slots, queue.head, queue.tail, queue.contents);
      if sent {
        past := Delivered(cfg, past, queue.slots[queue.head]);
        queue.PopHead();
      } else {
        queue.RotateHead();
      }
    }

    method RetryUnsentSlashEra(era: nat, sent: bool) returns (r: RetryResult)
      requires Valid()
      modifies this, queue
      ensures Valid() && (Model(), r) == RetryUnsent(cfg, old(Model()), era, sent)
    {
      var found := queue.Find(era);
      if found.None? {
        return EraNotInUnsentQueue;
      }
      if !sent {
        return MessageSendFailed;
      }
      past := Delivered(cfg, past, queue.slots[found.value]);
      queue.RemoveSlot(found.value);
      return Retried;
    }
  }
}
