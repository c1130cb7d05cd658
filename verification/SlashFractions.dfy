/**
 Max-in-era slashing over every run: the stored fraction is the largest one charged, the
 slashes made for one validator in one era have rising percentages, and every stored or
 queued slash is the one its record describes.
 */
module SlashFractions {
  import opened Common
  import opened RetryQueue
  import opened Slashes
  import opened SlashRuns

  /** The largest fraction charged to `who` in `era`; 0 if there is none. */
  function MaxCharged(charged: seq<Offence>, era: nat, who: Account): (f: nat) {
    if charged == [] then 0
    else
      var last := charged[|charged| - 1];
      var before := MaxCharged(charged[..|charged| - 1], era, who);
      if last.era == era && last.who == who && last.fraction > before then last.fraction else before
  }

  /** It is an upper bound of the charged fractions, and one of them unless it is 0. */
  lemma {:induction false} MaxChargedIsMax(charged: seq<Offence>, era: nat, who: Account)
    ensures forall k :: 0 <= k < |charged| && charged[k].era == era && charged[k].who == who ==>
      charged[k].fraction <= MaxCharged(charged, era, who)
    ensures MaxCharged(charged, era, who) > 0 ==>
      exists k :: 0 <= k < |charged| && charged[k].era == era && charged[k].who == who
                  && charged[k].fraction == MaxCharged(charged, era, who)
  {
    if charged != [] {
      var before := charged[..|charged| - 1];
      MaxChargedIsMax(before, era, who);
      if MaxCharged(charged, era, who) == MaxCharged(before, era, who) > 0 {
        var k :| 0 <= k < |before| && before[k].era == era && before[k].who == who
                 && before[k].fraction == MaxCharged(before, era, who);
        assert charged[k] == before[k];
      }
    }
  }

  ghost predicate StoresMax(fractions: Fractions, charged: seq<Offence>, pruned: set<nat>) {
    forall era: nat, who: Account {:trigger FractionOf(fractions, era, who)} ::
      era !in pruned ==> FractionOf(fractions, era, who) == MaxCharged(charged, era, who)
  }

  /** The charges to `era` that exceeded every earlier one to the same validator, in order. */
  function Peaks(charged: seq<Offence>, era: nat): (r: seq<Offence>) {
    if charged == [] then []
    else
      var before, last := charged[..|charged| - 1], charged[|charged| - 1];
      Peaks(before, era) +
      if last.era == era && last.fraction > MaxCharged(before, era, last.who) then [last] else []
  }

  /** What the slashes of `era` were made for, in the order of their ids. */
  function MadeFor(records: seq<Record>, era: nat): (r: seq<Offence>) {
    if records == [] then []
    else
      var last := records[|records| - 1].offence;
      MadeFor(records[..|records| - 1], era) + if last.era == era then [last] else []
  }

  ghost predicate MadeOnPeaks(records: seq<Record>, charged: seq<Offence>, pruned: set<nat>) {
    forall era: nat {:trigger MadeFor(records, era)} ::
      era !in pruned ==> MadeFor(records, era) == Peaks(charged, era)
  }

  ghost predicate SamePair(a: Record, b: Record) {
    a.offence.era == b.offence.era && a.offence.who == b.offence.who
  }

  /** Slashes of one validator in one era have rising percentages, up to the stored one. */
  ghost predicate Rising(records: seq<Record>, fractions: Fractions, pruned: set<nat>) {
    && (forall i, j :: 0 <= i < j < |records| && SamePair(records[i], records[j])
                       && records[i].offence.era !in pruned ==>
          records[i].offence.fraction < records[j].offence.fraction)
    && (forall i :: 0 <= i < |records| && records[i].offence.era !in pruned ==>
          records[i].offence.fraction <= FractionOf(fractions, records[i].offence.era, records[i].offence.who))
  }

  /** The slash is in every part what its record says, and stands under the era of its bucket. */
  ghost predicate Faithful(cfg: Config, records: seq<Record>, era: nat, x: Slash) {
    && x.id < |records|
    && var r := records[x.id];
    && r.bucket == era
    && x.validator == r.offence.who && x.percentage == r.offence.fraction
    && x.reporters == r.offence.reporters && x.kind == r.offence.kind
    && (x.confirmed <==> cfg.deferDuration == 0)
  }

  ghost predicate AllFaithful(cfg: Config, records: seq<Record>, era: nat, slashes: seq<Slash>) {
    forall x :: x in slashes ==> Faithful(cfg, records, era, x)
  }

  ghost predicate QueueFaithful(cfg: Config, records: seq<Record>, q: Batches) {
    forall k :: 0 <= k < |q| ==> AllFaithful(cfg, records, q[k].era, q[k].body)
  }

  ghost predicate BucketsFaithful(cfg: Config, records: seq<Record>, buckets: Buckets) {
    forall era :: era in buckets ==> AllFaithful(cfg, records, era, buckets[era])
  }

  ghost predicate Consistent(cfg: Config, s: State) {
    var p := s.past;
    && |p.records| == s.nextId
    && StoresMax(s.fractions, p.charged, p.pruned)
    && MadeOnPeaks(p.records, p.charged, p.pruned)
    && Rising(p.records, s.fractions, p.pruned)
    && BucketsFaithful(cfg, p.records, s.buckets)
    && QueueFaithful(cfg, p.records, s.queue)
  }

  // ---- Charging ----

  function Raised(fractions: Fractions, era: nat, who: Account, fraction: nat): (r: Fractions) {
    if fraction > FractionOf(fractions, era, who) then fractions[(era, who) := fraction] else fractions
  }

  lemma ChargeStoresMax(fractions: Fractions, charged: seq<Offence>, pruned: set<nat>, x: Offence)
    requires StoresMax(fractions, charged, pruned)
    ensures StoresMax(Raised(fractions, x.era, x.who, x.fraction), charged + [x], pruned)
  {
    var after := Raised(fractions, x.era, x.who, x.fraction);
    assert (charged + [x])[..|charged|] == charged;
    forall e: nat, w: Account | e !in pruned ensures FractionOf(after, e, w) == MaxCharged(charged + [x], e, w) {
      assert FractionOf(fractions, e, w) == MaxCharged(charged, e, w);
    }
  }

  lemma ChargePeaks(records: seq<Record>, charged: seq<Offence>, pruned: set<nat>, fraction: nat, r: Record, x: Offence)
    requires MadeOnPeaks(records, charged, pruned) && r.offence == x
    requires x.era !in pruned ==> fraction == MaxCharged(charged, x.era, x.who)
    ensures MadeOnPeaks(if x.fraction > fraction then records + [r] else records, charged + [x], pruned)
  {
    var after := if x.fraction > fraction then records + [r] else records;
    assert (charged + [x])[..|charged|] == charged && (records + [r])[..|records|] == records;
    forall e: nat | e !in pruned ensures MadeFor(after, e) == Peaks(charged + [x], e) {
      assert MadeFor(records, e) == Peaks(charged, e);
      assert Peaks(charged, e) + [] == Peaks(charged, e) && MadeFor(records, e) + [] == MadeFor(records, e);
    }
  }

  lemma ChargeRises(records: seq<Record>, fractions: Fractions, pruned: set<nat>, r: Record)
    requires Rising(records, fractions, pruned)
    requires r.offence.fraction > FractionOf(fractions, r.offence.era, r.offence.who)
    ensures Rising(records + [r], fractions[(r.offence.era, r.offence.who) := r.offence.fraction], pruned)
  {
  }

  lemma MoreRecordsFaithful(cfg: Config, records: seq<Record>, r: Record, era: nat, slashes: seq<Slash>)
    requires AllFaithful(cfg, records, era, slashes)
    ensures AllFaithful(cfg, records + [r], era, slashes)
  {
  }

  lemma ChargeKeepsQueue(cfg: Config, records: seq<Record>, r: Record, q: Batches)
    requires QueueFaithful(cfg, records, q)
    ensures QueueFaithful(cfg, records + [r], q)
  {
    forall k | 0 <= k < |q| ensures AllFaithful(cfg, records + [r], q[k].era, q[k].body) {
      MoreRecordsFaithful(cfg, records, r, q[k].era, q[k].body);
    }
  }

  lemma ChargeKeepsBuckets(cfg: Config, records: seq<Record>, r: Record, buckets: Buckets, slash: Slash)
    requires BucketsFaithful(cfg, records, buckets) && Faithful(cfg, records + [r], r.bucket, slash)
    ensures BucketsFaithful(cfg, records + [r], buckets[r.bucket := BucketOf(buckets, r.bucket) + [slash]])
  {
    var after := buckets[r.bucket := BucketOf(buckets, r.bucket) + [slash]];
    forall e | e in after ensures AllFaithful(cfg, records + [r], e, after[e]) {
      MoreRecordsFaithful(cfg, records, r, e, BucketOf(buckets, e));
    }
  }

  lemma ChargeKeeps(cfg: Config, s: State, active: nat, x: Offence)
    requires Consistent(cfg, s)
    ensures Consistent(cfg, Charge(cfg, s, active, x))
  {
    var p, r := s.past, RecordOf(cfg, active, x);
    var before := FractionOf(s.fractions, x.era, x.who);
    ChargeStoresMax(s.fractions, p.charged, p.pruned, x);
    ChargePeaks(p.records, p.charged, p.pruned, before, r, x);
    if x.fraction > before {
      ChargeRises(p.records, s.fractions, p.pruned, r);
      var slash := Slash(s.nextId, x.who, x.fraction, cfg.deferDuration == 0, x.reporters, x.kind);
      ChargeKeepsBuckets(cfg, p.records, r, s.buckets, slash);
      ChargeKeepsQueue(cfg, p.records, r, s.queue);
    }
  }

  lemma {:induction false} ChargeOffendersKeeps(cfg: Config, s: State, active: nat, era: nat, session: nat,
                                                offenders: seq<Offender>, invulnerables: seq<Account>, n: nat)
    requires Consistent(cfg, s) && n <= |offenders|
    ensures Consistent(cfg, ChargeOffenders(cfg, s, active, era, session, offenders, invulnerables, n))
  {
    if n > 0 {
      ChargeOffendersKeeps(cfg, s, active, era, session, offenders, invulnerables, n - 1);
      var t := ChargeOffenders(cfg, s, active, era, session, offenders, invulnerables, n - 1);
      var o := offenders[n - 1];
      var key := (session, o.who);
      if key in t.pending {
        ChargeKeeps(cfg, t.(pending := t.pending - {key}), active,
                    Offence(era, o.who, o.fraction, o.reporters, t.pending[key], FromReport));
      }
    }
  }

  lemma ReportKeeps(cfg: Config, s: State, active: nat, activeStart: nat, r: Report, invulnerables: seq<Account>)
    requires Consistent(cfg, s)
    ensures Consistent(cfg, HandleReport(cfg, s, active, activeStart, r, invulnerables))
  {
    var era := SlashEra(s.bonded, active, activeStart, r.session);
    if era.Some? && r.handed.Some? {
      var offenders := r.handed.value;
      ChargeOffendersKeeps(cfg, Tagged(s, r), active, era.value, r.session, offenders, invulnerables, |offenders|);
    }
  }

  // ---- Moving slashes around ----

  lemma {:induction false} UnnamedMembers(slashes: seq<Slash>, indices: seq<nat>, n: nat)
    requires n <= |slashes|
    ensures forall x :: x in Unnamed(slashes, indices, n) ==> x in slashes
  {
    if n > 0 {
      UnnamedMembers(slashes, indices, n - 1);
    }
  }

  lemma CancelKeeps(cfg: Config, s: State, active: nat, era: nat, indices: seq<nat>)
    requires Consistent(cfg, s)
    ensures Consistent(cfg, CancelDeferred(cfg, s, active, era, indices).0)
  {
    var slashes := BucketOf(s.buckets, era);
    UnnamedMembers(slashes, indices, |slashes|);
    assert AllFaithful(cfg, s.past.records, era, slashes);
    assert AllFaithful(cfg, s.past.records, era, Unnamed(slashes, indices, |slashes|));
  }

  lemma BondKeeps(cfg: Config, s: State, b: Bonded, leftover: set<Account>)
    requires Consistent(cfg, s)
    ensures Consistent(cfg, Bond(cfg, s, b, leftover))
  {
    var t := Bond(cfg, s, b, leftover);
    forall era: nat, who: Account | era !in t.past.pruned
      ensures FractionOf(t.fractions, era, who) == FractionOf(s.fractions, era, who)
    {
    }
  }

  lemma {:induction false} EnqueuedFaithful(cfg: Config, records: seq<Record>, q: Batches, era: nat,
                                            slashes: seq<Slash>, size: nat)
    requires size >= 1 && AllFaithful(cfg, records, era, slashes) && QueueFaithful(cfg, records, q)
    ensures QueueFaithful(cfg, records, Enqueued(q, era, slashes, size).0)
    decreases |slashes|
  {
    if slashes != [] && |q| < MAX_ENTRIES {
      var n := if |slashes| <= size then |slashes| else size;
      var q' := q + [Entry(era, slashes[..n])];
      assert AllFaithful(cfg, records, era, slashes[..n]) && AllFaithful(cfg, records, era, slashes[n..]);
      EnqueuedFaithful(cfg, records, q', era, slashes[n..], size);
      assert Enqueued(q, era, slashes, size) == Enqueued(q', era, slashes[n..], size);
    }
  }

  lemma EraStartKeeps(cfg: Config, s: State, b: Bonded, leftover: set<Account>)
    requires Consistent(cfg, s)
    ensures Consistent(cfg, OnEraStart(cfg, s, b, leftover))
  {
    BondKeeps(cfg, s, b, leftover);
    var t := Bond(cfg, s, b, leftover);
    assert AllFaithful(cfg, t.past.records, b.era, BucketOf(t.buckets, b.era));
    EnqueuedFaithful(cfg, t.past.records, t.queue, b.era, BucketOf(t.buckets, b.era), BatchSize(cfg));
    var r := OnEraStart(cfg, s, b, leftover);
    assert r.queue == Enqueued(t.queue, b.era, BucketOf(t.buckets, b.era), BatchSize(cfg)).0;
  }

  lemma SendKeeps(cfg: Config, s: State, q: Batches, delivered: seq<nat>, messages: seq<Message>)
    requires Consistent(cfg, s) && forall k :: 0 <= k < |q| ==> q[k] in s.queue
    ensures Consistent(cfg, s.(queue := q, past := s.past.(delivered := delivered, messages := messages)))
  {
  }

  lemma InjectKeeps(cfg: Config, s: State, active: nat, era: nat, known: bool, who: Account, fraction: nat,
                    kind: OffenceKind)
    requires Consistent(cfg, s)
    ensures Consistent(cfg, ForceInject(cfg, s, active, era, known, who, fraction, kind).0)
  {
    ChargeKeeps(cfg, s, active, Offence(era, who, fraction, [], kind, FromInjection));
  }

  // ---- Whole runs ----

  lemma ApplyKeeps(cfg: Config, m: Machine, c: Call)
    requires Consistent(cfg, m.s)
    ensures Consistent(cfg, Apply(cfg, m, c).s)
  {
    match c
    case ReportOffence(activeStart, report, invulnerables) =>
      ReportKeeps(cfg, m.s, m.active, activeStart, report, invulnerables);
    case Inject(era, known, who, fraction, kind) => InjectKeeps(cfg, m.s, m.active, era, known, who, fraction, kind);
    case Cancel(era, indices) => CancelKeeps(cfg, m.s, m.active, era, indices);
    case NextEra(session, externalIndex, leftover) =>
      EraStartKeeps(cfg, m.s, Bonded(m.active + 1, session, externalIndex), leftover);
    case BlockStart(sent) =>
      var r := ProcessQueue(cfg, m.s, sent);
      SendKeeps(cfg, m.s, r.queue, r.past.delivered, r.past.messages);
    case ManualRetry(era, sent) =>
      var r := RetryUnsent(cfg, m.s, era, sent).0;
      SendKeeps(cfg, m.s, r.queue, r.past.delivered, r.past.messages);
    case SetMode(_) =>
  }

  lemma {:induction false} RunKeeps(cfg: Config, m: Machine, calls: seq<Call>)
    requires Consistent(cfg, m.s)
    ensures Consistent(cfg, ApplyAll(cfg, m, calls).s)
    decreases |calls|
  {
    if calls != [] {
      ApplyKeeps(cfg, m, calls[0]);
      RunKeeps(cfg, Apply(cfg, m, calls[0]), calls[1..]);
    }
  }

  lemma BootConsistent(cfg: Config, session: nat, externalIndex: nat)
    ensures Consistent(cfg, Boot(cfg, session, externalIndex).s)
  {
    var b := Boot(cfg, session, externalIndex);
    assert b.s.past == GENESIS.past && b.s.fractions == map[] && b.s.queue == [] && b.s.buckets == map[];
  }

  /** Max-in-era slashing over every run from genesis, across reports and injections, for an
      era that was not pruned: the stored fraction of a validator is the largest charged; the
      slashes made are those of the charges that exceeded all earlier ones, in order; of two
      slashes made for one validator the later has the larger percentage; and a slash in a
      bucket or in the queue is in every part the one that was made, under its own era. */
  lemma MaxInEra(cfg: Config, session: nat, externalIndex: nat, calls: seq<Call>, era: nat, who: Account,
                 i: nat, j: nat)
    requires era !in ApplyAll(cfg, Boot(cfg, session, externalIndex), calls).s.past.pruned
    ensures
      var s := ApplyAll(cfg, Boot(cfg, session, externalIndex), calls).s;
      var records := s.past.records;
      && FractionOf(s.fractions, era, who) == MaxCharged(s.past.charged, era, who)
      && MadeFor(records, era) == Peaks(s.past.charged, era)
      && |records| == s.nextId
      && (i < j < |records| && SamePair(records[i], records[j]) && records[i].offence.era == era ==>
            records[i].offence.fraction < records[j].offence.fraction)
      && BucketsFaithful(cfg, records, s.buckets)
      && QueueFaithful(cfg, records, s.queue)
  {
    var b := Boot(cfg, session, externalIndex);
    BootConsistent(cfg, session, externalIndex);
    RunKeeps(cfg, b, calls);
    var s := ApplyAll(cfg, b, calls).s;
  }
}
