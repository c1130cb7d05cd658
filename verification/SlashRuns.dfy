/**
 What holds over every run of the slashes pallet: where each slash id is, and what the
 stored fractions and the slash records mean.
 */
module SlashRuns {
  import opened Common
  import opened RetryQueue
  import opened Slashes

  // ---- Runs ----

  /** The pallet state with the era that is active. */
  datatype Machine = Machine(s: State, active: nat)

  datatype Call =
    | ReportOffence(activeStart: nat, report: Report, invulnerables: seq<Account>)
    | Inject(era: nat, known: bool, who: Account, fraction: nat, kind: OffenceKind)
    | Cancel(era: nat, indices: seq<nat>)
    | NextEra(session: nat, externalIndex: nat, leftover: set<Account>)
    | BlockStart(sent: bool)
    | ManualRetry(era: nat, sent: bool)
    | SetMode(mode: Mode)

  function Apply(cfg: Config, m: Machine, c: Call): (r: Machine) {
    match c
    case ReportOffence(activeStart, report, invulnerables) =>
      m.(s := HandleReport(cfg, m.s, m.active, activeStart, report, invulnerables))
    case Inject(era, known, who, fraction, kind) =>
      m.(s := ForceInject(cfg, m.s, m.active, era, known, who, fraction, kind).0)
    case Cancel(era, indices) => m.(s := CancelDeferred(cfg, m.s, m.active, era, indices).0)
    case NextEra(session, externalIndex, leftover) =>
      Machine(OnEraStart(cfg, m.s, Bonded(m.active + 1, session, externalIndex), leftover), m.active + 1)
    case BlockStart(sent) => m.(s := ProcessQueue(cfg, m.s, sent))
    case ManualRetry(era, sent) => m.(s := RetryUnsent(cfg, m.s, era, sent).0)
    case SetMode(mode) => m.(s := m.s.(mode := mode))
  }

  function ApplyAll(cfg: Config, m: Machine, calls: seq<Call>): (r: Machine)
    decreases |calls|
  {
    if calls == [] then m else ApplyAll(cfg, Apply(cfg, m, calls[0]), calls[1..])
  }

  function Boot(cfg: Config, session: nat, externalIndex: nat): (m: Machine) {
    Machine(OnEraStart(cfg, GENESIS, Bonded(0, session, externalIndex), {}), 0)
  }

  // ---- Where a slash is ----

  /** How often `id` occurs in the bucket of `era`. */
  ghost function InBucket(buckets: Buckets, era: nat, id: nat): (n: nat) {
    multiset(IdsOf(BucketOf(buckets, era)))[id]
  }

  /** How often `id` was delivered, is queued, or was left out of a full queue. */
  ghost function Handled(delivered: seq<nat>, queue: Batches, dropped: seq<nat>, id: nat): (n: nat) {
    multiset(delivered)[id] + multiset(QueuedIds(queue))[id] + multiset(dropped)[id]
  }

  /** `id` was put into the bucket of `era` and not cancelled. */
  ghost predicate Placed(records: seq<Record>, cancelled: set<nat>, era: nat, id: nat) {
    id < |records| && records[id].bucket == era && id !in cancelled
  }

  /** `id` was put into the bucket of an era that had not started yet, was not cancelled,
      and that era has started since. */
  ghost predicate Due(records: seq<Record>, cancelled: set<nat>, active: nat, id: nat) {
    id < |records| && id !in cancelled && records[id].activeThen < records[id].bucket <= active
  }

  /** Buckets of eras to come hold each slash placed there exactly once, and no other. */
  ghost predicate BucketsFit(buckets: Buckets, records: seq<Record>, cancelled: set<nat>, active: nat) {
    forall era: nat, id: nat {:trigger InBucket(buckets, era, id)} ::
      era > active ==> InBucket(buckets, era, id) == if Placed(records, cancelled, era, id) then 1 else 0
  }

  /** Every due slash is delivered, queued or dropped, exactly once in all; no other id is. */
  ghost predicate Accounted(delivered: seq<nat>, queue: Batches, dropped: seq<nat>,
                            records: seq<Record>, cancelled: set<nat>, active: nat)
  {
    forall id: nat {:trigger Handled(delivered, queue, dropped, id)} ::
      Handled(delivered, queue, dropped, id) == if Due(records, cancelled, active, id) then 1 else 0
  }

  /** A slash is left out only together with a queue-full event for its era. */
  ghost predicate DropsReported(dropped: seq<nat>, records: seq<Record>, queueFull: set<nat>) {
    forall id :: id in dropped ==> id < |records| && records[id].bucket in queueFull
  }

  ghost predicate RecordsFit(records: seq<Record>, cancelled: set<nat>, active: nat) {
    && (forall id :: 0 <= id < |records| ==> records[id].activeThen <= active)
    && (forall id :: id in cancelled ==> id < |records|)
  }

  ghost predicate Inv(s: State, active: nat) {
    var p := s.past;
    && |p.records| == s.nextId
    && RecordsFit(p.records, p.cancelled, active)
    && BucketsFit(s.buckets, p.records, p.cancelled, active)
    && Accounted(p.delivered, s.queue, p.dropped, p.records, p.cancelled, active)
    && DropsReported(p.dropped, p.records, p.queueFull)
  }

  // ---- Charging ----

  lemma IdsAppend(a: seq<Slash>, b: seq<Slash>)
    ensures IdsOf(a + b) == IdsOf(a) + IdsOf(b)
  {
  }

  lemma NewSlashFits(buckets: Buckets, records: seq<Record>, cancelled: set<nat>, active: nat, slash: Slash, r: Record)
    requires BucketsFit(buckets, records, cancelled, active) && RecordsFit(records, cancelled, active)
    requires slash.id == |records|
    ensures BucketsFit(buckets[r.bucket := BucketOf(buckets, r.bucket) + [slash]], records + [r], cancelled, active)
  {
    var added := buckets[r.bucket := BucketOf(buckets, r.bucket) + [slash]];
    IdsAppend(BucketOf(buckets, r.bucket), [slash]);
    assert IdsOf([slash]) == [slash.id];
    forall era: nat, id: nat | era > active
      ensures InBucket(added, era, id) == if Placed(records + [r], cancelled, era, id) then 1 else 0
    {
      assert InBucket(added, era, id) ==
             InBucket(buckets, era, id) + if era == r.bucket && id == slash.id then 1 else 0;
    }
  }

  lemma NewRecordAccounted(p: History, queue: Batches, active: nat, r: Record)
    requires Accounted(p.delivered, queue, p.dropped, p.records, p.cancelled, active)
    requires r.activeThen == active
    ensures Accounted(p.delivered, queue, p.dropped, p.records + [r], p.cancelled, active)
  {
  }

  lemma ChargeKeepsInv(cfg: Config, s: State, active: nat, x: Offence)
    requires Inv(s, active)
    ensures Inv(Charge(cfg, s, active, x), active)
  {
    var slash := Slash(s.nextId, x.who, x.fraction, cfg.deferDuration == 0, x.reporters, x.kind);
    var r := RecordOf(cfg, active, x);
    NewSlashFits(s.buckets, s.past.records, s.past.cancelled, active, slash, r);
    NewRecordAccounted(s.past, s.queue, active, r);
  }

  lemma {:induction false} ChargeOffendersKeepsInv(cfg: Config, s: State, active: nat, era: nat, session: nat,
                                                   offenders: seq<Offender>, invulnerables: seq<Account>, n: nat)
    requires Inv(s, active) && n <= |offenders|
    ensures Inv(ChargeOffenders(cfg, s, active, era, session, offenders, invulnerables, n), active)
  {
    if n > 0 {
      ChargeOffendersKeepsInv(cfg, s, active, era, session, offenders, invulnerables, n - 1);
      var t := ChargeOffenders(cfg, s, active, era, session, offenders, invulnerables, n - 1);
      var o := offenders[n - 1];
      var key := (session, o.who);
      if key in t.pending {
        ChargeKeepsInv(cfg, t.(pending := t.pending - {key}), active,
                       Offence(era, o.who, o.fraction, o.reporters, t.pending[key], FromReport));
      }
    }
  }

  lemma ReportKeepsInv(cfg: Config, s: State, active: nat, activeStart: nat, r: Report, invulnerables: seq<Account>)
    requires Inv(s, active)
    ensures Inv(HandleReport(cfg, s, active, activeStart, r, invulnerables), active)
  {
    var era := SlashEra(s.bonded, active, activeStart, r.session);
    if era.Some? && r.handed.Some? {
      var offenders := r.handed.value;
      ChargeOffendersKeepsInv(cfg, Tagged(s, r), active, era.value, r.session, offenders, invulnerables, |offenders|);
    }
  }

  // ---- Cancelling ----

  /** Each id of `all` is in one of the two parts. */
  ghost predicate Splits(all: seq<Slash>, kept: seq<Slash>, gone: seq<Slash>) {
    multiset(IdsOf(all)) == multiset(IdsOf(kept)) + multiset(IdsOf(gone))
  }

  lemma SplitsPush(all: seq<Slash>, kept: seq<Slash>, gone: seq<Slash>, x: Slash)
    requires Splits(all, kept, gone)
    ensures Splits(all + [x], kept + [x], gone) && Splits(all + [x], kept, gone + [x])
  {
    IdsAppend(all, [x]);
    IdsAppend(kept, [x]);
    IdsAppend(gone, [x]);
  }

  lemma SplitsStep(all: seq<Slash>, kept: seq<Slash>, gone: seq<Slash>, x: Slash, named: bool)
    requires Splits(all, kept, gone)
    ensures Splits(all + [x], kept + (if named then [] else [x]), gone + (if named then [x] else []))
  {
    SplitsPush(all, kept, gone, x);
    assert kept + [] == kept && gone + [] == gone;
  }

  lemma {:induction false} NamedSplits(slashes: seq<Slash>, indices: seq<nat>, n: nat)
    requires n <= |slashes|
    ensures Splits(slashes[..n], Unnamed(slashes, indices, n), Named(slashes, indices, n))
  {
    if n > 0 {
      NamedSplits(slashes, indices, n - 1);
      SplitsStep(slashes[..n - 1], Unnamed(slashes, indices, n - 1), Named(slashes, indices, n - 1), slashes[n - 1],
                 n - 1 in indices);
      assert slashes[..n] == slashes[..n - 1] + [slashes[n - 1]];
    }
  }

  lemma CancelFits(buckets: Buckets, records: seq<Record>, cancelled: set<nat>, active: nat, era: nat,
                   kept: seq<Slash>, gone: seq<Slash>)
    requires BucketsFit(buckets, records, cancelled, active) && era > active
    requires Splits(BucketOf(buckets, era), kept, gone)
    ensures BucketsFit(buckets[era := kept], records, cancelled + Members(IdsOf(gone)), active)
    ensures forall id :: id in IdsOf(gone) ==> Placed(records, cancelled, era, id)
  {
    var more := cancelled + Members(IdsOf(gone));
    forall e: nat, id: nat | e > active
      ensures InBucket(buckets[era := kept], e, id) == if Placed(records, more, e, id) then 1 else 0
    {
      assert InBucket(buckets, e, id) == if Placed(records, cancelled, e, id) then 1 else 0;
      assert InBucket(buckets, era, id) == if Placed(records, cancelled, era, id) then 1 else 0;
      assert id in IdsOf(gone) <==> multiset(IdsOf(gone))[id] > 0;
    }
    forall id | id in IdsOf(gone) ensures Placed(records, cancelled, era, id) {
      assert id in multiset(IdsOf(gone));
      assert InBucket(buckets, era, id) == if Placed(records, cancelled, era, id) then 1 else 0;
    }
  }

  lemma CancelKeepsInv(cfg: Config, s: State, active: nat, era: nat, indices: seq<nat>)
    requires Inv(s, active)
    ensures Inv(CancelDeferred(cfg, s, active, era, indices).0, active)
  {
    var (t, result) := CancelDeferred(cfg, s, active, era, indices);
    if result == Cancelled {
      var slashes := BucketOf(s.buckets, era);
      var kept, gone := Unnamed(slashes, indices, |slashes|), Named(slashes, indices, |slashes|);
      NamedSplits(slashes, indices, |slashes|);
      assert slashes[..|slashes|] == slashes;
      CancelFits(s.buckets, s.past.records, s.past.cancelled, active, era, kept, gone);
      CancelledNotDue(s.past, s.queue, active, era, IdsOf(gone));
    }
  }

  lemma CancelledNotDue(p: History, queue: Batches, active: nat, era: nat, gone: seq<nat>)
    requires Accounted(p.delivered, queue, p.dropped, p.records, p.cancelled, active) && era > active
    requires forall id :: id in gone ==> Placed(p.records, p.cancelled, era, id)
    ensures Accounted(p.delivered, queue, p.dropped, p.records, p.cancelled + Members(gone), active)
  {
  }

  // ---- Era start ----

  lemma BondKeepsInv(cfg: Config, s: State, active: nat, b: Bonded, leftover: set<Account>)
    requires Inv(s, active) && b.era == active + 1
    ensures Inv(Bond(cfg, s, b, leftover), active)
  {
    var t := Bond(cfg, s, b, leftover);
    if b.era > cfg.bondingDuration {
      CountBeforeStops(s.bonded + [b], b.era - cfg.bondingDuration);
    }
    forall era: nat, id: nat | era > active
      ensures InBucket(t.buckets, era, id) == if Placed(s.past.records, s.past.cancelled, era, id) then 1 else 0
    {
      assert BucketOf(t.buckets, era) == BucketOf(s.buckets, era);
      assert InBucket(t.buckets, era, id) == InBucket(s.buckets, era, id);
    }
  }

  lemma Associate(a: seq<nat>, b: seq<nat>, c: seq<nat>)
    ensures a + (b + c) == (a + b) + c
  {
  }

  lemma {:induction false} QueuedAppend(a: Batches, b: Batches)
    ensures QueuedIds(a + b) == QueuedIds(a) + QueuedIds(b)
  {
    if a == [] {
      assert a + b == b;
    } else {
      QueuedAppend(a[1..], b);
      assert (a + b)[0] == a[0] && (a + b)[1..] == a[1..] + b;
      Associate(IdsOf(a[0].body), QueuedIds(a[1..]), QueuedIds(b));
    }
  }

  lemma QueuedPush(q: Batches, e: Entry<seq<Slash>>)
    ensures QueuedIds(q + [e]) == QueuedIds(q) + IdsOf(e.body)
  {
    QueuedAppend(q, [e]);
    assert [e][1..] == [] && QueuedIds([e]) == IdsOf(e.body) + [];
  }

  /** Queueing in batches loses nothing: what was offered is queued in order or left over,
      and something is left over only in front of a full queue. */
  lemma {:induction false} EnqueuedKeepsAll(q: Batches, era: nat, slashes: seq<Slash>, size: nat)
    requires size >= 1 && |q| <= MAX_ENTRIES
    ensures
      var (r, rest) := Enqueued(q, era, slashes, size);
      && QueuedIds(r) + IdsOf(rest) == QueuedIds(q) + IdsOf(slashes)
      && |rest| <= |slashes| && rest == slashes[|slashes| - |rest|..]
      && (rest != [] ==> |r| == MAX_ENTRIES)
    decreases |slashes|
  {
    if slashes != [] && |q| < MAX_ENTRIES {
      var n := if |slashes| <= size then |slashes| else size;
      var first, later := slashes[..n], slashes[n..];
      EnqueuedKeepsAll(q + [Entry(era, first)], era, later, size);
      QueuedPush(q, Entry(era, first));
      IdsAppend(first, later);
      assert slashes == first + later;
      Associate(QueuedIds(q), IdsOf(first), IdsOf(later));
    }
  }

  lemma StartedAccounted(p: History, buckets: Buckets, queue: Batches, active: nat, queue': Batches, rest: seq<nat>)
    requires Accounted(p.delivered, queue, p.dropped, p.records, p.cancelled, active)
    requires BucketsFit(buckets, p.records, p.cancelled, active) && RecordsFit(p.records, p.cancelled, active)
    requires QueuedIds(queue') + rest == QueuedIds(queue) + IdsOf(BucketOf(buckets, active + 1))
    ensures Accounted(p.delivered, queue', p.dropped + rest, p.records, p.cancelled, active + 1)
  {
    forall id: nat
      ensures Handled(p.delivered, queue', p.dropped + rest, id) ==
              if Due(p.records, p.cancelled, active + 1, id) then 1 else 0
    {
      var due := IdsOf(BucketOf(buckets, active + 1));
      assert Handled(p.delivered, queue, p.dropped, id) == if Due(p.records, p.cancelled, active, id) then 1 else 0;
      assert InBucket(buckets, active + 1, id) == if Placed(p.records, p.cancelled, active + 1, id) then 1 else 0;
      assert multiset(QueuedIds(queue') + rest)[id] == multiset(QueuedIds(queue) + due)[id];
      assert multiset(p.dropped + rest)[id] == multiset(p.dropped)[id] + multiset(rest)[id];
    }
  }

  lemma LeftoverPlaced(buckets: Buckets, records: seq<Record>, cancelled: set<nat>, active: nat, rest: seq<Slash>)
    requires BucketsFit(buckets, records, cancelled, active)
    requires
      var slashes := BucketOf(buckets, active + 1);
      |rest| <= |slashes| && rest == slashes[|slashes| - |rest|..]
    ensures forall id :: id in IdsOf(rest) ==> Placed(records, cancelled, active + 1, id)
  {
    var slashes := BucketOf(buckets, active + 1);
    forall id | id in IdsOf(rest) ensures Placed(records, cancelled, active + 1, id) {
      var i :| 0 <= i < |rest| && IdsOf(rest)[i] == id;
      assert IdsOf(slashes)[|slashes| - |rest| + i] == id;
      assert id in multiset(IdsOf(slashes));
      assert InBucket(buckets, active + 1, id) == if Placed(records, cancelled, active + 1, id) then 1 else 0;
    }
  }

  /** What no batch took is reported with the era. */
  lemma DropsGrow(p: History, era: nat, rest: seq<Slash>)
    requires DropsReported(p.dropped, p.records, p.queueFull)
    requires forall id :: id in IdsOf(rest) ==> Placed(p.records, p.cancelled, era, id)
    ensures DropsReported(p.dropped + IdsOf(rest), p.records, if rest == [] then p.queueFull else p.queueFull + {era})
  {
  }

  lemma StartedInv(t: State, active: nat, q: Batches, rest: seq<Slash>)
    requires Inv(t, active)
    requires
      var slashes := BucketOf(t.buckets, active + 1);
      && QueuedIds(q) + IdsOf(rest) == QueuedIds(t.queue) + IdsOf(slashes)
      && |rest| <= |slashes| && rest == slashes[|slashes| - |rest|..]
    ensures
      var p := t.past.(dropped := t.past.dropped + IdsOf(rest),
                       queueFull := if rest == [] then t.past.queueFull else t.past.queueFull + {active + 1});
      Inv(t.(queue := q, past := p), active + 1)
  {
    StartedAccounted(t.past, t.buckets, t.queue, active, q, IdsOf(rest));
    LeftoverPlaced(t.buckets, t.past.records, t.past.cancelled, active, rest);
    DropsGrow(t.past, active + 1, rest);
  }

  lemma QueueingKeepsInv(cfg: Config, t: State, active: nat)
    requires Inv(t, active) && |t.queue| <= MAX_ENTRIES
    ensures Inv(AddEraSlashesToQueue(cfg, t, active + 1), active + 1)
  {
    var slashes := BucketOf(t.buckets, active + 1);
    var (q, rest) := Enqueued(t.queue, active + 1, slashes, BatchSize(cfg));
    EnqueuedKeepsAll(t.queue, active + 1, slashes, BatchSize(cfg));
    StartedInv(t, active, q, rest);
  }

  lemma EraStartKeepsInv(cfg: Config, s: State, active: nat, b: Bonded, leftover: set<Account>)
    requires Inv(s, active) && b.era == active + 1 && |s.queue| <= MAX_ENTRIES
    ensures Inv(OnEraStart(cfg, s, b, leftover), active + 1)
  {
    BondKeepsInv(cfg, s, active, b, leftover);
    QueueingKeepsInv(cfg, Bond(cfg, s, b, leftover), active);
  }

  // ---- Sending ----

  lemma SendKeepsInv(s: State, active: nat, q: Batches, sent: seq<nat>, messages: seq<Message>)
    requires Inv(s, active)
    requires multiset(QueuedIds(s.queue)) == multiset(QueuedIds(q)) + multiset(sent)
    ensures Inv(s.(queue := q, past := s.past.(delivered := s.past.delivered + sent, messages := messages)), active)
  {
    var p := s.past;
    forall id: nat
      ensures Handled(p.delivered + sent, q, p.dropped, id) == if Due(p.records, p.cancelled, active, id) then 1 else 0
    {
      assert Handled(p.delivered, s.queue, p.dropped, id) == if Due(p.records, p.cancelled, active, id) then 1 else 0;
      assert multiset(p.delivered + sent)[id] == multiset(p.delivered)[id] + multiset(sent)[id];
    }
  }

  lemma BlockKeepsInv(cfg: Config, s: State, active: nat, sent: bool)
    requires Inv(s, active)
    ensures Inv(ProcessQueue(cfg, s, sent), active)
  {
    if s.queue != [] {
      var q, first := s.queue[1..], s.queue[0];
      assert QueuedIds(s.queue) == IdsOf(first.body) + QueuedIds(q);
      if sent {
        SendKeepsInv(s, active, q, IdsOf(first.body), s.past.messages + [MessageOf(cfg, first)]);
      } else {
        QueuedAppend(q, [first]);
        assert [first][1..] == [] && QueuedIds([first]) == IdsOf(first.body) + [];
        SendKeepsInv(s, active, Rotated(s.queue), [], s.past.messages);
        assert s.past.delivered + [] == s.past.delivered;
      }
    }
  }

  lemma RemovedIds(q: Batches, i: nat)
    requires i < |q|
    ensures multiset(QueuedIds(q)) == multiset(QueuedIds(RemovedAt(q, i))) + multiset(IdsOf(q[i].body))
  {
    assert q == q[..i] + q[i..] && q[i..] == [q[i]] + q[i + 1..];
    QueuedAppend(q[..i], q[i..]);
    QueuedAppend(q[..i], q[i + 1..]);
    assert QueuedIds(q[i..]) == IdsOf(q[i].body) + QueuedIds(q[i + 1..]);
  }

  lemma RetryKeepsInv(cfg: Config, s: State, active: nat, era: nat, sent: bool)
    requires Inv(s, active)
    ensures Inv(RetryUnsent(cfg, s, era, sent).0, active)
  {
    var found := IndexOfEra(s.queue, era);
    if found.Some? && sent {
      RemovedIds(s.queue, found.value);
      var e := s.queue[found.value];
      SendKeepsInv(s, active, RemovedAt(s.queue, found.value), IdsOf(e.body), s.past.messages + [MessageOf(cfg, e)]);
    }
  }

  // ---- Whole runs ----

  lemma InjectKeepsInv(cfg: Config, s: State, active: nat, era: nat, known: bool, who: Account, fraction: nat,
                       kind: OffenceKind)
    requires Inv(s, active)
    ensures Inv(ForceInject(cfg, s, active, era, known, who, fraction, kind).0, active)
  {
    ChargeKeepsInv(cfg, s, active, Offence(era, who, fraction, [], kind, FromInjection));
  }

  lemma ModeKeepsInv(s: State, active: nat, mode: Mode)
    requires Inv(s, active)
    ensures Inv(s.(mode := mode), active)
  {
  }

  lemma HookKeepsInv(cfg: Config, m: Machine, c: Call)
    requires Inv(m.s, m.active) && |m.s.queue| <= MAX_ENTRIES
    requires c.BlockStart? || c.ManualRetry? || c.SetMode?
    ensures Inv(Apply(cfg, m, c).s, Apply(cfg, m, c).active)
  {
    match c
    case BlockStart(sent) => BlockKeepsInv(cfg, m.s, m.active, sent);
    case ManualRetry(era, sent) => RetryKeepsInv(cfg, m.s, m.active, era, sent);
    case SetMode(mode) => ModeKeepsInv(m.s, m.active, mode);
  }

  lemma NextEraKeepsInv(cfg: Config, m: Machine, c: Call)
    requires Inv(m.s, m.active) && |m.s.queue| <= MAX_ENTRIES && c.NextEra?
    ensures Inv(Apply(cfg, m, c).s, Apply(cfg, m, c).active)
  {
    EraStartKeepsInv(cfg, m.s, m.active, Bonded(m.active + 1, c.session, c.externalIndex), c.leftover);
  }

  lemma LedgerCallKeepsInv(cfg: Config, m: Machine, c: Call)
    requires Inv(m.s, m.active) && (c.ReportOffence? || c.Inject? || c.Cancel?)
    ensures Inv(Apply(cfg, m, c).s, Apply(cfg, m, c).active)
  {
    match c
    case ReportOffence(activeStart, report, invulnerables) =>
      ReportKeepsInv(cfg, m.s, m.active, activeStart, report, invulnerables);
    case Inject(era, known, who, fraction, kind) => InjectKeepsInv(cfg, m.s, m.active, era, known, who, fraction, kind);
    case Cancel(era, indices) => CancelKeepsInv(cfg, m.s, m.active, era, indices);
  }

  lemma ApplyKeepsInv(cfg: Config, m: Machine, c: Call)
    requires Inv(m.s, m.active) && |m.s.queue| <= MAX_ENTRIES
    ensures Inv(Apply(cfg, m, c).s, Apply(cfg, m, c).active)
  {
    if c.NextEra? {
      NextEraKeepsInv(cfg, m, c);
    } else if c.BlockStart? || c.ManualRetry? || c.SetMode? {
      HookKeepsInv(cfg, m, c);
    } else {
      LedgerCallKeepsInv(cfg, m, c);
    }
  }

  lemma {:induction false} ChargesKeepRest(cfg: Config, s: State, active: nat, era: nat, session: nat,
                                            offenders: seq<Offender>, invulnerables: seq<Account>, n: nat)
    requires n <= |offenders|
    ensures var r := ChargeOffenders(cfg, s, active, era, session, offenders, invulnerables, n);
      && r.queue == s.queue && r.bonded == s.bonded && r.mode == s.mode
      && r.past.delivered == s.past.delivered && r.past.messages == s.past.messages
  {
    if n > 0 {
      ChargesKeepRest(cfg, s, active, era, session, offenders, invulnerables, n - 1);
    }
  }

  lemma ReportKeepsRest(cfg: Config, s: State, active: nat, activeStart: nat, r: Report, invulnerables: seq<Account>)
    ensures var t := HandleReport(cfg, s, active, activeStart, r, invulnerables);
      && t.queue == s.queue && t.bonded == s.bonded && t.mode == s.mode
      && t.past.delivered == s.past.delivered && t.past.messages == s.past.messages
  {
    var era := SlashEra(s.bonded, active, activeStart, r.session);
    if era.Some? && r.handed.Some? {
      var offenders := r.handed.value;
      ChargesKeepRest(cfg, Tagged(s, r), active, era.value, r.session, offenders, invulnerables, |offenders|);
    }
  }

  lemma ApplyKeepsBound(cfg: Config, m: Machine, c: Call)
    requires |m.s.queue| <= MAX_ENTRIES
    ensures |Apply(cfg, m, c).s.queue| <= MAX_ENTRIES
  {
    if c.ReportOffence? {
      ReportKeepsRest(cfg, m.s, m.active, c.activeStart, c.report, c.invulnerables);
    }
  }

  lemma ApplyKeepsBonded(cfg: Config, m: Machine, c: Call)
    requires !c.NextEra?
    ensures Apply(cfg, m, c).s.bonded == m.s.bonded
  {
    if c.ReportOffence? {
      ReportKeepsRest(cfg, m.s, m.active, c.activeStart, c.report, c.invulnerables);
    }
  }

  lemma {:induction false} RunKeepsInv(cfg: Config, m: Machine, calls: seq<Call>)
    requires Inv(m.s, m.active) && |m.s.queue| <= MAX_ENTRIES
    ensures var r := ApplyAll(cfg, m, calls); Inv(r.s, r.active) && |r.s.queue| <= MAX_ENTRIES
    decreases |calls|
  {
    if calls != [] {
      ApplyKeepsInv(cfg, m, calls[0]);
      ApplyKeepsBound(cfg, m, calls[0]);
      RunKeepsInv(cfg, Apply(cfg, m, calls[0]), calls[1..]);
    }
  }

  lemma BootInv(cfg: Config, session: nat, externalIndex: nat)
    ensures var m := Boot(cfg, session, externalIndex); Inv(m.s, m.active) && m.s.queue == []
  {
  }

  // ---- Bounded retry ----

  /** The batches that `after` has on top of `before`: of one era, none empty, and all but the
      last of the full size. */
  ghost predicate Extends(before: Batches, after: Batches, era: nat, size: nat) {
    && before <= after
    && (forall k :: |before| <= k < |after| ==> after[k].era == era && 1 <= |after[k].body| <= size)
    && (forall k :: |before| <= k < |after| - 1 ==> |after[k].body| == size)
  }

  lemma {:induction false} EnqueuedExtends(q: Batches, era: nat, slashes: seq<Slash>, size: nat)
    requires size >= 1
    ensures Extends(q, Enqueued(q, era, slashes, size).0, era, size)
    decreases |slashes|
  {
    if slashes != [] && |q| < MAX_ENTRIES {
      var n := if |slashes| <= size then |slashes| else size;
      var first := q + [Entry(era, slashes[..n])];
      var r := Enqueued(first, era, slashes[n..], size).0;
      EnqueuedExtends(first, era, slashes[n..], size);
      assert r == Enqueued(q, era, slashes, size).0 && r[|q|] == first[|q|];
      assert slashes[n..] == [] ==> r == first;
    }
  }

  function BlockStarts(calls: seq<Call>): (n: nat) {
    if calls == [] then 0 else (if calls[0].BlockStart? then 1 else 0) + BlockStarts(calls[1..])
  }

  /** Some block of the run finds the batch `e` at the head of the queue and attempts it. */
  ghost predicate Tried(cfg: Config, m: Machine, calls: seq<Call>, e: Entry<seq<Slash>>)
    decreases |calls|
  {
    calls != [] &&
    ((calls[0].BlockStart? && m.s.queue != [] && m.s.queue[0] == e) ||
     Tried(cfg, Apply(cfg, m, calls[0]), calls[1..], e))
  }

  function MostPerBatch(cfg: Config): (n: nat) {
    if cfg.batchSize > 1 then cfg.batchSize else 1
  }

  /** An era start queues its slashes in batches of the configured size, or one by one. */
  lemma EraStartExtends(cfg: Config, s: State, b: Bonded, leftover: set<Account>)
    ensures Extends(s.queue, OnEraStart(cfg, s, b, leftover).queue, b.era, MostPerBatch(cfg))
  {
    EnqueuedExtends(s.queue, b.era, BucketOf(Bond(cfg, s, b, leftover).buckets, b.era), BatchSize(cfg));
  }

  /** What a call does to the queue: an era start extends it with batches of the new era,
      and every other call is one step on it. */
  lemma CallOnQueue(cfg: Config, m: Machine, c: Call) returns (op: Op<seq<Slash>>)
    ensures !c.NextEra? ==>
      !op.Enqueue? && Apply(cfg, m, c).s.queue == Step(m.s.queue, op) && (op.Block? <==> c.BlockStart?)
    ensures c.NextEra? ==> Extends(m.s.queue, Apply(cfg, m, c).s.queue, m.active + 1, MostPerBatch(cfg))
  {
    op := Idle;
    match c
    case ReportOffence(activeStart, report, invulnerables) =>
      ReportKeepsRest(cfg, m.s, m.active, activeStart, report, invulnerables);
    case BlockStart(sent) => op := Block(sent);
    case ManualRetry(era, sent) => op := Retry(era, sent);
    case NextEra(session, externalIndex, leftover) =>
      EraStartExtends(cfg, m.s, Bonded(m.active + 1, session, externalIndex), leftover);
    case _ =>
  }

  lemma {:induction false} DoneStaysDone(cfg: Config, m: Machine, calls: seq<Call>, e: Entry<seq<Slash>>)
    requires e !in m.s.queue && e.era <= m.active
    ensures e !in ApplyAll(cfg, m, calls).s.queue
    decreases |calls|
  {
    if calls != [] {
      var op := CallOnQueue(cfg, m, calls[0]);
      if !calls[0].NextEra? {
        StepKeepsGone(m.s.queue, op, e);
      }
      DoneStaysDone(cfg, Apply(cfg, m, calls[0]), calls[1..], e);
    }
  }

  /** A queued batch at distance `i` from the head is sent or attempted, or has left the
      queue, within `i + 1` blocks, whatever era starts and manual retries fall in between. */
  lemma {:induction false} RetriedWithinDistance(cfg: Config, m: Machine, calls: seq<Call>, i: nat,
                                                 e: Entry<seq<Slash>>)
    requires OnlyAt(m.s.queue, i, e) && e.era <= m.active && BlockStarts(calls) >= i + 1
    ensures Tried(cfg, m, calls, e) || e !in ApplyAll(cfg, m, calls).s.queue
    decreases |calls|
  {
    var r := Apply(cfg, m, calls[0]);
    var op := CallOnQueue(cfg, m, calls[0]);
    if calls[0].NextEra? {
      RetriedWithinDistance(cfg, r, calls[1..], i, e);
    } else if !(calls[0].BlockStart? && i == 0) {
      var j := StepMovesForward(m.s.queue, op, i, e);
      if e in r.s.queue {
        RetriedWithinDistance(cfg, r, calls[1..], j, e);
      } else {
        DoneStaysDone(cfg, r, calls[1..], e);
      }
    }
  }

  /** Every batch is of an era that has started, and within the limits of a batch. */
  ghost predicate Filled(cfg: Config, q: Batches, active: nat) {
    forall k :: 0 <= k < |q| ==> 1 <= |q[k].body| <= MostPerBatch(cfg) && q[k].era <= active
  }

  lemma CallKeepsFilled(cfg: Config, m: Machine, c: Call)
    requires Filled(cfg, m.s.queue, m.active)
    ensures var r := Apply(cfg, m, c); Filled(cfg, r.s.queue, r.active)
  {
    var q, r := m.s.queue, Apply(cfg, m, c);
    var op := CallOnQueue(cfg, m, c);
    if !c.NextEra? {
      forall e | e !in q ensures e !in r.s.queue {
        StepKeepsGone(q, op, e);
      }
      assert forall k :: 0 <= k < |r.s.queue| ==> r.s.queue[k] in q;
    }
  }

  lemma {:induction false} RunKeepsFilled(cfg: Config, m: Machine, calls: seq<Call>)
    requires Filled(cfg, m.s.queue, m.active)
    ensures var r := ApplyAll(cfg, m, calls); Filled(cfg, r.s.queue, r.active)
    decreases |calls|
  {
    if calls != [] {
      CallKeepsFilled(cfg, m, calls[0]);
      RunKeepsFilled(cfg, Apply(cfg, m, calls[0]), calls[1..]);
    }
  }

  /** The size of the batches, over every run from genesis. */
  lemma BatchesWithinLimits(cfg: Config, session: nat, externalIndex: nat, calls: seq<Call>)
    ensures var m := ApplyAll(cfg, Boot(cfg, session, externalIndex), calls); Filled(cfg, m.s.queue, m.active)
  {
    BootInv(cfg, session, externalIndex);
    RunKeepsFilled(cfg, Boot(cfg, session, externalIndex), calls);
  }

  /** Every batch of the queue that holds `id` counts. */
  lemma {:induction false} QueuedIn(q: Batches, j: nat, id: nat)
    requires j < |q| && id in IdsOf(q[j].body)
    ensures multiset(QueuedIds(q))[id] >= 1
  {
    if j > 0 {
      QueuedIn(q[1..], j - 1, id);
    }
  }

  lemma {:induction false} QueuedTwice(q: Batches, i: nat, j: nat, id: nat)
    requires i < j < |q| && id in IdsOf(q[i].body) && id in IdsOf(q[j].body)
    ensures multiset(QueuedIds(q))[id] >= 2
  {
    if i == 0 {
      QueuedIn(q[1..], j - 1, id);
    } else {
      QueuedTwice(q[1..], i - 1, j - 1, id);
    }
  }

  /** No batch is in the queue twice. */
  lemma BatchesDistinct(p: History, q: Batches, active: nat, i: nat, j: nat)
    requires Accounted(p.delivered, q, p.dropped, p.records, p.cancelled, active)
    requires i < j < |q| && q[i].body != []
    ensures q[i] != q[j]
  {
    var id := IdsOf(q[i].body)[0];
    assert Handled(p.delivered, q, p.dropped, id) <= 1;
    if q[i] == q[j] {
      QueuedTwice(q, i, j, id);
    }
  }

  /** Bounded retry in every reachable state: each queued batch is attempted, or has left the
      queue, within as many blocks as it has batches up to it. */
  lemma RetryFairness(cfg: Config, session: nat, externalIndex: nat, calls: seq<Call>, more: seq<Call>, i: nat)
    requires
      var m := ApplyAll(cfg, Boot(cfg, session, externalIndex), calls);
      i < |m.s.queue| && BlockStarts(more) >= i + 1
    ensures
      var m := ApplyAll(cfg, Boot(cfg, session, externalIndex), calls);
      Tried(cfg, m, more, m.s.queue[i]) || m.s.queue[i] !in ApplyAll(cfg, m, more).s.queue
  {
    var b := Boot(cfg, session, externalIndex);
    BootInv(cfg, session, externalIndex);
    RunKeepsInv(cfg, b, calls);
    RunKeepsFilled(cfg, b, calls);
    var m := ApplyAll(cfg, b, calls);
    forall j, k | 0 <= j < k < |m.s.queue| ensures m.s.queue[j] != m.s.queue[k] {
      BatchesDistinct(m.s.past, m.s.queue, m.active, j, k);
    }
    RetriedWithinDistance(cfg, m, more, i, m.s.queue[i]);
  }
}
