/**
 The external-validator-slashes pallet as a state machine: offences become slash records
 in the bucket of a later era, and the bucket is queued for sending when that era starts.
 */
module Slashes {
  import opened Common
  import opened RetryQueue

  datatype OffenceKind =
    | LivenessOffence | BabeEquivocation | GrandpaEquivocation | BeefyEquivocation | Custom(text: string)

  /** `percentage` is in parts of a billion. */
  datatype Slash = Slash(id: nat, validator: Account, percentage: nat, confirmed: bool,
                         reporters: seq<Account>, kind: OffenceKind)

  datatype Bonded = Bonded(era: nat, session: nat, externalIndex: nat)

  datatype Mode = Enabled | LogOnly | Disabled

  /** `maxWad` is what slashing all of a stake would take, in wad units. */
  datatype Config = Config(deferDuration: nat, bondingDuration: nat, batchSize: nat, maxWad: nat)

  /** Slashes are made by offence reports and by the root call that injects one. */
  datatype Origin = FromReport | FromInjection

  /** One validator charged with a fraction in an era. */
  datatype Offence = Offence(era: nat, who: Account, fraction: nat, reporters: seq<Account>,
                             kind: OffenceKind, origin: Origin)

  /** History of a created slash: what was charged, the bucket it went to and the era that was
      active then. The index of a record is the slash id. */
  datatype Record = Record(offence: Offence, bucket: nat, activeThen: nat)

  /** A slash as it is sent. */
  datatype SlashData = SlashData(validator: Account, wad: nat, description: string)

  /** History of a message that was delivered, with the ids of the slashes in it. */
  datatype Message = Message(era: nat, ids: seq<nat>, data: seq<SlashData>)

  datatype History = History(
    records: seq<Record>,
    charged: seq<Offence>,
    pruned: set<nat>,
    cancelled: set<nat>,
    delivered: seq<nat>,
    messages: seq<Message>,
    dropped: seq<nat>,
    queueFull: set<nat>)

  type Fractions = map<(nat, Account), nat>
  type Buckets = map<nat, seq<Slash>>
  type Batches = Queue<seq<Slash>>

  datatype State = State(
    bonded: seq<Bonded>,
    fractions: Fractions,
    nextId: nat,
    buckets: Buckets,
    queue: Batches,
    mode: Mode,
    pending: map<(nat, Account), OffenceKind>,
    past: History)

  const GENESIS := State([], map[], 0, map[], [], Enabled, map[], History([], [], {}, {}, [], [], [], {}))

  function BucketOf(buckets: Buckets, era: nat): (r: seq<Slash>) {
    if era in buckets then buckets[era] else []
  }

  function FractionOf(fractions: Fractions, era: nat, who: Account): (f: nat) {
    if (era, who) in fractions then fractions[(era, who)] else 0
  }

  function IdsOf(slashes: seq<Slash>): (r: seq<nat>)
    ensures |r| == |slashes|
  {
    seq(|slashes|, i requires 0 <= i < |slashes| => slashes[i].id)
  }

  function Members(ids: seq<nat>): (r: set<nat>) {
    set id | id in ids
  }

  /** The ids in a queue, batch after batch. */
  function QueuedIds(q: Batches): (r: seq<nat>) {
    if q == [] then [] else IdsOf(q[0].body) + QueuedIds(q[1..])
  }

  // ---- Charging an offence ----

  /** The charged era is not too far back for its slash to be sent, with `active` the era of
      the call. Reports that are not deferred always are on time. */
  predicate OnTime(cfg: Config, active: nat, era: nat, origin: Origin) {
    (origin.FromReport? && cfg.deferDuration == 0) || era + cfg.deferDuration >= active
  }

  /** The era at whose start a slash is queued: still to come exactly when it is on time. */
  function BucketFor(cfg: Config, active: nat, era: nat, origin: Origin): (bucket: nat)
    ensures bucket > active <==> OnTime(cfg, active, era, origin)
  {
    if origin.FromReport? && cfg.deferDuration == 0 then active + 1 else era + cfg.deferDuration + 1
  }

  function RecordOf(cfg: Config, active: nat, x: Offence): (r: Record) {
    Record(x, BucketFor(cfg, active, x.era, x.origin), active)
  }

  /** A slash is made, with the next id, only above the largest fraction charged so far. */
  function Charge(cfg: Config, s: State, active: nat, x: Offence): (r: State) {
    var past := s.past.(charged := s.past.charged + [x]);
    if x.fraction <= FractionOf(s.fractions, x.era, x.who) then s.(past := past)
    else
      var record := RecordOf(cfg, active, x);
      var slash := Slash(s.nextId, x.who, x.fraction, cfg.deferDuration == 0, x.reporters, x.kind);
      s.(fractions := s.fractions[(x.era, x.who) := x.fraction],
         buckets := s.buckets[record.bucket := BucketOf(s.buckets, record.bucket) + [slash]],
         nextId := s.nextId + 1,
         past := past.(records := past.records + [record]))
  }

  datatype Offender = Offender(who: Account, reporters: seq<Account>, fraction: nat)

  /** The era in force at `session`: the active one, or the latest bonded era that had
      started by then; nothing when the session is before all bonded eras. */
  function SlashEra(bonded: seq<Bonded>, active: nat, activeStart: nat, session: nat): (r: Option<nat>) {
    if session >= activeStart then Some(active) else LatestStarted(bonded, session)
  }

  function LatestStarted(bonded: seq<Bonded>, session: nat): (r: Option<nat>) {
    if bonded == [] then None
    else
      var last := bonded[|bonded| - 1];
      if last.session <= session then Some(last.era) else LatestStarted(bonded[..|bonded| - 1], session)
  }

  /** One offender of a report. The pending offence kind is consumed in any case. */
  function ChargeOffender(cfg: Config, s: State, active: nat, era: nat, session: nat,
                          o: Offender, invulnerables: seq<Account>): (r: State)
  {
    var key := (session, o.who);
    if key !in s.pending then s
    else
      var t := s.(pending := s.pending - {key});
      if o.who in invulnerables || s.mode == LogOnly then t
      else Charge(cfg, t, active, Offence(era, o.who, o.fraction, o.reporters, s.pending[key], FromReport))
  }

  function ChargeOffenders(cfg: Config, s: State, active: nat, era: nat, session: nat,
                           offenders: seq<Offender>, invulnerables: seq<Account>, n: nat): (r: State)
    requires n <= |offenders|
  {
    if n == 0 then s
    else ChargeOffender(cfg, ChargeOffenders(cfg, s, active, era, session, offenders, invulnerables, n - 1),
                        active, era, session, offenders[n - 1], invulnerables)
  }

  function OnOffence(cfg: Config, s: State, active: nat, activeStart: nat, session: nat,
                     offenders: seq<Offender>, invulnerables: seq<Account>): (r: State)
  {
    if s.mode == Disabled then s
    else match SlashEra(s.bonded, active, activeStart, session)
      case None => s
      case Some(era) => ChargeOffenders(cfg, s, active, era, session, offenders, invulnerables, |offenders|)
  }

  /** A report names the accounts to tag. `handed` is what the offences pallet passes on to
      the handler, a list of its own, or nothing when it rejects the report. */
  datatype Report = Report(session: nat, named: seq<Account>, kind: OffenceKind, handed: Option<seq<Offender>>)

  function Keys(session: nat, named: seq<Account>): (keys: set<(nat, Account)>) {
    set who | who in named :: (session, who)
  }

  function Tagged(s: State, r: Report): (t: State) {
    s.(pending := s.pending + map key | key in Keys(r.session, r.named) :: r.kind)
  }

  /** `EquivocationReportWrapper`: reports from before the bonded eras are discarded; the
      others are tagged with their kind before they are handed on, and untagged again when
      the offences pallet rejects them. */
  function HandleReport(cfg: Config, s: State, active: nat, activeStart: nat, r: Report,
                        invulnerables: seq<Account>): (t: State)
  {
    if s.bonded == [] || r.session < s.bonded[0].session then s
    else match r.handed
      case Some(offenders) => OnOffence(cfg, Tagged(s, r), active, activeStart, r.session, offenders, invulnerables)
      case None => s.(pending := s.pending - Keys(r.session, r.named))
  }

  datatype InjectResult = Injected | ProvidedFutureEra | ProvidedNonSlashableEra | ErrorComputingSlash

  /** `known` says whether the era's start session is still stored. */
  function ForceInject(cfg: Config, s: State, active: nat, era: nat, known: bool, who: Account, fraction: nat,
                       kind: OffenceKind): (r: (State, InjectResult))
  {
    if era > active then (s, ProvidedFutureEra)
    else if !known then (s, ProvidedNonSlashableEra)
    else if fraction <= FractionOf(s.fractions, era, who) then (s, ErrorComputingSlash)
    else (Charge(cfg, s, active, Offence(era, who, fraction, [], kind, FromInjection)), Injected)
  }

  // ---- Cancelling ----

  predicate SortedAndUnique(list: seq<nat>) {
    forall i :: 0 <= i < |list| - 1 ==> list[i] < list[i + 1]
  }

  /** The slashes at positions below `n` that `indices` does not name, in order. */
  function Unnamed(slashes: seq<Slash>, indices: seq<nat>, n: nat): (r: seq<Slash>)
    requires n <= |slashes|
  {
    if n == 0 then [] else Unnamed(slashes, indices, n - 1) + (if n - 1 in indices then [] else [slashes[n - 1]])
  }

  function Named(slashes: seq<Slash>, indices: seq<nat>, n: nat): (r: seq<Slash>)
    requires n <= |slashes|
  {
    if n == 0 then [] else Named(slashes, indices, n - 1) + (if n - 1 in indices then [slashes[n - 1]] else [])
  }

  datatype CancelResult = Cancelled | DeferPeriodIsOver | EmptyTargets | NotSortedAndUnique | InvalidSlashIndex

  function CancelDeferred(cfg: Config, s: State, active: nat, era: nat, indices: seq<nat>): (r: (State, CancelResult)) {
    if !(active < era <= active + cfg.deferDuration + 1) then (s, DeferPeriodIsOver)
    else if indices == [] then (s, EmptyTargets)
    else if !SortedAndUnique(indices) then (s, NotSortedAndUnique)
    else
      var slashes := BucketOf(s.buckets, era);
      if indices[|indices| - 1] >= |slashes| then (s, InvalidSlashIndex)
      else
        (s.(buckets := s.buckets[era := Unnamed(slashes, indices, |slashes|)],
            past := s.past.(cancelled := s.past.cancelled + Members(IdsOf(Named(slashes, indices, |slashes|))))),
         Cancelled)
  }

  // ---- Era start ----

  /** The number of bonded eras before `first`, counted from the front. */
  function CountBefore(bonded: seq<Bonded>, first: nat): (n: nat)
    ensures n <= |bonded|
  {
    if bonded == [] || bonded[0].era >= first then 0 else 1 + CountBefore(bonded[1..], first)
  }

  /** The count stops at the first era that is kept. */
  lemma {:induction false} CountBeforeStops(bonded: seq<Bonded>, first: nat)
    ensures
      var n := CountBefore(bonded, first);
      (forall i :: 0 <= i < n ==> bonded[i].era < first) && (n < |bonded| ==> bonded[n].era >= first)
  {
    if bonded != [] && bonded[0].era < first {
      CountBeforeStops(bonded[1..], first);
    }
  }

  function ErasIn(bonded: seq<Bonded>): (r: set<nat>) {
    set x | x in bonded :: x.era
  }

  /** Clears the fractions of the eras in `gone`, except for the accounts in `leftover`. */
  function Cleared(fractions: Fractions, gone: set<nat>, leftover: set<Account>): (r: Fractions) {
    map k | k in fractions && (k.0 !in gone || k.1 in leftover) :: fractions[k]
  }

  /** Enters an era as bonded and prunes what falls out of the bonding period. `leftover` is
      what clearing with a limit may leave behind of the pruned eras' fractions. */
  function Bond(cfg: Config, s: State, b: Bonded, leftover: set<Account>): (r: State) {
    var bonded := s.bonded + [b];
    if b.era <= cfg.bondingDuration then s.(bonded := bonded)
    else
      var n := CountBefore(bonded, b.era - cfg.bondingDuration);
      var gone := ErasIn(bonded[..n]);
      s.(bonded := bonded[n..],
         fractions := Cleared(s.fractions, gone, leftover),
         buckets := s.buckets - gone,
         past := s.past.(pruned := s.past.pruned + gone))
  }

  function BatchSize(cfg: Config): (n: nat)
    ensures n >= 1
  {
    if cfg.batchSize == 0 then 1 else cfg.batchSize
  }

  /** Queues `slashes` in batches until they are all in or the queue is full; the rest is
      what no batch took. */
  function Enqueued(q: Batches, era: nat, slashes: seq<Slash>, size: nat): (r: (Batches, seq<Slash>))
    requires size >= 1
    ensures |q| <= MAX_ENTRIES ==> |r.0| <= MAX_ENTRIES
    decreases |slashes|
  {
    if slashes == [] || |q| >= MAX_ENTRIES then (q, slashes)
    else
      var n := if |slashes| <= size then |slashes| else size;
      Enqueued(q + [Entry(era, slashes[..n])], era, slashes[n..], size)
  }

  function AddEraSlashesToQueue(cfg: Config, s: State, era: nat): (r: State) {
    var (q, rest) := Enqueued(s.queue, era, BucketOf(s.buckets, era), BatchSize(cfg));
    s.(queue := q,
       past := s.past.(dropped := s.past.dropped + IdsOf(rest),
                       queueFull := if rest == [] then s.past.queueFull else s.past.queueFull + {era}))
  }

  function OnEraStart(cfg: Config, s: State, b: Bonded, leftover: set<Account>): (r: State) {
    AddEraSlashesToQueue(cfg, Bond(cfg, s, b, leftover), b.era)
  }

  // ---- Sending ----

  const BILLION := 1_000_000_000
  const U128_MAX := 0xFFFF_FFFF_FFFF_FFFF_FFFF_FFFF_FFFF_FFFF

  /** The part of `maxWad` to slash, in the saturating arithmetic of the source. */
  function Wad(maxWad: nat, percentage: nat): (wad: nat) {
    var product: nat := percentage * maxWad;
    var share := (if product <= U128_MAX then product else U128_MAX) / BILLION;
    if share <= maxWad then share else maxWad
  }

  function Description(kind: OffenceKind): (text: string) {
    match kind
    case LivenessOffence => "Liveness offence"
    case BabeEquivocation => "BABE equivocation"
    case GrandpaEquivocation => "GRANDPA equivocation"
    case BeefyEquivocation => "BEEFY equivocation"
    case Custom(text) => text
  }

  function DataOf(cfg: Config, x: Slash): (d: SlashData) {
    SlashData(x.validator, Wad(cfg.maxWad, x.percentage), Description(x.kind))
  }

  function MessageOf(cfg: Config, e: Entry<seq<Slash>>): (m: Message) {
    Message(e.era, IdsOf(e.body), seq(|e.body|, i requires 0 <= i < |e.body| => DataOf(cfg, e.body[i])))
  }

  function Delivered(cfg: Config, p: History, e: Entry<seq<Slash>>): (r: History) {
    p.(delivered := p.delivered + IdsOf(e.body), messages := p.messages + [MessageOf(cfg, e)])
  }

  function ProcessQueue(cfg: Config, s: State, sent: bool): (r: State) {
    if s.queue == [] then s
    else
      s.(queue := Step(s.queue, Block(sent)), past := if sent then Delivered(cfg, s.past, s.queue[0]) else s.past)
  }

  datatype RetryResult = Retried | EraNotInUnsentQueue | MessageSendFailed

  function RetryUnsent(cfg: Config, s: State, era: nat, sent: bool): (r: (State, RetryResult)) {
    match IndexOfEra(s.queue, era)
    case None => (s, EraNotInUnsentQueue)
    case Some(i) =>
      if !sent then (s, MessageSendFailed)
      else (s.(queue := Step(s.queue, Retry(era, true)), past := Delivered(cfg, s.past, s.queue[i])), Retried)
  }
}
