/**
 Which slashes are sent: a slash becomes due exactly when the call that made it was on time,
 and a slash that was not is lost, whatever happens after.
 */
module SlashFates {
  import opened Common
  import opened RetryQueue
  import opened Slashes
  import opened SlashRuns

  /** Every slash went into the bucket of its era, of the era active at the call and of the
      kind of call. */
  ghost predicate AsCalled(cfg: Config, records: seq<Record>) {
    forall id :: 0 <= id < |records| ==>
      records[id].bucket == BucketFor(cfg, records[id].activeThen, records[id].offence.era, records[id].offence.origin)
  }

  /** The records that a call added: made in the active era, with one origin and charged era. */
  ghost predicate Adds(before: seq<Record>, after: seq<Record>, active: nat, era: nat, origin: Origin) {
    && before <= after
    && forall id :: |before| <= id < |after| ==>
         after[id].activeThen == active && after[id].offence.era == era && after[id].offence.origin == origin
  }

  lemma ChargeAdds(cfg: Config, s: State, active: nat, x: Offence)
    requires AsCalled(cfg, s.past.records)
    ensures
      var r := Charge(cfg, s, active, x).past.records;
      AsCalled(cfg, r) && Adds(s.past.records, r, active, x.era, x.origin)
  {
  }

  lemma {:induction false} ChargesAdd(cfg: Config, s: State, active: nat, era: nat, session: nat,
                                      offenders: seq<Offender>, invulnerables: seq<Account>, n: nat)
    requires AsCalled(cfg, s.past.records) && n <= |offenders|
    ensures
      var r := ChargeOffenders(cfg, s, active, era, session, offenders, invulnerables, n).past.records;
      AsCalled(cfg, r) && Adds(s.past.records, r, active, era, FromReport)
  {
    if n > 0 {
      ChargesAdd(cfg, s, active, era, session, offenders, invulnerables, n - 1);
      var t := ChargeOffenders(cfg, s, active, era, session, offenders, invulnerables, n - 1);
      var o := offenders[n - 1];
      var key := (session, o.who);
      if key in t.pending {
        ChargeAdds(cfg, t.(pending := t.pending - {key}), active,
                   Offence(era, o.who, o.fraction, o.reporters, t.pending[key], FromReport));
      }
    }
  }

  /** The era that a call charges, and how; nothing for the calls that charge none. */
  function Charges(m: Machine, c: Call): (r: Option<(nat, Origin)>) {
    match c
    case ReportOffence(activeStart, report, _) =>
      (match SlashEra(m.s.bonded, m.active, activeStart, report.session)
       case Some(era) => Some((era, FromReport))
       case None => None)
    case Inject(era, _, _, _, _) => Some((era, FromInjection))
    case _ => None
  }

  ghost predicate CallAdds(m: Machine, c: Call, after: seq<Record>) {
    match Charges(m, c)
    case Some(x) => Adds(m.s.past.records, after, m.active, x.0, x.1)
    case None => after == m.s.past.records
  }

  lemma CallRecords(cfg: Config, m: Machine, c: Call)
    requires AsCalled(cfg, m.s.past.records)
    ensures
      var r := Apply(cfg, m, c);
      AsCalled(cfg, r.s.past.records) && CallAdds(m, c, r.s.past.records) && m.active <= r.active
  {
    if c.ReportOffence? && c.report.handed.Some? && Charges(m, c).Some? {
      var offenders := c.report.handed.value;
      ChargesAdd(cfg, Tagged(m.s, c.report), m.active, Charges(m, c).value.0, c.report.session, offenders,
                 c.invulnerables, |offenders|);
    } else if c.Inject? {
      ChargeAdds(cfg, m.s, m.active, Offence(c.era, c.who, c.fraction, [], c.kind, FromInjection));
    }
  }

  lemma {:induction false} RunRecords(cfg: Config, m: Machine, calls: seq<Call>)
    requires AsCalled(cfg, m.s.past.records)
    ensures
      var r := ApplyAll(cfg, m, calls);
      AsCalled(cfg, r.s.past.records) && m.s.past.records <= r.s.past.records && m.active <= r.active
    decreases |calls|
  {
    if calls != [] {
      CallRecords(cfg, m, calls[0]);
      RunRecords(cfg, Apply(cfg, m, calls[0]), calls[1..]);
    }
  }

  /** Once the era of its bucket has started, a slash that was not cancelled is delivered,
      queued or left out, once in all, if it was on time, and never otherwise. */
  ghost predicate Fate(cfg: Config, s: State, active: nat, id: nat)
    requires id < |s.past.records|
  {
    var p, r := s.past, s.past.records[id];
    && (r.activeThen < r.bucket <==> OnTime(cfg, r.activeThen, r.offence.era, r.offence.origin))
    && Handled(p.delivered, s.queue, p.dropped, id) ==
         if id !in p.cancelled && r.bucket <= active && OnTime(cfg, r.activeThen, r.offence.era, r.offence.origin)
         then 1 else 0
  }

  lemma FateKnown(cfg: Config, s: State, active: nat, id: nat)
    requires SlashRuns.Inv(s, active) && AsCalled(cfg, s.past.records) && id < |s.past.records|
    ensures Fate(cfg, s, active, id)
  {
  }

  function Reached(cfg: Config, session: nat, externalIndex: nat, calls: seq<Call>): (m: Machine) {
    ApplyAll(cfg, Boot(cfg, session, externalIndex), calls)
  }

  lemma ReachedRecords(cfg: Config, session: nat, externalIndex: nat, calls: seq<Call>)
    ensures
      var m := Reached(cfg, session, externalIndex, calls);
      && SlashRuns.Inv(m.s, m.active) && |m.s.queue| <= MAX_ENTRIES && AsCalled(cfg, m.s.past.records)
  {
    var b := Boot(cfg, session, externalIndex);
    BootInv(cfg, session, externalIndex);
    RunKeepsInv(cfg, b, calls);
    RunRecords(cfg, b, calls);
  }

  ghost predicate NeverSent(s: State, id: nat) {
    id !in s.past.delivered && id !in QueuedIds(s.queue) && id !in s.past.dropped
  }

  lemma NotHandled(s: State, id: nat)
    requires Handled(s.past.delivered, s.queue, s.past.dropped, id) == 0
    ensures NeverSent(s, id)
  {
    var d, q, l := multiset(s.past.delivered), multiset(QueuedIds(s.queue)), multiset(s.past.dropped);
    assert d[id] == q[id] == l[id] == 0;
  }

  /** Slash delivery, over every run from genesis: every id given out has its fate, and is left
      out only with a queue-full event for its era; no other id is ever sent. */
  lemma SlashDelivery(cfg: Config, session: nat, externalIndex: nat, calls: seq<Call>, id: nat)
    ensures
      var m := Reached(cfg, session, externalIndex, calls);
      var p := m.s.past;
      && |p.records| == m.s.nextId
      && (id < m.s.nextId ==>
            Fate(cfg, m.s, m.active, id) && (id in p.dropped ==> p.records[id].bucket in p.queueFull))
      && (id >= m.s.nextId ==> NeverSent(m.s, id))
  {
    var m := Reached(cfg, session, externalIndex, calls);
    ReachedRecords(cfg, session, externalIndex, calls);
    if id < m.s.nextId {
      FateKnown(cfg, m.s, m.active, id);
    } else {
      assert Handled(m.s.past.delivered, m.s.queue, m.s.past.dropped, id) == 0;
      NotHandled(m.s, id);
    }
  }

  /** From the call to the end of any run: every id that a call gave out was charged to the
      era and in the manner of that call, and its fate is decided by whether the call was on
      time. */
  lemma SlashFate(cfg: Config, session: nat, externalIndex: nat, calls: seq<Call>, c: Call, more: seq<Call>, id: nat)
    requires
      var m := Reached(cfg, session, externalIndex, calls);
      m.s.nextId <= id < Apply(cfg, m, c).s.nextId
    ensures
      var m := Reached(cfg, session, externalIndex, calls);
      var z := ApplyAll(cfg, Apply(cfg, m, c), more);
      && Charges(m, c).Some? && id < |z.s.past.records|
      && var (era, origin) := Charges(m, c).value;
      && var r := z.s.past.records[id];
      && r.activeThen == m.active && r.offence.era == era && r.offence.origin == origin
      && r.bucket == BucketFor(cfg, m.active, era, origin)
      && Fate(cfg, z.s, z.active, id)
  {
    var m := Reached(cfg, session, externalIndex, calls);
    var n := Apply(cfg, m, c);
    ReachedRecords(cfg, session, externalIndex, calls);
    CallRecords(cfg, m, c);
    ApplyKeepsInv(cfg, m, c);
    ApplyKeepsBound(cfg, m, c);
    RunKeepsInv(cfg, n, more);
    RunRecords(cfg, n, more);
    FateKnown(cfg, ApplyAll(cfg, n, more).s, ApplyAll(cfg, n, more).active, id);
  }

  /** A slash that was not on time is lost: no further calls bring it into a message. */
  lemma LateSlashLost(cfg: Config, session: nat, externalIndex: nat, calls: seq<Call>, more: seq<Call>, id: nat)
    requires
      var m := Reached(cfg, session, externalIndex, calls);
      id < |m.s.past.records| &&
      var r := m.s.past.records[id]; !OnTime(cfg, r.activeThen, r.offence.era, r.offence.origin)
    ensures NeverSent(ApplyAll(cfg, Reached(cfg, session, externalIndex, calls), more).s, id)
  {
    var m := Reached(cfg, session, externalIndex, calls);
    var z := ApplyAll(cfg, m, more);
    ReachedRecords(cfg, session, externalIndex, calls);
    RunKeepsInv(cfg, m, more);
    RunRecords(cfg, m, more);
    FateKnown(cfg, z.s, z.active, id);
    NotHandled(z.s, id);
  }

  lemma TwoCalls(cfg: Config, m: Machine, a: Call, b: Call)
    ensures ApplyAll(cfg, m, [a, b]) == Apply(cfg, Apply(cfg, m, a), b)
  {
    assert [a, b][1..] == [b] && [b][1..] == [];
    assert ApplyAll(cfg, Apply(cfg, m, a), [b]) == Apply(cfg, Apply(cfg, m, a), b);
  }

  /** The settings of the runtimes, where nothing is deferred: a slash injected for the era
      before the active one is made, with id 0, and lost. */
  lemma InjectionLost(who: Account, more: seq<Call>)
    ensures
      var cfg := Config(0, 28, 10, 50_000_000_000_000_000);
      var m := Reached(cfg, 0, 0, [NextEra(6, 0, {}), Inject(0, true, who, 1, LivenessOffence)]);
      m.s.nextId == 1 && NeverSent(ApplyAll(cfg, m, more).s, 0)
  {
    var cfg := Config(0, 28, 10, 50_000_000_000_000_000);
    var next, inject := NextEra(6, 0, {}), Inject(0, true, who, 1, LivenessOffence);
    TwoCalls(cfg, Boot(cfg, 0, 0), next, inject);
    LateSlashLost(cfg, 0, 0, [next, inject], more, 0);
  }
}
