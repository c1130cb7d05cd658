/**
 What a single call does, told without the bodies of the state machine: whom a report
 charges, and when an injection, a cancellation or a retry succeeds.
 */
module SlashReports {
  import opened Common
  import opened RetryQueue
  import opened Slashes
  import opened SlashRuns
  import opened SlashFractions

  type Tags = map<(nat, Account), OffenceKind>

  function Lookup(tags: Tags, session: nat, who: Account): (kind: Option<OffenceKind>) {
    if (session, who) in tags then Some(tags[(session, who)]) else None
  }

  // ---- Reports ----

  /** The kind under which `who` stands once the report is tagged: the report's own for the
      accounts it names, and what an earlier report left for the others. */
  function TagOf(tags: Tags, r: Report, who: Account): (kind: Option<OffenceKind>) {
    if who in r.named then Some(r.kind) else Lookup(tags, r.session, who)
  }

  /** The offender at `i` is tagged when its turn comes, and may be slashed. An account that
      is handed over twice has lost its tag by its second turn. */
  predicate Chargeable(tags: Tags, r: Report, offenders: seq<Offender>, invulnerables: seq<Account>, i: nat)
    requires i < |offenders|
  {
    var who := offenders[i].who;
    && TagOf(tags, r, who).Some?
    && who !in invulnerables
    && forall j :: 0 <= j < i ==> offenders[j].who != who
  }

  /** The charges of the first `n` offenders, in order. */
  function ChargesOf(tags: Tags, r: Report, offenders: seq<Offender>, invulnerables: seq<Account>, era: nat, n: nat)
    : (charges: seq<Offence>)
    requires n <= |offenders|
  {
    if n == 0 then []
    else
      var o := offenders[n - 1];
      ChargesOf(tags, r, offenders, invulnerables, era, n - 1) +
      if Chargeable(tags, r, offenders, invulnerables, n - 1)
      then [Offence(era, o.who, o.fraction, o.reporters, TagOf(tags, r, o.who).value, FromReport)]
      else []
  }

  /** `era` is the one in force at `session`: the active one if it had started, or else the
      last bonded one that had. */
  ghost predicate InForce(bonded: seq<Bonded>, active: nat, activeStart: nat, session: nat, era: nat) {
    if session >= activeStart then era == active
    else exists k :: 0 <= k < |bonded| && bonded[k].era == era && bonded[k].session <= session
                     && forall j :: k < j < |bonded| ==> bonded[j].session > session
  }

  lemma {:induction false} LatestInForce(bonded: seq<Bonded>, session: nat)
    requires bonded != [] && bonded[0].session <= session
    ensures
      var found := LatestStarted(bonded, session);
      && found.Some?
      && exists k :: 0 <= k < |bonded| && bonded[k].era == found.value && bonded[k].session <= session
                     && forall j :: k < j < |bonded| ==> bonded[j].session > session
  {
    var last := |bonded| - 1;
    if bonded[last].session <= session {
      assert bonded[last].era == LatestStarted(bonded, session).value;
    } else {
      var before := bonded[..last];
      LatestInForce(before, session);
      var k :| 0 <= k < |before| && before[k].era == LatestStarted(before, session).value
               && before[k].session <= session && forall j :: k < j < |before| ==> before[j].session > session;
      assert bonded[k] == before[k];
      assert forall j :: k < j < |bonded| ==> j == last || bonded[j] == before[j];
    }
  }

  /** A report from before the bonded eras. */
  predicate Discarded(bonded: seq<Bonded>, r: Report) {
    bonded == [] || r.session < bonded[0].session
  }

  lemma EraFound(bonded: seq<Bonded>, active: nat, activeStart: nat, r: Report)
    requires !Discarded(bonded, r)
    ensures
      var found := SlashEra(bonded, active, activeStart, r.session);
      found.Some? && InForce(bonded, active, activeStart, r.session, found.value)
  {
    LatestInForce(bonded, r.session);
  }

  function Handed(offenders: seq<Offender>, n: nat): (accounts: set<Account>)
    requires n <= |offenders|
  {
    set i | 0 <= i < n :: offenders[i].who
  }

  /** The tags after a report: its own set, and those of the accounts in `taken` used up. */
  ghost predicate TagsAfter(before: Tags, after: Tags, r: Report, taken: set<Account>) {
    forall session: nat, who: Account {:trigger Lookup(after, session, who)} ::
      Lookup(after, session, who) ==
        if session != r.session then Lookup(before, session, who)
        else if who in taken then None
        else TagOf(before, r, who)
  }

  lemma TagSets(s: State, r: Report)
    ensures TagsAfter(s.pending, Tagged(s, r).pending, r, {})
  {
    forall session: nat, who: Account
      ensures Lookup(Tagged(s, r).pending, session, who) ==
              if session != r.session then Lookup(s.pending, session, who) else TagOf(s.pending, r, who)
    {
      assert (session, who) in Keys(r.session, r.named) <==> session == r.session && who in r.named;
    }
  }

  lemma TakeOne(tags: Tags, before: Tags, after: Tags, r: Report, taken: set<Account>, who: Account)
    requires TagsAfter(tags, before, r, taken) && after == before - {(r.session, who)}
    ensures TagsAfter(tags, after, r, taken + {who})
  {
    forall session: nat, w: Account
      ensures Lookup(after, session, w) ==
              if session != r.session then Lookup(tags, session, w)
              else if w in taken + {who} then None
              else TagOf(tags, r, w)
    {
      assert Lookup(before, session, w) ==
             if session != r.session then Lookup(tags, session, w)
             else if w in taken then None
             else TagOf(tags, r, w);
    }
  }

  /** Where the first `n` offenders of a report leave the machine. */
  ghost predicate ChargedUpTo(tags: Tags, s: State, t: State, r: Report, offenders: seq<Offender>,
                              invulnerables: seq<Account>, era: nat, n: nat)
    requires n <= |offenders|
  {
    && t.mode == s.mode
    && TagsAfter(tags, t.pending, r, Handed(offenders, n))
    && t.past.charged == s.past.charged +
         if s.mode == Enabled then ChargesOf(tags, r, offenders, invulnerables, era, n) else []
  }

  lemma ChargeNext(cfg: Config, tags: Tags, s: State, t: State, active: nat, r: Report, offenders: seq<Offender>,
                   invulnerables: seq<Account>, era: nat, n: nat)
    requires n < |offenders| && s.mode != Disabled
    requires ChargedUpTo(tags, s, t, r, offenders, invulnerables, era, n)
    ensures ChargedUpTo(tags, s, ChargeOffender(cfg, t, active, era, r.session, offenders[n], invulnerables), r,
                        offenders, invulnerables, era, n + 1)
  {
    var o := offenders[n];
    var u := ChargeOffender(cfg, t, active, era, r.session, o, invulnerables);
    assert u.pending == t.pending - {(r.session, o.who)};
    TakeOne(tags, t.pending, u.pending, r, Handed(offenders, n), o.who);
    assert Handed(offenders, n + 1) == Handed(offenders, n) + {o.who};
    assert o.who in Handed(offenders, n) <==> exists j :: 0 <= j < n && offenders[j].who == o.who;
    assert Lookup(t.pending, r.session, o.who) ==
           if o.who in Handed(offenders, n) then None else TagOf(tags, r, o.who);
  }

  lemma {:induction false} ChargesUpTo(cfg: Config, s: State, active: nat, r: Report, offenders: seq<Offender>,
                                       invulnerables: seq<Account>, era: nat, n: nat)
    requires n <= |offenders| && s.mode != Disabled
    ensures ChargedUpTo(s.pending, s,
                        ChargeOffenders(cfg, Tagged(s, r), active, era, r.session, offenders, invulnerables, n), r,
                        offenders, invulnerables, era, n)
  {
    if n == 0 {
      TagSets(s, r);
      assert Handed(offenders, 0) == {};
    } else {
      ChargesUpTo(cfg, s, active, r, offenders, invulnerables, era, n - 1);
      ChargeNext(cfg, s.pending, s,
                 ChargeOffenders(cfg, Tagged(s, r), active, era, r.session, offenders, invulnerables, n - 1), active, r,
                 offenders, invulnerables, era, n - 1);
    }
  }

  /** The accounts whose tag a report uses up or takes back. */
  function Taken(s: State, r: Report): (accounts: set<Account>) {
    match r.handed
    case None => set who | who in r.named
    case Some(offenders) => if s.mode == Disabled then {} else Handed(offenders, |offenders|)
  }

  lemma RejectedUntags(s: State, r: Report)
    requires r.handed.None?
    ensures TagsAfter(s.pending, s.pending - Keys(r.session, r.named), r, Taken(s, r))
  {
    forall session: nat, who: Account
      ensures Lookup(s.pending - Keys(r.session, r.named), session, who) ==
              if session != r.session then Lookup(s.pending, session, who)
              else if who in Taken(s, r) then None
              else TagOf(s.pending, r, who)
    {
      assert (session, who) in Keys(r.session, r.named) <==> session == r.session && who in r.named;
    }
  }

  /** What a report adds to the charges, with `era` the one that it is charged to. */
  function Added(s: State, r: Report, invulnerables: seq<Account>, era: nat): (charges: seq<Offence>) {
    if Discarded(s.bonded, r) || r.handed.None? || s.mode != Enabled then []
    else ChargesOf(s.pending, r, r.handed.value, invulnerables, era, |r.handed.value|)
  }

  lemma ReportAdds(cfg: Config, s: State, active: nat, activeStart: nat, r: Report, invulnerables: seq<Account>,
                   era: nat)
    requires SlashEra(s.bonded, active, activeStart, r.session) == Some(era)
    ensures HandleReport(cfg, s, active, activeStart, r, invulnerables).past.charged ==
            s.past.charged + Added(s, r, invulnerables, era)
  {
    if !Discarded(s.bonded, r) && r.handed.Some? && s.mode != Disabled {
      ChargesUpTo(cfg, s, active, r, r.handed.value, invulnerables, era, |r.handed.value|);
    }
  }

  /** Whom a report charges. A report from before the bonded eras changes nothing. Any other
      leaves its tags, less those it used up, and charges, when it is handed on and slashing
      is enabled, exactly the chargeable offenders, in order, in the era in force at its
      session and each with its own fraction, reporters and kind; and nobody otherwise. */
  lemma ReportCharges(cfg: Config, s: State, active: nat, activeStart: nat, r: Report, invulnerables: seq<Account>)
    ensures
      var t := HandleReport(cfg, s, active, activeStart, r, invulnerables);
      && (Discarded(s.bonded, r) ==> t == s)
      && (!Discarded(s.bonded, r) ==>
            && TagsAfter(s.pending, t.pending, r, Taken(s, r))
            && (r.handed.None? || s.mode != Enabled ==> t == s.(pending := t.pending))
            && exists era ::
                 && InForce(s.bonded, active, activeStart, r.session, era)
                 && t.past.charged == s.past.charged + Added(s, r, invulnerables, era))
  {
    if !Discarded(s.bonded, r) {
      EraFound(s.bonded, active, activeStart, r);
      var era := SlashEra(s.bonded, active, activeStart, r.session).value;
      ReportAdds(cfg, s, active, activeStart, r, invulnerables, era);
      if r.handed.None? {
        RejectedUntags(s, r);
      } else if s.mode == Disabled {
        TagSets(s, r);
      } else {
        var offenders := r.handed.value;
        ChargesUpTo(cfg, s, active, r, offenders, invulnerables, era, |offenders|);
        if s.mode == LogOnly {
          OnlyLogged(cfg, Tagged(s, r), active, era, r.session, offenders, invulnerables, |offenders|);
        }
      }
    }
  }

  lemma {:induction false} OnlyLogged(cfg: Config, s: State, active: nat, era: nat, session: nat,
                                      offenders: seq<Offender>, invulnerables: seq<Account>, n: nat)
    requires n <= |offenders| && s.mode == LogOnly
    ensures
      var t := ChargeOffenders(cfg, s, active, era, session, offenders, invulnerables, n);
      t == s.(pending := t.pending)
  {
    if n > 0 {
      OnlyLogged(cfg, s, active, era, session, offenders, invulnerables, n - 1);
    }
  }

  lemma {:induction false} NoneStarted(bonded: seq<Bonded>, session: nat)
    ensures LatestStarted(bonded, session).None? <==> forall k :: 0 <= k < |bonded| ==> bonded[k].session > session
  {
    if bonded != [] {
      var before := bonded[..|bonded| - 1];
      NoneStarted(before, session);
      assert forall k :: 0 <= k < |before| ==> before[k] == bonded[k];
    }
  }

  /** The handler ignores an offence from before all bonded eras, should one reach it. */
  lemma EarlyOffenceIgnored(cfg: Config, s: State, active: nat, activeStart: nat, session: nat,
                            offenders: seq<Offender>, invulnerables: seq<Account>)
    requires session < activeStart && forall k :: 0 <= k < |s.bonded| ==> s.bonded[k].session > session
    ensures OnOffence(cfg, s, active, activeStart, session, offenders, invulnerables) == s
  {
    NoneStarted(s.bonded, session);
  }

  // ---- Injections ----

  /** What a new slash of `who` in `era` has to exceed. */
  function Threshold(s: State, era: nat, who: Account): (fraction: nat) {
    if era in s.past.pruned then FractionOf(s.fractions, era, who) else MaxCharged(s.past.charged, era, who)
  }

  /** An injection succeeds exactly for a known era that is not to come and with a fraction
      above all charged to the validator in it; it then makes one slash, without reporters, for
      the era that follows the deferral. Otherwise it names the first obstacle and changes
      nothing. */
  lemma InjectOutcome(cfg: Config, s: State, active: nat, era: nat, known: bool, who: Account, fraction: nat,
                      kind: OffenceKind)
    requires Consistent(cfg, s)
    ensures
      var (t, result) := ForceInject(cfg, s, active, era, known, who, fraction, kind);
      var x := Offence(era, who, fraction, [], kind, FromInjection);
      && (result == ProvidedFutureEra <==> era > active)
      && (result == ProvidedNonSlashableEra <==> era <= active && !known)
      && (result == Injected <==> era <= active && known && fraction > Threshold(s, era, who))
      && (result != Injected ==> t == s)
      && (result == Injected ==>
            && t.past.charged == s.past.charged + [x]
            && t.past.records == s.past.records + [Record(x, era + cfg.deferDuration + 1, active)])
  {
  }

  // ---- Cancellations ----

  /** The ids at the positions below `n` that `indices` names. */
  function IdsAt(slashes: seq<Slash>, indices: seq<nat>, n: nat): (ids: set<nat>)
    requires n <= |slashes|
  {
    set i | 0 <= i < n && i in indices :: slashes[i].id
  }

  /** A cancellation succeeds exactly for an era to come within the deferral and for a
      non-empty, rising list of positions in its bucket. Otherwise it names the first obstacle
      and changes nothing. */
  lemma CancelOutcome(cfg: Config, s: State, active: nat, era: nat, indices: seq<nat>)
    ensures
      var (t, result) := CancelDeferred(cfg, s, active, era, indices);
      var inPeriod := active < era && era - active <= cfg.deferDuration + 1;
      && (result == DeferPeriodIsOver <==> !inPeriod)
      && (result == EmptyTargets <==> inPeriod && indices == [])
      && (result == NotSortedAndUnique <==> inPeriod && !Rises(indices))
      && (result == Cancelled <==>
            inPeriod && indices != [] && Rises(indices) && Below(indices, |BucketOf(s.buckets, era)|))
      && (result != Cancelled ==> t == s)
  {
    RisesIff(indices);
  }

  /** A successful cancellation cancels the slashes at the listed positions, takes them out of
      the bucket and leaves everything else. */
  lemma CancelRemoves(cfg: Config, s: State, active: nat, era: nat, indices: seq<nat>)
    requires CancelDeferred(cfg, s, active, era, indices).1 == Cancelled
    ensures
      var t := CancelDeferred(cfg, s, active, era, indices).0;
      var slashes := BucketOf(s.buckets, era);
      && t == s.(buckets := s.buckets[era := BucketOf(t.buckets, era)],
                 past := s.past.(cancelled := s.past.cancelled + IdsAt(slashes, indices, |slashes|)))
      && Splits(slashes, BucketOf(t.buckets, era), Named(slashes, indices, |slashes|))
  {
    var slashes := BucketOf(s.buckets, era);
    NamedIds(slashes, indices, |slashes|);
    NamedSplits(slashes, indices, |slashes|);
    assert slashes[..|slashes|] == slashes;
  }

  ghost predicate Rises(list: seq<nat>) {
    forall i, j :: 0 <= i < j < |list| ==> list[i] < list[j]
  }

  ghost predicate Below(list: seq<nat>, n: nat) {
    forall i :: 0 <= i < |list| ==> list[i] < n
  }

  lemma {:induction false} RisesFrom(list: seq<nat>, i: nat, j: nat)
    requires SortedAndUnique(list) && i < j < |list|
    ensures list[i] < list[j]
  {
    if i + 1 < j {
      RisesFrom(list, i, j - 1);
    }
  }

  /** Comparing neighbours, and the last one with the limit, is enough. */
  lemma RisesIff(list: seq<nat>)
    ensures SortedAndUnique(list) <==> Rises(list)
    ensures forall n: nat :: SortedAndUnique(list) && list != [] ==> (Below(list, n) <==> list[|list| - 1] < n)
  {
    if SortedAndUnique(list) {
      forall i, j | 0 <= i < j < |list| ensures list[i] < list[j] {
        RisesFrom(list, i, j);
      }
    }
  }

  lemma {:induction false} NamedIds(slashes: seq<Slash>, indices: seq<nat>, n: nat)
    requires n <= |slashes|
    ensures Members(IdsOf(Named(slashes, indices, n))) == IdsAt(slashes, indices, n)
  {
    if n > 0 {
      NamedIds(slashes, indices, n - 1);
      var before, x := Named(slashes, indices, n - 1), slashes[n - 1];
      IdsAppend(before, [x]);
      assert IdsOf([x]) == [x.id] && before + [] == before;
      assert IdsAt(slashes, indices, n) == IdsAt(slashes, indices, n - 1) + if n - 1 in indices then {x.id} else {};
    }
  }

  // ---- Retries ----

  /** A manual retry succeeds exactly when a batch of the era is queued and the message goes
      out; the first such batch then leaves the queue, and what it held is delivered. */
  lemma RetryOutcome(cfg: Config, s: State, era: nat, sent: bool)
    ensures
      var (t, result) := RetryUnsent(cfg, s, era, sent);
      var queued := exists e :: e in s.queue && e.era == era;
      && (result == EraNotInUnsentQueue <==> !queued)
      && (result == Retried <==> queued && sent)
      && (result != Retried ==> t == s)
      && (result == Retried ==>
            exists i :: 0 <= i < |s.queue| && s.queue[i].era == era
                        && (forall j :: 0 <= j < i ==> s.queue[j].era != era)
                        && t.queue == s.queue[..i] + s.queue[i + 1..]
                        && t.past.delivered == s.past.delivered + IdsOf(s.queue[i].body))
  {
    var found := IndexOfEra(s.queue, era);
    if found.Some? {
      assert s.queue[found.value] in s.queue;
      if sent {
        var t := RetryUnsent(cfg, s, era, sent).0;
        assert t.queue == s.queue[..found.value] + s.queue[found.value + 1..];
      }
    }
  }

  // ---- Era starts ----

  ghost predicate Ascending(bonded: seq<Bonded>) {
    forall i, j :: 0 <= i < j < |bonded| ==> bonded[i].era < bonded[j].era
  }

  /** `era` is further back than the bonding period. */
  predicate Outdated(cfg: Config, now: nat, era: nat) {
    era + cfg.bondingDuration < now
  }

  /** An era start drops the bonded eras that are outdated, with their buckets and all but
      the leftover of their fractions, and keeps everything of the others. */
  lemma BondPrunes(cfg: Config, s: State, b: Bonded, leftover: set<Account>, era: nat, who: Account)
    requires Ascending(s.bonded + [b])
    ensures
      var t := Bond(cfg, s, b, leftover);
      var gone := era in ErasIn(s.bonded) && Outdated(cfg, b.era, era);
      && (forall x :: x in t.bonded <==> x in s.bonded + [b] && !Outdated(cfg, b.era, x.era))
      && (era in t.past.pruned <==> era in s.past.pruned || gone)
      && BucketOf(t.buckets, era) == (if gone then [] else BucketOf(s.buckets, era))
      && FractionOf(t.fractions, era, who) ==
           (if gone && who !in leftover then 0 else FractionOf(s.fractions, era, who))
  {
    var bonded, t := s.bonded + [b], Bond(cfg, s, b, leftover);
    if b.era > cfg.bondingDuration {
      var n := CountBefore(bonded, b.era - cfg.bondingDuration);
      CountBeforeStops(bonded, b.era - cfg.bondingDuration);
      SplitByEra(cfg, bonded, b.era, n);
      assert bonded[|s.bonded|] == b && !Outdated(cfg, b.era, b.era);
      assert era in ErasIn(bonded[..n]) <==> era in ErasIn(bonded) && Outdated(cfg, b.era, era);
    }
  }

  lemma SplitByEra(cfg: Config, bonded: seq<Bonded>, now: nat, n: nat)
    requires Ascending(bonded) && n <= |bonded|
    requires forall i :: 0 <= i < n ==> Outdated(cfg, now, bonded[i].era)
    requires n < |bonded| ==> !Outdated(cfg, now, bonded[n].era)
    ensures forall x :: x in bonded[n..] <==> x in bonded && !Outdated(cfg, now, x.era)
    ensures forall x :: x in bonded[..n] <==> x in bonded && Outdated(cfg, now, x.era)
  {
    assert bonded == bonded[..n] + bonded[n..];
    forall i | n <= i < |bonded| ensures !Outdated(cfg, now, bonded[i].era) {
    }
  }

  /** An era start queues the slashes of its bucket, in order, in front of what a full queue
      leaves out; and a queue-full event tells exactly when something was left out. */
  lemma EraStartQueues(cfg: Config, s: State, b: Bonded, leftover: set<Account>)
    requires |s.queue| <= MAX_ENTRIES
    ensures
      var bucket := BucketOf(Bond(cfg, s, b, leftover).buckets, b.era);
      var t := OnEraStart(cfg, s, b, leftover);
      && s.past.dropped <= t.past.dropped
      && var left := t.past.dropped[|s.past.dropped|..];
      && QueuedIds(t.queue) + left == QueuedIds(s.queue) + IdsOf(bucket)
      && t.past.queueFull == s.past.queueFull + (if left == [] then {} else {b.era})
      && (left != [] ==> |t.queue| == MAX_ENTRIES)
  {
    var bucket := BucketOf(Bond(cfg, s, b, leftover).buckets, b.era);
    EnqueuedKeepsAll(s.queue, b.era, bucket, BatchSize(cfg));
    var t := OnEraStart(cfg, s, b, leftover);
    assert t.past.dropped[|s.past.dropped|..] == IdsOf(Enqueued(s.queue, b.era, bucket, BatchSize(cfg)).1);
  }
}
