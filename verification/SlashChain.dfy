/**
 The slashes pallet driven by the era machine, as the runtime wires them: a rotation that
 starts an era fires the era hook with that era's session and external index; reports,
 injections, cancellations, block hooks and all calls of the era machine come in between,
 in any order.
 */
module SlashChain {
  import opened Common
  import E = Eras
  import EraRuns
  import S = Slashes
  import SlashRuns
  import SlashFates
  import SlashReports
  import RetryQueue

  datatype Config = Config(eras: E.Config, slashes: S.Config)

  datatype World = World(eras: E.Chain, slashes: S.State)

  function Active(w: World): (a: nat) {
    E.ActiveIndex(w.eras.s)
  }

  function ActiveStart(w: World): (session: nat) {
    if Active(w) in w.eras.s.starts then w.eras.s.starts[Active(w)] else 0
  }

  /** The start hook that `start_session` fired, if it fired one. */
  function Fired(before: seq<E.Hook>, after: seq<E.Hook>): (h: Option<S.Bonded>) {
    if |after| > |before| && after[|after| - 1].Start? then
      var hook := after[|after| - 1];
      Some(S.Bonded(hook.era, hook.session, hook.externalIndex))
    else None
  }

  function HookSlashes(cfg: Config, s: S.State, h: Option<S.Bonded>, leftover: set<Account>): (r: S.State) {
    if h.None? then s else S.OnEraStart(cfg.slashes, s, h.value, leftover)
  }

  /** The slashes after a rotation, before the next session is planned. */
  function RotateSlashes(cfg: Config, w: World, leftover: set<Account>): (r: S.State) {
    var ended := E.EndSession(w.eras.s, w.eras.session);
    var started := E.StartSession(ended, w.eras.session + 1);
    HookSlashes(cfg, w.slashes, Fired(ended.hooks, started.hooks), leftover)
  }

  datatype Op =
    | RotateSession(leftover: set<Account>)
    | EraCall(op: E.Op)
    | BlockStart(sent: bool)
    | ManualRetry(era: nat, sent: bool)
    | ReportOffence(report: S.Report)
    | InjectSlash(era: nat, who: Account, fraction: nat, kind: S.OffenceKind)
    | CancelSlash(era: nat, indices: seq<nat>)
    | SetMode(mode: S.Mode)

  function EraOp(op: Op): (r: Option<E.Op>) {
    match op
    case RotateSession(_) => Some(E.RotateSession)
    case EraCall(c) => if c.RotateSession? then None else Some(c)
    case _ => None
  }

  /** The calls of the slashes pallet: whitelisted validators are invulnerable, and an era is
      slashable by injection while its start session is stored. */
  function SlashCall(w: World, op: Op): (c: SlashRuns.Call)
    requires !op.RotateSession? && !op.EraCall?
  {
    match op
    case BlockStart(sent) => SlashRuns.BlockStart(sent)
    case ManualRetry(era, sent) => SlashRuns.ManualRetry(era, sent)
    case ReportOffence(report) => SlashRuns.ReportOffence(ActiveStart(w), report, w.eras.s.whitelist)
    case InjectSlash(era, who, fraction, kind) => SlashRuns.Inject(era, era in w.eras.s.starts, who, fraction, kind)
    case CancelSlash(era, indices) => SlashRuns.Cancel(era, indices)
    case SetMode(mode) => SlashRuns.SetMode(mode)
  }

  function StepSlashes(cfg: Config, w: World, op: Op): (r: S.State) {
    match op
    case RotateSession(leftover) => RotateSlashes(cfg, w, leftover)
    case EraCall(_) => w.slashes
    case _ => SlashRuns.Apply(cfg.slashes, SlashRuns.Machine(w.slashes, Active(w)), SlashCall(w, op)).s
  }

  function Step(cfg: Config, w: World, op: Op): (r: World) {
    World(E.Follow(cfg.eras, w.eras, EraOp(op)), StepSlashes(cfg, w, op))
  }

  function Run(cfg: Config, w: World, ops: seq<Op>): (r: World)
    decreases |ops|
  {
    if ops == [] then w else Run(cfg, Step(cfg, w, ops[0]), ops[1..])
  }

  /** Genesis starts era 0 with session 0. */
  function Boot(cfg: Config, whitelist: seq<Account>, external: seq<Account>, skip: bool): (w: World) {
    World(E.Boot(cfg.eras, whitelist, external, skip), SlashRuns.Boot(cfg.slashes, 0, 0).s)
  }

  // ---- Bonded eras ----

  function PlannedBond(plans: seq<E.Plan>, era: nat): (b: S.Bonded)
    requires era < |plans|
  {
    S.Bonded(era, plans[era].session, plans[era].externalIndex)
  }

  /** The bonded eras: from `bonding` eras back up to era `a`, as they were planned. */
  function BondedFrom(plans: seq<E.Plan>, a: nat, bonding: nat): (r: seq<S.Bonded>)
    requires a < |plans|
    ensures |r| == if a <= bonding then a + 1 else bonding + 1
  {
    var first := if a <= bonding then 0 else a - bonding;
    seq(a - first + 1, i requires 0 <= i <= a - first =>
      S.Bonded(first + i, plans[first + i].session, plans[first + i].externalIndex))
  }

  lemma BondedNext(plans: seq<E.Plan>, a: nat, bonding: nat)
    requires a + 1 < |plans|
    ensures
      var longer := BondedFrom(plans, a, bonding) + [PlannedBond(plans, a + 1)];
      BondedFrom(plans, a + 1, bonding) == if a + 1 <= bonding then longer else longer[1..]
  {
  }

  /** Entering the next era and pruning gives the bonded eras of that era. */
  lemma BondMoves(cfg: S.Config, s: S.State, plans: seq<E.Plan>, a: nat, leftover: set<Account>)
    requires a + 1 < |plans| && s.bonded == BondedFrom(plans, a, cfg.bondingDuration)
    ensures S.Bond(cfg, s, PlannedBond(plans, a + 1), leftover).bonded == BondedFrom(plans, a + 1, cfg.bondingDuration)
  {
    BondedNext(plans, a, cfg.bondingDuration);
    if a + 1 > cfg.bondingDuration {
      var first := a + 1 - cfg.bondingDuration;
      var bonded := s.bonded + [PlannedBond(plans, a + 1)];
      assert bonded[0].era == first - 1 && bonded[1].era == first;
      assert S.CountBefore(bonded, first) == 1;
    }
  }

  // ---- One step ----

  ghost predicate Fits(cfg: Config, s: S.State, plans: seq<E.Plan>, a: nat) {
    && a < |plans| && s.bonded == BondedFrom(plans, a, cfg.slashes.bondingDuration)
    && SlashRuns.Inv(s, a) && |s.queue| <= RetryQueue.MAX_ENTRIES
    && SlashFates.AsCalled(cfg.slashes, s.past.records)
  }

  lemma EraStartFits(cfg: Config, s: S.State, plans: seq<E.Plan>, a: nat, leftover: set<Account>)
    requires Fits(cfg, s, plans, a) && a + 1 < |plans|
    ensures Fits(cfg, S.OnEraStart(cfg.slashes, s, PlannedBond(plans, a + 1), leftover), plans, a + 1)
  {
    BondMoves(cfg.slashes, s, plans, a, leftover);
    SlashRuns.EraStartKeepsInv(cfg.slashes, s, a, PlannedBond(plans, a + 1), leftover);
  }

  lemma MorePlansFit(cfg: Config, s: S.State, plans: seq<E.Plan>, more: seq<E.Plan>, a: nat)
    requires Fits(cfg, s, plans, a) && plans <= more
    ensures Fits(cfg, s, more, a)
  {
  }

  /** The hook of a due rotation carries what the plan of the next era says. */
  lemma RotationFires(cfg: E.Config, c: E.Chain)
    requires EraRuns.Inv(cfg, c)
    ensures
      var a, ended := E.ActiveIndex(c.s), E.EndSession(c.s, c.session);
      var h := Fired(ended.hooks, E.StartSession(ended, c.session + 1).hooks);
      if EraRuns.Due(c) then a + 1 < |c.s.plans| && h == Some(PlannedBond(c.s.plans, a + 1)) else h == None
  {
  }

  function SlashesAfter(cfg: Config, s: S.State, plans: seq<E.Plan>, a: nat, due: bool,
                        leftover: set<Account>): (r: S.State)
    requires due ==> a + 1 < |plans|
  {
    if due then S.OnEraStart(cfg.slashes, s, PlannedBond(plans, a + 1), leftover) else s
  }

  lemma HookWhen(cfg: Config, s: S.State, plans: seq<E.Plan>, a: nat, due: bool, h: Option<S.Bonded>,
                 leftover: set<Account>)
    requires if due then a + 1 < |plans| && h == Some(PlannedBond(plans, a + 1)) else h == None
    ensures HookSlashes(cfg, s, h, leftover) == SlashesAfter(cfg, s, plans, a, due, leftover)
  {
  }

  lemma RotateEffects(cfg: Config, w: World, leftover: set<Account>)
    requires EraRuns.Inv(cfg.eras, w.eras)
    ensures EraRuns.Due(w.eras) ==> Active(w) + 1 < |w.eras.s.plans|
    ensures RotateSlashes(cfg, w, leftover) ==
            SlashesAfter(cfg, w.slashes, w.eras.s.plans, Active(w), EraRuns.Due(w.eras), leftover)
  {
    var c := w.eras;
    var ended := E.EndSession(c.s, c.session);
    var h := Fired(ended.hooks, E.StartSession(ended, c.session + 1).hooks);
    RotationFires(cfg.eras, c);
    HookWhen(cfg, w.slashes, c.s.plans, Active(w), EraRuns.Due(c), h, leftover);
  }

  lemma AfterFits(cfg: Config, s: S.State, plans: seq<E.Plan>, more: seq<E.Plan>, a: nat, due: bool,
                  leftover: set<Account>)
    requires Fits(cfg, s, plans, a) && plans <= more && (due ==> a + 1 < |plans|)
    ensures Fits(cfg, SlashesAfter(cfg, s, plans, a, due, leftover), more, a + if due then 1 else 0)
  {
    var r := SlashesAfter(cfg, s, plans, a, due, leftover);
    if due {
      EraStartFits(cfg, s, plans, a, leftover);
      MorePlansFit(cfg, r, plans, more, a + 1);
    } else {
      MorePlansFit(cfg, r, plans, more, a);
    }
  }

  lemma MoveFits(cfg: Config, w: World, r: World, due: bool, leftover: set<Account>)
    requires Fits(cfg, w.slashes, w.eras.s.plans, Active(w)) && w.eras.s.plans <= r.eras.s.plans
    requires due ==> Active(w) + 1 < |w.eras.s.plans|
    requires r.slashes == SlashesAfter(cfg, w.slashes, w.eras.s.plans, Active(w), due, leftover)
    requires Active(r) == Active(w) + if due then 1 else 0
    ensures Fits(cfg, r.slashes, r.eras.s.plans, Active(r))
  {
    AfterFits(cfg, w.slashes, w.eras.s.plans, r.eras.s.plans, Active(w), due, leftover);
  }

  lemma RotateFits(cfg: Config, w: World, leftover: set<Account>)
    requires EraRuns.Inv(cfg.eras, w.eras) && Fits(cfg, w.slashes, w.eras.s.plans, Active(w))
    ensures
      var r := World(E.Rotate(cfg.eras, w.eras), RotateSlashes(cfg, w, leftover));
      Fits(cfg, r.slashes, r.eras.s.plans, Active(r))
  {
    var r := World(E.Rotate(cfg.eras, w.eras), RotateSlashes(cfg, w, leftover));
    RotateEffects(cfg, w, leftover);
    EraRuns.RotateMoves(cfg.eras, w.eras);
    MoveFits(cfg, w, r, EraRuns.Due(w.eras), leftover);
  }

  lemma SlashCallFits(cfg: Config, s: S.State, plans: seq<E.Plan>, a: nat, c: SlashRuns.Call)
    requires Fits(cfg, s, plans, a) && !c.NextEra?
    ensures Fits(cfg, SlashRuns.Apply(cfg.slashes, SlashRuns.Machine(s, a), c).s, plans, a)
  {
    var m := SlashRuns.Machine(s, a);
    SlashRuns.ApplyKeepsInv(cfg.slashes, m, c);
    SlashRuns.ApplyKeepsBound(cfg.slashes, m, c);
    SlashRuns.ApplyKeepsBonded(cfg.slashes, m, c);
    SlashFates.CallRecords(cfg.slashes, m, c);
  }

  lemma StepFits(cfg: Config, w: World, op: Op)
    requires EraRuns.Inv(cfg.eras, w.eras) && Fits(cfg, w.slashes, w.eras.s.plans, Active(w))
    ensures var r := Step(cfg, w, op); Fits(cfg, r.slashes, r.eras.s.plans, Active(r))
  {
    match op
    case RotateSession(leftover) => RotateFits(cfg, w, leftover);
    case EraCall(c) => if !c.RotateSession? { EraRuns.CallStays(cfg.eras, w.eras, c); }
    case _ => SlashCallFits(cfg, w.slashes, w.eras.s.plans, Active(w), SlashCall(w, op));
  }

  ghost predicate Inv(cfg: Config, w: World) {
    EraRuns.Inv(cfg.eras, w.eras) && Fits(cfg, w.slashes, w.eras.s.plans, Active(w))
  }

  lemma {:induction false} RunInv(cfg: Config, w: World, ops: seq<Op>)
    requires Inv(cfg, w)
    ensures Inv(cfg, Run(cfg, w, ops))
    decreases |ops|
  {
    if ops != [] {
      EraRuns.FollowInv(cfg.eras, w.eras, EraOp(ops[0]));
      StepFits(cfg, w, ops[0]);
      RunInv(cfg, Step(cfg, w, ops[0]), ops[1..]);
    }
  }

  lemma BootFits(cfg: Config, plans: seq<E.Plan>)
    requires plans != [] && plans[0].session == 0 && plans[0].externalIndex == 0
    ensures Fits(cfg, SlashRuns.Boot(cfg.slashes, 0, 0).s, plans, 0)
  {
  }

  // ---- What a run guarantees ----

  function Reached(cfg: Config, whitelist: seq<Account>, external: seq<Account>, skip: bool, ops: seq<Op>): (w: World)
  {
    Run(cfg, Boot(cfg, whitelist, external, skip), ops)
  }

  lemma ReachedInv(cfg: Config, whitelist: seq<Account>, external: seq<Account>, skip: bool, ops: seq<Op>)
    requires Distinct(whitelist) && cfg.eras.historyDepth >= 1
    ensures Inv(cfg, Reached(cfg, whitelist, external, skip, ops))
  {
    EraRuns.BootInv(cfg.eras, whitelist, external, skip);
    var planned := EraRuns.BootShape(cfg.eras, whitelist, external, skip);
    BootFits(cfg, E.Boot(cfg.eras, whitelist, external, skip).s.plans);
    RunInv(cfg, Boot(cfg, whitelist, external, skip), ops);
  }

  /** Slash accounting where the eras come from the session driver: whether a slash is sent
      is decided by the call that made it. Once its bucket's era has started it is delivered,
      queued or left out, once in all, unless it was cancelled or not on time, and it is left
      out only with a queue-full event. */
  lemma SlashAccounting(cfg: Config, whitelist: seq<Account>, external: seq<Account>, skip: bool, ops: seq<Op>, id: nat)
    requires Distinct(whitelist) && cfg.eras.historyDepth >= 1
    requires id < Reached(cfg, whitelist, external, skip, ops).slashes.nextId
    ensures
      var w := Reached(cfg, whitelist, external, skip, ops);
      var p := w.slashes.past;
      && |p.records| == w.slashes.nextId && SlashFates.Fate(cfg.slashes, w.slashes, Active(w), id)
      && SlashRuns.DropsReported(p.dropped, p.records, p.queueFull)
  {
    var w := Reached(cfg, whitelist, external, skip, ops);
    ReachedInv(cfg, whitelist, external, skip, ops);
    SlashFates.FateKnown(cfg.slashes, w.slashes, Active(w), id);
  }

  // ---- Offence attribution ----

  /** Era `e` was in force at `session`: it had started, and the next one had not. */
  ghost predicate InForce(plans: seq<E.Plan>, a: nat, session: nat, e: nat) {
    e <= a < |plans| && plans[e].session <= session && (e < a ==> session < plans[e + 1].session)
  }

  lemma InForceUnique(plans: seq<E.Plan>, a: nat, session: nat, e: nat, f: nat)
    requires E.PlansInOrder(plans) && InForce(plans, a, session, e) && InForce(plans, a, session, f)
    ensures e == f
  {
  }

  /** The reverse search stops at the last bonded era that had started. */
  lemma {:induction false} LatestStartedAt(bonded: seq<S.Bonded>, session: nat) returns (i: nat)
    requires bonded != [] && bonded[0].session <= session
    ensures i < |bonded| && bonded[i].session <= session && S.LatestStarted(bonded, session) == Some(bonded[i].era)
    ensures i + 1 < |bonded| ==> session < bonded[i + 1].session
    decreases |bonded|
  {
    if bonded[|bonded| - 1].session <= session {
      i := |bonded| - 1;
    } else {
      i := LatestStartedAt(bonded[..|bonded| - 1], session);
    }
  }

  lemma ChargedInForce(plans: seq<E.Plan>, a: nat, bonding: nat, session: nat)
    requires a < |plans| && BondedFrom(plans, a, bonding)[0].session <= session
    ensures
      var era := S.SlashEra(BondedFrom(plans, a, bonding), a, plans[a].session, session);
      era.Some? && InForce(plans, a, session, era.value)
  {
    var bonded := BondedFrom(plans, a, bonding);
    if session < plans[a].session {
      var i := LatestStartedAt(bonded, session);
      assert bonded[i].era == bonded[0].era + i;
    }
  }

  /** Offence attribution: in every reachable state the bonded eras are exactly the last
      ones up to the active era, with the sessions they started at. A report from at or
      after the first of them is charged to the one era in force at its session, by the
      fast path and by the search alike; the search never comes up empty. */
  lemma OffenceAttribution(cfg: Config, whitelist: seq<Account>, external: seq<Account>, skip: bool, ops: seq<Op>,
                           session: nat)
    requires Distinct(whitelist) && cfg.eras.historyDepth >= 1
    ensures
      var w := Reached(cfg, whitelist, external, skip, ops);
      var a, plans, bonded := Active(w), w.eras.s.plans, w.slashes.bonded;
      && a < |plans| && bonded == BondedFrom(plans, a, cfg.slashes.bondingDuration)
      && (bonded[0].session <= session ==>
            var era := S.SlashEra(bonded, a, ActiveStart(w), session);
            && era.Some? && InForce(plans, a, session, era.value)
            && forall e :: InForce(plans, a, session, e) ==> e == era.value)
  {
    var w := Reached(cfg, whitelist, external, skip, ops);
    var a, plans := Active(w), w.eras.s.plans;
    ReachedInv(cfg, whitelist, external, skip, ops);
    assert ActiveStart(w) == plans[a].session;
    if w.slashes.bonded[0].session <= session {
      ChargedInForce(plans, a, cfg.slashes.bondingDuration, session);
      var era := S.SlashEra(w.slashes.bonded, a, plans[a].session, session);
      forall e | InForce(plans, a, session, e) ensures e == era.value {
        InForceUnique(plans, a, session, e, era.value);
      }
    }
  }

  /** Whom a report charges in every reachable state: in the era `e` that was in force at its
      session, the handed offenders that are tagged at their turn and not whitelisted, as far
      as the era is still bonded. */
  lemma ReportAttribution(cfg: Config, whitelist: seq<Account>, external: seq<Account>, skip: bool, ops: seq<Op>,
                          r: S.Report, e: nat)
    requires Distinct(whitelist) && cfg.eras.historyDepth >= 1
    requires
      var w := Reached(cfg, whitelist, external, skip, ops); InForce(w.eras.s.plans, Active(w), r.session, e)
    ensures
      var w := Reached(cfg, whitelist, external, skip, ops);
      Step(cfg, w, ReportOffence(r)).slashes.past.charged ==
        w.slashes.past.charged + SlashReports.Added(w.slashes, r, w.eras.s.whitelist, e)
  {
    var w := Reached(cfg, whitelist, external, skip, ops);
    OffenceAttribution(cfg, whitelist, external, skip, ops, r.session);
    if !SlashReports.Discarded(w.slashes.bonded, r) {
      SlashReports.ReportAdds(cfg.slashes, w.slashes, Active(w), ActiveStart(w), r, w.eras.s.whitelist, e);
    }
  }

  /** In every reachable state an injection finds the start session of exactly the eras that
      were planned within the history depth. */
  lemma InjectableEras(cfg: Config, whitelist: seq<Account>, external: seq<Account>, skip: bool, ops: seq<Op>,
                       era: nat, who: Account, fraction: nat, kind: S.OffenceKind)
    requires Distinct(whitelist) && cfg.eras.historyDepth >= 1
    ensures
      var w := Reached(cfg, whitelist, external, skip, ops);
      SlashCall(w, InjectSlash(era, who, fraction, kind)).known <==>
      era < |w.eras.s.plans| <= era + cfg.eras.historyDepth + 1
  {
    ReachedInv(cfg, whitelist, external, skip, ops);
  }
}
