/**
 The external-validators pallet as a state machine: sessions are planned, started and
 ended by the session driver; eras are planned at session planning and become active when
 their first session starts.
 */
module Eras {
  import opened Common

  datatype Forcing = NotForcing | ForceNew | ForceNone | ForceAlways

  datatype ActiveEra = ActiveEra(index: nat, start: Option<nat>)

  datatype Hook =
    | Start(era: nat, session: nat, externalIndex: nat)
    | End(era: nat)

  /** History: everything that was fixed at the moment an era was planned. */
  datatype Plan = Plan(
    session: nat,
    whitelist: seq<Account>,
    external: seq<Account>,
    externalIndex: nat)

  datatype Config = Config(sessionsPerEra: nat, historyDepth: nat, maxWhitelisted: nat, maxExternal: nat)

  datatype State = State(
    whitelist: seq<Account>,
    whitelistActive: seq<Account>,
    whitelistPending: seq<Account>,
    external: seq<Account>,
    skipExternal: bool,
    current: Option<nat>,
    active: Option<ActiveEra>,
    starts: map<nat, nat>,
    force: Forcing,
    externalIndex: nat,
    pendingIndex: nat,
    currentIndex: nat,
    hooks: seq<Hook>,
    plans: seq<Plan>,
    accepted: seq<nat>)

  // ---- Validator lists ----

  /** The first occurrences among the first `n` elements, in order. */
  function FirstsOf(xs: seq<Account>, n: nat): (r: seq<Account>)
    requires n <= |xs|
  {
    if n == 0 then [] else FirstsOf(xs, n - 1) + (if xs[n - 1] in xs[..n - 1] then [] else [xs[n - 1]])
  }

  function Dedup(xs: seq<Account>): (r: seq<Account>) {
    FirstsOf(xs, |xs|)
  }

  function EffectiveExternal(s: State): (r: seq<Account>) {
    if s.skipExternal then [] else s.external
  }

  function Validators(s: State): (r: seq<Account>) {
    Dedup(s.whitelist + EffectiveExternal(s))
  }

  // ---- Session driver calls ----

  function ActiveIndex(s: State): (a: nat) {
    if s.active.None? then 0 else s.active.value.index
  }

  function NextActive(s: State): (a: nat) {
    if s.active.None? then 0 else s.active.value.index + 1
  }

  function NextPlanned(s: State): (c: nat) {
    if s.current.None? then 0 else s.current.value + 1
  }

  function TriggerNewEra(cfg: Config, s: State, session: nat): (r: State) {
    var c := NextPlanned(s);
    var starts := s.starts[c := session];
    s.(current := Some(c),
       starts := if c >= cfg.historyDepth + 1 then starts - {c - (cfg.historyDepth + 1)} else starts,
       whitelistPending := s.whitelist,
       pendingIndex := s.externalIndex,
       plans := s.plans + [Plan(session, s.whitelist, EffectiveExternal(s), s.externalIndex)])
  }

  /** Sessions since the current era was due to start. */
  function EraLength(s: State, session: nat): (n: nat)
    requires s.current.Some?
  {
    var start := if s.current.value in s.starts then s.starts[s.current.value] else 0;
    if session >= start then session - start else 0
  }

  predicate PlansNewEra(cfg: Config, s: State, session: nat) {
    s.current.None? ||
    match s.force
    case ForceNew => true
    case ForceAlways => true
    case NotForcing => EraLength(s, session) >= cfg.sessionsPerEra
    case ForceNone => false
  }

  function NewSession(cfg: Config, s: State, session: nat): (r: (State, Option<seq<Account>>)) {
    if !PlansNewEra(cfg, s, session) then (s, None)
    else
      var t := TriggerNewEra(cfg, s, session);
      (if s.current.Some? && s.force == ForceNew then t.(force := NotForcing) else t, Some(Validators(s)))
  }

  function StartEra(s: State, session: nat): (r: State) {
    var a := NextActive(s);
    s.(active := Some(ActiveEra(a, None)),
       whitelistActive := s.whitelistPending,
       whitelistPending := [],
       currentIndex := s.pendingIndex,
       pendingIndex := 0,
       hooks := s.hooks + [Start(a, session, s.pendingIndex)])
  }

  function StartSession(s: State, session: nat): (r: State) {
    var a := NextActive(s);
    if a in s.starts && s.starts[a] <= session then StartEra(s, session) else s
  }

  function EndSession(s: State, session: nat): (r: State) {
    if s.active.Some? && NextActive(s) in s.starts && s.starts[NextActive(s)] == session + 1
    then s.(hooks := s.hooks + [End(ActiveIndex(s))])
    else s
  }

  // ---- Extrinsics ----

  datatype SetResult = Ok | TargetEraTooOld | TargetEraTooNew | DuplicateOrStaleTargetEra

  function ValidateTargetEra(s: State, target: nat): (r: SetResult) {
    if target <= ActiveIndex(s) then TargetEraTooOld
    else if target > ActiveIndex(s) + 1 then TargetEraTooNew
    else if target <= s.externalIndex then DuplicateOrStaleTargetEra
    else Ok
  }

  function Truncated(xs: seq<Account>, n: nat): (r: seq<Account>) {
    if |xs| <= n then xs else xs[..n]
  }

  function SetExternal(cfg: Config, s: State, validators: seq<Account>, target: nat): (r: (State, SetResult)) {
    var result := ValidateTargetEra(s, target);
    if result != Ok then (s, result)
    else
      (s.(external := Truncated(validators, cfg.maxExternal),
          externalIndex := target,
          accepted := s.accepted + [ActiveIndex(s)]), Ok)
  }

  datatype ListResult = Done | NoKeysRegistered | AlreadyWhitelisted | TooManyWhitelisted | NotWhitelisted

  function AddWhitelisted(cfg: Config, s: State, who: Account, registered: bool): (r: (State, ListResult)) {
    if !registered then (s, NoKeysRegistered)
    else if who in s.whitelist then (s, AlreadyWhitelisted)
    else if |s.whitelist| >= cfg.maxWhitelisted then (s, TooManyWhitelisted)
    else (s.(whitelist := s.whitelist + [who]), Done)
  }

  function IndexOf(xs: seq<Account>, x: Account): (i: nat)
    requires x in xs
    ensures i < |xs| && xs[i] == x && x !in xs[..i]
  {
    if xs[0] == x then 0 else 1 + IndexOf(xs[1..], x)
  }

  function RemoveWhitelisted(s: State, who: Account): (r: (State, ListResult)) {
    if who !in s.whitelist then (s, NotWhitelisted)
    else
      var i := IndexOf(s.whitelist, who);
      (s.(whitelist := s.whitelist[..i] + s.whitelist[i + 1..]), Done)
  }

  function Finalize(s: State, now: nat): (r: State) {
    if s.active.Some? && s.active.value.start.None? then s.(active := Some(s.active.value.(start := Some(now)))) else s
  }

  // ---- Runs ----

  function Genesis(whitelist: seq<Account>, external: seq<Account>, skip: bool): (s: State) {
    State(whitelist, whitelist, whitelist, external, skip, None, None, map[], NotForcing, 0, 0, 0, [], [], [])
  }

  /** The pallet state with the session driver: the index of the session in progress, the
      validator set that runs it, and the set queued for the next session. */
  datatype Chain = Chain(s: State, session: nat, running: seq<Account>, queued: seq<Account>)

  /** The session after the one in progress is planned; a set that planning returns is queued. */
  function PlanNext(cfg: Config, c: Chain): (r: Chain) {
    var (s, planned) := NewSession(cfg, c.s, c.session + 1);
    c.(s := s, queued := if planned.Some? then planned.value else c.queued)
  }

  function PlanFirst(cfg: Config, genesis: State): (c: Chain) {
    var (s, planned) := NewSession(cfg, genesis, 0);
    var initial := if planned.Some? then planned.value else [];
    Chain(s, 0, initial, initial)
  }

  /** Genesis plans sessions 0 and 1 and starts session 0. */
  function Boot(cfg: Config, whitelist: seq<Account>, external: seq<Account>, skip: bool): (c: Chain) {
    var planned := PlanNext(cfg, PlanFirst(cfg, Genesis(whitelist, external, skip)));
    planned.(s := StartSession(planned.s, 0))
  }

  /** Between two sessions one ends and the next starts, run by the queued set. */
  function EndStart(c: Chain): (r: Chain) {
    Chain(StartSession(EndSession(c.s, c.session), c.session + 1), c.session + 1, c.queued, c.queued)
  }

  function Rotate(cfg: Config, c: Chain): (r: Chain) {
    PlanNext(cfg, EndStart(c))
  }

  datatype Op =
    | RotateSession
    | ForceEra(mode: Forcing)
    | SetExternalValidators(validators: seq<Account>, target: nat)
    | Whitelist(who: Account, registered: bool)
    | Unwhitelist(who: Account)
    | SkipExternal(skip: bool)
    | FinalizeBlock(now: nat)

  function Step(cfg: Config, c: Chain, op: Op): (r: Chain) {
    match op
    case RotateSession => Rotate(cfg, c)
    case ForceEra(mode) => c.(s := c.s.(force := mode))
    case SetExternalValidators(validators, target) => c.(s := SetExternal(cfg, c.s, validators, target).0)
    case Whitelist(who, registered) => c.(s := AddWhitelisted(cfg, c.s, who, registered).0)
    case Unwhitelist(who) => c.(s := RemoveWhitelisted(c.s, who).0)
    case SkipExternal(skip) => c.(s := c.s.(skipExternal := skip))
    case FinalizeBlock(now) => c.(s := Finalize(c.s, now))
  }

  /** A step of the machine, or none. */
  function Follow(cfg: Config, c: Chain, op: Option<Op>): (r: Chain) {
    if op.None? then c else Step(cfg, c, op.value)
  }

  function Run(cfg: Config, c: Chain, ops: seq<Op>): (r: Chain)
    decreases |ops|
  {
    if ops == [] then c else Run(cfg, Step(cfg, c, ops[0]), ops[1..])
  }

  // ---- What every reachable state satisfies ----

  /** The planned era is the active one, or the next one and due at the next session. */
  ghost predicate InPhase(c: Chain) {
    && c.s.active.Some? && c.s.current.Some? && |c.s.plans| == c.s.current.value + 1
    && c.s.plans[|c.s.plans| - 1].session <= c.session + 1
    && c.s.current.value - ActiveIndex(c.s) ==
       if c.s.plans[|c.s.plans| - 1].session == c.session + 1 then 1 else 0
  }

  /** Start sessions are stored for exactly the last `depth + 1` planned eras. */
  function StoredStarts(depth: nat, plans: seq<Plan>): (r: map<nat, nat>) {
    map k: nat | k < |plans| <= k + depth + 1 :: plans[k].session
  }

  /** Plans follow each other in time, and their external indices never go back. */
  ghost predicate Before(p: Plan, q: Plan) {
    p.session < q.session && p.externalIndex <= q.externalIndex
  }

  ghost predicate PlansInOrder(plans: seq<Plan>) {
    forall k, l :: 0 <= k < l < |plans| ==> Before(plans[k], plans[l])
  }

  ghost predicate Timing(cfg: Config, c: Chain) {
    InPhase(c) && PlansInOrder(c.s.plans) && c.s.starts == StoredStarts(cfg.historyDepth, c.s.plans)
  }

  /** Start(0), End(0), Start(1), ... up to the start of era `a`, each start with the
      session and external index of that era's plan. */
  function Trace(plans: seq<Plan>, a: nat): (r: seq<Hook>)
    requires a < |plans|
    ensures |r| == 2 * a + 1
  {
    var start := [Start(a, plans[a].session, plans[a].externalIndex)];
    if a == 0 then start else Trace(plans, a - 1) + [End(a - 1)] + start
  }

  /** A plan's external index is never ahead of its era. */
  ghost predicate WellPlanned(era: nat, p: Plan) {
    p.externalIndex <= era && Distinct(p.whitelist)
  }

  /** At most one external set per active era: the eras of acceptance strictly increase,
      and the latest index is the era after the last of them. */
  ghost predicate OneSetPerEra(accepted: seq<nat>, a: nat, latest: nat) {
    && (forall k, l :: 0 <= k < l < |accepted| ==> accepted[k] < accepted[l])
    && latest == (if accepted == [] then 0 else accepted[|accepted| - 1] + 1) <= a + 1
  }

  /** The one era whose snapshot the genesis sequence can lose: with eras of at most one
      session, era 1 is planned before era 0 takes the pending whitelist. */
  predicate PlannedTooEarly(cfg: Config, era: nat) {
    cfg.sessionsPerEra <= 1 && era == 1
  }

  /** What the pallet remembers of the plan of an era: its external index and whitelist. */
  function Remembered(cfg: Config, plans: seq<Plan>, era: nat): (r: (nat, seq<Account>))
    requires era < |plans|
  {
    (plans[era].externalIndex, if PlannedTooEarly(cfg, era) then [] else plans[era].whitelist)
  }

  ghost predicate Records(cfg: Config, s: State) {
    var a := ActiveIndex(s);
    && a < |s.plans| && (cfg.sessionsPerEra <= 1 ==> |s.plans| >= 2)
    && s.plans[|s.plans| - 1].externalIndex <= s.externalIndex
    && s.hooks == Trace(s.plans, a)
    && (forall k :: 0 <= k < |s.plans| ==> WellPlanned(k, s.plans[k]))
    && OneSetPerEra(s.accepted, a, s.externalIndex)
    && Distinct(s.whitelist)
    && (s.currentIndex, s.whitelistActive) == Remembered(cfg, s.plans, a)
    && (|s.plans| == a + 2 ==> (s.pendingIndex, s.whitelistPending) == Remembered(cfg, s.plans, a + 1))
  }

  /** The validator set of a plan. */
  function SetFor(p: Plan): (r: seq<Account>) {
    Dedup(p.whitelist + p.external)
  }

  /** The sets the driver holds are those of the active era and of the last planned one. */
  ghost predicate SetsFit(c: Chain) {
    && ActiveIndex(c.s) < |c.s.plans|
    && c.running == SetFor(c.s.plans[ActiveIndex(c.s)])
    && c.queued == SetFor(c.s.plans[|c.s.plans| - 1])
  }

  /** The validator set that runs, the whitelist exempted from rewards and the external index
      in force are all the ones the active era was planned with. */
  ghost predicate SnapshotAgrees(c: Chain) {
    && ActiveIndex(c.s) < |c.s.plans|
    && var p := c.s.plans[ActiveIndex(c.s)];
    && c.running == SetFor(p) && c.s.whitelistActive == p.whitelist && c.s.currentIndex == p.externalIndex
  }
}
