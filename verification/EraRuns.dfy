/**
 What holds in every state the era machine can reach, under any interleaving of session
 rotations with forcing, whitelist and external-validator calls.
 */
module EraRuns {
  import opened Common
  import opened Eras

  // ---- Validator lists ----

  lemma {:induction false} FirstsMembers(xs: seq<Account>, n: nat)
    requires n <= |xs|
    ensures forall x :: x in FirstsOf(xs, n) <==> x in xs[..n]
    ensures Distinct(FirstsOf(xs, n))
  {
    if n > 0 {
      FirstsMembers(xs, n - 1);
      assert xs[..n] == xs[..n - 1] + [xs[n - 1]];
    }
  }

  lemma {:induction false} FirstsOfPrefix(xs: seq<Account>, ys: seq<Account>, n: nat)
    requires n <= |xs| && Distinct(xs)
    ensures FirstsOf(xs + ys, n) == xs[..n]
  {
    if n > 0 {
      FirstsOfPrefix(xs, ys, n - 1);
      assert (xs + ys)[..n - 1] == xs[..n - 1];
      assert xs[..n] == xs[..n - 1] + [xs[n - 1]];
    }
  }

  /** The first `n` external validators that are neither whitelisted nor repeated. */
  function NewcomersOf(whitelist: seq<Account>, external: seq<Account>, n: nat): (r: seq<Account>)
    requires n <= |external|
  {
    if n == 0 then []
    else
      NewcomersOf(whitelist, external, n - 1) +
      (if external[n - 1] in whitelist || external[n - 1] in external[..n - 1] then [] else [external[n - 1]])
  }

  lemma {:induction false} FirstsOfSuffix(w: seq<Account>, e: seq<Account>, n: nat)
    requires n <= |e| && Distinct(w)
    ensures FirstsOf(w + e, |w| + n) == w + NewcomersOf(w, e, n)
  {
    if n == 0 {
      FirstsOfPrefix(w, e, |w|);
      assert w[..|w|] == w;
    } else {
      FirstsOfSuffix(w, e, n - 1);
      assert (w + e)[..|w| + n - 1] == w + e[..n - 1];
    }
  }

  /** A planned set has no duplicates, holds exactly the two lists' members, and starts
      with the whole whitelist, followed by the newcomers in their own order. */
  lemma PlannedSet(whitelist: seq<Account>, external: seq<Account>)
    requires Distinct(whitelist)
    ensures var v := Dedup(whitelist + external);
      && Distinct(v)
      && (forall x :: x in v <==> x in whitelist || x in external)
      && v == whitelist + NewcomersOf(whitelist, external, |external|)
  {
    var both := whitelist + external;
    FirstsMembers(both, |both|);
    assert both[..|both|] == both;
    FirstsOfSuffix(whitelist, external, |external|);
  }

  // ---- Activating a planned era ----

  ghost predicate Due(c: Chain) {
    InPhase(c) && c.s.plans[|c.s.plans| - 1].session == c.session + 1
  }

  /** The state after the active era ended and the planned one started. */
  function Activated(s: State, session: nat): (r: State) {
    StartEra(s.(hooks := s.hooks + [End(ActiveIndex(s))]), session)
  }

  /** The driver activates a planned era exactly when it is due; a stored start session is
      never behind the session that starts, so the skipped-session arm is dead. */
  lemma RotationActivates(cfg: Config, c: Chain)
    requires Timing(cfg, c)
    ensures NextActive(c.s) in c.s.starts <==> Due(c)
    ensures Due(c) ==> c.s.starts[NextActive(c.s)] == c.session + 1
    ensures EndStart(c).s == if Due(c) then Activated(c.s, c.session + 1) else c.s
  {
  }

  lemma EndStartTiming(cfg: Config, c: Chain)
    requires Timing(cfg, c)
    ensures Timing(cfg, EndStart(c)) && EndStart(c).s.current == Some(ActiveIndex(EndStart(c).s))
  {
  }

  lemma EndStartRecords(cfg: Config, c: Chain)
    requires Timing(cfg, c) && Records(cfg, c.s)
    ensures Records(cfg, EndStart(c).s)
  {
    RotationActivates(cfg, c);
  }

  // ---- Planning an era ----

  function PlanFor(s: State, session: nat): (p: Plan) {
    Plan(session, s.whitelist, EffectiveExternal(s), s.externalIndex)
  }

  lemma {:induction false} PlannedTrace(plans: seq<Plan>, a: nat, p: Plan)
    requires a < |plans|
    ensures Trace(plans + [p], a) == Trace(plans, a)
  {
    if a > 0 {
      PlannedTrace(plans, a - 1, p);
    }
  }

  lemma TriggerTiming(cfg: Config, c: Chain)
    requires Timing(cfg, c) && c.s.current == Some(ActiveIndex(c.s))
    requires c.s.plans[|c.s.plans| - 1].externalIndex <= c.s.externalIndex
    ensures Timing(cfg, c.(s := TriggerNewEra(cfg, c.s, c.session + 1)))
  {
  }

  lemma TriggerRecords(cfg: Config, s: State, session: nat)
    requires Records(cfg, s) && |s.plans| == ActiveIndex(s) + 1
    ensures Records(cfg, TriggerNewEra(cfg, s, session))
  {
    PlannedTrace(s.plans, ActiveIndex(s), PlanFor(s, session));
  }

  /** Planning a session plans an era as well, or changes nothing. */
  lemma NewSessionShape(cfg: Config, s: State, session: nat)
    ensures
      var r := NewSession(cfg, s, session).0;
      r == s || r == TriggerNewEra(cfg, s, session).(force := r.force)
  {
  }

  lemma TriggerInv(cfg: Config, c: Chain)
    requires Inv(cfg, c) && c.s.current == Some(ActiveIndex(c.s))
    ensures Inv(cfg, c.(s := TriggerNewEra(cfg, c.s, c.session + 1)))
  {
    TriggerTiming(cfg, c);
    TriggerRecords(cfg, c.s, c.session + 1);
  }

  /** Neither the forcing mode nor the queued set matters to the invariant. */
  lemma ReplacedInv(cfg: Config, c: Chain, r: Chain)
    requires Inv(cfg, c) && r == c.(s := c.s.(force := r.s.force), queued := r.queued)
    ensures Inv(cfg, r)
  {
  }

  lemma PlanNextShape(cfg: Config, c: Chain, r: Chain, planned: Chain)
    requires r == PlanNext(cfg, c) && planned == c.(s := TriggerNewEra(cfg, c.s, c.session + 1))
    ensures r == c || r == planned.(s := planned.s.(force := r.s.force), queued := r.queued)
  {
  }

  lemma PlanInv(cfg: Config, c: Chain)
    requires Inv(cfg, c) && c.s.current == Some(ActiveIndex(c.s))
    ensures Inv(cfg, PlanNext(cfg, c))
  {
    var r, planned := PlanNext(cfg, c), c.(s := TriggerNewEra(cfg, c.s, c.session + 1));
    PlanNextShape(cfg, c, r, planned);
    if r != c {
      TriggerInv(cfg, c);
      ReplacedInv(cfg, planned, r);
    }
  }

  // ---- Runs ----

  ghost predicate Inv(cfg: Config, c: Chain) {
    Timing(cfg, c) && Records(cfg, c.s)
  }

  lemma RotateInv(cfg: Config, c: Chain)
    requires Inv(cfg, c)
    ensures Inv(cfg, Rotate(cfg, c))
  {
    EndStartTiming(cfg, c);
    EndStartRecords(cfg, c);
    PlanInv(cfg, EndStart(c));
  }

  lemma PlanningGrows(cfg: Config, s: State, session: nat)
    ensures var r := NewSession(cfg, s, session).0; r.active == s.active && s.plans <= r.plans && r.hooks == s.hooks
  {
  }

  /** The era that is due was planned for the next session, with the pending index. */
  lemma DuePlan(cfg: Config, c: Chain)
    requires Inv(cfg, c) && Due(c)
    ensures
      var p := c.s.plans[|c.s.plans| - 1];
      |c.s.plans| == ActiveIndex(c.s) + 2 && p.session == c.session + 1 && p.externalIndex == c.s.pendingIndex
  {
  }

  /** A rotation moves to the next era exactly when that era is due. */
  lemma RotateMoves(cfg: Config, c: Chain)
    requires Inv(cfg, c)
    ensures
      var r := Rotate(cfg, c);
      && ActiveIndex(r.s) == ActiveIndex(c.s) + (if Due(c) then 1 else 0)
      && c.s.plans <= r.s.plans
      && (Due(c) ==>
            var p := c.s.plans[ActiveIndex(c.s) + 1];
            ActiveIndex(c.s) + 1 < |c.s.plans| && p.session == c.session + 1 && p.externalIndex == c.s.pendingIndex)
  {
    var mid := EndStart(c);
    RotationActivates(cfg, c);
    PlanningGrows(cfg, mid.s, mid.session + 1);
    if Due(c) {
      DuePlan(cfg, c);
    }
  }

  /** An era's set is accepted only while the latest index is behind it, so once. */
  lemma AcceptedOnce(accepted: seq<nat>, a: nat, latest: nat)
    requires OneSetPerEra(accepted, a, latest) && latest <= a
    ensures OneSetPerEra(accepted + [a], a, a + 1)
  {
  }

  /** A set for the next era is accepted exactly when none was accepted in the active era. */
  lemma AcceptedIff(cfg: Config, s: State, target: nat)
    requires Records(cfg, s)
    ensures ValidateTargetEra(s, target) == Ok <==> target == ActiveIndex(s) + 1 && ActiveIndex(s) !in s.accepted
  {
  }

  lemma SetExternalRecords(cfg: Config, s: State, validators: seq<Account>, target: nat)
    requires Records(cfg, s)
    ensures Records(cfg, SetExternal(cfg, s, validators, target).0)
  {
    if ValidateTargetEra(s, target) == Ok {
      AcceptedOnce(s.accepted, ActiveIndex(s), s.externalIndex);
    }
  }

  lemma WhitelistRecords(cfg: Config, s: State, whitelist: seq<Account>)
    requires Records(cfg, s) && Distinct(whitelist)
    ensures Records(cfg, s.(whitelist := whitelist))
  {
  }

  lemma ExtrinsicRecords(cfg: Config, c: Chain, op: Op)
    requires Records(cfg, c.s) && !op.RotateSession?
    ensures Records(cfg, Step(cfg, c, op).s)
  {
    if op.SetExternalValidators? {
      SetExternalRecords(cfg, c.s, op.validators, op.target);
    } else if op.Whitelist? || op.Unwhitelist? {
      WhitelistRecords(cfg, c.s, Step(cfg, c, op).s.whitelist);
    }
  }

  /** Only a rotation moves the session, the eras and the driver's sets. */
  lemma CallStays(cfg: Config, c: Chain, op: Op)
    requires !op.RotateSession?
    ensures
      var r := Step(cfg, c, op);
      && ActiveIndex(r.s) == ActiveIndex(c.s) && r.s.current == c.s.current && r.s.starts == c.s.starts
      && r.s.active.Some? == c.s.active.Some? && r == Chain(r.s, c.session, c.running, c.queued)
      && r.s.plans == c.s.plans && (!op.ForceEra? ==> r.s.force == c.s.force)
  {
  }

  lemma StepInv(cfg: Config, c: Chain, op: Op)
    requires Inv(cfg, c)
    ensures Inv(cfg, Step(cfg, c, op))
  {
    if op.RotateSession? {
      RotateInv(cfg, c);
    } else {
      ExtrinsicRecords(cfg, c, op);
      CallStays(cfg, c, op);
    }
  }

  lemma FollowInv(cfg: Config, c: Chain, op: Option<Op>)
    requires Inv(cfg, c)
    ensures Inv(cfg, Follow(cfg, c, op))
  {
    if op.Some? {
      StepInv(cfg, c, op.value);
    }
  }

  /** What genesis has planned before session 0 starts: era 0, and era 1 as well where
      eras last at most one session. */
  lemma BootShape(cfg: Config, whitelist: seq<Account>, external: seq<Account>, skip: bool) returns (planned: State)
    requires cfg.historyDepth >= 1
    ensures
      var first := Dedup(whitelist + if skip then [] else external);
      Boot(cfg, whitelist, external, skip) == Chain(StartEra(planned, 0), 0, first, first)
    ensures
      var ext := if skip then [] else external;
      var early := cfg.sessionsPerEra <= 1;
      var zero, one := Plan(0, whitelist, ext, 0), Plan(1, whitelist, ext, 0);
      planned == Genesis(whitelist, external, skip).(
        current := Some(if early then 1 else 0),
        starts := if early then map[0 := 0, 1 := 1] else map[0 := 0],
        plans := if early then [zero, one] else [zero])
  {
    var g := Genesis(whitelist, external, skip);
    var one := TriggerNewEra(cfg, g, 0);
    planned := NewSession(cfg, one, 1).0;
    assert NewSession(cfg, g, 0).0 == one;
  }

  lemma BootTiming(cfg: Config, c: Chain, early: bool, p: Plan)
    requires c.session == 0 && c.s.active == Some(ActiveEra(0, None)) && cfg.historyDepth >= 1 && p.session == 0
    requires c.s.plans == if early then [p, p.(session := 1)] else [p]
    requires c.s.current == Some(if early then 1 else 0)
    requires c.s.starts == if early then map[0 := 0, 1 := 1] else map[0 := 0]
    ensures Timing(cfg, c)
  {
  }

  lemma BootRecords(cfg: Config, planned: State, p: Plan)
    requires planned.active.None? && planned.hooks == [] && planned.accepted == []
    requires planned.externalIndex == planned.pendingIndex == 0
    requires planned.whitelist == planned.whitelistPending == p.whitelist && Distinct(p.whitelist)
    requires p.session == 0 && p.externalIndex == 0
    requires planned.plans == if cfg.sessionsPerEra <= 1 then [p, p.(session := 1)] else [p]
    ensures Records(cfg, StartEra(planned, 0))
  {
  }

  lemma BootInv(cfg: Config, whitelist: seq<Account>, external: seq<Account>, skip: bool)
    requires Distinct(whitelist) && cfg.historyDepth >= 1
    ensures Inv(cfg, Boot(cfg, whitelist, external, skip))
  {
    var planned := BootShape(cfg, whitelist, external, skip);
    var p := Plan(0, whitelist, if skip then [] else external, 0);
    BootTiming(cfg, Boot(cfg, whitelist, external, skip), cfg.sessionsPerEra <= 1, p);
    BootRecords(cfg, planned, p);
  }

  lemma {:induction false} RunInv(cfg: Config, c: Chain, ops: seq<Op>)
    requires Inv(cfg, c)
    ensures Inv(cfg, Run(cfg, c, ops))
    decreases |ops|
  {
    if ops != [] {
      StepInv(cfg, c, ops[0]);
      RunInv(cfg, Step(cfg, c, ops[0]), ops[1..]);
    }
  }

  // ---- The driver's sets ----

  lemma EndStartSets(cfg: Config, c: Chain)
    requires Timing(cfg, c) && SetsFit(c)
    ensures SetsFit(EndStart(c))
  {
    RotationActivates(cfg, c);
  }

  /** Planning queues the set of the plan it makes. */
  lemma PlanSets(cfg: Config, c: Chain)
    requires SetsFit(c)
    ensures SetsFit(PlanNext(cfg, c))
  {
    assert Validators(c.s) == SetFor(PlanFor(c.s, c.session + 1));
  }

  lemma StepSets(cfg: Config, c: Chain, op: Op)
    requires Timing(cfg, c) && SetsFit(c)
    ensures SetsFit(Step(cfg, c, op))
  {
    if op.RotateSession? {
      EndStartSets(cfg, c);
      PlanSets(cfg, EndStart(c));
    } else {
      CallStays(cfg, c, op);
    }
  }

  /** A rotation to `r`: exactly when an era was due, the active one ended and that one started,
      with the session and index it was planned for, and the hooks told so. The validators
      that run are those planned for the active era. */
  ghost predicate Moved(c: Chain, r: Chain) {
    var a, b := ActiveIndex(c.s), ActiveIndex(r.s);
    && b == a + (if Due(c) then 1 else 0) && c.s.plans <= r.s.plans && b < |c.s.plans|
    && r.s.hooks == c.s.hooks + (if Due(c) then [End(a), Start(b, r.session, r.s.plans[b].externalIndex)] else [])
    && r.running == SetFor(r.s.plans[b])
  }

  lemma RotationMoved(cfg: Config, c: Chain)
    requires Inv(cfg, c) && SetsFit(c)
    ensures Moved(c, Rotate(cfg, c))
  {
    RotateMoves(cfg, c);
    RotationActivates(cfg, c);
    PlanningGrows(cfg, EndStart(c).s, c.session + 2);
    StepSets(cfg, c, RotateSession);
    assert c.s.hooks + [] == c.s.hooks;
  }

  lemma {:induction false} RunSets(cfg: Config, c: Chain, ops: seq<Op>)
    requires Inv(cfg, c) && SetsFit(c)
    ensures SetsFit(Run(cfg, c, ops))
    decreases |ops|
  {
    if ops != [] {
      StepInv(cfg, c, ops[0]);
      StepSets(cfg, c, ops[0]);
      RunSets(cfg, Step(cfg, c, ops[0]), ops[1..]);
    }
  }

  lemma BootSets(cfg: Config, whitelist: seq<Account>, external: seq<Account>, skip: bool)
    requires cfg.historyDepth >= 1
    ensures SetsFit(Boot(cfg, whitelist, external, skip))
  {
    var planned := BootShape(cfg, whitelist, external, skip);
  }

  // ---- What a run guarantees ----

  /** Every state reachable from a genesis with these lists. */
  function Reached(cfg: Config, whitelist: seq<Account>, external: seq<Account>, skip: bool, ops: seq<Op>): (c: Chain) {
    Run(cfg, Boot(cfg, whitelist, external, skip), ops)
  }

  lemma ReachedInv(cfg: Config, whitelist: seq<Account>, external: seq<Account>, skip: bool, ops: seq<Op>)
    requires Distinct(whitelist) && cfg.historyDepth >= 1
    ensures Inv(cfg, Reached(cfg, whitelist, external, skip, ops))
  {
    BootInv(cfg, whitelist, external, skip);
    RunInv(cfg, Boot(cfg, whitelist, external, skip), ops);
  }

  lemma ReachedSets(cfg: Config, whitelist: seq<Account>, external: seq<Account>, skip: bool, ops: seq<Op>)
    requires Distinct(whitelist) && cfg.historyDepth >= 1
    ensures SetsFit(Reached(cfg, whitelist, external, skip, ops))
  {
    BootInv(cfg, whitelist, external, skip);
    BootSets(cfg, whitelist, external, skip);
    RunSets(cfg, Boot(cfg, whitelist, external, skip), ops);
  }

  /** The planned era is the active one or the next and due at once; exactly the last planned
      eras have a stored start, in strictly increasing order; no era is skipped or repeated
      in the hooks; and a stored start is never overtaken by the session that starts. */
  ghost predicate Orderly(cfg: Config, c: Chain) {
    var a, starts := ActiveIndex(c.s), c.s.starts;
    && c.s.active.Some? && c.s.current.Some?
    && (c.s.current.value == a || (c.s.current.value == a + 1 && a + 1 in starts && starts[a + 1] == c.session + 1))
    && (forall k: nat :: k in starts <==> k <= c.s.current.value <= k + cfg.historyDepth)
    && (forall k: nat, l: nat :: k in starts && l in starts && k < l ==> starts[k] < starts[l])
    && |c.s.plans| == c.s.current.value + 1 && c.s.hooks == Trace(c.s.plans, a)
    && (a + 1 in starts ==> starts[a + 1] == c.session + 1)
  }

  lemma InvOrderly(cfg: Config, c: Chain)
    requires Inv(cfg, c)
    ensures Orderly(cfg, c)
  {
    var starts, plans := c.s.starts, c.s.plans;
    RotationActivates(cfg, c);
    forall k: nat, l: nat | k in starts && l in starts && k < l ensures starts[k] < starts[l] {
      assert Before(plans[k], plans[l]);
    }
  }

  /** The era machine, for every era length and every run. */
  lemma EraMachine(cfg: Config, whitelist: seq<Account>, external: seq<Account>, skip: bool, ops: seq<Op>)
    requires Distinct(whitelist) && cfg.historyDepth >= 1
    ensures Orderly(cfg, Reached(cfg, whitelist, external, skip, ops))
  {
    ReachedInv(cfg, whitelist, external, skip, ops);
    InvOrderly(cfg, Reached(cfg, whitelist, external, skip, ops));
  }

  lemma {:induction false} TraceAt(plans: seq<Plan>, a: nat, k: nat)
    requires k <= a < |plans|
    ensures Trace(plans, a)[2 * k] == Start(k, plans[k].session, plans[k].externalIndex)
    ensures k < a ==> Trace(plans, a)[2 * k + 1] == End(k)
  {
    if k < a {
      TraceAt(plans, a - 1, k);
    }
  }

  lemma EndStartPlans(c: Chain)
    ensures EndStart(c).s.plans == c.s.plans
  {
  }

  lemma StepGrows(cfg: Config, c: Chain, op: Op)
    ensures c.s.plans <= Step(cfg, c, op).s.plans
  {
    if op.RotateSession? {
      EndStartPlans(c);
      PlanningGrows(cfg, EndStart(c).s, c.session + 2);
    } else {
      CallStays(cfg, c, op);
    }
  }

  lemma {:induction false} PlansOnlyGrow(cfg: Config, c: Chain, ops: seq<Op>)
    ensures c.s.plans <= Run(cfg, c, ops).s.plans
    decreases |ops|
  {
    if ops != [] {
      StepGrows(cfg, c, ops[0]);
      PlansOnlyGrow(cfg, Step(cfg, c, ops[0]), ops[1..]);
    }
  }

  /** The external index given with an era is at most the era number and never falls from
      one era to the next; the accepted sets have strictly increasing active eras. */
  ghost predicate IndicesInOrder(s: State, k: nat, l: nat) {
    && 2 * k <= 2 * l < |s.hooks| && s.hooks[2 * k].Start? && s.hooks[2 * l].Start?
    && s.hooks[2 * k].era == k && s.hooks[2 * k].externalIndex <= k
    && s.hooks[2 * k].externalIndex <= s.hooks[2 * l].externalIndex
    && (forall i, j :: 0 <= i < j < |s.accepted| ==> s.accepted[i] < s.accepted[j])
  }

  lemma RecordedIndices(cfg: Config, s: State, k: nat, l: nat)
    requires Records(cfg, s) && PlansInOrder(s.plans) && k <= l <= ActiveIndex(s)
    ensures IndicesInOrder(s, k, l)
  {
    TraceAt(s.plans, ActiveIndex(s), k);
    TraceAt(s.plans, ActiveIndex(s), l);
    assert WellPlanned(k, s.plans[k]);
    assert k < l ==> Before(s.plans[k], s.plans[l]);
  }

  lemma ExternalIndices(cfg: Config, whitelist: seq<Account>, external: seq<Account>, skip: bool, ops: seq<Op>,
                        k: nat, l: nat)
    requires Distinct(whitelist) && cfg.historyDepth >= 1
    requires k <= l <= ActiveIndex(Reached(cfg, whitelist, external, skip, ops).s)
    ensures IndicesInOrder(Reached(cfg, whitelist, external, skip, ops).s, k, l)
  {
    ReachedInv(cfg, whitelist, external, skip, ops);
    RecordedIndices(cfg, Reached(cfg, whitelist, external, skip, ops).s, k, l);
  }

  lemma BootPlansEarly(cfg: Config, whitelist: seq<Account>, external: seq<Account>, skip: bool, ops: seq<Op>)
    requires cfg.historyDepth >= 1 && cfg.sessionsPerEra <= 1
    ensures
      var plans := Reached(cfg, whitelist, external, skip, ops).s.plans;
      |plans| >= 2 && plans[1].whitelist == whitelist
  {
    var planned := BootShape(cfg, whitelist, external, skip);
    PlansOnlyGrow(cfg, Boot(cfg, whitelist, external, skip), ops);
  }

  /** With eras of at most one session, the first rotation starts era 1 with no whitelist. */
  lemma EarlyEraLosesWhitelist(cfg: Config, whitelist: seq<Account>, external: seq<Account>, skip: bool)
    requires Distinct(whitelist) && cfg.historyDepth >= 1 && cfg.sessionsPerEra <= 1
    ensures
      var s := Reached(cfg, whitelist, external, skip, [RotateSession]).s;
      ActiveIndex(s) == 1 && s.whitelistActive == []
  {
    var c := Boot(cfg, whitelist, external, skip);
    var planned := BootShape(cfg, whitelist, external, skip);
    BootInv(cfg, whitelist, external, skip);
    RotationActivates(cfg, c);
    EndStartRecords(cfg, c);
    NewSessionShape(cfg, EndStart(c).s, 2);
    assert Run(cfg, Step(cfg, c, RotateSession), []) == Rotate(cfg, c);
  }

  ghost predicate AlwaysAgrees(cfg: Config, whitelist: seq<Account>, external: seq<Account>, skip: bool) {
    forall ops :: SnapshotAgrees(Reached(cfg, whitelist, external, skip, ops))
  }

  /** In every run the active era has the whitelist and external index it was planned with,
      exactly when eras last at least two sessions or genesis whitelists nobody. */
  lemma SnapshotsAgreeIff(cfg: Config, whitelist: seq<Account>, external: seq<Account>, skip: bool)
    requires Distinct(whitelist) && cfg.historyDepth >= 1
    ensures AlwaysAgrees(cfg, whitelist, external, skip) <==> cfg.sessionsPerEra >= 2 || whitelist == []
  {
    if cfg.sessionsPerEra >= 2 || whitelist == [] {
      forall ops ensures SnapshotAgrees(Reached(cfg, whitelist, external, skip, ops)) {
        ReachedInv(cfg, whitelist, external, skip, ops);
        ReachedSets(cfg, whitelist, external, skip, ops);
        if cfg.sessionsPerEra <= 1 {
          BootPlansEarly(cfg, whitelist, external, skip, ops);
        }
      }
    } else {
      var ops := [RotateSession];
      EarlyEraLosesWhitelist(cfg, whitelist, external, skip);
      BootPlansEarly(cfg, whitelist, external, skip, ops);
      assert !SnapshotAgrees(Reached(cfg, whitelist, external, skip, ops));
    }
  }

  /** In every run, forced or not, the validators that run the active era are the whitelist
      and external set recorded when that era was planned, without duplicates. */
  lemma RunningSet(cfg: Config, whitelist: seq<Account>, external: seq<Account>, skip: bool, ops: seq<Op>)
    requires Distinct(whitelist) && cfg.historyDepth >= 1
    ensures
      var c := Reached(cfg, whitelist, external, skip, ops);
      && ActiveIndex(c.s) < |c.s.plans| && Distinct(c.running)
      && var p := c.s.plans[ActiveIndex(c.s)];
      && c.running == p.whitelist + NewcomersOf(p.whitelist, p.external, |p.external|)
      && forall x :: x in c.running <==> x in p.whitelist || x in p.external
  {
    var c := Reached(cfg, whitelist, external, skip, ops);
    ReachedInv(cfg, whitelist, external, skip, ops);
    ReachedSets(cfg, whitelist, external, skip, ops);
    var p := c.s.plans[ActiveIndex(c.s)];
    assert WellPlanned(ActiveIndex(c.s), p);
    PlannedSet(p.whitelist, p.external);
  }

  // ---- Regular eras ----

  ghost predicate Evenly(n: nat, plans: seq<Plan>) {
    forall k :: 1 <= k < |plans| ==> plans[k].session == plans[k - 1].session + n
  }

  /** Eras so far are `n` sessions long, and the next one is not overdue at `session`. */
  ghost predicate Regular(n: nat, s: State, session: nat) {
    s.force == NotForcing && Evenly(n, s.plans) && s.plans != [] && session < s.plans[|s.plans| - 1].session + n
  }

  lemma PlanRegular(cfg: Config, s: State, session: nat, last: nat)
    requires s.force == NotForcing && Evenly(cfg.sessionsPerEra, s.plans)
    requires |s.plans| == last + 1 && s.current == Some(last) && last in s.starts
    requires s.starts[last] == s.plans[last].session <= session <= s.plans[last].session + cfg.sessionsPerEra
    requires cfg.sessionsPerEra >= 1
    ensures Regular(cfg.sessionsPerEra, NewSession(cfg, s, session).0, session)
  {
  }

  lemma RotateRegular(cfg: Config, c: Chain)
    requires Timing(cfg, c) && Regular(cfg.sessionsPerEra, c.s, c.session + 1) && cfg.sessionsPerEra >= 1
    ensures Regular(cfg.sessionsPerEra, Rotate(cfg, c).s, c.session + 2)
  {
    RotationActivates(cfg, c);
    EndStartTiming(cfg, c);
    PlanRegular(cfg, EndStart(c).s, c.session + 2, |c.s.plans| - 1);
  }

  lemma StepRegular(cfg: Config, c: Chain, op: Op)
    requires Timing(cfg, c) && Regular(cfg.sessionsPerEra, c.s, c.session + 1)
    requires cfg.sessionsPerEra >= 1 && !op.ForceEra?
    ensures Regular(cfg.sessionsPerEra, Step(cfg, c, op).s, Step(cfg, c, op).session + 1)
  {
    if op.RotateSession? {
      RotateRegular(cfg, c);
    } else {
      CallStays(cfg, c, op);
    }
  }

  /** Without forcing, every era lasts exactly the configured number of sessions. */
  lemma {:induction false} RegularEras(cfg: Config, c: Chain, ops: seq<Op>)
    requires Inv(cfg, c) && Regular(cfg.sessionsPerEra, c.s, c.session + 1) && cfg.sessionsPerEra >= 1
    requires forall k :: 0 <= k < |ops| ==> !ops[k].ForceEra?
    ensures Evenly(cfg.sessionsPerEra, Run(cfg, c, ops).s.plans)
    decreases |ops|
  {
    if ops != [] {
      StepInv(cfg, c, ops[0]);
      StepRegular(cfg, c, ops[0]);
      RegularEras(cfg, Step(cfg, c, ops[0]), ops[1..]);
    }
  }

  /** From genesis on: era k starts k times the configured length after session 0. */
  lemma ErasStartOnSchedule(cfg: Config, whitelist: seq<Account>, external: seq<Account>, skip: bool, ops: seq<Op>)
    requires Distinct(whitelist) && cfg.historyDepth >= 1 && cfg.sessionsPerEra >= 1
    requires forall k :: 0 <= k < |ops| ==> !ops[k].ForceEra?
    ensures
      var plans := Reached(cfg, whitelist, external, skip, ops).s.plans;
      plans != [] && plans[0].session == 0 && Evenly(cfg.sessionsPerEra, plans)
  {
    var planned := BootShape(cfg, whitelist, external, skip);
    var c := Boot(cfg, whitelist, external, skip);
    BootInv(cfg, whitelist, external, skip);
    RegularEras(cfg, c, ops);
    PlansOnlyGrow(cfg, c, ops);
  }
}
