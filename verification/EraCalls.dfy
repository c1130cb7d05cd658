/**
 What the calls of the external-validators pallet come to: the lists and switches that the
 run of calls has set up so far, and what a rotation plans from them.
 */
module EraCalls {
  import opened Common
  import opened Eras
  import EraRuns

  // ---- What the calls have set up ----

  /** The lists and switches, kept aside from the pallet. */
  datatype Inputs = Inputs(whitelist: seq<Account>, external: seq<Account>, skip: bool, force: Forcing)

  /** The elements other than `who`, in order. */
  function Without(xs: seq<Account>, who: Account): (r: seq<Account>) {
    if xs == [] then [] else (if xs[0] == who then [] else [xs[0]]) + Without(xs[1..], who)
  }

  function Noted(cfg: Config, c: Chain, op: Op, i: Inputs): (r: Inputs) {
    match op
    case RotateSession => i.(force := if i.force == ForceNew then NotForcing else i.force)
    case ForceEra(mode) => i.(force := mode)
    case SetExternalValidators(validators, target) =>
      if target == ActiveIndex(c.s) + 1 && ActiveIndex(c.s) !in c.s.accepted then
        i.(external := if |validators| > cfg.maxExternal then validators[..cfg.maxExternal] else validators)
      else i
    case Whitelist(who, registered) =>
      if registered && who !in i.whitelist && |i.whitelist| < cfg.maxWhitelisted then
        i.(whitelist := i.whitelist + [who])
      else i
    case Unwhitelist(who) => i.(whitelist := Without(i.whitelist, who))
    case SkipExternal(skip) => i.(skip := skip)
    case FinalizeBlock(_) => i
  }

  function NotedAll(cfg: Config, c: Chain, ops: seq<Op>, i: Inputs): (r: Inputs)
    decreases |ops|
  {
    if ops == [] then i else NotedAll(cfg, Step(cfg, c, ops[0]), ops[1..], Noted(cfg, c, ops[0], i))
  }

  function InputsOf(s: State): (i: Inputs) {
    Inputs(s.whitelist, s.external, s.skipExternal, s.force)
  }

  lemma {:induction false} WithoutAbsent(xs: seq<Account>, who: Account)
    requires who !in xs
    ensures Without(xs, who) == xs
  {
    if xs != [] {
      WithoutAbsent(xs[1..], who);
      assert [xs[0]] + xs[1..] == xs;
    }
  }

  lemma {:induction false} RemovesOnly(xs: seq<Account>, who: Account)
    requires Distinct(xs) && who in xs
    ensures var i := IndexOf(xs, who); xs[..i] + xs[i + 1..] == Without(xs, who)
  {
    var i := IndexOf(xs, who);
    if xs[0] == who {
      assert forall k :: 0 <= k < |xs[1..]| ==> xs[1..][k] == xs[k + 1];
      WithoutAbsent(xs[1..], who);
    } else {
      RemovesOnly(xs[1..], who);
      assert xs[..i] + xs[i + 1..] == [xs[0]] + (xs[1..][..i - 1] + xs[1..][i..]);
    }
  }

  lemma PlanKeepsInputs(cfg: Config, s: State, session: nat)
    requires s.current.Some?
    ensures
      var r := NewSession(cfg, s, session).0;
      InputsOf(r).(force := s.force) == InputsOf(s)
      && r.force == if s.force == ForceNew then NotForcing else s.force
  {
  }

  lemma RotateNoted(cfg: Config, c: Chain)
    requires EraRuns.Inv(cfg, c)
    ensures InputsOf(Rotate(cfg, c).s) == Noted(cfg, c, RotateSession, InputsOf(c.s))
  {
    EraRuns.RotationActivates(cfg, c);
    var mid := EndStart(c);
    assert InputsOf(mid.s) == InputsOf(c.s);
    PlanKeepsInputs(cfg, mid.s, mid.session + 1);
  }

  lemma StepNoted(cfg: Config, c: Chain, op: Op)
    requires EraRuns.Inv(cfg, c)
    ensures InputsOf(Step(cfg, c, op).s) == Noted(cfg, c, op, InputsOf(c.s))
  {
    match op
    case RotateSession => RotateNoted(cfg, c);
    case SetExternalValidators(validators, target) => EraRuns.AcceptedIff(cfg, c.s, target);
    case Unwhitelist(who) =>
      if who in c.s.whitelist {
        RemovesOnly(c.s.whitelist, who);
      } else {
        WithoutAbsent(c.s.whitelist, who);
      }
    case _ =>
  }

  lemma {:induction false} RunNoted(cfg: Config, c: Chain, ops: seq<Op>)
    requires EraRuns.Inv(cfg, c)
    ensures InputsOf(Run(cfg, c, ops).s) == NotedAll(cfg, c, ops, InputsOf(c.s))
    decreases |ops|
  {
    if ops != [] {
      EraRuns.StepInv(cfg, c, ops[0]);
      StepNoted(cfg, c, ops[0]);
      RunNoted(cfg, Step(cfg, c, ops[0]), ops[1..]);
    }
  }

  lemma BootInputs(cfg: Config, whitelist: seq<Account>, external: seq<Account>, skip: bool)
    ensures InputsOf(Boot(cfg, whitelist, external, skip).s) == Inputs(whitelist, external, skip, NotForcing)
  {
    var genesis := Genesis(whitelist, external, skip);
    var first := PlanFirst(cfg, genesis);
    assert InputsOf(first.s) == InputsOf(genesis);
    PlanKeepsInputs(cfg, first.s, 1);
  }

  // ---- What a rotation plans ----

  /** Whether an era is planned for `session`, with `last` the session of the last plan: at
      once when forced, never under `ForceNone`, and else when the last era is over. */
  predicate PlansAt(cfg: Config, force: Forcing, last: nat, session: nat) {
    match force
    case NotForcing => last + cfg.sessionsPerEra <= session
    case ForceNew => true
    case ForceNone => false
    case ForceAlways => true
  }

  /** The plan of an era for `session`. */
  function PlanFrom(i: Inputs, session: nat, externalIndex: nat): (p: Plan) {
    Plan(session, i.whitelist, if i.skip then [] else i.external, externalIndex)
  }

  lemma PlanGrows(cfg: Config, s: State, session: nat)
    requires
      && s.current.Some? && s.current.value in s.starts && s.plans != []
      && s.starts[s.current.value] == s.plans[|s.plans| - 1].session <= session
    ensures
      var last := s.plans[|s.plans| - 1].session;
      NewSession(cfg, s, session).0.plans ==
        s.plans + if PlansAt(cfg, s.force, last, session) then [PlanFrom(InputsOf(s), session, s.externalIndex)] else []
  {
  }

  /** The index of the external set accepted last. */
  function LastIndex(accepted: seq<nat>): (index: nat) {
    if accepted == [] then 0 else accepted[|accepted| - 1] + 1
  }

  /** The plans after a rotation, which plans the session after the one it starts. */
  ghost predicate PlannedFrom(cfg: Config, c: Chain, i: Inputs, after: seq<Plan>) {
    && c.s.plans != []
    && var planned := PlansAt(cfg, i.force, c.s.plans[|c.s.plans| - 1].session, c.session + 2);
    after == c.s.plans + if planned then [PlanFrom(i, c.session + 2, LastIndex(c.s.accepted))] else []
  }

  lemma IndexKnown(cfg: Config, s: State)
    requires Records(cfg, s)
    ensures s.externalIndex == LastIndex(s.accepted)
  {
  }

  /** Starting a due era leaves what the next plan is made from. */
  lemma EndStartKeeps(cfg: Config, c: Chain)
    requires Timing(cfg, c)
    ensures
      var s := EndStart(c).s;
      && InputsOf(s) == InputsOf(c.s) && s.plans == c.s.plans != [] && s.externalIndex == c.s.externalIndex
      && s.current.Some? && s.current.value in s.starts
      && s.starts[s.current.value] == s.plans[|s.plans| - 1].session <= c.session + 2
  {
    EraRuns.RotationActivates(cfg, c);
  }

  lemma PlansFrom(cfg: Config, c: Chain, mid: State, after: seq<Plan>)
    requires InputsOf(mid) == InputsOf(c.s) && mid.plans == c.s.plans != []
    requires mid.externalIndex == LastIndex(c.s.accepted)
    requires
      && mid.current.Some? && mid.current.value in mid.starts
      && mid.starts[mid.current.value] == mid.plans[|mid.plans| - 1].session <= c.session + 2
    requires after == NewSession(cfg, mid, c.session + 2).0.plans
    ensures PlannedFrom(cfg, c, InputsOf(c.s), after)
  {
    PlanGrows(cfg, mid, c.session + 2);
  }

  lemma RotatePlans(cfg: Config, c: Chain)
    requires EraRuns.Inv(cfg, c)
    ensures PlannedFrom(cfg, c, InputsOf(c.s), Rotate(cfg, c).s.plans)
  {
    IndexKnown(cfg, c.s);
    EndStartKeeps(cfg, c);
    PlansFrom(cfg, c, EndStart(c).s, Rotate(cfg, c).s.plans);
  }

  lemma ReachedNoted(cfg: Config, whitelist: seq<Account>, external: seq<Account>, skip: bool, ops: seq<Op>)
    requires Distinct(whitelist) && cfg.historyDepth >= 1
    ensures InputsOf(EraRuns.Reached(cfg, whitelist, external, skip, ops).s) ==
      NotedAll(cfg, Boot(cfg, whitelist, external, skip), ops, Inputs(whitelist, external, skip, NotForcing))
  {
    EraRuns.BootInv(cfg, whitelist, external, skip);
    BootInputs(cfg, whitelist, external, skip);
    RunNoted(cfg, Boot(cfg, whitelist, external, skip), ops);
  }

  /** From genesis on, for every run of calls: the next rotation plans an era exactly as the
      forcing mode left by the calls demands, and plans it with the whitelist that the calls
      left, the set last accepted from Ethereum, cut to the limit, unless external validators
      are skipped, and the index of that set. */
  lemma NextPlan(cfg: Config, whitelist: seq<Account>, external: seq<Account>, skip: bool, ops: seq<Op>)
    requires Distinct(whitelist) && cfg.historyDepth >= 1
    ensures
      var c := EraRuns.Reached(cfg, whitelist, external, skip, ops);
      var genesis := Inputs(whitelist, external, skip, NotForcing);
      PlannedFrom(cfg, c, NotedAll(cfg, Boot(cfg, whitelist, external, skip), ops, genesis), Rotate(cfg, c).s.plans)
  {
    ReachedNoted(cfg, whitelist, external, skip, ops);
    EraRuns.ReachedInv(cfg, whitelist, external, skip, ops);
    RotatePlans(cfg, EraRuns.Reached(cfg, whitelist, external, skip, ops));
  }

  /** While eras are switched off, no calls but forcing again bring a plan. */
  lemma {:induction false} ForceNonePlansNothing(cfg: Config, c: Chain, ops: seq<Op>)
    requires EraRuns.Inv(cfg, c) && c.s.force == ForceNone
    requires forall k :: 0 <= k < |ops| ==> !ops[k].ForceEra?
    ensures Run(cfg, c, ops).s.plans == c.s.plans
    decreases |ops|
  {
    if ops != [] {
      EraRuns.StepInv(cfg, c, ops[0]);
      StepNoted(cfg, c, ops[0]);
      if ops[0].RotateSession? {
        RotatePlans(cfg, c);
      } else {
        EraRuns.CallStays(cfg, c, ops[0]);
      }
      ForceNonePlansNothing(cfg, Step(cfg, c, ops[0]), ops[1..]);
    }
  }

  // ---- What the calls answer ----

  /** A set is taken exactly for the era after the active one, and only the first for it. */
  lemma SetOutcome(cfg: Config, s: State, validators: seq<Account>, target: nat)
    requires Records(cfg, s)
    ensures
      var (t, result) := SetExternal(cfg, s, validators, target);
      var next := ActiveIndex(s) + 1;
      && (result == TargetEraTooOld <==> target < next)
      && (result == TargetEraTooNew <==> target > next)
      && (result == DuplicateOrStaleTargetEra <==> target == next && ActiveIndex(s) in s.accepted)
      && (result != Ok ==> t == s)
      && (result == Ok ==>
            t == s.(external := t.external, externalIndex := next, accepted := s.accepted + [ActiveIndex(s)]))
  {
    EraRuns.AcceptedIff(cfg, s, target);
  }

  /** The answers of the two whitelist calls; an answer other than `Done` changes nothing. */
  lemma WhitelistOutcome(cfg: Config, s: State, who: Account, registered: bool)
    requires Distinct(s.whitelist)
    ensures
      var (t, result) := AddWhitelisted(cfg, s, who, registered);
      && (result == NoKeysRegistered <==> !registered)
      && (result == AlreadyWhitelisted <==> registered && who in s.whitelist)
      && (result == Done <==> registered && who !in s.whitelist && |s.whitelist| < cfg.maxWhitelisted)
      && t == s.(whitelist := if result == Done then s.whitelist + [who] else s.whitelist)
    ensures
      var (t, result) := RemoveWhitelisted(s, who);
      && (result == Done <==> who in s.whitelist)
      && t == s.(whitelist := Without(s.whitelist, who))
  {
    if who in s.whitelist {
      RemovesOnly(s.whitelist, who);
    } else {
      WithoutAbsent(s.whitelist, who);
    }
  }
}
