/**
 What the runs of rewards and eras amount to, told from the outside: from the blocks noted, the
 blocks finalized and the eras planned to the awards made and the messages sent.
 */
module RewardRuns {
  import opened Common
  import opened RewardChain
  import E = Eras
  import EraCalls
  import EraRuns
  import P = Points
  import RetryQueue
  import L = PointsLaw
  import R = Rewards
  import M = RewardMessages

  // ---- Messages ----

  lemma AwardedTold(cfg: Config, w: World)
    requires R.Frozen(w.rewards, Active(w)) && M.Told(w.rewards, Active(w))
    ensures R.Frozen(Awarded(cfg, w), Active(w)) && M.Told(Awarded(cfg, w), Active(w))
  {
    R.AwardKeepsFrozen(w.rewards, Active(w), cfg.formula, w.eras.running, w.eras.s.whitelistActive);
    M.AwardKeepsTold(w.rewards, cfg.formula, Active(w), w.eras.running, w.eras.s.whitelistActive);
  }

  /** `r` is the state after the hooks of a rotation, `next` the era that is active then. */
  lemma HooksTold(s: R.State, depth: nat, era: nat, t: nat, o: Outside, due: bool, r: R.State, next: nat)
    requires R.Frozen(s, era) && M.Told(s, era)
    requires r == if due then R.EraChange(s, depth, era, t, o.mint, o.sent) else s
    requires next == era + if due then 1 else 0
    ensures M.Told(r, next)
  {
    if due {
      M.EraChangeKeepsTold(s, depth, era, t, o.mint, o.sent);
    }
  }

  lemma RotateTold(cfg: Config, w: World, o: Outside, next: nat)
    requires E.Timing(cfg.eras, w.eras) && R.Frozen(w.rewards, Active(w)) && M.Told(w.rewards, Active(w))
    requires next == Active(w) + if EraRuns.Due(w.eras) then 1 else 0
    ensures M.Told(RotateRewards(cfg, w, o), next)
  {
    AwardedTold(cfg, w);
    RotateEffects(cfg, w, o);
    HooksTold(Awarded(cfg, w), cfg.historyDepth, Active(w), StartSeconds(w.eras.s), o, EraRuns.Due(w.eras),
              RotateRewards(cfg, w, o), next);
  }

  lemma StepTold(cfg: Config, w: World, op: Op)
    requires EraRuns.Inv(cfg.eras, w.eras) && R.Fits(w.rewards, Active(w)) && M.Told(w.rewards, Active(w))
    ensures M.Told(Step(cfg, w, op).rewards, Active(Step(cfg, w, op)))
  {
    match op
    case RotateSession(o) =>
      EraRuns.RotateMoves(cfg.eras, w.eras);
      RotateTold(cfg, w, o, E.ActiveIndex(E.Rotate(cfg.eras, w.eras).s));
    case EraCall(c) => if !c.RotateSession? { EraRuns.CallStays(cfg.eras, w.eras, c); }
    case NoteAuthor(who) => M.AuthorKeepsTold(w.rewards, Active(w), who);
    case BlockStart(sent) => M.BlockKeepsTold(w.rewards, Active(w), sent);
    case ManualRetry(era, sent) => M.RetryKeepsTold(w.rewards, Active(w), era, sent);
  }

  lemma {:induction false} RunTold(cfg: Config, w: World, ops: seq<Op>)
    requires EraRuns.Inv(cfg.eras, w.eras) && R.Fits(w.rewards, Active(w)) && M.Told(w.rewards, Active(w))
    ensures M.Told(Run(cfg, w, ops).rewards, Active(Run(cfg, w, ops)))
    decreases |ops|
  {
    if ops != [] {
      EraRuns.FollowInv(cfg.eras, w.eras, EraOp(ops[0]));
      StepFits(cfg, w, ops[0]);
      StepTold(cfg, w, ops[0]);
      RunTold(cfg, Step(cfg, w, ops[0]), ops[1..]);
    }
  }

  // ---- When an era began ----

  /** The time of the first block that is finalized in an era, in milliseconds, by era. */
  function Noted(w: World, op: Op, began: map<nat, nat>): (r: map<nat, nat>) {
    if op.EraCall? && op.op.FinalizeBlock? && Active(w) !in began then began[Active(w) := op.op.now] else began
  }

  function Began(cfg: Config, w: World, ops: seq<Op>, began: map<nat, nat>): (r: map<nat, nat>)
    decreases |ops|
  {
    if ops == [] then began else Began(cfg, Step(cfg, w, ops[0]), ops[1..], Noted(w, ops[0], began))
  }

  /** That time in seconds, cut to 32 bits; 0 for an era without a finalized block. */
  function Seconds(began: map<nat, nat>, era: nat): (t: nat) {
    if era in began then (began[era] / 1000) % 0x1_0000_0000 else 0
  }

  ghost predicate Clock(s: E.State, began: map<nat, nat>) {
    && s.active.Some?
    && s.active.value.start == (if s.active.value.index in began then Some(began[s.active.value.index]) else None)
    && forall era :: era in began ==> era <= s.active.value.index
  }

  ghost predicate Dated(log: seq<R.Event>, began: map<nat, nat>) {
    forall a :: a in log && a.Attempt? ==> a.message.timestamp == Seconds(began, a.message.era)
  }

  lemma PlanKeepsActive(cfg: E.Config, c: E.Chain)
    requires EraRuns.Inv(cfg, c)
    ensures
      var r := E.Rotate(cfg, c).s;
      r.active == if EraRuns.Due(c) then Some(E.ActiveEra(E.ActiveIndex(c.s) + 1, None)) else c.s.active
  {
    EraRuns.RotationActivates(cfg, c);
    EraRuns.PlanningGrows(cfg, E.EndStart(c).s, c.session + 2);
  }

  /** Only finalizing a block sets a start, and only the first time. */
  lemma CallKeepsActive(cfg: E.Config, c: E.Chain, op: E.Op)
    requires !op.RotateSession? && c.s.active.Some?
    ensures
      var active := c.s.active.value;
      E.Step(cfg, c, op).s.active ==
        Some(if op.FinalizeBlock? && active.start.None? then active.(start := Some(op.now)) else active)
  {
  }

  lemma ClockMoves(c: E.Chain, r: E.Chain, due: bool, began: map<nat, nat>)
    requires Clock(c.s, began)
    requires r.s.active == if due then Some(E.ActiveEra(E.ActiveIndex(c.s) + 1, None)) else c.s.active
    ensures Clock(r.s, began)
  {
  }

  lemma StepClock(cfg: Config, w: World, op: Op, began: map<nat, nat>)
    requires EraRuns.Inv(cfg.eras, w.eras) && Clock(w.eras.s, began)
    ensures Clock(Step(cfg, w, op).eras.s, Noted(w, op, began))
  {
    if op.RotateSession? {
      PlanKeepsActive(cfg.eras, w.eras);
      ClockMoves(w.eras, E.Rotate(cfg.eras, w.eras), EraRuns.Due(w.eras), began);
    } else if op.EraCall? && !op.op.RotateSession? {
      CallKeepsActive(cfg.eras, w.eras, op.op);
    }
  }

  /** A rotation adds no message but the first one of the era that ends. */
  lemma RotateDated(cfg: Config, w: World, o: Outside, began: map<nat, nat>)
    requires EraRuns.Inv(cfg.eras, w.eras) && M.Told(w.rewards, Active(w)) && R.Frozen(w.rewards, Active(w))
    requires Clock(w.eras.s, began) && Dated(w.rewards.log, began)
    ensures Dated(RotateRewards(cfg, w, o).log, began)
  {
    var a, t := Active(w), StartSeconds(w.eras.s);
    var awarded := Awarded(cfg, w);
    RotateEffects(cfg, w, o);
    M.AwardKeepsTold(w.rewards, cfg.formula, a, w.eras.running, w.eras.s.whitelistActive);
    AwardDated(cfg, w, began);
    if EraRuns.Due(w.eras) {
      EndDated(awarded, a, t, o.mint, o.sent, began);
      StartDated(R.OnEraEnd(awarded, a, t, o.mint, o.sent), cfg.historyDepth, a + 1, began);
    }
  }

  lemma AwardDated(cfg: Config, w: World, began: map<nat, nat>)
    requires Dated(w.rewards.log, began)
    ensures Dated(Awarded(cfg, w).log, began)
  {
  }

  lemma EndDated(s: R.State, era: nat, t: nat, mint: Option<nat>, sent: bool, began: map<nat, nat>)
    requires Dated(s.log, began) && t == Seconds(began, era) && M.Told(s, era)
    ensures Dated(R.OnEraEnd(s, era, t, mint, sent).log, began)
  {
    var r := R.OnEraEnd(s, era, t, mint, sent);
    M.EndsWithMessage(s, era, t, mint, sent);
    if r != s {
      var first := r.log[|s.log| + 1];
      assert r.log == s.log + [r.log[|s.log|], first] + r.log[|s.log| + 2..];
    }
  }

  lemma StartDated(s: R.State, depth: nat, era: nat, began: map<nat, nat>)
    requires Dated(s.log, began)
    ensures Dated(R.OnEraStart(s, depth, era).log, began)
  {
  }

  /** A retry repeats a message that is dated already. */
  lemma RetryDated(s: R.State, active: nat, e: RetryQueue.Entry<R.Pending>, sent: bool, began: map<nat, nat>)
    requires Dated(s.log, began) && R.Rebuilds(s, e)
    ensures Dated(s.log + [R.Attempt(R.Rebuild(s, e).value, true, sent)], began)
  {
    assert R.Attempt(R.Rebuild(s, e).value, false, false) in s.log;
  }

  lemma StepDated(cfg: Config, w: World, op: Op, began: map<nat, nat>)
    requires EraRuns.Inv(cfg.eras, w.eras) && M.Told(w.rewards, Active(w)) && R.Frozen(w.rewards, Active(w))
    requires Clock(w.eras.s, began) && Dated(w.rewards.log, began)
    ensures Dated(Step(cfg, w, op).rewards.log, Noted(w, op, began))
  {
    var s := w.rewards;
    match op
    case RotateSession(o) => RotateDated(cfg, w, o, began);
    case EraCall(c) =>
      forall a | a in s.log && a.Attempt? ensures a.message.timestamp == Seconds(Noted(w, op, began), a.message.era) {
        assert a.message.era < Active(w);
      }
    case NoteAuthor(_) =>
    case BlockStart(sent) =>
      if s.queue != [] {
        assert R.Rebuilds(s, s.queue[0]);
        RetryDated(s, Active(w), s.queue[0], sent, began);
      }
    case ManualRetry(era, sent) =>
      var found := RetryQueue.IndexOfEra(s.queue, era);
      if found.Some? {
        assert R.Rebuilds(s, s.queue[found.value]);
        RetryDated(s, Active(w), s.queue[found.value], sent, began);
      }
  }

  lemma {:induction false} RunDated(cfg: Config, w: World, ops: seq<Op>, began: map<nat, nat>)
    requires EraRuns.Inv(cfg.eras, w.eras) && R.Fits(w.rewards, Active(w)) && M.Told(w.rewards, Active(w))
    requires Clock(w.eras.s, began) && Dated(w.rewards.log, began)
    ensures Dated(Run(cfg, w, ops).rewards.log, Began(cfg, w, ops, began))
    decreases |ops|
  {
    if ops != [] {
      EraRuns.FollowInv(cfg.eras, w.eras, EraOp(ops[0]));
      StepFits(cfg, w, ops[0]);
      StepTold(cfg, w, ops[0]);
      StepClock(cfg, w, ops[0], began);
      StepDated(cfg, w, ops[0], began);
      RunDated(cfg, Step(cfg, w, ops[0]), ops[1..], Noted(w, ops[0], began));
    }
  }

  lemma GenesisTold(active: nat)
    ensures M.Told(R.GENESIS, active)
  {
  }

  lemma BootClock(cfg: E.Config, whitelist: seq<Account>, external: seq<Account>, skip: bool)
    requires cfg.historyDepth >= 1
    ensures Clock(E.Boot(cfg, whitelist, external, skip).s, map[])
  {
    var planned := EraRuns.BootShape(cfg, whitelist, external, skip);
  }

  lemma BootTold(cfg: Config, whitelist: seq<Account>, external: seq<Account>, skip: bool)
    requires Distinct(whitelist) && cfg.eras.historyDepth >= 1
    ensures
      var w := Boot(cfg, whitelist, external, skip);
      && EraRuns.Inv(cfg.eras, w.eras) && R.Fits(w.rewards, Active(w)) && M.Told(w.rewards, Active(w))
      && Clock(w.eras.s, map[])
  {
    var w := Boot(cfg, whitelist, external, skip);
    EraRuns.BootInv(cfg.eras, whitelist, external, skip);
    R.GenesisFits(Active(w));
    GenesisTold(Active(w));
    BootClock(cfg.eras, whitelist, external, skip);
  }

  /** In every run every message, first or repeated, tells the truth about its era: what each
      account was awarded in it, the sum of that, the amount minted, and when it began. */
  lemma MessagesTruthful(cfg: Config, whitelist: seq<Account>, external: seq<Account>, skip: bool, ops: seq<Op>,
                         a: R.Event)
    requires Distinct(whitelist) && cfg.eras.historyDepth >= 1
    requires a in Reached(cfg, whitelist, external, skip, ops).rewards.log && a.Attempt?
    ensures
      var log := Reached(cfg, whitelist, external, skip, ops).rewards.log;
      var began := Began(cfg, Boot(cfg, whitelist, external, skip), ops, map[]);
      M.Truthful(log, a.message) && a.message.timestamp == Seconds(began, a.message.era)
  {
    var w := Boot(cfg, whitelist, external, skip);
    BootTold(cfg, whitelist, external, skip);
    RunTold(cfg, w, ops);
    RunDated(cfg, w, ops, map[]);
  }

  // ---- Awards ----

  function Counted(op: Op, who: Account, n: nat): (count: nat) {
    match op
    case RotateSession(_) => 0
    case NoteAuthor(author) => if author == who then n + 1 else n
    case _ => n
  }

  /** How many blocks `who` authored since the last rotation, starting from `n`. */
  function Since(ops: seq<Op>, who: Account, n: nat): (count: nat) {
    if ops == [] then n else Since(ops[1..], who, Counted(ops[0], who, n))
  }

  lemma RotateClears(cfg: Config, w: World, o: Outside)
    ensures RotateRewards(cfg, w, o).authored == []
  {
    R.AwardClears(w.rewards, cfg.formula, Active(w), w.eras.running, w.eras.s.whitelistActive);
  }

  lemma NoteAuthored(t: P.Table, author: Account, who: Account, n: nat)
    requires P.Ordered(t) && P.Get(t, who) == P.Min(P.U32_MAX, n)
    ensures P.Ordered(P.Accrue(t, author, 1))
    ensures P.Get(P.Accrue(t, author, 1), who) == P.Min(P.U32_MAX, if author == who then n + 1 else n)
  {
    P.AccrueOrdered(t, author, 1);
    P.AccrueCredits(t, author, 1, who);
  }

  lemma StepAuthored(cfg: Config, w: World, op: Op, who: Account, n: nat)
    requires P.Ordered(w.rewards.authored) && P.Get(w.rewards.authored, who) == P.Min(P.U32_MAX, n)
    ensures
      var t := StepRewards(cfg, w, op).authored;
      P.Ordered(t) && P.Get(t, who) == P.Min(P.U32_MAX, Counted(op, who, n))
  {
    match op
    case RotateSession(o) => RotateClears(cfg, w, o);
    case NoteAuthor(author) => NoteAuthored(w.rewards.authored, author, who, n);
    case _ =>
  }

  lemma {:induction false} RunAuthored(cfg: Config, w: World, ops: seq<Op>, who: Account, n: nat)
    requires P.Ordered(w.rewards.authored) && P.Get(w.rewards.authored, who) == P.Min(P.U32_MAX, n)
    ensures
      var t := Run(cfg, w, ops).rewards.authored;
      P.Ordered(t) && P.Get(t, who) == P.Min(P.U32_MAX, Since(ops, who, n))
    decreases |ops|
  {
    if ops != [] {
      StepAuthored(cfg, w, ops[0], who, n);
      RunAuthored(cfg, Step(cfg, w, ops[0]), ops[1..], who, Counted(ops[0], who, n));
    }
  }

  /** In every run the next rotation awards each validator planned for the active era, and not
      exempt by its plan, the points of the blocks it authored since the last rotation, and
      nobody else anything. */
  lemma RotationAwards(cfg: Config, whitelist: seq<Account>, external: seq<Account>, skip: bool, ops: seq<Op>,
                       o: Outside, who: Account)
    requires Distinct(whitelist) && cfg.eras.historyDepth >= 1
    ensures
      var w := Reached(cfg, whitelist, external, skip, ops);
      var a, plans, t := Active(w), w.eras.s.plans, w.rewards.authored;
      && a < |plans| && P.Get(t, who) == P.Min(P.U32_MAX, Since(ops, who, 0))
      && var planned, exempt := E.SetFor(plans[a]), E.Remembered(cfg.eras, plans, a).1;
      && M.AwardedIn(Step(cfg, w, RotateSession(o)).rewards.log, a, who) ==
           M.AwardedIn(w.rewards.log, a, who) +
           if who in planned && who !in exempt
           then P.PointsFor(cfg.formula, P.Sum(t), |planned|, P.Get(t, who)) else 0
  {
    var w := Reached(cfg, whitelist, external, skip, ops);
    var b := Boot(cfg, whitelist, external, skip);
    BootTold(cfg, whitelist, external, skip);
    RunFits(cfg, b, ops);
    RunTold(cfg, b, ops);
    RunAuthored(cfg, b, ops, who, 0);
    RunEras(cfg, b, ops);
    EraRuns.RunningSet(cfg.eras, whitelist, external, skip, EraOps(ops));
    EraRuns.ReachedSets(cfg.eras, whitelist, external, skip, EraOps(ops));
    AwardsOfRotation(cfg, w, o, who);
  }

  lemma AwardsOfRotation(cfg: Config, w: World, o: Outside, who: Account)
    requires EraRuns.Inv(cfg.eras, w.eras) && M.Told(w.rewards, Active(w)) && R.Frozen(w.rewards, Active(w))
    requires Distinct(w.eras.running)
    ensures
      var t, a := w.rewards.authored, Active(w);
      M.AwardedIn(RotateRewards(cfg, w, o).log, a, who) ==
      M.AwardedIn(w.rewards.log, a, who) +
      if who in w.eras.running && who !in w.eras.s.whitelistActive
      then P.PointsFor(cfg.formula, P.Sum(t), |w.eras.running|, P.Get(t, who)) else 0
  {
    var a, awarded := Active(w), Awarded(cfg, w);
    var rows := P.SessionAwards(cfg.formula, w.rewards.authored, w.eras.running, w.eras.s.whitelistActive);
    L.SessionReaches(cfg.formula, w.rewards.authored, w.eras.running, w.eras.s.whitelistActive, who);
    M.AwardedInAppend(w.rewards.log, R.Awarded(a, rows), a, who);
    RotateEffects(cfg, w, o);
    M.AwardKeepsTold(w.rewards, cfg.formula, a, w.eras.running, w.eras.s.whitelistActive);
    if EraRuns.Due(w.eras) {
      M.ChangeAwardsNothing(awarded, cfg.historyDepth, a, StartSeconds(w.eras.s), o.mint, o.sent, who);
    }
  }

  // ---- History ----

  /** Points and block counts are stored only for the active era and for eras within the history
      depth. */
  ghost predicate InWindow(s: R.State, active: nat, depth: nat) {
    forall era :: era in s.points || era in s.blocks ==> era <= active && (era == active || active < era + depth)
  }

  lemma RotateWindow(cfg: Config, w: World, o: Outside)
    requires EraRuns.Inv(cfg.eras, w.eras) && InWindow(w.rewards, Active(w), cfg.historyDepth) && cfg.historyDepth >= 1
    ensures InWindow(RotateRewards(cfg, w, o), E.ActiveIndex(E.Rotate(cfg.eras, w.eras).s), cfg.historyDepth)
  {
    RotateEffects(cfg, w, o);
    EraRuns.RotateMoves(cfg.eras, w.eras);
    var awarded := Awarded(cfg, w);
    assert InWindow(awarded, Active(w), cfg.historyDepth);
    if EraRuns.Due(w.eras) {
      ChangeWindow(awarded, cfg.historyDepth, Active(w), StartSeconds(w.eras.s), o.mint, o.sent);
    }
  }

  lemma ChangeWindow(s: R.State, depth: nat, a: nat, t: nat, mint: Option<nat>, sent: bool)
    requires InWindow(s, a, depth) && depth >= 1
    ensures InWindow(R.EraChange(s, depth, a, t, mint, sent), a + 1, depth)
  {
    var ended := R.OnEraEnd(s, a, t, mint, sent);
    assert ended.points == s.points && ended.blocks == s.blocks;
  }

  lemma {:induction false} RunWindow(cfg: Config, w: World, ops: seq<Op>)
    requires EraRuns.Inv(cfg.eras, w.eras) && InWindow(w.rewards, Active(w), cfg.historyDepth) && cfg.historyDepth >= 1
    ensures InWindow(Run(cfg, w, ops).rewards, Active(Run(cfg, w, ops)), cfg.historyDepth)
    decreases |ops|
  {
    if ops != [] {
      EraRuns.FollowInv(cfg.eras, w.eras, EraOp(ops[0]));
      StepWindow(cfg, w, ops[0]);
      RunWindow(cfg, Step(cfg, w, ops[0]), ops[1..]);
    }
  }

  lemma StepWindow(cfg: Config, w: World, op: Op)
    requires EraRuns.Inv(cfg.eras, w.eras) && InWindow(w.rewards, Active(w), cfg.historyDepth) && cfg.historyDepth >= 1
    ensures InWindow(Step(cfg, w, op).rewards, Active(Step(cfg, w, op)), cfg.historyDepth)
  {
    match op
    case RotateSession(o) => RotateWindow(cfg, w, o);
    case EraCall(c) => if !c.RotateSession? { EraRuns.CallStays(cfg.eras, w.eras, c); }
    case _ =>
  }

  /** Without a history, an era start removes nothing of earlier eras. */
  lemma StepKeepsBlocks(cfg: Config, w: World, op: Op, era: nat)
    requires E.Timing(cfg.eras, w.eras) && cfg.historyDepth == 0 && era in w.rewards.blocks && era <= Active(w)
    ensures era in Step(cfg, w, op).rewards.blocks
  {
    if op.RotateSession? {
      RotateEffects(cfg, w, op.outside);
      ChangeKeepsBlocks(Awarded(cfg, w), Active(w), StartSeconds(w.eras.s), op.outside, era);
    }
  }

  lemma ChangeKeepsBlocks(s: R.State, a: nat, t: nat, o: Outside, era: nat)
    requires era in s.blocks && era <= a
    ensures era in R.EraChange(s, 0, a, t, o.mint, o.sent).blocks
  {
  }

  /** A forced era is planned by the next rotation and starts with the one after. */
  lemma ForcedEraStarts(cfg: E.Config, c: E.Chain)
    requires EraRuns.Inv(cfg, c) && c.s.force == E.ForceNew
    ensures E.ActiveIndex(E.Rotate(cfg, E.Rotate(cfg, c)).s) >= 1
  {
    var r := E.Rotate(cfg, c);
    EraRuns.RotateInv(cfg, c);
    EraCalls.RotatePlans(cfg, c);
    assert r.s.plans[|r.s.plans| - 1].session == r.session + 1;
    EraRuns.RotateMoves(cfg, r);
  }

  /** A block noted in era 0, and an era forced after it. */
  function ForcedRun(): (ops: seq<Op>) {
    var rotate := RotateSession(Outside(None, false));
    [NoteAuthor(0), EraCall(E.ForceEra(E.ForceNew)), rotate, rotate]
  }

  lemma NoHistoryOverflows(cfg: Config, whitelist: seq<Account>, external: seq<Account>, skip: bool)
    requires Distinct(whitelist) && cfg.eras.historyDepth >= 1 && cfg.historyDepth == 0
    ensures
      var w := Reached(cfg, whitelist, external, skip, ForcedRun());
      !InWindow(w.rewards, Active(w), cfg.historyDepth)
  {
    var ops := ForcedRun();
    var w0 := Boot(cfg, whitelist, external, skip);
    var w1 := Step(cfg, w0, ops[0]);
    var w2 := Step(cfg, w1, ops[1]);
    var w3 := Step(cfg, w2, ops[2]);
    var w4 := Step(cfg, w3, ops[3]);
    EraRuns.BootInv(cfg.eras, whitelist, external, skip);
    RunTwo(cfg, w0, ops);
    RunTwo(cfg, w2, ops[2..]);
    EraRuns.StepInv(cfg.eras, w1.eras, E.ForceEra(E.ForceNew));
    EraRuns.RotateInv(cfg.eras, w2.eras);
    StartsAtZero(cfg.eras, whitelist, external, skip);
    assert 0 in w1.rewards.blocks && w2.rewards == w1.rewards;
    StepKeepsBlocks(cfg, w2, ops[2], 0);
    StepKeepsBlocks(cfg, w3, ops[3], 0);
    ForcedEraStarts(cfg.eras, w2.eras);
  }

  lemma StartsAtZero(cfg: E.Config, whitelist: seq<Account>, external: seq<Account>, skip: bool)
    requires cfg.historyDepth >= 1
    ensures E.ActiveIndex(E.Boot(cfg, whitelist, external, skip).s) == 0
  {
    var planned := EraRuns.BootShape(cfg, whitelist, external, skip);
  }

  lemma RunTwo(cfg: Config, w: World, ops: seq<Op>)
    requires |ops| >= 2
    ensures Run(cfg, w, ops) == Run(cfg, Step(cfg, Step(cfg, w, ops[0]), ops[1]), ops[2..])
  {
    assert ops[1..][0] == ops[1] && ops[1..][1..] == ops[2..];
    assert Run(cfg, w, ops) == Run(cfg, Step(cfg, w, ops[0]), ops[1..]);
  }

  ghost predicate AlwaysInWindow(cfg: Config, whitelist: seq<Account>, external: seq<Account>, skip: bool) {
    forall ops: seq<Op> ::
      var w := Reached(cfg, whitelist, external, skip, ops); InWindow(w.rewards, Active(w), cfg.historyDepth)
  }

  /** In every run nothing outlives the history if and only if the history has at least one era. */
  lemma PrunedInTimeIff(cfg: Config, whitelist: seq<Account>, external: seq<Account>, skip: bool)
    requires Distinct(whitelist) && cfg.eras.historyDepth >= 1
    ensures AlwaysInWindow(cfg, whitelist, external, skip) <==> cfg.historyDepth >= 1
  {
    if cfg.historyDepth == 0 {
      NoHistoryOverflows(cfg, whitelist, external, skip);
    } else {
      forall ops: seq<Op>
        ensures
          var w := Reached(cfg, whitelist, external, skip, ops); InWindow(w.rewards, Active(w), cfg.historyDepth)
      {
        EraRuns.BootInv(cfg.eras, whitelist, external, skip);
        RunWindow(cfg, Boot(cfg, whitelist, external, skip), ops);
      }
    }
  }

  /** The points stored for `era` are what was awarded in it. */
  ghost predicate HoldsIn(s: R.State, era: nat) {
    M.Holds(R.PointsOf(s, era).individual, s.log, era)
  }

  /** The points of every era within the history depth are what was awarded in it. */
  ghost predicate Remembers(s: R.State, active: nat, depth: nat) {
    forall era: nat {:trigger HoldsIn(s, era)} :: era <= active < era + depth ==> HoldsIn(s, era)
  }

  lemma MoreHolds(s: R.State, r: R.State, era: nat, more: seq<R.Event>)
    requires HoldsIn(s, era) && R.PointsOf(r, era) == R.PointsOf(s, era) && r.log == s.log + more
    requires forall i :: 0 <= i < |more| ==> !more[i].Awarded? || more[i].era != era
    ensures HoldsIn(r, era)
  {
    forall who ensures M.AwardedIn(r.log, era, who) == M.AwardedIn(s.log, era, who) {
      M.NoAwards(s.log, more, era, who);
    }
  }

  /** A step that leaves the points and awards nothing. */
  lemma StillRemembers(s: R.State, r: R.State, active: nat, depth: nat, more: seq<R.Event>)
    requires Remembers(s, active, depth) && r.points == s.points && r.log == s.log + more && M.NotAwards(more)
    ensures Remembers(r, active, depth)
  {
    forall era: nat | era <= active < era + depth ensures HoldsIn(r, era) {
      assert HoldsIn(s, era);
      MoreHolds(s, r, era, more);
    }
  }

  lemma NewAwards(s: R.State, r: R.State, a: nat, depth: nat, rows: seq<P.Row>)
    requires Remembers(s, a, depth) && r.log == s.log + [R.Awarded(a, rows)] && HoldsIn(r, a)
    requires forall era: nat :: era != a ==> R.PointsOf(r, era) == R.PointsOf(s, era)
    ensures Remembers(r, a, depth)
  {
    forall era: nat | era <= a < era + depth ensures HoldsIn(r, era) {
      if era != a {
        assert HoldsIn(s, era);
        MoreHolds(s, r, era, [R.Awarded(a, rows)]);
      }
    }
  }

  lemma AwardRemembers(s: R.State, f: P.Formula, a: nat, depth: nat, validators: seq<Account>, exempt: seq<Account>)
    requires Remembers(s, a, depth) && M.Told(s, a)
    ensures Remembers(R.AwardSession(s, f, a, validators, exempt), a, depth)
  {
    var r, rows := R.AwardSession(s, f, a, validators, exempt), P.SessionAwards(f, s.authored, validators, exempt);
    if rows == [] {
      StillRemembers(s, r, a, depth, []);
    } else {
      M.AwardedTable(s, r, a, rows);
      NewAwards(s, r, a, depth, rows);
    }
  }

  lemma EndRemembers(s: R.State, a: nat, depth: nat, t: nat, mint: Option<nat>, sent: bool)
    requires Remembers(s, a, depth)
    ensures Remembers(R.OnEraEnd(s, a, t, mint, sent), a, depth)
  {
    var r := R.OnEraEnd(s, a, t, mint, sent);
    var more := r.log[|s.log|..];
    assert r.log == s.log + more;
    StillRemembers(s, r, a, depth, more);
  }

  /** Starting an era forgets only what leaves the history. */
  lemma StartRemembers(s: R.State, a: nat, depth: nat)
    requires Remembers(s, a, depth) && M.Told(s, a)
    ensures Remembers(R.OnEraStart(s, depth, a + 1), a + 1, depth)
  {
    var r := R.OnEraStart(s, depth, a + 1);
    var more := r.log[|s.log|..];
    assert r.log == s.log + more && M.NotAwards(more);
    assert HoldsIn(s, a + 1);
    forall era: nat | era <= a + 1 < era + depth ensures HoldsIn(r, era) {
      assert HoldsIn(s, era);
      MoreHolds(s, r, era, more);
    }
  }

  /** A batch leaves the queue unsent only when its era leaves the history. */
  lemma ExpiresInTime(s: R.State, depth: nat, era: nat, e: RetryQueue.Entry<R.Pending>)
    ensures e in R.OnEraStart(s, depth, era).queue <==> e in s.queue && era < e.era + depth
  {
    if era >= depth {
      RetryQueue.KeptMembers(s.queue, |s.queue|, era - depth);
      assert s.queue[..|s.queue|] == s.queue;
    }
  }

  lemma RotateRemembers(cfg: Config, w: World, o: Outside, next: nat)
    requires E.Timing(cfg.eras, w.eras) && R.Frozen(w.rewards, Active(w)) && M.Told(w.rewards, Active(w))
    requires Remembers(w.rewards, Active(w), cfg.historyDepth)
    requires next == Active(w) + if EraRuns.Due(w.eras) then 1 else 0
    ensures Remembers(RotateRewards(cfg, w, o), next, cfg.historyDepth)
  {
    var a, awarded, t := Active(w), Awarded(cfg, w), StartSeconds(w.eras.s);
    AwardedTold(cfg, w);
    AwardRemembers(w.rewards, cfg.formula, a, cfg.historyDepth, w.eras.running, w.eras.s.whitelistActive);
    RotateEffects(cfg, w, o);
    if EraRuns.Due(w.eras) {
      ChangeRemembers(awarded, a, cfg.historyDepth, t, o.mint, o.sent);
    }
  }

  lemma ChangeRemembers(s: R.State, a: nat, depth: nat, t: nat, mint: Option<nat>, sent: bool)
    requires Remembers(s, a, depth) && M.Told(s, a)
    ensures Remembers(R.EraChange(s, depth, a, t, mint, sent), a + 1, depth)
  {
    M.EraEndKeepsTold(s, a, t, mint, sent);
    EndRemembers(s, a, depth, t, mint, sent);
    StartRemembers(R.OnEraEnd(s, a, t, mint, sent), a, depth);
  }

  lemma StepRemembers(cfg: Config, w: World, op: Op)
    requires EraRuns.Inv(cfg.eras, w.eras) && R.Frozen(w.rewards, Active(w)) && M.Told(w.rewards, Active(w))
    requires Remembers(w.rewards, Active(w), cfg.historyDepth)
    ensures Remembers(Step(cfg, w, op).rewards, Active(Step(cfg, w, op)), cfg.historyDepth)
  {
    var s, r := w.rewards, Step(cfg, w, op).rewards;
    match op
    case RotateSession(o) =>
      EraRuns.RotateMoves(cfg.eras, w.eras);
      RotateRemembers(cfg, w, o, E.ActiveIndex(E.Rotate(cfg.eras, w.eras).s));
    case EraCall(c) => if !c.RotateSession? { EraRuns.CallStays(cfg.eras, w.eras, c); }
    case NoteAuthor(who) => StillRemembers(s, r, Active(w), cfg.historyDepth, []);
    case BlockStart(sent) => SendRemembers(s, r, Active(w), cfg.historyDepth);
    case ManualRetry(era, sent) => SendRemembers(s, r, Active(w), cfg.historyDepth);
  }

  lemma SendRemembers(s: R.State, r: R.State, active: nat, depth: nat)
    requires Remembers(s, active, depth) && r.points == s.points && s.log <= r.log
    requires forall i :: |s.log| <= i < |r.log| ==> !r.log[i].Awarded?
    ensures Remembers(r, active, depth)
  {
    StillRemembers(s, r, active, depth, r.log[|s.log|..]);
  }

  lemma {:induction false} RunRemembers(cfg: Config, w: World, ops: seq<Op>)
    requires EraRuns.Inv(cfg.eras, w.eras) && R.Fits(w.rewards, Active(w)) && M.Told(w.rewards, Active(w))
    requires Remembers(w.rewards, Active(w), cfg.historyDepth)
    ensures Remembers(Run(cfg, w, ops).rewards, Active(Run(cfg, w, ops)), cfg.historyDepth)
    decreases |ops|
  {
    if ops != [] {
      EraRuns.FollowInv(cfg.eras, w.eras, EraOp(ops[0]));
      StepFits(cfg, w, ops[0]);
      StepTold(cfg, w, ops[0]);
      StepRemembers(cfg, w, ops[0]);
      RunRemembers(cfg, Step(cfg, w, ops[0]), ops[1..]);
    }
  }

  lemma GenesisRemembers(active: nat, depth: nat)
    ensures Remembers(R.GENESIS, active, depth)
  {
    forall era: nat ensures HoldsIn(R.GENESIS, era) {
    }
  }

  /** In every run the points of each era within the history are what was awarded in it, to
      every account, capped at u32::MAX. */
  lemma HistoryKept(cfg: Config, whitelist: seq<Account>, external: seq<Account>, skip: bool, ops: seq<Op>, era: nat)
    requires Distinct(whitelist) && cfg.eras.historyDepth >= 1
    ensures
      var w := Reached(cfg, whitelist, external, skip, ops);
      era <= Active(w) < era + cfg.historyDepth ==> HoldsIn(w.rewards, era)
  {
    var b := Boot(cfg, whitelist, external, skip);
    BootTold(cfg, whitelist, external, skip);
    GenesisRemembers(Active(b), cfg.historyDepth);
    RunRemembers(cfg, b, ops);
  }
}
