/**
 The rewards pallet driven by the era machine, as the runtime wires them: a session
 rotation awards points, ends and starts eras and fires the era hooks; block hooks, manual
 retries and all calls of the era machine come in between, in any order.
 */
module RewardChain {
  import opened Common
  import E = Eras
  import EraRuns
  import P = Points
  import RetryQueue
  import R = Rewards

  datatype Config = Config(eras: E.Config, historyDepth: nat, formula: P.Formula)

  datatype World = World(eras: E.Chain, rewards: R.State)

  /** What the outside contributes to a rotation: the result of minting, and the answer of the
      message sender. */
  datatype Outside = Outside(mint: Option<nat>, sent: bool)

  function Active(w: World): (a: nat) {
    E.ActiveIndex(w.eras.s)
  }

  /** The start of the active era in seconds, cut to 32 bits; 0 while it is not set. */
  function StartSeconds(s: E.State): (t: nat) {
    if s.active.Some? && s.active.value.start.Some? then (s.active.value.start.value / 1000) % 0x1_0000_0000 else 0
  }

  /** The era of the hook that a call fired, if it fired one. */
  function Fired(before: seq<E.Hook>, after: seq<E.Hook>): (era: Option<nat>) {
    if |after| > |before| then Some(after[|after| - 1].era) else None
  }

  /** `end_session` awards the points of the validators that ran the session, with the active
      era's whitelist exempt, before the era ends; `start_session` fires the other hook. */
  function Awarded(cfg: Config, w: World): (r: R.State) {
    R.AwardSession(w.rewards, cfg.formula, Active(w), w.eras.running, w.eras.s.whitelistActive)
  }

  function HookRewards(cfg: Config, w: World, o: Outside, ends: Option<nat>, starts: Option<nat>): (r: R.State) {
    var awarded := Awarded(cfg, w);
    var ended :=
      if ends.None? then awarded else R.OnEraEnd(awarded, ends.value, StartSeconds(w.eras.s), o.mint, o.sent);
    if starts.None? then ended else R.OnEraStart(ended, cfg.historyDepth, starts.value)
  }

  function RotateRewards(cfg: Config, w: World, o: Outside): (r: R.State) {
    var s := w.eras.s;
    var ended := E.EndSession(s, w.eras.session);
    var started := E.StartSession(ended, w.eras.session + 1);
    HookRewards(cfg, w, o, Fired(s.hooks, ended.hooks), Fired(ended.hooks, started.hooks))
  }

  datatype Op =
    | RotateSession(outside: Outside)
    | EraCall(op: E.Op)
    | NoteAuthor(who: Account)
    | BlockStart(sent: bool)
    | ManualRetry(era: nat, sent: bool)

  function EraOp(op: Op): (r: Option<E.Op>) {
    match op
    case RotateSession(_) => Some(E.RotateSession)
    case EraCall(c) => if c.RotateSession? then None else Some(c)
    case _ => None
  }

  function StepRewards(cfg: Config, w: World, op: Op): (r: R.State) {
    match op
    case RotateSession(o) => RotateRewards(cfg, w, o)
    case EraCall(_) => w.rewards
    case NoteAuthor(who) => R.NoteAuthor(w.rewards, Active(w), who)
    case BlockStart(sent) => R.ProcessUnsent(w.rewards, sent)
    case ManualRetry(era, sent) => R.RetryUnsent(w.rewards, era, sent).0
  }

  function Step(cfg: Config, w: World, op: Op): (r: World) {
    World(E.Follow(cfg.eras, w.eras, EraOp(op)), StepRewards(cfg, w, op))
  }

  function Run(cfg: Config, w: World, ops: seq<Op>): (r: World)
    decreases |ops|
  {
    if ops == [] then w else Run(cfg, Step(cfg, w, ops[0]), ops[1..])
  }

  function Boot(cfg: Config, whitelist: seq<Account>, external: seq<Account>, skip: bool): (w: World) {
    World(E.Boot(cfg.eras, whitelist, external, skip), R.GENESIS)
  }

  // ---- One step ----

  /** A rotation fires both hooks, for the active era and for the next one, or neither. */
  lemma RotationFires(cfg: E.Config, c: E.Chain)
    requires E.Timing(cfg, c)
    ensures
      var a, ended := E.ActiveIndex(c.s), E.EndSession(c.s, c.session);
      var started := E.StartSession(ended, c.session + 1);
      && Fired(c.s.hooks, ended.hooks) == (if EraRuns.Due(c) then Some(a) else None)
      && Fired(ended.hooks, started.hooks) == if EraRuns.Due(c) then Some(a + 1) else None
  {
  }

  function RewardsAfter(cfg: Config, w: World, o: Outside, due: bool): (r: R.State) {
    var awarded := Awarded(cfg, w);
    if due then R.EraChange(awarded, cfg.historyDepth, Active(w), StartSeconds(w.eras.s), o.mint, o.sent) else awarded
  }

  lemma HooksWhen(cfg: Config, w: World, o: Outside, due: bool, ends: Option<nat>, starts: Option<nat>)
    requires ends == if due then Some(Active(w)) else None
    requires starts == if due then Some(Active(w) + 1) else None
    ensures HookRewards(cfg, w, o, ends, starts) == RewardsAfter(cfg, w, o, due)
  {
  }

  lemma RotateEffects(cfg: Config, w: World, o: Outside)
    requires E.Timing(cfg.eras, w.eras)
    ensures RotateRewards(cfg, w, o) == RewardsAfter(cfg, w, o, EraRuns.Due(w.eras))
  {
    var i, s := w.eras.session, w.eras.s;
    var ended := E.EndSession(s, i);
    var started := E.StartSession(ended, i + 1);
    RotationFires(cfg.eras, w.eras);
    HooksWhen(cfg, w, o, EraRuns.Due(w.eras), Fired(s.hooks, ended.hooks), Fired(ended.hooks, started.hooks));
  }

  lemma RewardsAfterFit(cfg: Config, w: World, o: Outside, due: bool)
    requires R.Fits(w.rewards, Active(w))
    ensures R.Fits(RewardsAfter(cfg, w, o, due), Active(w) + if due then 1 else 0)
  {
    R.AwardFits(w.rewards, cfg.formula, Active(w), w.eras.running, w.eras.s.whitelistActive);
    if due {
      R.EraChangeFits(Awarded(cfg, w), cfg.historyDepth, Active(w), StartSeconds(w.eras.s), o.mint, o.sent);
    }
  }

  lemma RotateFits(cfg: Config, w: World, o: Outside)
    requires EraRuns.Inv(cfg.eras, w.eras) && R.Fits(w.rewards, Active(w))
    ensures R.Fits(RotateRewards(cfg, w, o), E.ActiveIndex(E.Rotate(cfg.eras, w.eras).s))
  {
    RotateEffects(cfg, w, o);
    EraRuns.RotateMoves(cfg.eras, w.eras);
    RewardsAfterFit(cfg, w, o, EraRuns.Due(w.eras));
  }

  lemma StepFits(cfg: Config, w: World, op: Op)
    requires EraRuns.Inv(cfg.eras, w.eras) && R.Fits(w.rewards, Active(w))
    ensures R.Fits(Step(cfg, w, op).rewards, Active(Step(cfg, w, op)))
  {
    match op
    case RotateSession(o) => RotateFits(cfg, w, o);
    case EraCall(c) => if !c.RotateSession? { EraRuns.CallStays(cfg.eras, w.eras, c); }
    case NoteAuthor(who) => R.AuthorKeepsFrozen(w.rewards, Active(w), Active(w), who);
    case BlockStart(sent) => R.BlockFits(w.rewards, Active(w), sent);
    case ManualRetry(era, sent) => R.RetryFits(w.rewards, Active(w), era, sent);
  }

  lemma {:induction false} RunFits(cfg: Config, w: World, ops: seq<Op>)
    requires EraRuns.Inv(cfg.eras, w.eras) && R.Fits(w.rewards, Active(w))
    ensures var r := Run(cfg, w, ops); EraRuns.Inv(cfg.eras, r.eras) && R.Fits(r.rewards, Active(r))
    decreases |ops|
  {
    if ops != [] {
      EraRuns.FollowInv(cfg.eras, w.eras, EraOp(ops[0]));
      StepFits(cfg, w, ops[0]);
      RunFits(cfg, Step(cfg, w, ops[0]), ops[1..]);
    }
  }

  // ---- What a run guarantees ----

  function Reached(cfg: Config, whitelist: seq<Account>, external: seq<Account>, skip: bool, ops: seq<Op>): (w: World) {
    Run(cfg, Boot(cfg, whitelist, external, skip), ops)
  }

  lemma ReachedFits(cfg: Config, whitelist: seq<Account>, external: seq<Account>, skip: bool, ops: seq<Op>)
    requires Distinct(whitelist) && cfg.eras.historyDepth >= 1
    ensures
      var w := Reached(cfg, whitelist, external, skip, ops);
      EraRuns.Inv(cfg.eras, w.eras) && R.Fits(w.rewards, Active(w))
  {
    var w := Boot(cfg, whitelist, external, skip);
    EraRuns.BootInv(cfg.eras, whitelist, external, skip);
    R.GenesisFits(Active(w));
    RunFits(cfg, w, ops);
  }

  /** The era machine runs by itself: the rewards calls in between do not concern it. */
  function EraOps(ops: seq<Op>): (r: seq<E.Op>) {
    if ops == [] then []
    else
      var first, rest := EraOp(ops[0]), EraOps(ops[1..]);
      if first.Some? then [first.value] + rest else rest
  }

  lemma {:induction false} RunEras(cfg: Config, w: World, ops: seq<Op>)
    ensures Run(cfg, w, ops).eras == E.Run(cfg.eras, w.eras, EraOps(ops))
    decreases |ops|
  {
    if ops != [] {
      RunEras(cfg, Step(cfg, w, ops[0]), ops[1..]);
    }
  }

  /** The session pool in every run: the validators of a session are distinct, so whatever
      rotation comes next awards at most the pool of the blocks authored since the last. */
  lemma RotationPool(cfg: Config, whitelist: seq<Account>, external: seq<Account>, skip: bool, ops: seq<Op>)
    requires Distinct(whitelist) && cfg.eras.historyDepth >= 1
    requires cfg.formula.blockWeight + cfg.formula.livenessWeight <= P.BILLION
    ensures
      var w := Reached(cfg, whitelist, external, skip, ops);
      P.PoolBounded(cfg.formula, w.rewards.authored, w.eras.running, w.eras.s.whitelistActive)
  {
    var w := Reached(cfg, whitelist, external, skip, ops);
    RunEras(cfg, Boot(cfg, whitelist, external, skip), ops);
    EraRuns.RunningSet(cfg.eras, whitelist, external, skip, EraOps(ops));
    P.PoolBoundHolds(cfg.formula, w.rewards.authored, w.eras.running, w.eras.s.whitelistActive);
  }

  /** Retry stability: in every reachable state each queued era rebuilds exactly the message
      whose first attempt failed at its end, so the next block call finds it unexpired and a
      manual retry never finds its points pruned; and no era was ever sent two different
      messages, however often it was retried. */
  lemma RetryStability(cfg: Config, whitelist: seq<Account>, external: seq<Account>, skip: bool, ops: seq<Op>,
                       era: nat, sent: bool)
    requires Distinct(whitelist) && cfg.eras.historyDepth >= 1
    ensures
      var r := Reached(cfg, whitelist, external, skip, ops).rewards;
      && (forall i :: 0 <= i < |r.queue| ==>
            R.Rebuild(r, r.queue[i]).Some? && R.Attempt(R.Rebuild(r, r.queue[i]).value, false, false) in r.log)
      && R.RetryUnsent(r, era, sent).1 != R.RewardPointsPruned
      && R.OneMessagePerEra(r.log)
  {
    var w := Reached(cfg, whitelist, external, skip, ops);
    ReachedFits(cfg, whitelist, external, skip, ops);
    R.RetryKeepsFrozen(w.rewards, Active(w), era, sent);
    assert forall i :: 0 <= i < |w.rewards.queue| ==> R.Rebuilds(w.rewards, w.rewards.queue[i]);
  }

  /** The reward ledger balances at every point of every run. */
  lemma RewardLedger(cfg: Config, whitelist: seq<Account>, external: seq<Account>, skip: bool, ops: seq<Op>)
    requires Distinct(whitelist) && cfg.eras.historyDepth >= 1
    ensures R.Balanced(Reached(cfg, whitelist, external, skip, ops).rewards)
  {
    ReachedFits(cfg, whitelist, external, skip, ops);
    R.NetIsLedger(Reached(cfg, whitelist, external, skip, ops).rewards.log);
  }

  // ---- Bounded retry ----

  function AwardCall(cfg: Config, w: World): (c: R.Call) {
    R.EndSession(cfg.formula, Active(w), w.eras.running, w.eras.s.whitelistActive)
  }

  function EndCall(w: World, o: Outside): (c: R.Call) {
    R.EraEnds(Active(w), StartSeconds(w.eras.s), o.mint, o.sent)
  }

  function StartCall(cfg: Config, w: World): (c: R.Call) {
    R.EraStarts(cfg.historyDepth, Active(w) + 1)
  }

  /** The pallet calls that one operation makes. */
  ghost function CallsOf(cfg: Config, w: World, op: Op): (calls: seq<R.Call>) {
    match op
    case RotateSession(o) =>
      [AwardCall(cfg, w)] + (if EraRuns.Due(w.eras) then [EndCall(w, o)] + [StartCall(cfg, w)] else [])
    case EraCall(_) => []
    case NoteAuthor(who) => [R.Author(Active(w), who)]
    case BlockStart(sent) => [R.BlockStart(sent)]
    case ManualRetry(era, sent) => [R.ManualRetry(era, sent)]
  }

  lemma HooksAreCalls(s: R.State, ends: R.Call, starts: R.Call, e: RetryQueue.Entry<R.Pending>)
    requires ends.EraEnds? && ends.era != e.era && starts.EraStarts?
    ensures
      var calls := [ends] + [starts];
      && R.ApplyAll(s, calls) == R.Apply(R.Apply(s, ends), starts)
      && R.BlockStarts(calls) == 0 && R.NeverQueued(s, calls, e)
  {
    R.OneCall(s, ends);
    R.OneCall(R.Apply(s, ends), starts);
    R.CallsAppend(s, [ends], [starts]);
    R.OtherEraQueued(s, ends, e);
    R.OtherEraQueued(R.Apply(s, ends), starts, e);
    R.NeverQueuedAppend(s, [ends], [starts], e);
  }

  lemma RotationIsCalls(cfg: Config, w: World, o: Outside, hooks: seq<R.Call>, due: bool,
                        e: RetryQueue.Entry<R.Pending>)
    requires e.era < Active(w) && hooks == if due then [EndCall(w, o)] + [StartCall(cfg, w)] else []
    ensures
      var calls := [AwardCall(cfg, w)] + hooks;
      && R.ApplyAll(w.rewards, calls) == RewardsAfter(cfg, w, o, due)
      && R.BlockStarts(calls) == 0 && R.NeverQueued(w.rewards, calls, e)
  {
    var award := AwardCall(cfg, w);
    var awarded := R.Apply(w.rewards, award);
    R.OneCall(w.rewards, award);
    R.OtherEraQueued(w.rewards, award, e);
    if due {
      HooksAreCalls(awarded, EndCall(w, o), StartCall(cfg, w), e);
    }
    R.CallsAppend(w.rewards, [award], hooks);
    R.NeverQueuedAppend(w.rewards, [award], hooks, e);
  }

  /** The calls do what the operation does, and none queues an entry of an earlier era. */
  lemma StepIsCalls(cfg: Config, w: World, op: Op, e: RetryQueue.Entry<R.Pending>)
    requires E.Timing(cfg.eras, w.eras) && e.era < Active(w)
    ensures
      var calls := CallsOf(cfg, w, op);
      && Step(cfg, w, op).rewards == R.ApplyAll(w.rewards, calls)
      && R.BlockStarts(calls) == (if op.BlockStart? then 1 else 0) && R.NeverQueued(w.rewards, calls, e)
  {
    match op
    case RotateSession(o) =>
      var due := EraRuns.Due(w.eras);
      RotateEffects(cfg, w, o);
      RotationIsCalls(cfg, w, o, if due then [EndCall(w, o)] + [StartCall(cfg, w)] else [], due, e);
    case EraCall(_) =>
    case _ =>
      var c := CallsOf(cfg, w, op)[0];
      R.OneCall(w.rewards, c);
      R.OtherEraQueued(w.rewards, c, e);
  }

  ghost function CallsOfRun(cfg: Config, w: World, ops: seq<Op>): (calls: seq<R.Call>)
    decreases |ops|
  {
    if ops == [] then [] else CallsOf(cfg, w, ops[0]) + CallsOfRun(cfg, Step(cfg, w, ops[0]), ops[1..])
  }

  function Blocks(ops: seq<Op>): (n: nat) {
    if ops == [] then 0 else (if ops[0].BlockStart? then 1 else 0) + Blocks(ops[1..])
  }

  lemma ActiveOnlyRises(cfg: Config, w: World, op: Op)
    requires EraRuns.Inv(cfg.eras, w.eras)
    ensures Active(w) <= Active(Step(cfg, w, op))
  {
    if op.RotateSession? {
      EraRuns.RotateMoves(cfg.eras, w.eras);
    } else if op.EraCall? && !op.op.RotateSession? {
      EraRuns.CallStays(cfg.eras, w.eras, op.op);
    }
  }

  lemma {:induction false} RunIsCalls(cfg: Config, w: World, ops: seq<Op>, e: RetryQueue.Entry<R.Pending>)
    requires EraRuns.Inv(cfg.eras, w.eras) && e.era < Active(w)
    ensures
      var calls := CallsOfRun(cfg, w, ops);
      && Run(cfg, w, ops).rewards == R.ApplyAll(w.rewards, calls)
      && R.BlockStarts(calls) == Blocks(ops) && R.NeverQueued(w.rewards, calls, e)
    decreases |ops|
  {
    if ops != [] {
      var first, next := CallsOf(cfg, w, ops[0]), Step(cfg, w, ops[0]);
      var rest := CallsOfRun(cfg, next, ops[1..]);
      EraRuns.FollowInv(cfg.eras, w.eras, EraOp(ops[0]));
      ActiveOnlyRises(cfg, w, ops[0]);
      RunIsCalls(cfg, next, ops[1..], e);
      StepIsCalls(cfg, w, ops[0], e);
      R.CallsAppend(w.rewards, first, rest);
      R.NeverQueuedAppend(w.rewards, first, rest, e);
    }
  }

  /** Bounded retry in every reachable state: each queued era is attempted, or has left the
      queue, within as many blocks as it has entries up to it. */
  lemma RetryFairness(cfg: Config, whitelist: seq<Account>, external: seq<Account>, skip: bool, ops: seq<Op>,
                      more: seq<Op>, i: nat)
    requires Distinct(whitelist) && cfg.eras.historyDepth >= 1
    requires i < |Reached(cfg, whitelist, external, skip, ops).rewards.queue| && Blocks(more) >= i + 1
    ensures
      var w := Reached(cfg, whitelist, external, skip, ops);
      var e := w.rewards.queue[i];
      R.Tried(w.rewards, CallsOfRun(cfg, w, more), e) || e !in Run(cfg, w, more).rewards.queue
  {
    var w := Reached(cfg, whitelist, external, skip, ops);
    var q := w.rewards.queue;
    ReachedFits(cfg, whitelist, external, skip, ops);
    RunIsCalls(cfg, w, more, q[i]);
    R.RetriedWithinDistance(w.rewards, CallsOfRun(cfg, w, more), i, q[i]);
  }
}
