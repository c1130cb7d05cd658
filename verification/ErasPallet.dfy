/**
 The external-validators pallet with its storage updated in place, under the session driver
 that calls it. Every method is proved against the state machine of Eras, and every call from
 outside keeps what its runs guarantee. The hooks called are recorded in `hooks`.
 */
module ErasPallet {
  import opened Common
  import opened Eras
  import EraRuns

  /** Keeps the first instance of each element, in order. */
  method RemoveDuplicates(input: seq<Account>) returns (result: seq<Account>)
    ensures result == Dedup(input)
  {
    var seen: set<Account> := {};
    result := [];
    for i := 0 to |input|
      invariant seen == set x | x in input[..i]
      invariant result == FirstsOf(input, i)
    {
      assert input[..i + 1] == input[..i] + [input[i]];
      if input[i] !in seen {
        seen := seen + {input[i]};
        result := result + [input[i]];
      }
    }
  }

  class ErasPallet {
    const cfg: Config
    var whitelist: seq<Account>
    var whitelistActive: seq<Account>
    var whitelistPending: seq<Account>
    var external: seq<Account>
    var skipExternal: bool
    var current: Option<nat>
    var active: Option<ActiveEra>
    var starts: map<nat, nat>
    var force: Forcing
    var externalIndex: nat
    var pendingIndex: nat
    var currentIndex: nat
    var session: nat
    var running: seq<Account>
    var queued: seq<Account>
    ghost var hooks: seq<Hook>
    ghost var plans: seq<Plan>
    ghost var accepted: seq<nat>

    ghost function Model(): (s: State)
      reads this
    {
      State(whitelist, whitelistActive, whitelistPending, external, skipExternal, current, active, starts, force,
            externalIndex, pendingIndex, currentIndex, hooks, plans, accepted)
    }

    /** The pallet with its driver. */
    ghost function Driven(): (c: Chain)
      reads this
    {
      Chain(Model(), session, running, queued)
    }

    ghost predicate Valid()
      reads this
    {
      EraRuns.Inv(cfg, Driven()) && SetsFit(Driven())
    }

    /** Genesis: sessions 0 and 1 are planned and session 0 starts. */
    constructor (cfg: Config, whitelist: seq<Account>, external: seq<Account>, skip: bool)
      requires Distinct(whitelist) && cfg.historyDepth >= 1
      ensures this.cfg == cfg && Valid() && Driven() == Boot(cfg, whitelist, external, skip)
    {
      this.cfg := cfg;
      this.whitelist, this.whitelistActive, this.whitelistPending := whitelist, whitelist, whitelist;
      this.external, this.skipExternal := external, skip;
      current, active, starts, force := None, None, map[], NotForcing;
      externalIndex, pendingIndex, currentIndex := 0, 0, 0;
      session, running, queued := 0, [], [];
      hooks, plans, accepted := [], [], [];
      new;
      StartGenesis();
      EraRuns.BootInv(cfg, whitelist, external, skip);
      EraRuns.BootSets(cfg, whitelist, external, skip);
    }

    method PlanGenesis()
      requires session == 0
      modifies this`running, this`queued
      modifies this`whitelistPending, this`current, this`starts, this`force, this`pendingIndex, this`plans
      ensures Driven() == PlanFirst(cfg, old(Model()))
    {
      var first := PlanSession(0);
      running := if first.Some? then first.value else [];
      queued := running;
    }

    method StartGenesis()
      requires session == 0
      modifies this
      ensures
        var planned := PlanNext(cfg, PlanFirst(cfg, old(Model())));
        Driven() == planned.(s := StartSession(planned.s, 0))
    {
      PlanGenesis();
      PlanFollowing();
      BeginSession(0);
    }

    /** Whitelisted validators first, then external ones, without duplicates. */
    method CurrentValidators() returns (validators: seq<Account>)
      ensures validators == Validators(Model())
    {
      validators := whitelist;
      if !skipExternal {
        validators := validators + external;
      }
      assert validators == whitelist + EffectiveExternal(Model());
      validators := RemoveDuplicates(validators);
    }

    /** Bumps the current era and stores its start; clears the one that leaves the history. */
    method BumpEra(start: nat)
      modifies this`current, this`starts
      ensures current == Some(NextPlanned(old(Model())))
      ensures starts == TriggerNewEra(cfg, old(Model()), start).starts
    {
      var era := if current.None? then 0 else current.value + 1;
      current := Some(era);
      starts := starts[era := start];
      if era >= cfg.historyDepth + 1 {
        starts := starts - {era - (cfg.historyDepth + 1)};
      }
    }

    method PlanEra(start: nat) returns (validators: seq<Account>)
      modifies this`whitelistPending, this`current, this`starts, this`pendingIndex, this`plans
      ensures Model() == TriggerNewEra(cfg, old(Model()), start)
      ensures validators == Validators(old(Model()))
    {
      BumpEra(start);
      whitelistPending := whitelist;
      pendingIndex := externalIndex;
      plans := plans + [Plan(start, whitelist, if skipExternal then [] else external, externalIndex)];
      validators := CurrentValidators();
    }

    method PlanSession(start: nat) returns (validators: Option<seq<Account>>)
      modifies this`whitelistPending, this`current, this`starts, this`force, this`pendingIndex, this`plans
      ensures (Model(), validators) == NewSession(cfg, old(Model()), start)
    {
      if current.Some? {
        var since := if current.value in starts then starts[current.value] else 0;
        var length := if start >= since then start - since else 0;
        if force == ForceNone || (force == NotForcing && length < cfg.sessionsPerEra) {
          return None;
        }
        var planned := PlanEra(start);
        if force == ForceNew {
          force := NotForcing;
        }
        return Some(planned);
      }
      var planned := PlanEra(start);
      return Some(planned);
    }

    method ActivateEra(start: nat)
      modifies this`active, this`whitelistActive, this`whitelistPending
      modifies this`currentIndex, this`pendingIndex, this`hooks
      ensures active == Some(ActiveEra(NextActive(old(Model())), None))
      ensures whitelistActive == old(whitelistPending) && whitelistPending == []
      ensures currentIndex == old(pendingIndex) && pendingIndex == 0
      ensures hooks == old(hooks) + [Hook.Start(NextActive(old(Model())), start, currentIndex)]
    {
      var era := if active.None? then 0 else active.value.index + 1;
      var index := pendingIndex;
      active := Some(ActiveEra(era, None));
      whitelistActive := whitelistPending;
      whitelistPending := [];
      currentIndex := index;
      pendingIndex := 0;
      hooks := hooks + [Hook.Start(era, start, index)];
    }

    method BeginSession(start: nat)
      modifies this`active, this`whitelistActive, this`whitelistPending
      modifies this`currentIndex, this`pendingIndex, this`hooks
      ensures Model() == StartSession(old(Model()), start)
    {
      var next := if active.None? then 0 else active.value.index + 1;
      if next in starts {
        if starts[next] == start {
          ActivateEra(start);
        } else if starts[next] < start {
          ActivateEra(start);
        }
      }
    }

    method CloseSession(ending: nat)
      modifies this`hooks
      ensures Model() == EndSession(old(Model()), ending)
    {
      if active.Some? {
        var next := active.value.index + 1;
        if next in starts && starts[next] == ending + 1 {
          hooks := hooks + [End(active.value.index)];
        }
      }
    }

    method ChangeSession()
      modifies this`session, this`running, this`active, this`whitelistActive, this`whitelistPending
      modifies this`currentIndex, this`pendingIndex, this`hooks
      ensures Driven() == EndStart(old(Driven()))
    {
      CloseSession(session);
      BeginSession(session + 1);
      session, running := session + 1, queued;
    }

    method PlanFollowing()
      modifies this`queued, this`whitelistPending, this`current, this`starts, this`force, this`pendingIndex, this`plans
      ensures Driven() == PlanNext(cfg, old(Driven()))
    {
      var planned := PlanSession(session + 1);
      if planned.Some? {
        queued := planned.value;
      }
    }

    /** A rotation: the session ends, the next one starts with the queued set, and the one
        after it is planned. The hooks tell of an era change exactly when one is due, and the
        validators that run are those planned for the active era. */
    method RotateSession()
      requires Valid()
      modifies this
      ensures Valid() && Driven() == Rotate(cfg, old(Driven()))
      ensures EraRuns.Moved(old(Driven()), Driven())
    {
      ghost var before := Driven();
      ChangeSession();
      PlanFollowing();
      KeptBy(before, Op.RotateSession);
      EraRuns.RotationMoved(cfg, before);
    }

    /** A set is accepted exactly when it is for the era after the active one and none was
        accepted in the active era yet. */
    method SetExternalValidatorsInner(validators: seq<Account>, target: nat) returns (r: SetResult)
      requires Valid()
      modifies this`external, this`externalIndex, this`accepted
      ensures Valid() && Driven() == Step(cfg, old(Driven()), SetExternalValidators(validators, target))
      ensures r == ValidateTargetEra(old(Model()), target)
      ensures r == Ok <==> target == ActiveIndex(Model()) + 1 && ActiveIndex(Model()) !in old(accepted)
    {
      ghost var before := Driven();
      EraRuns.AcceptedIff(cfg, Model(), target);
      r := Ok;
      var a := if active.None? then 0 else active.value.index;
      if target <= a {
        r := TargetEraTooOld;
      } else if target > a + 1 {
        r := TargetEraTooNew;
      } else if target <= externalIndex {
        r := DuplicateOrStaleTargetEra;
      } else {
        external := Truncated(validators, cfg.maxExternal);
        externalIndex := target;
        accepted := accepted + [a];
      }
      KeptBy(before, SetExternalValidators(validators, target));
    }

    /** What the runs guarantee is kept by every call. */
    lemma KeptBy(before: Chain, op: Op)
      requires EraRuns.Inv(cfg, before) && SetsFit(before) && Driven() == Step(cfg, before, op)
      ensures Valid()
    {
      EraRuns.StepInv(cfg, before, op);
      EraRuns.StepSets(cfg, before, op);
    }

    method SetForceEra(mode: Forcing)
      requires Valid()
      modifies this`force
      ensures Valid() && Driven() == Step(cfg, old(Driven()), ForceEra(mode))
    {
      ghost var before := Driven();
      force := mode;
      KeptBy(before, ForceEra(mode));
    }

    method AddToWhitelist(who: Account, registered: bool) returns (r: ListResult)
      requires Valid()
      modifies this`whitelist
      ensures Valid() && r == AddWhitelisted(cfg, old(Model()), who, registered).1
      ensures Driven() == Step(cfg, old(Driven()), Whitelist(who, registered))
    {
      ghost var before := Driven();
      r := Done;
      if !registered {
        r := NoKeysRegistered;
      } else if who in whitelist {
        r := AlreadyWhitelisted;
      } else if |whitelist| >= cfg.maxWhitelisted {
        r := TooManyWhitelisted;
      } else {
        whitelist := whitelist + [who];
      }
      KeptBy(before, Whitelist(who, registered));
    }

    method RemoveFromWhitelist(who: Account) returns (r: ListResult)
      requires Valid()
      modifies this`whitelist
      ensures Valid() && r == RemoveWhitelisted(old(Model()), who).1
      ensures Driven() == Step(cfg, old(Driven()), Unwhitelist(who))
    {
      ghost var before := Driven();
      r := NotWhitelisted;
      if who in whitelist {
        var i := IndexOf(whitelist, who);
        whitelist := whitelist[..i] + whitelist[i + 1..];
        r := Done;
      }
      KeptBy(before, Unwhitelist(who));
    }

    method OnFinalize(now: nat)
      requires Valid()
      modifies this`active
      ensures Valid() && Driven() == Step(cfg, old(Driven()), FinalizeBlock(now))
    {
      ghost var before := Driven();
      if active.Some? && active.value.start.None? {
        active := Some(active.value.(start := Some(now)));
      }
      KeptBy(before, FinalizeBlock(now));
    }
  }
}
